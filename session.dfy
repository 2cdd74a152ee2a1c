/**
 * Who is signed in to the dashboard (app.js, "PIN HANDLING"): the PIN table,
 * the four-digit entry buffer and the session id the conversation service is given.
 */
module Session {
  import opened Wrappers

  /** A signed-in user: a PIN table entry plus the PIN it was unlocked with. */
  datatype User = User(name: string, fullName: string, client: string, clientName: string, mode: string,
                       pin: string, email: Option<string>)

  const PinLength: nat := 4

  /** The PIN table: two staff PINs, both seeing every client. */
  function PinUser(pin: string): (u: Option<User>)
    ensures u.Some? <==> pin == "9871" || pin == "1919"
    ensures u.Some? ==> u.value.pin == pin && u.value.client == "ALL" && u.value.mode == "hunch" && u.value.email.None?
  {
    if pin == "9871" then Some(User("Michael", "Michael Goldthorpe", "ALL", "Hunch", "hunch", pin, None))
    else if pin == "1919" then Some(User("Team", "Hunch Team", "ALL", "Hunch", "hunch", pin, None))
    else None
  }

  /** A PIN unlocks only when it has exactly four digits. */
  lemma {:induction false} PinUserFourDigits(pin: string)
    requires PinUser(pin).Some?
    ensures |pin| == PinLength
  {
  }

  /** enterPin's effect on the buffer: a digit is appended until four are held, then ignored. */
  function PinAfterDigit(buffer: string, digit: char): (r: string)
    ensures |buffer| >= PinLength ==> r == buffer
    ensures |buffer| < PinLength ==> |r| == |buffer| + 1 && r[..|buffer|] == buffer && r[|buffer|] == digit
  {
    if |buffer| >= PinLength then buffer else buffer + [digit]
  }

  /** deletePin's effect: the last digit goes (`slice(0, -1)`, so an empty buffer stays empty). */
  function PinAfterDelete(buffer: string): (r: string)
    ensures buffer == [] ==> r == []
    ensures buffer != [] ==> |r| == |buffer| - 1 && buffer == r + [buffer[|buffer| - 1]]
  {
    if buffer == [] then [] else buffer[..|buffer| - 1]
  }

  /** A delete takes back the digit just typed, while the buffer had room for it. */
  lemma {:induction false} DeleteUndoesDigit(buffer: string, digit: char)
    requires |buffer| < PinLength
    ensures PinAfterDelete(PinAfterDigit(buffer, digit)) == buffer
  {
  }

  /** The buffer after a run of key presses. */
  function TypeDigits(buffer: string, digits: seq<char>): string
    decreases digits
  {
    if digits == [] then buffer else TypeDigits(PinAfterDigit(buffer, digits[0]), digits[1..])
  }

  /** However many keys are pressed on an empty pad, the buffer holds the first four of them. */
  lemma {:induction false} TypedPinIsFirstFour(buffer: string, digits: seq<char>)
    requires |buffer| <= PinLength
    ensures var n := if |buffer| + |digits| <= PinLength then |digits| else PinLength - |buffer|;
      TypeDigits(buffer, digits) == buffer + digits[..n]
    decreases digits
  {
    if digits != [] {
      var next := PinAfterDigit(buffer, digits[0]);
      TypedPinIsFirstFour(next, digits[1..]);
      if |buffer| == PinLength {
        assert TypeDigits(next, digits[1..]) == buffer + digits[1..][..0];
      } else {
        var n := if |buffer| + |digits| <= PinLength then |digits| else PinLength - |buffer|;
        assert next == buffer + [digits[0]];
        assert digits[..n] == [digits[0]] + digits[1..][..n - 1];
      }
    }
  }

  /** The conversation session is keyed by the user's name, or "anonymous" when nobody (or a nameless user) is signed in. */
  function SessionId(user: Option<User>): (id: string)
    ensures user.Some? && user.value.name != "" ==> id == user.value.name
    ensures user.None? || user.value.name == "" ==> id == "anonymous"
    ensures id != ""
  {
    if user.Some? && user.value.name != "" then user.value.name else "anonymous"
  }
}
