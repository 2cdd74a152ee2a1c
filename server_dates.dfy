/**
 * The server's date and job-number helpers (app.py, "DATE PARSING HELPERS";
 * hub_app.py carries identical copies): parse_airtable_date,
 * format_date_friendly, parse_status_changed and extract_client_code.
 * Regular expressions are written out as the backtracking matcher runs them,
 * on ASCII digits.
 */
module ServerDates {
  import opened Wrappers
  import opened Text

  datatype Date = Date(year: nat, month: nat, day: nat)

  predicate IsLeap(y: nat) { y % 4 == 0 && (y % 100 != 0 || y % 400 == 0) }

  function DaysInMonth(y: nat, m: nat): (n: nat)
    requires 1 <= m <= 12
    ensures 28 <= n <= 31
  {
    if m == 2 then (if IsLeap(y) then 29 else 28)
    else if m == 4 || m == 6 || m == 9 || m == 11 then 30
    else 31
  }

  /** What Python's `datetime(year, month, day)` accepts. */
  predicate ValidDate(d: Date)
  {
    1 <= d.year <= 9999 && 1 <= d.month <= 12 && 1 <= d.day <= DaysInMonth(d.year, d.month)
  }

  /** `n` in decimal, zero-padded to `width` (`%0Nd`). */
  function Pad(n: nat, width: nat): (r: string)
    ensures AllDigits(r) && |r| >= width && DigitsValue(r) == n
  {
    NatToDigitsValue(n);
    ZeroPadValue(NatToDigits(n), width);
    ZeroPad(NatToDigits(n), width)
  }

  lemma {:induction false} NatToDigitsLength(n: nat, k: nat)
    requires k >= 1 && n < Pow10(k)
    ensures |NatToDigits(n)| <= k
  {
    if n >= 10 {
      assert n / 10 < Pow10(k - 1);
      NatToDigitsLength(n / 10, k - 1);
    }
  }

  /** Numbers below 10 to the `width` pad to exactly `width` digits. */
  lemma {:induction false} PadLength(n: nat, width: nat)
    requires width >= 1 && n < Pow10(width)
    ensures |Pad(n, width)| == width
  {
    NatToDigitsLength(n, width);
  }

  /** The two characters `%02d` writes for a number below 100. */
  lemma {:induction false} Pad2Chars(n: nat)
    requires n < 100
    ensures Pad(n, 2) == [DigitChar(n / 10), DigitChar(n % 10)]
  {
    if n < 10 {
      assert NatToDigits(n) == [DigitChar(n)];
      assert ZeroPad([DigitChar(n)], 2) == ZeroPad("0" + [DigitChar(n)], 2);
    } else {
      assert NatToDigits(n) == NatToDigits(n / 10) + [DigitChar(n % 10)];
    }
  }

  /** `strftime('%Y-%m-%d')` of a date. */
  function IsoString(d: Date): string
  {
    Pad(d.year, 4) + "-" + Pad(d.month, 2) + "-" + Pad(d.day, 2)
  }

  /** A string beginning with the pattern `\d{4}-\d{2}-\d{2}`. */
  predicate IsoPrefix(s: string)
  {
    |s| >= 10 && AllDigits(s[..4]) && s[4] == '-' && AllDigits(s[5..7]) && s[7] == '-' && AllDigits(s[8..10])
  }

  // ----- the pattern (\d{1,2})/(\d{1,2})/(\d{4}) -----

  /** `(\d{1,2})/` at `p`: the length of the digit group, the longer tried first. */
  function DigitsThenSlash(s: string, p: nat): (len: Option<nat>)
    ensures len.Some? ==>
      (len.value == 1 || len.value == 2) && p + len.value < |s|
      && AllDigits(s[p..p + len.value]) && s[p + len.value] == '/'
  {
    if p + 2 < |s| && IsDigit(s[p]) && IsDigit(s[p + 1]) && s[p + 2] == '/' then Some(2)
    else if p + 1 < |s| && IsDigit(s[p]) && s[p + 1] == '/' then Some(1)
    else None
  }

  /** The whole pattern matched at `p`, read as day, month and year. */
  function DmyAt(s: string, p: nat): Option<Date>
  {
    match DigitsThenSlash(s, p)
    case None => None
    case Some(a) =>
      var q := p + a + 1;
      match DigitsThenSlash(s, q)
      case None => None
      case Some(b) =>
        var r := q + b + 1;
        if r + 4 <= |s| && AllDigits(s[r..r + 4]) then
          Some(Date(DigitsValue(s[r..r + 4]), DigitsValue(s[q..q + b]), DigitsValue(s[p..p + a])))
        else None
  }

  /** `re.search`: the leftmost position where the pattern matches. */
  function DmySearch(s: string, p: nat): Option<Date>
    decreases |s| - p
  {
    if p >= |s| then None
    else if DmyAt(s, p).Some? then DmyAt(s, p)
    else DmySearch(s, p + 1)
  }

  /** The D/M/YYYY branch shared by both parsers: a real calendar date, reformatted; otherwise None. */
  function ParseDmy(s: string): (r: Option<string>)
    ensures r.Some? ==> exists d :: ValidDate(d) && r.value == IsoString(d)
  {
    match DmySearch(s, 0)
    case None => None
    case Some(d) => if ValidDate(d) then Some(IsoString(d)) else None
  }

  /** parse_airtable_date, for the string fields the server reads. */
  function ParseAirtableDate(s: string): (r: Option<string>)
    ensures s == "" || ToUpper(s) == "TBC" ==> r.None?
    ensures r.Some? ==> |r.value| == 10 || exists d :: ValidDate(d) && r.value == IsoString(d)
  {
    if s == [] || ToUpper(s) == "TBC" then None
    else
      var t := Strip(s);
      if IsoPrefix(t) then Some(t[..10]) else ParseDmy(t)
  }

  lemma {:induction false} StripRightKeeps(s: string, i: nat)
    requires i < |s| && !IsPySpace(s[i])
    ensures |StripRight(s)| > i
  {
    if IsPySpace(s[|s| - 1]) {
      StripRightKeeps(s[..|s| - 1], i);
    }
  }

  /** Only a three-letter text can read "TBC". */
  lemma {:induction false} NotTbc(s: string)
    requires |s| != 3
    ensures ToUpper(s) != "TBC"
  {
    assert |ToUpper(s)| != 3;
  }

  /** When the parser reaches its branches, they see `t`. */
  lemma {:induction false} ParseBranches(s: string, t: string)
    requires s != "" && ToUpper(s) != "TBC" && Strip(s) == t
    ensures ParseAirtableDate(s) == if IsoPrefix(t) then Some(t[..10]) else ParseDmy(t)
  {
  }

  lemma {:induction false} StripIsoPrefix(s: string)
    requires IsoPrefix(s)
    ensures IsoPrefix(Strip(s)) && Strip(s)[..10] == s[..10]
  {
    assert s[0] == s[..4][0];
    assert StripLeft(s) == s;
    assert s[9] == s[8..10][1];
    StripRightKeeps(s, 9);
    var t := Strip(s);
    assert t == s[..|t|];
    assert t[..10] == s[..10];
    IsoPrefixShared(s, t);
  }

  /** Whether a text begins `YYYY-MM-DD` depends on its first ten characters only. */
  lemma {:induction false} IsoPrefixShared(s: string, t: string)
    requires IsoPrefix(s) && |t| >= 10 && t[..10] == s[..10]
    ensures IsoPrefix(t)
  {
    assert t[..4] == s[..10][..4] == s[..4];
    assert t[5..7] == s[..10][5..7] == s[5..7];
    assert t[8..10] == s[..10][8..10] == s[8..10];
    assert t[4] == s[..10][4] && t[7] == s[..10][7];
  }

  /** Input that begins `YYYY-MM-DD` comes back as exactly those ten characters (a time part is dropped). */
  lemma {:induction false} IsoPrefixKept(s: string)
    requires IsoPrefix(s)
    ensures ParseAirtableDate(s) == Some(s[..10])
  {
    NotTbc(s);
    StripIsoPrefix(s);
    ParseBranches(s, Strip(s));
  }

  /** A D/M/YYYY text: one or two day digits, one or two month digits, four year digits. */
  predicate DmyShape(dd: string, mm: string, yyyy: string)
  {
    AllDigits(dd) && AllDigits(mm) && AllDigits(yyyy)
    && 1 <= |dd| <= 2 && 1 <= |mm| <= 2 && |yyyy| == 4
  }

  function DmyDate(dd: string, mm: string, yyyy: string): Date
    requires DmyShape(dd, mm, yyyy)
  {
    Date(DigitsValue(yyyy), DigitsValue(mm), DigitsValue(dd))
  }

  /** The pattern matches a D/M/YYYY text at its start. */
  lemma {:induction false} DmyAtStart(dd: string, mm: string, yyyy: string, rest: string)
    requires DmyShape(dd, mm, yyyy)
    ensures DmySearch(dd + "/" + mm + "/" + yyyy + rest, 0) == Some(DmyDate(dd, mm, yyyy))
  {
    var s := dd + "/" + mm + "/" + yyyy + rest;
    DmyLayout(dd, mm, yyyy, rest);
    GroupThenSlash(s, 0, dd);
    GroupThenSlash(s, |dd| + 1, mm);
    MatchAtStart(s, dd, mm, yyyy);
  }

  /** Where day, month and year sit in `dd/mm/yyyy` followed by anything. */
  lemma {:induction false} DmyLayout(dd: string, mm: string, yyyy: string, rest: string)
    requires DmyShape(dd, mm, yyyy)
    ensures var s := dd + "/" + mm + "/" + yyyy + rest;
      var a, b := |dd|, |mm|;
      && |s| == a + b + 6 + |rest|
      && s[0..a] == dd && s[a] == '/' && s[a + 1..a + 1 + b] == mm && s[a + 1 + b] == '/'
      && s[a + b + 2..a + b + 6] == yyyy
  {
    var s := dd + "/" + mm + "/" + yyyy + rest;
    var a, b := |dd|, |mm|;
    assert forall i :: 0 <= i < a ==> s[i] == dd[i];
    assert forall i :: 0 <= i < b ==> s[a + 1 + i] == mm[i];
    assert forall i :: 0 <= i < 4 ==> s[a + b + 2 + i] == yyyy[i];
    assert s[0..a] == dd;
    assert s[a + 1..a + 1 + b] == mm;
    assert s[a + b + 2..a + b + 6] == yyyy;
  }

  /** Once both groups and the year are found in place, the search stops at position 0. */
  lemma {:induction false} MatchAtStart(s: string, dd: string, mm: string, yyyy: string)
    requires DmyShape(dd, mm, yyyy)
    requires DigitsThenSlash(s, 0) == Some(|dd|) && DigitsThenSlash(s, |dd| + 1) == Some(|mm|)
    requires var r := |dd| + |mm| + 2; r + 4 <= |s| && s[r..r + 4] == yyyy
    requires s[0..|dd|] == dd && s[|dd| + 1..|dd| + 1 + |mm|] == mm
    ensures DmySearch(s, 0) == Some(DmyDate(dd, mm, yyyy))
  {
  }

  /** `(\d{1,2})/` at `p` reads a one- or two-digit group followed by '/'. */
  lemma {:induction false} GroupThenSlash(s: string, p: nat, g: string)
    requires AllDigits(g) && 1 <= |g| <= 2 && p + |g| < |s| && s[p..p + |g|] == g && s[p + |g|] == '/'
    ensures DigitsThenSlash(s, p) == Some(|g|)
  {
    assert s[p] == g[0];
    if |g| == 2 {
      assert s[p + 1] == g[1];
    }
  }

  /** A '/' among the first four characters rules out the ISO branch. */
  lemma {:induction false} EarlySlashNotIso(s: string, i: nat)
    requires i < 4 && i < |s| && s[i] == '/'
    ensures !IsoPrefix(s)
  {
    if |s| >= 4 {
      assert !IsDigit(s[..4][i]);
    }
  }

  /** A D/M/YYYY text is its own strip and does not look like ISO. */
  lemma {:induction false} DmyTextPlain(dd: string, mm: string, yyyy: string)
    requires DmyShape(dd, mm, yyyy)
    ensures var s := dd + "/" + mm + "/" + yyyy;
      s != "" && ToUpper(s) != "TBC" && Strip(s) == s && !IsoPrefix(s)
  {
    var s := dd + "/" + mm + "/" + yyyy;
    assert s[0] == dd[0] && s[|s| - 1] == yyyy[3];
    assert IsDigit(s[0]) && IsDigit(s[|s| - 1]);
    NotTbc(s);
    StripNoSpace(s);
    EarlySlashNotIso(s, |dd|);
  }

  /** A D/M/YYYY text becomes zero-padded YYYY-MM-DD when it is a calendar date, and None when not (31/2/2026). */
  lemma {:induction false} DmyParsed(dd: string, mm: string, yyyy: string)
    requires DmyShape(dd, mm, yyyy)
    ensures var d := DmyDate(dd, mm, yyyy);
      ParseAirtableDate(dd + "/" + mm + "/" + yyyy) == if ValidDate(d) then Some(IsoString(d)) else None
  {
    var s := dd + "/" + mm + "/" + yyyy;
    DmyTextPlain(dd, mm, yyyy);
    ParseBranches(s, s);
    DmyAtStart(dd, mm, yyyy, "");
    assert s + "" == s;
  }

  lemma {:induction false} DigitValues()
    ensures DigitsValue("31") == 31 && DigitsValue("2") == 2 && DigitsValue("2026") == 2026
  {
    assert "31"[..1] == "3";
    assert "2026"[..3] == "202" && "202"[..2] == "20" && "20"[..1] == "2";
  }

  /** The impossible date of the worked example is rejected. */
  lemma {:induction false} ThirtyFirstOfFebruaryRejected(s: string)
    requires s == "31/2/2026"
    ensures ParseAirtableDate(s) == None
  {
    ExampleDate();
    assert s == "31" + "/" + "2" + "/" + "2026";
    DmyParsed("31", "2", "2026");
  }

  /** "31", "2" and "2026" have the D/M/YYYY shape and name 31 February 2026, which is no date. */
  lemma {:induction false} ExampleDate()
    ensures DmyShape("31", "2", "2026") && !ValidDate(DmyDate("31", "2", "2026"))
  {
    DigitValues();
    assert DmyShape("31", "2", "2026");
    assert DmyDate("31", "2", "2026") == Date(2026, 2, 31);
    assert DaysInMonth(2026, 2) == 28;
  }

  /** parse_status_changed: an ISO timestamp's date part (before the first 'T'), else the D/M/YYYY branch. */
  function ParseStatusChanged(s: string): (r: Option<string>)
    ensures s == "" ==> r.None?
  {
    if s == [] then None
    else if 'T' in s then Some(Split(s, 'T')[0])
    else ParseDmy(s)
  }

  /** With a 'T' in it, the result is the text before the first 'T'. */
  lemma {:induction false} StatusChangedDatePart(s: string)
    requires 'T' in s
    ensures var r := ParseStatusChanged(s);
      r.Some? && 'T' !in r.value && |r.value| < |s| && s[..|r.value|] == r.value && s[|r.value|] == 'T'
  {
    SplitFirst(s, 'T');
  }

  /** Without a 'T', a D/M/YYYY text parses exactly as parse_airtable_date parses it. */
  lemma {:induction false} StatusChangedDmy(dd: string, mm: string, yyyy: string)
    requires DmyShape(dd, mm, yyyy)
    ensures var d := DmyDate(dd, mm, yyyy);
      ParseStatusChanged(dd + "/" + mm + "/" + yyyy) == if ValidDate(d) then Some(IsoString(d)) else None
  {
    var s := dd + "/" + mm + "/" + yyyy;
    assert forall i :: 0 <= i < |s| ==> s[i] == '/' || IsDigit(s[i]);
    assert 'T' !in s;
    DmyAtStart(dd, mm, yyyy, "");
    assert s + "" == s;
  }

  /** extract_client_code: the text before the first space, the whole text without one, None for empty input. */
  function ExtractClientCode(jobNumber: string): (r: Option<string>)
    ensures jobNumber == "" <==> r.None?
    ensures r.Some? ==>
      ' ' !in r.value && |r.value| <= |jobNumber| && jobNumber[..|r.value|] == r.value
      && (|r.value| == |jobNumber| || jobNumber[|r.value|] == ' ')
  {
    if jobNumber == [] then None
    else
      SplitFirst(jobNumber, ' ');
      Some(Split(jobNumber, ' ')[0])
  }

  /** "SKY 017" belongs to SKY. */
  lemma {:induction false} ClientCodeOfJobNumber(code: string, number: string)
    requires code != "" && ' ' !in code
    ensures ExtractClientCode(code + " " + number) == Some(code)
  {
    SplitPrefix(code, number, ' ');
  }

  // ----- format_date_friendly: strptime('%Y-%m-%d') then strftime('%d %b') -----

  /** strptime's month alternatives `1[0-2]|0[1-9]|[1-9]` at `p`, each tried with the '-' after it. */
  function MonthThenDash(s: string, p: nat): (m: Option<(nat, nat)>)
    ensures m.Some? ==> 1 <= m.value.0 <= 12 && (m.value.1 == 1 || m.value.1 == 2) && p + m.value.1 < |s|
  {
    if p + 2 < |s| && s[p] == '1' && '0' <= s[p + 1] <= '2' && s[p + 2] == '-' then Some((10 + DigitValue(s[p + 1]), 2))
    else if p + 2 < |s| && s[p] == '0' && '1' <= s[p + 1] <= '9' && s[p + 2] == '-' then Some((DigitValue(s[p + 1]), 2))
    else if p + 1 < |s| && '1' <= s[p] <= '9' && s[p + 1] == '-' then Some((DigitValue(s[p]), 1))
    else None
  }

  /**
   * strptime's day alternatives `3[01]|[12]\d|0[1-9]|[1-9]| [1-9]`: the first that matches
   * is taken, and it must reach the end of the text ("unconverted data remains" otherwise).
   */
  function DayField(r: string): (d: Option<nat>)
    ensures d.Some? ==> 1 <= d.value <= 31
  {
    if |r| >= 2 && r[0] == '3' && (r[1] == '0' || r[1] == '1') then
      (if |r| == 2 then Some(30 + DigitValue(r[1])) else None)
    else if |r| >= 2 && (r[0] == '1' || r[0] == '2') && IsDigit(r[1]) then
      (if |r| == 2 then Some(DigitValue(r[0]) * 10 + DigitValue(r[1])) else None)
    else if |r| >= 2 && r[0] == '0' && '1' <= r[1] <= '9' then
      (if |r| == 2 then Some(DigitValue(r[1])) else None)
    else if |r| >= 1 && '1' <= r[0] <= '9' then
      (if |r| == 1 then Some(DigitValue(r[0])) else None)
    else if |r| >= 2 && r[0] == ' ' && '1' <= r[1] <= '9' then
      (if |r| == 2 then Some(DigitValue(r[1])) else None)
    else None
  }

  /** strptime(s, '%Y-%m-%d') up to the calendar check. */
  function StrptimeYmd(s: string): Option<Date>
  {
    if |s| >= 5 && AllDigits(s[..4]) && s[4] == '-' then
      match MonthThenDash(s, 5)
      case None => None
      case Some(m) =>
        match DayField(s[5 + m.1 + 1..])
        case None => None
        case Some(d) => Some(Date(DigitsValue(s[..4]), m.0, d))
    else None
  }

  const MonthAbbreviations: seq<string> := ["Jan", "Feb", "Mar", "Apr", "May", "Jun",
                                            "Jul", "Aug", "Sep", "Oct", "Nov", "Dec"]

  /** format_date_friendly: "DD Mon" for a parseable date, the input itself otherwise, None for empty input. */
  function FormatDateFriendly(iso: string): (r: Option<string>)
    ensures iso == "" <==> r.None?
  {
    if iso == [] then None
    else match StrptimeYmd(iso)
      case Some(d) => if ValidDate(d) then Some(Pad(d.day, 2) + " " + MonthAbbreviations[d.month - 1]) else Some(iso)
      case None => Some(iso)
  }

  /** Text strptime cannot read comes back unchanged. */
  lemma {:induction false} FriendlyKeepsUnparsed(iso: string)
    requires iso != "" && (StrptimeYmd(iso).None? || !ValidDate(StrptimeYmd(iso).value))
    ensures FormatDateFriendly(iso) == Some(iso)
  {
  }

  lemma {:induction false} DayFieldOfPad(day: nat)
    requires 1 <= day <= 31
    ensures DayField(Pad(day, 2)) == Some(day)
  {
    Pad2Chars(day);
  }

  lemma {:induction false} MonthFieldOfPad(s: string, p: nat, month: nat)
    requires 1 <= month <= 12 && p + 2 < |s| && s[p..p + 2] == Pad(month, 2) && s[p + 2] == '-'
    ensures MonthThenDash(s, p) == Some((month, 2))
  {
    Pad2Chars(month);
    assert s[p] == Pad(month, 2)[0] && s[p + 1] == Pad(month, 2)[1];
  }

  /** Every date parse_airtable_date produces reads back as its day and month name ("2026-03-02" gives "02 Mar"). */
  lemma {:induction false} FriendlyOfIso(d: Date)
    requires ValidDate(d)
    ensures FormatDateFriendly(IsoString(d)) == Some(Pad(d.day, 2) + " " + MonthAbbreviations[d.month - 1])
  {
    StrptimeOfIso(d);
  }

  /** strptime reads back every date parse_airtable_date writes. */
  lemma {:induction false} StrptimeOfIso(d: Date)
    requires ValidDate(d)
    ensures StrptimeYmd(IsoString(d)) == Some(d)
  {
    var s := IsoString(d);
    IsoPieces(d);
    MonthFieldOfPad(s, 5, d.month);
    DayFieldOfPad(d.day);
  }

  /** Where the pieces of a YYYY-MM-DD text sit. */
  lemma {:induction false} IsoPieces(d: Date)
    requires ValidDate(d)
    ensures var s := IsoString(d);
      && |s| >= 10 && s[..4] == Pad(d.year, 4) && AllDigits(s[..4]) && s[4] == '-'
      && s[5..7] == Pad(d.month, 2) && s[7] == '-' && s[8..] == Pad(d.day, 2)
  {
    var yyyy, mm, dd := Pad(d.year, 4), Pad(d.month, 2), Pad(d.day, 2);
    PadLength(d.year, 4);
    Pad2Chars(d.month);
    Pad2Chars(d.day);
    var s := IsoString(d);
    assert s == yyyy + "-" + mm + "-" + dd;
    assert s[..4] == yyyy && s[4] == '-';
    assert s[5..7] == mm && s[7] == '-';
    assert s[8..] == dd;
  }
}
