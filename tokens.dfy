/**
 * The signed login token of the hub (app.py generate_token / verify_token): five
 * '|'-separated fields, an 8-character signature, URL-safe base64 with its '=' padding
 * removed. SHA-256, base64 and the clock are parameters: `hexDigest` stands for
 * `hashlib.sha256(text.encode()).hexdigest()`, `encode` for
 * `base64.urlsafe_b64encode(text.encode()).decode()`, `decode` for the reverse
 * (`None` where Python raises), `now` for `time.time()`.
 */
module Tokens {
  import opened Wrappers
  import opened Text

  const ExpiryDays: int := 7
  const ExpirySeconds: int := ExpiryDays * 24 * 60 * 60
  const DefaultAccessLevel: string := "Client WIP"

  /** The user a valid token names. */
  datatype TokenUser = TokenUser(email: string, clientCode: string, firstName: string, accessLevel: string)

  /** verify_token's `(user, error)` pair: a user and no error, or no user and the error text. */
  datatype Verdict = Accepted(user: TokenUser) | Rejected(error: string)

  /** Python `int(x)` of a float: truncation toward zero. */
  function Trunc(x: real): (r: int)
    ensures x >= 0.0 ==> r as real <= x < r as real + 1.0
    ensures x < 0.0 ==> r as real - 1.0 < x <= r as real
  {
    if x >= 0.0 then x.Floor else -((-x).Floor)
  }

  /** Python `h[:8]`. */
  function Take8(h: string): (r: string)
    ensures |r| == if |h| < 8 then |h| else 8
    ensures r == h[..|r|]
  {
    if |h| <= 8 then h else h[..8]
  }

  /** `text.rstrip('=')`. */
  function TrimPadding(s: string): (r: string)
    ensures |r| <= |s| && r == s[..|r|]
    ensures r == [] || r[|r| - 1] != '='
    ensures forall i :: |r| <= i < |s| ==> s[i] == '='
  {
    if s != [] && s[|s| - 1] == '=' then TrimPadding(s[..|s| - 1]) else s
  }

  function Equals(n: nat): (r: string)
    ensures |r| == n && forall i :: 0 <= i < n ==> r[i] == '='
  {
    if n == 0 then [] else Equals(n - 1) + "="
  }

  /** verify_token's first step: `'='` appended up to a multiple of four characters. */
  function Repad(token: string): (r: string)
    ensures |r| % 4 == 0 && |token| <= |r| < |token| + 4
    ensures r[..|token|] == token
    ensures forall i :: |token| <= i < |r| ==> r[i] == '='
  {
    var p := 4 - |token| % 4;
    if p != 4 then token + Equals(p) else token
  }

  /** A base64 text: a multiple of four characters, at most three of them trailing '='. */
  predicate PaddedBase64(e: string)
  {
    |e| % 4 == 0 && |e| - |TrimPadding(e)| < 4
  }

  /** Putting the padding back undoes removing it. */
  lemma {:induction false} RepadTrimmed(e: string)
    requires PaddedBase64(e)
    ensures Repad(TrimPadding(e)) == e
  {
    var t := TrimPadding(e);
    var r := Repad(t);
    assert |r| == |e|;
    forall i | 0 <= i < |e| ensures r[i] == e[i] {
      if i < |t| {
        assert r[i] == r[..|t|][i];
      }
    }
  }

  /** The signed part of a token: `"{email}|{client_code}|{first_name}|{access_level}|{expires}"`. */
  function SignedData(user: TokenUser, expires: string): (r: string)
  {
    Join([user.email, user.clientCode, user.firstName, user.accessLevel, expires], '|')
  }

  /** The signature: the first 8 hex digits of SHA-256 of the signed part and the secret. */
  function Signature(data: string, secret: string, hexDigest: string -> string): (r: string)
    ensures |r| <= 8
  {
    Take8(hexDigest(data + "|" + secret))
  }

  /** The expiry a token issued at `now` carries: seven days on. */
  function ExpiresAt(now: real): (r: int)
    ensures now >= 0.0 ==> r as real <= now + ExpirySeconds as real < r as real + 1.0
  {
    Trunc(now) + ExpirySeconds
  }

  /** generate_token. */
  function GenerateToken(user: TokenUser, now: real, secret: string,
                         hexDigest: string -> string, encode: string -> string): (r: string)
    ensures r == [] || r[|r| - 1] != '='
  {
    var data := SignedData(user, IntToString(ExpiresAt(now)));
    TrimPadding(encode(data + "|" + Signature(data, secret, hexDigest)))
  }

  /** verify_token; a `decode` of `None` and an `int()` that fails are the exceptions it turns into 'invalid'. */
  function VerifyToken(token: string, now: real, secret: string,
                       hexDigest: string -> string, decode: string -> Option<string>): (r: Verdict)
    ensures r.Rejected? ==> r.error == "invalid" || r.error == "expired"
    ensures decode(Repad(token)).None? ==> r == Rejected("invalid")
    ensures decode(Repad(token)).Some? && |Split(decode(Repad(token)).value, '|')| != 6 ==> r == Rejected("invalid")
  {
    match decode(Repad(token))
    case None => Rejected("invalid")
    case Some(tokenData) =>
      var parts := Split(tokenData, '|');
      if |parts| != 6 then Rejected("invalid")
      else
        var user := TokenUser(parts[0], parts[1], parts[2], parts[3]);
        if parts[5] != Signature(SignedData(user, parts[4]), secret, hexDigest) then Rejected("invalid")
        else
          match ParseInt(parts[4])
          case None => Rejected("invalid")
          case Some(expires) =>
            if (expires as real) < now then Rejected("expired") else Accepted(user)
  }

  /** The six pieces of a token's text, as the verifier splits it. */
  function Pieces(token: string, decode: string -> Option<string>): seq<string>
  {
    match decode(Repad(token))
    case None => []
    case Some(tokenData) => Split(tokenData, '|')
  }

  /** A token is accepted exactly when it decodes into six pieces signed with the secret whose expiry is not past. */
  lemma {:induction false} AcceptedExactly(token: string, now: real, secret: string,
                        hexDigest: string -> string, decode: string -> Option<string>)
    ensures var p := Pieces(token, decode);
      VerifyToken(token, now, secret, hexDigest, decode).Accepted?
      <==> |p| == 6
           && p[5] == Signature(SignedData(TokenUser(p[0], p[1], p[2], p[3]), p[4]), secret, hexDigest)
           && ParseInt(p[4]).Some? && !((ParseInt(p[4]).value as real) < now)
    ensures var p := Pieces(token, decode);
      VerifyToken(token, now, secret, hexDigest, decode).Accepted? ==>
        VerifyToken(token, now, secret, hexDigest, decode).user == TokenUser(p[0], p[1], p[2], p[3])
  {
  }

  /** The signature is checked before the expiry: a forged token is 'invalid' at any time. */
  lemma {:induction false} ForgedIsInvalid(token: string, now: real, later: real, secret: string,
                                           hexDigest: string -> string, decode: string -> Option<string>)
    requires VerifyToken(token, now, secret, hexDigest, decode) == Rejected("invalid")
    ensures VerifyToken(token, later, secret, hexDigest, decode) == Rejected("invalid")
  {
  }

  /** `Join` of one more part. */
  lemma {:induction false} JoinSnoc(parts: seq<string>, x: string, c: char)
    requires |parts| >= 1
    ensures Join(parts + [x], c) == Join(parts, c) + [c] + x
  {
    if |parts| > 1 {
      JoinSnoc(parts[1..], x, c);
      assert (parts + [x])[1..] == parts[1..] + [x];
    } else {
      assert (parts + [x])[1..] == [x];
    }
  }

  lemma {:induction false} IntToStringNoBar(n: int)
    ensures '|' !in IntToString(n)
  {
    var d := NatToDigits(if n < 0 then -n else n);
    assert forall i :: 0 <= i < |d| ==> d[i] != '|';
    if n < 0 {
      assert forall i :: 0 <= i < |IntToString(n)| ==> IntToString(n)[i] == ("-" + d)[i];
    }
  }

  /** The text a generated token decodes to splits back into its six fields. */
  lemma {:induction false} TokenDataPieces(user: TokenUser, expires: int, sig: string)
    requires '|' !in user.email && '|' !in user.clientCode && '|' !in user.firstName && '|' !in user.accessLevel
    requires '|' !in sig
    ensures Split(SignedData(user, IntToString(expires)) + "|" + sig, '|')
            == [user.email, user.clientCode, user.firstName, user.accessLevel, IntToString(expires), sig]
  {
    var five := [user.email, user.clientCode, user.firstName, user.accessLevel, IntToString(expires)];
    IntToStringNoBar(expires);
    JoinSnoc(five, sig, '|');
    assert SignedData(user, IntToString(expires)) + "|" + sig == Join(five + [sig], '|');
    SplitJoin(five + [sig], '|');
  }

  /**
   * A generated token verifies, up to its expiry, as the user it was made for, when no field
   * holds a '|', the digest has none either, and base64 decodes what it encodes.
   */
  lemma {:induction false} GeneratedTokenVerifies(user: TokenUser, issued: real, now: real, secret: string,
                                                  hexDigest: string -> string,
                                                  encode: string -> string, decode: string -> Option<string>)
    requires '|' !in user.email && '|' !in user.clientCode && '|' !in user.firstName && '|' !in user.accessLevel
    requires forall t :: '|' !in hexDigest(t)
    requires forall t :: PaddedBase64(encode(t)) && decode(encode(t)) == Some(t)
    requires now <= ExpiresAt(issued) as real
    ensures VerifyToken(GenerateToken(user, issued, secret, hexDigest, encode), now, secret, hexDigest, decode)
            == Accepted(user)
  {
    var expires := ExpiresAt(issued);
    var data := SignedData(user, IntToString(expires));
    var sig := Signature(data, secret, hexDigest);
    var tokenData := data + "|" + sig;
    var h := hexDigest(data + "|" + secret);
    assert '|' !in h;
    assert sig == h[..|sig|];
    assert '|' !in sig;
    RepadTrimmed(encode(tokenData));
    assert decode(Repad(GenerateToken(user, issued, secret, hexDigest, encode))) == Some(tokenData);
    TokenDataPieces(user, expires, sig);
    ParseIntToString(expires);
  }

  /** The user generate_token signs when the caller gives no access level. */
  function DefaultUser(email: string, clientCode: string, firstName: string): (u: TokenUser)
    ensures u.accessLevel == DefaultAccessLevel
    ensures u.email == email && u.clientCode == clientCode && u.firstName == firstName
  {
    TokenUser(email, clientCode, firstName, DefaultAccessLevel)
  }

  /** A token generated without an access level verifies, up to its expiry, with 'Client WIP' access. */
  lemma {:induction false} DefaultTokenVerifies(email: string, clientCode: string, firstName: string,
                                                issued: real, now: real, secret: string,
                                                hexDigest: string -> string,
                                                encode: string -> string, decode: string -> Option<string>)
    requires '|' !in email && '|' !in clientCode && '|' !in firstName
    requires forall t :: '|' !in hexDigest(t)
    requires forall t :: PaddedBase64(encode(t)) && decode(encode(t)) == Some(t)
    requires now <= ExpiresAt(issued) as real
    ensures var v := VerifyToken(GenerateToken(DefaultUser(email, clientCode, firstName), issued, secret, hexDigest, encode),
                                 now, secret, hexDigest, decode);
      v.Accepted? && v.user.accessLevel == "Client WIP" && v.user.email == email
  {
    GeneratedTokenVerifies(DefaultUser(email, clientCode, firstName), issued, now, secret, hexDigest, encode, decode);
  }

  /** The same token is 'expired' once its expiry has passed. */
  lemma {:induction false} GeneratedTokenExpires(user: TokenUser, issued: real, now: real, secret: string,
                                                 hexDigest: string -> string,
                                                 encode: string -> string, decode: string -> Option<string>)
    requires '|' !in user.email && '|' !in user.clientCode && '|' !in user.firstName && '|' !in user.accessLevel
    requires forall t :: '|' !in hexDigest(t)
    requires forall t :: PaddedBase64(encode(t)) && decode(encode(t)) == Some(t)
    requires now > ExpiresAt(issued) as real
    ensures VerifyToken(GenerateToken(user, issued, secret, hexDigest, encode), now, secret, hexDigest, decode)
            == Rejected("expired")
  {
    var expires := ExpiresAt(issued);
    var data := SignedData(user, IntToString(expires));
    var sig := Signature(data, secret, hexDigest);
    var tokenData := data + "|" + sig;
    var h := hexDigest(data + "|" + secret);
    assert '|' !in h;
    assert sig == h[..|sig|];
    assert '|' !in sig;
    RepadTrimmed(encode(tokenData));
    assert decode(Repad(GenerateToken(user, issued, secret, hexDigest, encode))) == Some(tokenData);
    TokenDataPieces(user, expires, sig);
    ParseIntToString(expires);
  }
}
