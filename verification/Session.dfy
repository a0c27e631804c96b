/** Session tokens (secwatch/auth.py): a signed payload in base64url without padding
    (sections 3.2 and 5 of RFC 4648). */
module Session {
  import opened Collections
  import opened Windows

  type Byte = x: int | 0 <= x < 256
  type Sextet = x: int | 0 <= x < 64

  // ---- base64url

  function Letter(s: Sextet): char {
    if s < 26 then (s + 65) as char
    else if s < 52 then (s + 71) as char
    else if s < 62 then (s - 4) as char
    else if s == 62 then '-' else '_'
  }

  function Value(c: char): Option<Sextet> {
    if 'A' <= c <= 'Z' then Some(c as int - 65)
    else if 'a' <= c <= 'z' then Some(c as int - 71)
    else if '0' <= c <= '9' then Some(c as int + 4)
    else if c == '-' then Some(62) else if c == '_' then Some(63) else None
  }

  /** The letters for up to three bytes, without padding. */
  function Group(b: seq<Byte>): string
    requires 1 <= |b| <= 3
  {
    if |b| == 1 then [Letter(b[0] / 4), Letter(b[0] % 4 * 16)]
    else if |b| == 2 then [Letter(b[0] / 4), Letter(b[0] % 4 * 16 + b[1] / 16), Letter(b[1] % 16 * 4)]
    else [Letter(b[0] / 4), Letter(b[0] % 4 * 16 + b[1] / 16), Letter(b[1] % 16 * 4 + b[2] / 64), Letter(b[2] % 64)]
  }

  function Equals(n: nat): string { seq(n, i => '=') }

  /** `urlsafe_b64encode`. */
  function Encode(b: seq<Byte>): string
    decreases |b|
  {
    if b == [] then ""
    else if |b| <= 3 then Group(b) + Equals(3 - |b|)
    else Group(b[..3]) + Encode(b[3..])
  }

  /** The bytes of one group of four letters, of which the last may be padding. */
  function Ungroup(s: string, last: bool): Option<seq<Byte>>
    requires |s| == 4
  {
    var w, x, y, z := Value(s[0]), Value(s[1]), Value(s[2]), Value(s[3]);
    if w.None? || x.None? then None
    else
      var first: Byte := w.value * 4 + x.value / 16;
      if last && s[2..] == "==" then Some([first])
      else if y.None? then None
      else
        var second: Byte := x.value % 16 * 16 + y.value / 4;
        if last && s[3] == '=' then Some([first, second])
        else if z.None? then None
        else
          var third: Byte := y.value % 4 * 64 + z.value;
          Some([first, second, third])
  }

  /** `urlsafe_b64decode` of well-formed text; anything else is an error. */
  function Decode(s: string): Option<seq<Byte>>
    decreases |s|
  {
    if s == "" then Some([])
    else if |s| < 4 then None
    else
      var head, rest := Ungroup(s[..4], |s| == 4), Decode(s[4..]);
      if head.None? || rest.None? then None else Some(head.value + rest.value)
  }

  function Stripped(s: string): string {
    if s != "" && s[|s| - 1] == '=' then Stripped(s[..|s| - 1]) else s
  }

  /** The padding that a text of this length had: `-len % 4`. */
  function Padding(n: nat): nat { (4 - n % 4) % 4 }

  function B64(b: seq<Byte>): string { Stripped(Encode(b)) }

  function Unb64(s: string): Option<seq<Byte>> { Decode(s + Equals(Padding(|s|))) }

  lemma LetterValue(s: Sextet)
    ensures Value(Letter(s)) == Some(s) && Letter(s) != '=' && Letter(s) != '.'
  {
  }

  lemma OneBack(b: seq<Byte>)
    requires |b| == 1
    ensures |Group(b) + Equals(2)| == 4 && Ungroup(Group(b) + Equals(2), true) == Some(b)
  {
    var s := Group(b) + Equals(2);
    LetterValue(b[0] / 4);
    LetterValue(b[0] % 4 * 16);
    assert s[2..] == "==" && b == [b[0]];
  }

  lemma TwoBack(b: seq<Byte>)
    requires |b| == 2
    ensures |Group(b) + Equals(1)| == 4 && Ungroup(Group(b) + Equals(1), true) == Some(b)
  {
    var s := Group(b) + Equals(1);
    LetterValue(b[0] / 4);
    LetterValue(b[0] % 4 * 16 + b[1] / 16);
    LetterValue(b[1] % 16 * 4);
    assert s[3] == '=' && s[2..][0] == s[2] != '=';
    assert (b[0] % 4 * 16 + b[1] / 16) % 16 == b[1] / 16 && b == [b[0], b[1]];
  }

  lemma ThreeBack(b: seq<Byte>, last: bool)
    requires |b| == 3
    ensures |Group(b)| == 4 && Ungroup(Group(b), last) == Some(b)
  {
    var s := Group(b);
    LetterValue(b[0] / 4);
    LetterValue(b[0] % 4 * 16 + b[1] / 16);
    LetterValue(b[1] % 16 * 4 + b[2] / 64);
    LetterValue(b[2] % 64);
    assert s[2..][0] == s[2] != '=' && s[3] != '=';
    assert (b[0] % 4 * 16 + b[1] / 16) % 16 == b[1] / 16 && (b[1] % 16 * 4 + b[2] / 64) % 4 == b[2] / 64;
    assert b == [b[0], b[1], b[2]];
  }

  /** The last group comes back, padded or not. */
  lemma LastBack(b: seq<Byte>)
    requires 1 <= |b| <= 3
    ensures |Encode(b)| == 4 && Ungroup(Encode(b), true) == Some(b)
  {
    if |b| == 1 {
      OneBack(b);
    } else if |b| == 2 {
      TwoBack(b);
    } else {
      ThreeBack(b, true);
      assert Group(b) + Equals(0) == Group(b);
    }
  }

  lemma DecodeGroup(head: string, rest: string)
    requires |head| == 4
    ensures Decode(head + rest) ==
            var h, r := Ungroup(head, rest == ""), Decode(rest);
            if h.None? || r.None? then None else Some(h.value + r.value)
  {
    var s := head + rest;
    assert s[..4] == head && s[4..] == rest;
  }

  lemma DecodeLast(b: seq<Byte>)
    requires 1 <= |b| <= 3
    ensures Decode(Encode(b)) == Some(b) && |Encode(b)| == 4
  {
    LastBack(b);
    DecodeGroup(Encode(b), "");
    assert Encode(b) + "" == Encode(b) && b + [] == b;
  }

  lemma EncodeSplit(b: seq<Byte>)
    requires |b| > 3
    ensures |Group(b[..3])| == 4 && Encode(b) == Group(b[..3]) + Encode(b[3..])
  {
  }

  lemma DecodeMore(front: seq<Byte>, back: seq<Byte>, rest: string)
    requires |front| == 3 && rest != "" && Decode(rest) == Some(back)
    ensures |Group(front)| == 4 && Decode(Group(front) + rest) == Some(front + back)
  {
    ThreeBack(front, false);
    DecodeGroup(Group(front), rest);
  }

  lemma {:induction false} DecodeEncode(b: seq<Byte>)
    ensures Decode(Encode(b)) == Some(b)
    ensures b != [] ==> Encode(b) != ""
    decreases |b|
  {
    if b == [] {
    } else if |b| <= 3 {
      DecodeLast(b);
    } else {
      EncodeSplit(b);
      DecodeEncode(b[3..]);
      DecodeMore(b[..3], b[3..], Encode(b[3..]));
      assert b[..3] + b[3..] == b;
    }
  }

  lemma {:induction false} EncodeLength(b: seq<Byte>)
    ensures |Encode(b)| == (|b| + 2) / 3 * 4
    decreases |b|
  {
    if b == [] {
    } else if |b| <= 3 {
      DecodeLast(b);
    } else {
      EncodeLength(b[3..]);
      EncodeSplit(b);
      var n := |b[3..]|;
      assert (n + 3 + 2) / 3 == (n + 2) / 3 + 1;
    }
  }

  /** Neither a dot nor an equals sign. */
  predicate Plain(s: string) { forall i :: 0 <= i < |s| ==> s[i] != '.' && s[i] != '=' }

  lemma GroupPlain(b: seq<Byte>)
    requires 1 <= |b| <= 3
    ensures Plain(Group(b)) && |Group(b)| == |b| + 1
  {
    LetterValue(b[0] / 4);
    if |b| == 1 {
      LetterValue(b[0] % 4 * 16);
    } else if |b| == 2 {
      LetterValue(b[0] % 4 * 16 + b[1] / 16);
      LetterValue(b[1] % 16 * 4);
    } else {
      LetterValue(b[0] % 4 * 16 + b[1] / 16);
      LetterValue(b[1] % 16 * 4 + b[2] / 64);
      LetterValue(b[2] % 64);
    }
  }

  lemma {:induction false} StrippedIs(core: string, n: nat)
    requires Plain(core)
    ensures Stripped(core + Equals(n)) == core
    decreases n
  {
    var s := core + Equals(n);
    if n == 0 {
      assert s == core;
    } else {
      assert s[..|s| - 1] == core + Equals(n - 1);
      StrippedIs(core, n - 1);
    }
  }

  /** An encoding is plain letters, followed by at most two equals signs. */
  lemma {:induction false} EncodeShape(b: seq<Byte>) returns (core: string, n: nat)
    ensures Encode(b) == core + Equals(n) && Plain(core) && n <= 2
    decreases |b|
  {
    if b == [] {
      core, n := "", 0;
    } else if |b| <= 3 {
      GroupPlain(b);
      core, n := Group(b), 3 - |b|;
    } else {
      GroupPlain(b[..3]);
      var rest;
      rest, n := EncodeShape(b[3..]);
      core := Group(b[..3]) + rest;
      assert Encode(b) == core + Equals(n);
    }
  }

  lemma PaddingIs(m: nat, n: nat, groups: nat)
    requires m + n == groups * 4 && n <= 2
    ensures Padding(m) == n
  {
    assert m % 4 == (4 - n) % 4;
  }

  lemma Rebuilt(b: seq<Byte>)
    ensures B64(b) + Equals(Padding(|B64(b)|)) == Encode(b) && Plain(B64(b))
  {
    var core, n := EncodeShape(b);
    StrippedIs(core, n);
    EncodeLength(b);
    PaddingIs(|core|, n, (|b| + 2) / 3);
  }

  /** The padding that was stripped is rebuilt from the length, for every byte string. */
  lemma B64RoundTrip(b: seq<Byte>)
    ensures Unb64(B64(b)) == Some(b) && Plain(B64(b))
  {
    Rebuilt(b);
    DecodeEncode(b);
  }

  /** Test vectors of section 10 of RFC 4648, and the two letters of section 5. */
  lemma Vectors()
    ensures B64([102]) == "Zg" && B64([102, 111]) == "Zm8" && B64([102, 111, 111]) == "Zm9v" && B64([251, 255]) == "-_8"
  {
    StrippedIs("Zg", 2);
    assert Encode([102]) == "Zg" + Equals(2);
    StrippedIs("Zm8", 1);
    assert Encode([102, 111]) == "Zm8" + Equals(1);
    StrippedIs("Zm9v", 0);
    assert Encode([102, 111, 111]) == "Zm9v" + Equals(0);
    StrippedIs("-_8", 1);
    assert Encode([251, 255]) == "-_8" + Equals(1);
  }

  // ---- tokens

  /** What the payload says; a missing field reads as no user and time 0. */
  datatype Claims = Claims(user: Option<string>, exp: int)

  /** JSON and HMAC under the session secret. */
  datatype Codec = Codec(dumps: Claims -> seq<Byte>, loads: seq<Byte> -> Option<Claims>, mac: string -> seq<Byte>)

  /** What JSON promises of the claims that are written. */
  ghost predicate Faithful(c: Codec) { forall claims :: c.loads(c.dumps(claims)) == Some(claims) }

  function MakeToken(c: Codec, user: string, ttl: int, now: Time): string {
    var payload := B64(c.dumps(Claims(Some(user), now.Floor + ttl)));
    payload + "." + B64(c.mac(payload))
  }

  /** The position of the first dot, or the length. */
  function Dot(s: string): (n: nat)
    ensures n <= |s| && (n < |s| ==> s[n] == '.') && forall i :: 0 <= i < n ==> s[i] != '.'
  {
    if s == "" || s[0] == '.' then 0 else 1 + Dot(s[1..])
  }

  function VerifyToken(c: Codec, token: string, now: Time): Option<string> {
    var dot := Dot(token);
    if dot == |token| then None
    else
      var payload, sig := token[..dot], token[dot + 1..];
      if sig != B64(c.mac(payload)) then None
      else
        var bytes := Unb64(payload);
        if bytes.None? then None
        else
          var claims := c.loads(bytes.value);
          if claims.None? || claims.value.exp as real < now then None else claims.value.user
  }

  lemma {:induction false} DotAt(payload: string, rest: string)
    requires Plain(payload)
    ensures Dot(payload + "." + rest) == |payload|
  {
    var s := payload + "." + rest;
    assert s[|payload|] == '.';
    assert forall i :: 0 <= i < |payload| ==> s[i] == payload[i];
  }

  /** A token names its user until it expires, and nobody after that. */
  lemma TokenRoundTrip(c: Codec, user: string, ttl: int, made: Time, now: Time)
    requires Faithful(c)
    ensures VerifyToken(c, MakeToken(c, user, ttl, made), now)
         == if now <= (made.Floor + ttl) as real then Some(user) else None
  {
    var claims := Claims(Some(user), made.Floor + ttl);
    var payload := B64(c.dumps(claims));
    var token := MakeToken(c, user, ttl, made);
    B64RoundTrip(c.dumps(claims));
    DotAt(payload, B64(c.mac(payload)));
    assert token[..|payload|] == payload && token[|payload| + 1..] == B64(c.mac(payload));
  }

  /** Whatever is accepted has a payload up to its only dot, whose MAC is the whole rest,
      and claims that have not expired. */
  lemma AcceptedIff(c: Codec, token: string, now: Time, user: string)
    ensures VerifyToken(c, token, now) == Some(user) <==>
              exists payload ::
                && token == payload + "." + B64(c.mac(payload)) && '.' !in payload
                && (match Unb64(payload)
                    case None => false
                    case Some(bytes) =>
                      && c.loads(bytes).Some? && c.loads(bytes).value.exp as real >= now
                      && c.loads(bytes).value.user == Some(user))
  {
    var dot := Dot(token);
    if VerifyToken(c, token, now) == Some(user) {
      var payload := token[..dot];
      assert token == payload + "." + token[dot + 1..];
      assert '.' !in payload;
    }
    forall payload | token == payload + "." + B64(c.mac(payload)) && '.' !in payload
      ensures dot == |payload| && token[..dot] == payload && token[dot + 1..] == B64(c.mac(payload))
    {
      assert token[|payload|] == '.';
      assert forall i :: 0 <= i < |payload| ==> token[i] == payload[i];
    }
  }
}
