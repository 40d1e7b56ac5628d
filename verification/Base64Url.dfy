/**
 The byte encodings of the identity bridge: base64url (sections 3.5, 4 and 5 of
 RFC 4648) on top of the platform's forgiving base64 decoder, and hexadecimal.
 Decoding undoes encoding on all bytes; encoding undoes decoding on exactly the
 strings whose unused trailing bits are zero.
 */
module Base64Url {
  import opened Basics

  type Byte = b: int | 0 <= b < 256
  type Sextet = v: int | 0 <= v < 64

  // ── The alphabet ────────────────────────────────────────────────────────

  function Digit(v: Sextet): char {
    if v < 26 then ('A' as int + v) as char
    else if v < 52 then ('a' as int + v - 26) as char
    else if v < 62 then ('0' as int + v - 52) as char
    else if v == 62 then '+'
    else '/'
  }

  function ValueOf(c: char): Option<Sextet> {
    if 'A' <= c <= 'Z' then Some(c as int - 'A' as int)
    else if 'a' <= c <= 'z' then Some(c as int - 'a' as int + 26)
    else if '0' <= c <= '9' then Some(c as int - '0' as int + 52)
    else if c == '+' then Some(62)
    else if c == '/' then Some(63)
    else None
  }

  function ToUrl(c: char): char {
    if c == '+' then '-' else if c == '/' then '_' else c
  }

  function FromUrl(c: char): char {
    if c == '-' then '+' else if c == '_' then '/' else c
  }

  predicate UrlChar(c: char) {
    'A' <= c <= 'Z' || 'a' <= c <= 'z' || '0' <= c <= '9' || c == '-' || c == '_'
  }

  predicate UrlString(s: string) {
    forall i :: 0 <= i < |s| ==> UrlChar(s[i])
  }

  // ── Bits ────────────────────────────────────────────────────────────────

  // Three bytes x, y, z are four digits a, b, c, d.

  function DigitA(x: Byte): Sextet { x / 4 }
  function DigitB(x: Byte, y: Byte): Sextet { x % 4 * 16 + y / 16 }
  function DigitC(y: Byte, z: Byte): Sextet { y % 16 * 4 + z / 64 }
  function DigitD(z: Byte): Sextet { z % 64 }

  function ByteX(a: Sextet, b: Sextet): Byte { a * 4 + b / 16 }
  function ByteY(b: Sextet, c: Sextet): Byte { b % 16 * 16 + c / 4 }
  function ByteZ(c: Sextet, d: Sextet): Byte { c % 4 * 64 + d }

  lemma DigitsOfBytes(a: Sextet, b: Sextet, c: Sextet, d: Sextet)
    ensures DigitA(ByteX(a, b)) == a && DigitB(ByteX(a, b), ByteY(b, c)) == b
    ensures DigitC(ByteY(b, c), ByteZ(c, d)) == c && DigitD(ByteZ(c, d)) == d
    ensures DigitB(ByteX(a, b), 0) == b <==> b % 16 == 0
    ensures DigitC(ByteY(b, c), 0) == c <==> c % 4 == 0
  {}

  lemma BytesOfDigits(x: Byte, y: Byte, z: Byte)
    ensures ByteX(DigitA(x), DigitB(x, y)) == x
    ensures ByteY(DigitB(x, y), DigitC(y, z)) == y
    ensures ByteZ(DigitC(y, z), DigitD(z)) == z
    ensures DigitB(x, 0) % 16 == 0 && DigitC(y, 0) % 4 == 0
  {}

  /** Bytes as six-bit digits; the last digit is filled up with zero bits. */
  function Pack(bs: seq<Byte>): (vs: seq<Sextet>) {
    if |bs| == 0 then []
    else if |bs| == 1 then [DigitA(bs[0]), DigitB(bs[0], 0)]
    else if |bs| == 2 then [DigitA(bs[0]), DigitB(bs[0], bs[1]), DigitC(bs[1], 0)]
    else [DigitA(bs[0]), DigitB(bs[0], bs[1]), DigitC(bs[1], bs[2]), DigitD(bs[2])] + Pack(bs[3..])
  }

  /** Digits as bytes; bits that fill no byte are dropped. */
  function Unpack(vs: seq<Sextet>): (bs: seq<Byte>)
    requires |vs| % 4 != 1
  {
    if |vs| == 0 then []
    else if |vs| == 2 then [ByteX(vs[0], vs[1])]
    else if |vs| == 3 then [ByteX(vs[0], vs[1]), ByteY(vs[1], vs[2])]
    else [ByteX(vs[0], vs[1]), ByteY(vs[1], vs[2]), ByteZ(vs[2], vs[3])] + Unpack(vs[4..])
  }

  /** A length that some bytes have, and zeros in the bits that carry no byte. */
  predicate CleanTail(vs: seq<Sextet>) {
    && |vs| % 4 != 1
    && (|vs| % 4 == 2 ==> vs[|vs| - 1] % 16 == 0)
    && (|vs| % 4 == 3 ==> vs[|vs| - 1] % 4 == 0)
  }

  lemma PackGroup(x: Byte, y: Byte, z: Byte, rest: seq<Byte>)
    ensures Pack([x, y, z] + rest) == [DigitA(x), DigitB(x, y), DigitC(y, z), DigitD(z)] + Pack(rest)
  {
    assert ([x, y, z] + rest)[3..] == rest;
  }

  lemma UnpackGroup(a: Sextet, b: Sextet, c: Sextet, d: Sextet, rest: seq<Sextet>)
    requires |rest| % 4 != 1
    ensures |[a, b, c, d] + rest| % 4 != 1
    ensures Unpack([a, b, c, d] + rest) == [ByteX(a, b), ByteY(b, c), ByteZ(c, d)] + Unpack(rest)
    ensures CleanTail([a, b, c, d] + rest) <==> CleanTail(rest)
  {
    hide ByteX, ByteY, ByteZ;
    var vs := [a, b, c, d] + rest;
    assert vs[4..] == rest;
    FourMore(|rest|);
    assert rest != [] ==> vs[|vs| - 1] == rest[|rest| - 1];
  }

  lemma FourMore(n: nat)
    ensures (n + 4) % 4 == n % 4
  {}

  lemma ShortPacks(x: Byte, y: Byte)
    ensures Pack([]) == [] && Pack([x]) == [DigitA(x), DigitB(x, 0)] && Pack([x, y]) == [DigitA(x), DigitB(x, y), DigitC(y, 0)]
  {}

  lemma ShortUnpacks(a: Sextet, b: Sextet, c: Sextet)
    ensures Unpack([]) == [] && Unpack([a, b]) == [ByteX(a, b)] && Unpack([a, b, c]) == [ByteX(a, b), ByteY(b, c)]
    ensures CleanTail([]) && (CleanTail([a, b]) <==> b % 16 == 0) && (CleanTail([a, b, c]) <==> c % 4 == 0)
  {}

  lemma ShortUnpackPack(x: Byte, y: Byte)
    ensures CleanTail(Pack([])) && Unpack(Pack([])) == []
    ensures CleanTail(Pack([x])) && Unpack(Pack([x])) == [x]
    ensures CleanTail(Pack([x, y])) && Unpack(Pack([x, y])) == [x, y]
  {
    hide *;
    ShortPacks(x, y);
    BytesOfDigits(x, 0, 0);
    BytesOfDigits(x, y, 0);
    ShortUnpacks(DigitA(x), DigitB(x, 0), 0);
    ShortUnpacks(DigitA(x), DigitB(x, y), DigitC(y, 0));
  }

  lemma {:induction false} UnpackPack(bs: seq<Byte>)
    ensures CleanTail(Pack(bs)) && Unpack(Pack(bs)) == bs
  {
    if |bs| < 3 {
      assert bs == if |bs| == 0 then [] else if |bs| == 1 then [bs[0]] else [bs[0], bs[1]];
      ShortUnpackPack(if |bs| > 0 then bs[0] else 0, if |bs| > 1 then bs[1] else 0);
      hide Pack, Unpack, CleanTail;
    } else {
      var x, y, z, rest := bs[0], bs[1], bs[2], bs[3..];
      UnpackPack(rest);
      PackGroup(x, y, z, rest);
      BytesOfDigits(x, y, z);
      assert |Pack(rest)| % 4 != 1;
      hide Pack, Unpack, CleanTail, DigitA, DigitB, DigitC, DigitD, ByteX, ByteY, ByteZ;
      UnpackGroup(DigitA(x), DigitB(x, y), DigitC(y, z), DigitD(z), Pack(rest));
      assert bs == [x, y, z] + rest;
    }
  }

  lemma ShortPackUnpack(a: Sextet, b: Sextet, c: Sextet)
    ensures Pack(Unpack([])) == [] && CleanTail([])
    ensures Pack(Unpack([a, b])) == [a, b] <==> CleanTail([a, b])
    ensures Pack(Unpack([a, b, c])) == [a, b, c] <==> CleanTail([a, b, c])
  {
    ShortUnpacks(a, b, c);
    ShortPacks(ByteX(a, b), ByteY(b, c));
    DigitsOfBytes(a, b, c, 0);
    hide Pack, Unpack, CleanTail, DigitA, DigitB, DigitC, DigitD, ByteX, ByteY, ByteZ;
  }

  lemma {:induction false} PackUnpack(vs: seq<Sextet>)
    requires |vs| % 4 != 1
    ensures Pack(Unpack(vs)) == vs <==> CleanTail(vs)
  {
    if |vs| < 4 {
      assert vs == if |vs| == 0 then [] else if |vs| == 2 then [vs[0], vs[1]] else [vs[0], vs[1], vs[2]];
      ShortPackUnpack(if |vs| > 0 then vs[0] else 0, if |vs| > 1 then vs[1] else 0, if |vs| > 2 then vs[2] else 0);
      hide Pack, Unpack, CleanTail;
    } else {
      var a, b, c, d, rest := vs[0], vs[1], vs[2], vs[3], vs[4..];
      PackUnpack(rest);
      UnpackGroup(a, b, c, d, rest);
      PackGroup(ByteX(a, b), ByteY(b, c), ByteZ(c, d), Unpack(rest));
      DigitsOfBytes(a, b, c, d);
      hide Pack, Unpack, CleanTail, DigitA, DigitB, DigitC, DigitD, ByteX, ByteY, ByteZ;
      assert vs == [a, b, c, d] + rest;
      var packed := Pack(Unpack(rest));
      assert [a, b, c, d] + packed == vs ==> ([a, b, c, d] + packed)[4..] == rest;
    }
  }

  lemma {:induction false} UnpackLength(vs: seq<Sextet>)
    requires |vs| % 4 != 1
    ensures |Unpack(vs)| == 3 * |vs| / 4
  {
    hide ByteX, ByteY, ByteZ;
    if |vs| >= 4 {
      FourMore(|vs| - 4);
      UnpackLength(vs[4..]);
    }
  }

  lemma {:induction false} PackLength(bs: seq<Byte>)
    ensures |Pack(bs)| == (4 * |bs| + 2) / 3
  {
    hide DigitA, DigitB, DigitC, DigitD;
    if |bs| >= 3 {
      PackLength(bs[3..]);
    }
  }

  // ── The platform's btoa and atob ────────────────────────────────────────

  function Digits(vs: seq<Sextet>): (s: string)
    ensures |s| == |vs|
  {
    seq(|vs|, i requires 0 <= i < |vs| => Digit(vs[i]))
  }

  function Padding(n: nat): string {
    seq(n, _ => '=')
  }

  /** A binary string in base64, padded to full groups. */
  function Btoa(bs: seq<Byte>): string {
    if |bs| == 0 then ""
    else if |bs| == 1 then [Digit(DigitA(bs[0])), Digit(DigitB(bs[0], 0)), '=', '=']
    else if |bs| == 2 then [Digit(DigitA(bs[0])), Digit(DigitB(bs[0], bs[1])), Digit(DigitC(bs[1], 0)), '=']
    else
      [Digit(DigitA(bs[0])), Digit(DigitB(bs[0], bs[1])), Digit(DigitC(bs[1], bs[2])), Digit(DigitD(bs[2]))] + Btoa(bs[3..])
  }

  predicate Space(c: char) {
    c in {'\t', '\n', '\r', ' ', 12 as char}
  }

  function WithoutSpaces(s: string): string {
    if s == "" then "" else (if Space(s[0]) then "" else [s[0]]) + WithoutSpaces(s[1..])
  }

  /** Up to two padding characters off the end of a string of full groups. */
  function WithoutPadding(s: string): string {
    if |s| % 4 != 0 || s == "" || s[|s| - 1] != '=' then s
    else if s[|s| - 2] != '=' then s[..|s| - 1]
    else s[..|s| - 2]
  }

  predicate AllDigits(s: string) {
    forall i :: 0 <= i < |s| ==> ValueOf(s[i]).Some?
  }

  function Values(s: string): seq<Sextet>
    requires AllDigits(s)
  {
    seq(|s|, i requires 0 <= i < |s| => ValueOf(s[i]).value)
  }

  function Binary(bs: seq<Byte>): string {
    seq(|bs|, i requires 0 <= i < |bs| => bs[i] as char)
  }

  /** None where the platform throws. */
  function Atob(s: string): Option<string> {
    var t := WithoutPadding(WithoutSpaces(s));
    if |t| % 4 == 1 || !AllDigits(t) then None else Some(Binary(Unpack(Values(t))))
  }

  // ── base64url ───────────────────────────────────────────────────────────

  function Mapped(s: string, f: char -> char): (t: string)
    ensures |t| == |s| && forall i :: 0 <= i < |s| ==> t[i] == f(s[i])
  {
    seq(|s|, i requires 0 <= i < |s| => f(s[i]))
  }

  function TrimEnd(s: string): string {
    if s != "" && s[|s| - 1] == '=' then TrimEnd(s[..|s| - 1]) else s
  }

  function BytesToB64url(bs: seq<Byte>): string {
    TrimEnd(Mapped(Btoa(bs), ToUrl))
  }

  function Padded(s: string): string {
    s + (if |s| % 4 != 0 then Padding(4 - |s| % 4) else "")
  }

  function Codes(bin: string): (bs: seq<Byte>)
    requires forall i :: 0 <= i < |bin| ==> bin[i] as int < 256
  {
    seq(|bin|, i requires 0 <= i < |bin| => bin[i] as int)
  }

  function B64urlToBytes(s: string): Option<seq<Byte>> {
    match Atob(Padded(Mapped(s, FromUrl)))
    case None => None
    case Some(bin) => Some(Codes(bin))
  }

  method DecodeB64url(s: string) returns (ok: bool, out: array<Byte>)
    ensures ok <==> B64urlToBytes(s).Some?
    ensures ok ==> out[..] == B64urlToBytes(s).value
  {
    var t := Mapped(s, FromUrl);
    var pad := if |t| % 4 != 0 then Padding(4 - |t| % 4) else "";
    var decoded := Atob(t + pad);
    assert t + pad == Padded(t);
    if decoded.None? {
      out := new Byte[0];
      return false, out;
    }
    var bin := decoded.value;
    out := new Byte[|bin|];
    var i := 0;
    while i < |bin|
      invariant 0 <= i <= |bin|
      invariant forall k :: 0 <= k < i ==> out[k] == bin[k] as int
    {
      out[i] := bin[i] as int;
      i := i + 1;
    }
    ok := true;
  }

  // ── What the functions amount to ────────────────────────────────────────

  lemma {:induction false} NoSpacesToRemove(s: string)
    requires forall i :: 0 <= i < |s| ==> !Space(s[i])
    ensures WithoutSpaces(s) == s
  {
    if s != "" {
      NoSpacesToRemove(s[1..]);
    }
  }

  lemma {:induction false} TrimsPadding(s: string, n: nat)
    requires s != "" ==> s[|s| - 1] != '='
    ensures TrimEnd(s + Padding(n)) == s
  {
    var t := s + Padding(n);
    if n == 0 {
      assert t == s;
    } else {
      assert t[|t| - 1] == '=';
      assert t[..|t| - 1] == s + Padding(n - 1);
      TrimsPadding(s, n - 1);
    }
  }

  lemma {:induction false} BtoaIs(bs: seq<Byte>)
    ensures Btoa(bs) == Digits(Pack(bs)) + Padding((3 - |bs| % 3) % 3)
  {
    hide DigitA, DigitB, DigitC, DigitD, Digit;
    if |bs| >= 3 {
      BtoaIs(bs[3..]);
      assert (3 - |bs| % 3) % 3 == (3 - |bs[3..]| % 3) % 3;
      var group := [DigitA(bs[0]), DigitB(bs[0], bs[1]), DigitC(bs[1], bs[2]), DigitD(bs[2])];
      assert Digits(group + Pack(bs[3..])) == Digits(group) + Digits(Pack(bs[3..]));
    }
  }

  function UrlDigits(vs: seq<Sextet>): (s: string)
    ensures |s| == |vs| && forall i :: 0 <= i < |s| ==> s[i] == ToUrl(Digit(vs[i]))
  {
    Mapped(Digits(vs), ToUrl)
  }

  lemma EncodingIs(bs: seq<Byte>)
    ensures BytesToB64url(bs) == UrlDigits(Pack(bs))
  {
    BtoaIs(bs);
    var n := (3 - |bs| % 3) % 3;
    var s := UrlDigits(Pack(bs));
    assert Mapped(Btoa(bs), ToUrl) == s + Padding(n);
    TrimsPadding(s, n);
  }

  /** The alphabet of section 5 of RFC 4648: letters, digits, then '-' for 62 and '_' for 63. */
  predicate StandsFor(c: char, v: int) {
    || ('A' <= c <= 'Z' && v == c as int - 'A' as int)
    || ('a' <= c <= 'z' && v == c as int - 'a' as int + 26)
    || ('0' <= c <= '9' && v == c as int - '0' as int + 52)
    || (c == '-' && v == 62)
    || (c == '_' && v == 63)
  }

  lemma DigitStands(v: Sextet)
    ensures StandsFor(ToUrl(Digit(v)), v)
  {}

  lemma GroupOfDigits(x: Byte, y: Byte, z: Byte)
    ensures 262144 * DigitA(x) + 4096 * DigitB(x, y) + 64 * DigitC(y, z) + DigitD(z) == 65536 * x + 256 * y + z
  {}

  /** Three bytes, as a number in base 256, are the same number in base 64; what follows them is encoded on its own. */
  lemma GroupIsNumber(x: Byte, y: Byte, z: Byte, rest: seq<Byte>) returns (a: Sextet, b: Sextet, c: Sextet, d: Sextet)
    ensures 262144 * a + 4096 * b + 64 * c + d == 65536 * x + 256 * y + z
    ensures var s, t := BytesToB64url([x, y, z] + rest), BytesToB64url(rest);
      |s| == 4 + |t| && s[4..] == t && StandsFor(s[0], a) && StandsFor(s[1], b) && StandsFor(s[2], c) && StandsFor(s[3], d)
  {
    a, b, c, d := DigitA(x), DigitB(x, y), DigitC(y, z), DigitD(z);
    GroupOfDigits(x, y, z);
    DigitStands(a);
    DigitStands(b);
    DigitStands(c);
    DigitStands(d);
    EncodingIs([x, y, z] + rest);
    EncodingIs(rest);
    PackGroup(x, y, z, rest);
    hide Pack, BytesToB64url, ToUrl, Digit, StandsFor, DigitA, DigitB, DigitC, DigitD;
    assert UrlDigits([a, b, c, d] + Pack(rest))[4..] == UrlDigits(Pack(rest));
  }

  /** One byte left over is two digits, two bytes three, filled up with zero bits. */
  lemma TailIsNumber(x: Byte, y: Byte) returns (a: Sextet, b: Sextet, b': Sextet, c: Sextet)
    ensures 64 * a + b == 16 * x && 4096 * a + 64 * b' + c == 4 * (256 * x + y)
    ensures BytesToB64url([]) == ""
    ensures var s := BytesToB64url([x]); |s| == 2 && StandsFor(s[0], a) && StandsFor(s[1], b)
    ensures var s := BytesToB64url([x, y]); |s| == 3 && StandsFor(s[0], a) && StandsFor(s[1], b') && StandsFor(s[2], c)
  {
    a, b, b', c := DigitA(x), DigitB(x, 0), DigitB(x, y), DigitC(y, 0);
    DigitStands(a);
    DigitStands(b);
    DigitStands(b');
    DigitStands(c);
    EncodingIs([]);
    EncodingIs([x]);
    EncodingIs([x, y]);
    ShortPacks(x, y);
    hide Pack, BytesToB64url, ToUrl, Digit, StandsFor;
  }

  /** The digits of a base64url string. */
  function UrlValues(s: string): (vs: seq<Sextet>)
    requires UrlString(s)
    ensures |vs| == |s| && forall i :: 0 <= i < |s| ==> vs[i] == ValueOf(FromUrl(s[i])).value
  {
    seq(|s|, i requires 0 <= i < |s| => ValueOf(FromUrl(s[i])).value)
  }

  lemma DigitsAndValues(vs: seq<Sextet>, s: string)
    ensures UrlString(UrlDigits(vs)) && UrlValues(UrlDigits(vs)) == vs
    ensures UrlString(s) ==> UrlDigits(UrlValues(s)) == s
  {}

  lemma PaddingComesOff(t: string)
    requires AllDigits(t)
    ensures var u := WithoutPadding(WithoutSpaces(Padded(t)));
      if |t| % 4 == 1 then |u| % 4 != 1 && !AllDigits(u) else u == t
  {
    var p := Padded(t);
    forall i | 0 <= i < |p|
      ensures !Space(p[i])
    {
      assert i < |t| ==> ValueOf(t[i]).Some?;
    }
    NoSpacesToRemove(p);
    if |t| % 4 == 1 {
      var u := WithoutPadding(p);
      assert u == t + "=";
      assert u[|t|] == '=';
    } else if t != "" {
      assert ValueOf(t[|t| - 1]).Some?;
    }
  }

  lemma DecodingIs(s: string)
    requires UrlString(s)
    ensures B64urlToBytes(s) == if |s| % 4 == 1 then None else Some(Unpack(UrlValues(s)))
  {
    var t := Mapped(s, FromUrl);
    assert AllDigits(t);
    PaddingComesOff(t);
    hide Padded, WithoutPadding, WithoutSpaces, ValueOf, FromUrl;
    if |s| % 4 != 1 {
      assert Values(t) == UrlValues(s);
      assert Codes(Binary(Unpack(Values(t)))) == Unpack(Values(t));
    }
  }

  lemma {:induction false} SpaceDrops(s: string, c: char, t: string)
    requires Space(c)
    ensures WithoutSpaces(s + [c] + t) == WithoutSpaces(s + t)
  {
    if s == "" {
      assert ("" + [c] + t)[1..] == t && "" + t == t;
    } else {
      SpaceDrops(s[1..], c, t);
      assert (s + [c] + t)[1..] == s[1..] + [c] + t && (s + t)[1..] == s[1..] + t;
    }
  }

  /** The platform's decoder skips tabs, line feeds, form feeds, carriage returns and blanks, wherever they are. */
  lemma AtobSkipsSpaces(s: string, c: char, t: string)
    requires c as int in {9, 10, 12, 13, 32}
    ensures Atob(s + [c] + t) == Atob(s + t)
  {
    SpaceDrops(s, c, t);
  }

  lemma {:induction false} OthersStay(s: string, i: nat)
    requires i < |s| && !Space(s[i])
    ensures s[i] in WithoutSpaces(s)
  {
    if i > 0 {
      OthersStay(s[1..], i - 1);
    }
  }

  /** It throws on every other character that is not a digit of base64 or padding. */
  lemma AtobRejects(s: string, i: nat)
    requires i < |s| && s[i] as int !in {9, 10, 12, 13, 32} && s[i] != '='
    requires !('A' <= s[i] <= 'Z' || 'a' <= s[i] <= 'z' || '0' <= s[i] <= '9' || s[i] == '+' || s[i] == '/')
    ensures Atob(s).None?
  {
    OthersStay(s, i);
    var w := WithoutSpaces(s);
    var k :| 0 <= k < |w| && w[k] == s[i];
    assert WithoutPadding(w)[k] == s[i];
  }

  // ── Inverses ────────────────────────────────────────────────────────────

  /** Decoding undoes encoding, for all bytes, and the encoding uses the url alphabet only. */
  lemma DecodeEncode(bs: seq<Byte>)
    ensures UrlString(BytesToB64url(bs))
    ensures B64urlToBytes(BytesToB64url(bs)) == Some(bs)
  {
    EncodingIs(bs);
    UnpackPack(bs);
    DigitsAndValues(Pack(bs), "");
    DecodingIs(BytesToB64url(bs));
  }

  /** The check a ticket makes on its identity handle: re-encoding the decoded bytes gives the string back. */
  predicate Canonical(s: string) {
    B64urlToBytes(s).Some? && BytesToB64url(B64urlToBytes(s).value) == s
  }

  /** Exactly the url strings with clean trailing bits survive the check. */
  lemma CanonicalIff(s: string)
    ensures Canonical(s) <==> UrlString(s) && CleanTail(UrlValues(s))
  {
    if UrlString(s) {
      DecodingIs(s);
      if |s| % 4 != 1 {
        var bs := Unpack(UrlValues(s));
        EncodingIs(bs);
        PackUnpack(UrlValues(s));
        DigitsAndValues(Pack(bs), s);
        DigitsAndValues(UrlValues(s), s);
      }
    } else if B64urlToBytes(s).Some? {
      DecodeEncode(B64urlToBytes(s).value);
    }
  }

  /** On canonical strings decoding is one-to-one. */
  lemma DecodingIsInjective(s: string, t: string)
    requires Canonical(s) && Canonical(t) && B64urlToBytes(s) == B64urlToBytes(t)
    ensures s == t
  {}

  /** The check is needed: different strings of the right shape, one of them canonical, can stand for the same 32 bytes. */
  lemma WithoutTheCheck(s: string)
    requires |s| == 43 && Canonical(s) && s[42] == 'A'
    ensures var t := s[42 := 'B'];
      && UrlString(t) && t != s && B64urlToBytes(t) == B64urlToBytes(s) && !Canonical(t)
      && |B64urlToBytes(s).value| == 32
  {
    CanonicalIff(s);
    var t := s[42 := 'B'];
    OneBitMore(s, t);
    hide *;
    DecodingIs(s);
    DecodingIs(t);
    CanonicalIff(t);
    UnpackLength(UrlValues(s));
  }

  lemma OneBitMore(s: string, t: string)
    requires |s| == 43 && UrlString(s) && s[42] == 'A' && t == s[42 := 'B']
    ensures UrlString(t) && t != s && !CleanTail(UrlValues(t))
    ensures Unpack(UrlValues(t)) == Unpack(UrlValues(s))
  {
    assert t[42] == 'B';
    var vs, ws := UrlValues(s), UrlValues(t);
    assert vs[42] == 0 && ws[42] == 1;
    assert !CleanTail(ws);
    hide Unpack;
    SameBytes(vs, ws);
  }

  /** A last digit of three that differs in its unused bits only changes no byte. */
  lemma {:induction false} SameBytes(vs: seq<Sextet>, ws: seq<Sextet>)
    requires |vs| == |ws| && |vs| % 4 == 3
    requires forall i :: 0 <= i < |vs| - 1 ==> vs[i] == ws[i]
    requires vs[|vs| - 1] / 4 == ws[|ws| - 1] / 4
    ensures Unpack(vs) == Unpack(ws)
  {
    if |vs| > 3 {
      SameBytes(vs[4..], ws[4..]);
    }
  }

  // ── Hexadecimal ─────────────────────────────────────────────────────────

  predicate HexChar(c: char) {
    '0' <= c <= '9' || 'a' <= c <= 'f' || 'A' <= c <= 'F'
  }

  predicate HexString(h: string) {
    forall i :: 0 <= i < |h| ==> HexChar(h[i])
  }

  function HexDigit(v: int): char
    requires 0 <= v < 16
  {
    if v < 10 then ('0' as int + v) as char else ('a' as int + v - 10) as char
  }

  function HexValue(c: char): (v: int)
    requires HexChar(c)
    ensures 0 <= v < 16
  {
    if c <= '9' then c as int - '0' as int
    else if c <= 'F' then c as int - 'A' as int + 10
    else c as int - 'a' as int + 10
  }

  function Hex(bs: seq<Byte>): string {
    if bs == [] then "" else Hex(bs[..|bs| - 1]) + [HexDigit(bs[|bs| - 1] / 16), HexDigit(bs[|bs| - 1] % 16)]
  }

  /** Pairs of digits; an odd last digit is ignored. */
  function Unhex(h: string): (bs: seq<Byte>)
    requires HexString(h)
    ensures |bs| == |h| / 2
  {
    seq(|h| / 2, i requires 0 <= i < |h| / 2 => HexValue(h[2 * i]) * 16 + HexValue(h[2 * i + 1]))
  }

  method BytesToHex(b: array<Byte>) returns (out: string)
    ensures out == Hex(b[..])
  {
    out := "";
    var i := 0;
    while i < b.Length
      invariant 0 <= i <= b.Length
      invariant out == Hex(b[..i])
    {
      assert b[..i + 1][..i] == b[..i];
      out := out + [HexDigit(b[i] / 16), HexDigit(b[i] % 16)];
      i := i + 1;
    }
    assert b[..i] == b[..];
  }

  method HexToBytes(h: string) returns (out: array<Byte>)
    requires HexString(h)
    ensures out[..] == Unhex(h)
  {
    out := new Byte[|h| / 2];
    var i := 0;
    while i < out.Length
      invariant 0 <= i <= out.Length
      invariant forall k :: 0 <= k < i ==> out[k] == Unhex(h)[k]
    {
      out[i] := HexValue(h[2 * i]) * 16 + HexValue(h[2 * i + 1]);
      i := i + 1;
    }
  }

  lemma {:induction false} HexAt(bs: seq<Byte>)
    ensures |Hex(bs)| == 2 * |bs| && HexString(Hex(bs))
    ensures forall i :: 0 <= i < |bs| ==> Hex(bs)[2 * i] == HexDigit(bs[i] / 16) && Hex(bs)[2 * i + 1] == HexDigit(bs[i] % 16)
  {
    if bs != [] {
      HexAt(bs[..|bs| - 1]);
    }
  }

  /** Two lower-case digits for a byte, the high one first. */
  lemma HexDigitsAre(bs: seq<Byte>, i: nat) returns (hi: int, lo: int)
    requires i < |bs|
    ensures |Hex(bs)| == 2 * |bs| && bs[i] == 16 * hi + lo
    ensures HexStandsFor(Hex(bs)[2 * i], hi) && HexStandsFor(Hex(bs)[2 * i + 1], lo)
  {
    hi, lo := bs[i] / 16, bs[i] % 16;
    HexAt(bs);
    hide Hex;
  }

  /** Letters of either case are read. */
  lemma HexReadsBothCases(c: char)
    ensures HexChar(c) <==> '0' <= c <= '9' || 'a' <= c <= 'f' || 'A' <= c <= 'F'
    ensures 'A' <= c <= 'F' ==> HexValue(c) == c as int - 'A' as int + 10
    ensures 'a' <= c <= 'f' ==> HexValue(c) == c as int - 'a' as int + 10
    ensures '0' <= c <= '9' ==> HexValue(c) == c as int - '0' as int
  {}

  predicate HexStandsFor(c: char, v: int) {
    ('0' <= c <= '9' && v == c as int - '0' as int) || ('a' <= c <= 'f' && v == c as int - 'a' as int + 10)
  }

  /** Reading hexadecimal undoes writing it; so no two byte strings share their digits. */
  lemma UnhexHex(bs: seq<Byte>)
    ensures HexString(Hex(bs)) && Unhex(Hex(bs)) == bs
  {
    HexAt(bs);
  }

  function Lower(c: char): char {
    if 'A' <= c <= 'Z' then (c as int + 32) as char else c
  }

  lemma HexPair(c: char, d: char)
    requires HexChar(c) && HexChar(d)
    ensures HexDigit((HexValue(c) * 16 + HexValue(d)) / 16) == Lower(c)
    ensures HexDigit((HexValue(c) * 16 + HexValue(d)) % 16) == Lower(d)
  {}

  /** Writing undoes reading up to letter case, on strings of even length. */
  lemma HexUnhex(h: string)
    requires HexString(h) && |h| % 2 == 0
    ensures Hex(Unhex(h)) == Mapped(h, Lower)
  {
    var bs := Unhex(h);
    HexAt(bs);
    hide Hex, HexDigit, HexValue, Lower;
    forall k | 0 <= k < |h|
      ensures Hex(bs)[k] == Lower(h[k])
    {
      var i := k / 2;
      HexPair(h[2 * i], h[2 * i + 1]);
      assert bs[i] == HexValue(h[2 * i]) * 16 + HexValue(h[2 * i + 1]);
      assert k == 2 * i || k == 2 * i + 1;
    }
  }
}
