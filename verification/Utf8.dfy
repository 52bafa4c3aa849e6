// UTF-8 (RFC 3629): text to bytes, and what Go makes of bytes that need not be UTF-8.
module Utf8 {
  import opened Common

  function EncodeChar(c: char): (r: seq<Byte>)
    ensures 1 <= |r| <= 4
  {
    var n := c as int;
    if n < 0x80 then [n]
    else if n < 0x800 then [0xC0 + n / 0x40, 0x80 + n % 0x40]
    else if n < 0x1_0000 then [0xE0 + n / 0x1000, 0x80 + n / 0x40 % 0x40, 0x80 + n % 0x40]
    else [0xF0 + n / 0x4_0000, 0x80 + n / 0x1000 % 0x40, 0x80 + n / 0x40 % 0x40, 0x80 + n % 0x40]
  }

  function Encode(s: string): seq<Byte> {
    if s == [] then [] else EncodeChar(s[0]) + Encode(s[1..])
  }

  // The length of the character that starts with byte b.
  function LengthFrom(b: Byte): nat {
    if b < 0x80 then 1 else if b < 0xE0 then 2 else if b < 0xF0 then 3 else 4
  }

  // The number of the character encoded by the bytes.
  function ScalarOf(b: seq<Byte>): int
    requires 1 <= |b| <= 4
  {
    if |b| == 1 then b[0]
    else if |b| == 2 then Join(b[0] as int - 0xC0, b[1])
    else if |b| == 3 then Join(Join(b[0] as int - 0xE0, b[1]), b[2])
    else Join(Join(Join(b[0] as int - 0xF0, b[1]), b[2]), b[3])
  }

  // Six more bits.
  function Join(n: int, b: Byte): int {
    n * 0x40 + (b as int - 0x80)
  }

  lemma SixBits(n: nat)
    ensures n / 0x40 * 0x40 + n % 0x40 == n
    ensures n / 0x1000 * 0x40 + n / 0x40 % 0x40 == n / 0x40
    ensures n / 0x4_0000 * 0x40 + n / 0x1000 % 0x40 == n / 0x1000
  {
  }

  lemma CharRoundTrip(c: char)
    ensures LengthFrom(EncodeChar(c)[0]) == |EncodeChar(c)|
    ensures ScalarOf(EncodeChar(c)) == c as int
  {
    SixBits(c as int);
  }

  function Payload(b: Byte, marker: int): int {
    b as int - marker
  }

  // The four forms of section 3 of RFC 3629: what the first byte starts with, what the others do, and the bits between.
  lemma Forms(c: char)
    ensures var b, n := EncodeChar(c), c as int;
      && (|b| == 1 <==> n < 0x80) && (|b| <= 2 <==> n < 0x800) && (|b| <= 3 <==> n < 0x1_0000)
      && (|b| == 1 ==> b[0] == n)
      && (|b| == 2 ==> 0xC0 <= b[0] < 0xE0 && n == Payload(b[0], 0xC0) * 0x40 + Payload(b[1], 0x80))
      && (|b| == 3 ==> 0xE0 <= b[0] < 0xF0
                       && n == (Payload(b[0], 0xE0) * 0x40 + Payload(b[1], 0x80)) * 0x40 + Payload(b[2], 0x80))
      && (|b| == 4 ==> 0xF0 <= b[0] < 0xF8
                       && n == ((Payload(b[0], 0xF0) * 0x40 + Payload(b[1], 0x80)) * 0x40 + Payload(b[2], 0x80)) * 0x40
                               + Payload(b[3], 0x80))
      && (forall i :: 0 < i < |b| ==> 0x80 <= b[i] < 0xC0)
  {
    SixBits(c as int);
  }

  lemma SameFirst(c: char, d: char, x: seq<Byte>, y: seq<Byte>)
    requires EncodeChar(c) + x == EncodeChar(d) + y
    ensures c == d && x == y
  {
    CharRoundTrip(c);
    CharRoundTrip(d);
    var a, b := EncodeChar(c) + x, EncodeChar(d) + y;
    assert a[0] == EncodeChar(c)[0] && b[0] == EncodeChar(d)[0];
    var k := |EncodeChar(c)|;
    assert a[..k] == EncodeChar(c) && b[..k] == EncodeChar(d);
    assert c as int == d as int;
    assert a[k..] == x && b[k..] == y;
  }

  // The bytes determine the text.
  lemma {:induction false} EncodeInjective(s: string, t: string)
    requires Encode(s) == Encode(t)
    ensures s == t
  {
    if s != [] && t != [] {
      SameFirst(s[0], t[0], Encode(s[1..]), Encode(t[1..]));
      EncodeInjective(s[1..], t[1..]);
      assert s == [s[0]] + s[1..] && t == [t[0]] + t[1..];
    }
  }

  // ---- Go strings ----

  // A Go string is any sequence of bytes. Ranging over it yields characters and, for each byte that is not part of a
  // well-formed character, that byte.
  type GoString = seq<Byte>

  datatype Rune = Scalar(c: char) | BadByte(b: Byte)

  predicate IsScalar(n: int) {
    0 <= n < 0xD800 || 0xE000 <= n < 0x11_0000
  }

  // The character at the start of the bytes, if there is a well-formed one (utf8.DecodeRune).
  function Head(b: seq<Byte>): (r: Option<char>)
    ensures r.Some? ==> EncodeChar(r.value) <= b
  {
    if b == [] || |b| < LengthFrom(b[0]) then None
    else
      var k := LengthFrom(b[0]);
      var n := ScalarOf(b[..k]);
      if IsScalar(n) && EncodeChar(n as char) == b[..k] then Some(n as char) else None
  }

  function Runes(b: GoString): seq<Rune>
    decreases |b|
  {
    if b == [] then []
    else if Head(b).Some? then [Scalar(Head(b).value)] + Runes(b[|EncodeChar(Head(b).value)|..])
    else [BadByte(b[0])] + Runes(b[1..])
  }

  predicate AllScalars(rs: seq<Rune>) {
    forall i :: 0 <= i < |rs| ==> rs[i].Scalar?
  }

  predicate Valid(b: GoString) {
    AllScalars(Runes(b))
  }

  // The text a reader of the JSON gets to see: U+FFFD for each bad byte.
  function HealRunes(rs: seq<Rune>): (s: string)
    ensures |s| == |rs|
    ensures forall i :: 0 <= i < |rs| ==> s[i] == if rs[i].Scalar? then rs[i].c else '\U{FFFD}'
  {
    seq(|rs|, i requires 0 <= i < |rs| => if rs[i].Scalar? then rs[i].c else '\U{FFFD}')
  }

  function Heal(b: GoString): string {
    HealRunes(Runes(b))
  }

  function Scalars(s: string): (rs: seq<Rune>)
    ensures |rs| == |s| && forall i :: 0 <= i < |s| ==> rs[i] == Scalar(s[i])
  {
    seq(|s|, i requires 0 <= i < |s| => Scalar(s[i]))
  }

  function BytesOf(rs: seq<Rune>): seq<Byte> {
    if rs == [] then []
    else (if rs[0].Scalar? then EncodeChar(rs[0].c) else [rs[0].b]) + BytesOf(rs[1..])
  }

  lemma HeadOf(c: char, rest: seq<Byte>)
    ensures Head(EncodeChar(c) + rest) == Some(c)
  {
    CharRoundTrip(c);
    var b := EncodeChar(c) + rest;
    assert b[..|EncodeChar(c)|] == EncodeChar(c);
  }

  // The runes of a string determine it.
  lemma {:induction false} RunesInverse(b: GoString)
    ensures BytesOf(Runes(b)) == b
    decreases |b|
  {
    if b != [] {
      var k := if Head(b).Some? then |EncodeChar(Head(b).value)| else 1;
      RunesInverse(b[k..]);
      assert b == b[..k] + b[k..];
      assert Runes(b)[1..] == Runes(b[k..]);
    }
  }

  lemma RunesStep(c: char, rest: GoString)
    ensures Runes(EncodeChar(c) + rest) == [Scalar(c)] + Runes(rest)
  {
    HeadOf(c, rest);
    assert (EncodeChar(c) + rest)[|EncodeChar(c)|..] == rest;
  }

  lemma ScalarsStep(s: string)
    requires s != []
    ensures Scalars(s) == [Scalar(s[0])] + Scalars(s[1..])
  {
  }

  // Whatever follows a text, its characters are read first.
  lemma {:induction false} RunesAfterText(s: string, b: GoString)
    ensures Runes(Encode(s) + b) == Scalars(s) + Runes(b)
  {
    if s == [] {
      assert Encode(s) + b == b;
    } else {
      Assoc(EncodeChar(s[0]), Encode(s[1..]), b);
      RunesStep(s[0], Encode(s[1..]) + b);
      RunesAfterText(s[1..], b);
      ScalarsStep(s);
      Assoc([Scalar(s[0])], Scalars(s[1..]), Runes(b));
    }
  }

  lemma TailBytes(c: char, i: nat)
    requires 0 < i < |EncodeChar(c)|
    ensures EncodeChar(c)[i] >= 0x80
  {
  }

  lemma HeadBeforeAscii(a: GoString, b: GoString)
    requires a != [] && b != [] && b[0] < 0x80
    ensures Head(a + b) == Head(a)
  {
    var k := LengthFrom(a[0]);
    if |a| >= k {
      assert (a + b)[..k] == a[..k];
    } else if Head(a + b).Some? {
      var c := Head(a + b).value;
      CharRoundTrip(c);
      assert (a + b)[|a|] == b[0];
      TailBytes(c, |a|);
    }
  }

  // The first rune and the number of its bytes.
  function First(b: GoString): (r: (Rune, nat))
    requires b != []
    ensures 1 <= r.1 <= |b|
  {
    if Head(b).Some? then (Scalar(Head(b).value), |EncodeChar(Head(b).value)|) else (BadByte(b[0]), 1)
  }

  lemma RunesFirst(b: GoString)
    requires b != []
    ensures Runes(b) == [First(b).0] + Runes(b[First(b).1..])
  {
  }

  lemma FirstBeforeAscii(a: GoString, b: GoString)
    requires a != [] && b != [] && b[0] < 0x80
    ensures First(a + b) == First(a)
  {
    HeadBeforeAscii(a, b);
  }

  // An ASCII character ends whatever comes before it.
  lemma {:induction false} RunesBeforeAscii(a: GoString, b: GoString)
    requires b != [] && b[0] < 0x80
    ensures Runes(a + b) == Runes(a) + Runes(b)
    decreases |a|
  {
    if a == [] {
      assert a + b == b;
    } else {
      var f := First(a);
      FirstBeforeAscii(a, b);
      RunesFirst(a);
      RunesFirst(a + b);
      DropConcat(a, b, f.1);
      RunesBeforeAscii(a[f.1..], b);
      Assoc([f.0], Runes(a[f.1..]), Runes(b));
    }
  }

  lemma RunesOfText(s: string)
    ensures Runes(Encode(s)) == Scalars(s) && Heal(Encode(s)) == s
  {
    RunesAfterText(s, []);
    assert Encode(s) + [] == Encode(s) && Scalars(s) + [] == Scalars(s);
  }

  lemma {:induction false} BytesOfScalars(rs: seq<Rune>)
    requires AllScalars(rs)
    ensures BytesOf(rs) == Encode(HealRunes(rs))
  {
    if rs != [] {
      BytesOfScalars(rs[1..]);
      assert HealRunes(rs)[1..] == HealRunes(rs[1..]);
    }
  }

  // A Go string is valid exactly when it is the UTF-8 of some text, which is then the text others see.
  lemma ValidIsText(b: GoString)
    ensures Valid(b) <==> b == Encode(Heal(b))
  {
    RunesOfText(Heal(b));
    RunesInverse(b);
    if Valid(b) { BytesOfScalars(Runes(b)); }
  }
}
