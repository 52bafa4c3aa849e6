// Base64 and base32 text (sections 4 and 6 of RFC 4648) as the Go decoders read it: carriage returns and line
// feeds are skipped, and stray bits of the last symbol are not checked.
module Base {
  import opened Common
  import opened Bits

  // ---- Alphabets ----

  function Symbol64(i: nat): char
    requires i < 64
  {
    if i < 26 then ('A' as int + i) as char
    else if i < 52 then ('a' as int + i - 26) as char
    else if i < 62 then ('0' as int + i - 52) as char
    else if i == 62 then '+'
    else '/'
  }

  function Index64(c: char): Option<nat> {
    if 'A' <= c <= 'Z' then Some(c as int - 'A' as int)
    else if 'a' <= c <= 'z' then Some(c as int - 'a' as int + 26)
    else if '0' <= c <= '9' then Some(c as int - '0' as int + 52)
    else if c == '+' then Some(62)
    else if c == '/' then Some(63)
    else None
  }

  function Symbol32(i: nat): char
    requires i < 32
  {
    if i < 26 then ('A' as int + i) as char else ('2' as int + i - 26) as char
  }

  function Index32(c: char): Option<nat> {
    if 'A' <= c <= 'Z' then Some(c as int - 'A' as int)
    else if '2' <= c <= '7' then Some(c as int - '2' as int + 26)
    else None
  }

  predicate IsNewline(c: char) {
    c == '\r' || c == '\n'
  }

  function StripNewlines(s: string): string {
    Filter(s, c => !IsNewline(c))
  }

  lemma {:induction false} NothingToStrip(s: string)
    requires forall i :: 0 <= i < |s| ==> !IsNewline(s[i])
    ensures StripNewlines(s) == s
  {
    if s != [] { NothingToStrip(s[1..]); }
  }

  // Carriage returns and line feeds make no difference, wherever they stand.
  lemma NewlinesIgnored(a: string, c: char, b: string)
    requires c == '\r' || c == '\n'
    ensures StripNewlines(a + [c] + b) == StripNewlines(a + b)
  {
    var keep := (x: char) => !IsNewline(x);
    FilterAppend(a + [c], b, keep);
    FilterAppend(a, [c], keep);
    FilterAppend(a, b, keep);
    assert [c][1..] == [] && Filter([c], keep) == [];
  }

  // The symbols of a text, if every character is in the alphabet.
  function Indexes(s: string, index: char -> Option<nat>): (r: Option<seq<nat>>)
    ensures r.Some? ==> |r.value| == |s|
    ensures r.Some? <==> forall i :: 0 <= i < |s| ==> index(s[i]).Some?
  {
    if s == [] then Some([])
    else
      var rest := Indexes(s[1..], index);
      if index(s[0]).Some? && rest.Some? then Some([index(s[0]).value] + rest.value) else None
  }

  lemma {:induction false} IndexesOf(s: string, symbols: seq<nat>, index: char -> Option<nat>)
    requires |s| == |symbols| && forall i :: 0 <= i < |s| ==> index(s[i]) == Some(symbols[i])
    ensures Indexes(s, index) == Some(symbols)
  {
    if s != [] {
      IndexesOf(s[1..], symbols[1..], index);
      assert symbols == [symbols[0]] + symbols[1..];
    }
  }

  // ---- Base64 without padding (base64.RawStdEncoding) ----

  function Encode64(bytes: seq<Byte>): (r: string)
    ensures |r| == |Encode(bytes, 6)|
    ensures forall i :: 0 <= i < |r| ==> Index64(r[i]).Some?
  {
    assert Pow2(6) == 64;
    var symbols := Encode(bytes, 6);
    seq(|symbols|, i requires 0 <= i < |symbols| => Symbol64(symbols[i]))
  }

  function Decode64(s: string): Option<seq<Byte>> {
    var symbols := Indexes(StripNewlines(s), Index64);
    if symbols.None? || |symbols.value| % 4 == 1 then None else Some(Decode(symbols.value, 6))
  }

  lemma Groups64(bytes: seq<Byte>)
    ensures |Encode(bytes, 6)| % 4 != 1
  {
    EncodedLength(bytes, 6);
  }

  lemma RoundTrip64(bytes: seq<Byte>)
    ensures Decode64(Encode64(bytes)) == Some(bytes)
  {
    var s := Encode64(bytes);
    NothingToStrip(s);
    IndexesOf(s, Encode(bytes, 6), Index64);
    Groups64(bytes);
    RoundTrip(bytes, 6);
  }

  const UPPER := "ABCDEFGHIJKLMNOPQRSTUVWXYZ"
  const LOWER := "abcdefghijklmnopqrstuvwxyz"

  // The alphabets of tables 1 and 3 of RFC 4648.
  const ALPHABET64: string := UPPER + LOWER + "0123456789" + "+/"
  const ALPHABET32: string := UPPER + "234567"

  lemma InAlphabet64(i: nat)
    requires i < 64
    ensures |ALPHABET64| == 64 && Symbol64(i) == ALPHABET64[i]
  {
    Consecutive(UPPER, LOWER);
    if i < 26 {
      assert ALPHABET64[i] == UPPER[i];
    } else if i < 52 {
      assert ALPHABET64[i] == LOWER[i - 26];
    }
  }

  lemma Consecutive(upper: string, lower: string)
    requires upper == UPPER && lower == LOWER
    ensures |upper| == |lower| == 26
    ensures forall i :: 0 <= i < 26 ==> upper[i] as int == 'A' as int + i && lower[i] as int == 'a' as int + i
  {
  }

  lemma InAlphabet32(i: nat)
    requires i < 32
    ensures |ALPHABET32| == 32 && Symbol32(i) == ALPHABET32[i]
  {
    Consecutive(UPPER, LOWER);
    if i < 26 { assert ALPHABET32[i] == UPPER[i]; }
  }

  // Each character is the digit of the alphabet's base that it stands for; together they are the number of the bytes,
  // most significant first, shifted left to fill the last character with zeros.
  lemma TextOf64(bytes: seq<Byte>) returns (digits: seq<nat>)
    ensures |Encode64(bytes)| == |digits| == (8 * |bytes| + 5) / 6
    ensures forall i :: 0 <= i < |digits| ==>
              digits[i] < 64 == |ALPHABET64| && Encode64(bytes)[i] == ALPHABET64[digits[i]]
    ensures FromDigits(digits, 64) == FromDigits(Widen(bytes), 256) * Pow2(Fill(|bytes|, 6))
  {
    digits := Encode(bytes, 6);
    assert Pow2(6) == 64;
    EncodedLength(bytes, 6);
    EncodedValue(bytes, 6);
    forall i | 0 <= i < |digits|
      ensures digits[i] < 64 == |ALPHABET64| && Encode64(bytes)[i] == ALPHABET64[digits[i]]
    {
      InAlphabet64(digits[i]);
    }
  }

  function At64(i: nat): char
    requires i < 64
  {
    InAlphabet64(i);
    ALPHABET64[i]
  }

  lemma DigitStep(ds: seq<nat>, base: nat, n: nat)
    requires n < |ds|
    ensures FromDigits(ds[..n + 1], base) == FromDigits(ds[..n], base) * base + ds[n]
  {
    assert ds[..n + 1][..n] == ds[..n];
  }

  lemma NumberOf(ds: seq<nat>, base: nat)
    requires 1 <= |ds| <= 4
    ensures FromDigits(ds, base) ==
            if |ds| == 1 then ds[0]
            else if |ds| == 2 then ds[0] * base + ds[1]
            else if |ds| == 3 then (ds[0] * base + ds[1]) * base + ds[2]
            else ((ds[0] * base + ds[1]) * base + ds[2]) * base + ds[3]
  {
    assert ds[..|ds|] == ds && ds[..0] == [];
    DigitStep(ds, base, 0);
    if |ds| > 1 { DigitStep(ds, base, 1); }
    if |ds| > 2 { DigitStep(ds, base, 2); }
    if |ds| > 3 { DigitStep(ds, base, 3); }
  }

  // The digits d make the same number as the bytes x, y and z.
  lemma SixBits(x: Byte, y: Byte, z: Byte, d0: nat, d1: nat, d2: nat, d3: nat)
    requires d0 < 64 && d1 < 64 && d2 < 64 && d3 < 64
    requires ((d0 * 64 + d1) * 64 + d2) * 64 + d3 == (x * 256 + y) * 256 + z
    ensures d0 == x / 4 && d1 == x % 4 * 16 + y / 16 && d2 == y % 16 * 4 + z / 64 && d3 == z % 64
  {
  }

  // The three bytes of a quantum; those missing count as zero.
  function ByteAt(bytes: seq<Byte>, i: nat): Byte {
    if i < |bytes| then bytes[i] else 0
  }

  lemma FillPower(n: nat)
    requires 1 <= n <= 3
    ensures Pow2(Fill(n, 6)) == if n == 1 then 16 else if n == 2 then 4 else 1
  {
    assert Pow2(4) == 16 && Pow2(2) == 4 && Pow2(0) == 1;
  }

  // The digits of a quantum of up to three bytes x, y and z; those that are missing count as zero.
  lemma QuantumDigits(n: nat, bytes: nat, digits: nat, x: Byte, y: Byte, z: Byte, d0: nat, d1: nat, d2: nat, d3: nat)
    requires 1 <= n <= 3 && d0 < 64 && d1 < 64 && d2 < 64 && d3 < 64
    requires bytes == if n == 1 then x else if n == 2 then x * 256 + y else (x * 256 + y) * 256 + z
    requires digits == if n == 1 then d0 * 64 + d1 else if n == 2 then (d0 * 64 + d1) * 64 + d2
                       else ((d0 * 64 + d1) * 64 + d2) * 64 + d3
    requires digits == bytes * if n == 1 then 16 else if n == 2 then 4 else 1
    requires (n < 2 ==> y == 0 && d2 == 0) && (n < 3 ==> z == 0 && d3 == 0)
    ensures d0 == x / 4 && d1 == x % 4 * 16 + y / 16 && d2 == y % 16 * 4 + z / 64 && d3 == z % 64
  {
    SixBits(x, y, z, d0, d1, d2, d3);
  }

  lemma QuantumSymbols(bytes: seq<Byte>)
    requires 1 <= |bytes| <= 3
    ensures var x, y, z := bytes[0], ByteAt(bytes, 1), ByteAt(bytes, 2);
      var ds := Encode(bytes, 6);
      && |ds| == |bytes| + 1 && ds[0] == x / 4 && ds[1] == x % 4 * 16 + y / 16
      && (|ds| > 2 ==> ds[2] == y % 16 * 4 + z / 64) && (|ds| > 3 ==> ds[3] == z % 64)
  {
    var n, ds, ws := |bytes|, Encode(bytes, 6), Widen(bytes);
    assert Pow2(6) == 64;
    EncodedLength(bytes, 6);
    EncodedValue(bytes, 6);
    NumberOf(ds, 64);
    NumberOf(ws, 256);
    FillPower(n);
    QuantumDigits(n, FromDigits(ws, 256), FromDigits(ds, 64), bytes[0], ByteAt(bytes, 1), ByteAt(bytes, 2),
                  ds[0], ds[1], if n > 1 then ds[2] else 0, if n > 2 then ds[3] else 0);
  }

  lemma CharacterAt64(bytes: seq<Byte>, i: nat, d: nat)
    requires i < |Encode(bytes, 6)| && Encode(bytes, 6)[i] == d < 64
    ensures Encode64(bytes)[i] == At64(d)
  {
    InAlphabet64(d);
  }

  // One, two and three bytes, as section 4 of RFC 4648 has them: the bits left over in the last character are zero.
  lemma Quantum64(bytes: seq<Byte>)
    requires 1 <= |bytes| <= 3
    ensures var x, y, z := bytes[0], ByteAt(bytes, 1), ByteAt(bytes, 2);
      var s := Encode64(bytes);
      && |s| == |bytes| + 1 && s[0] == At64(x / 4) && s[1] == At64(x % 4 * 16 + y / 16)
      && (|s| > 2 ==> s[2] == At64(y % 16 * 4 + z / 64)) && (|s| > 3 ==> s[3] == At64(z % 64))
  {
    QuantumSymbols(bytes);
    var ds := Encode(bytes, 6);
    CharacterAt64(bytes, 0, ds[0]);
    CharacterAt64(bytes, 1, ds[1]);
    if |ds| > 2 { CharacterAt64(bytes, 2, ds[2]); }
    if |ds| > 3 { CharacterAt64(bytes, 3, ds[3]); }
  }

  // Exactly the texts over the alphabet are decoded, carriage returns and line feeds aside, whose length leaves no lone
  // last character.
  lemma Accepts64(s: string)
    ensures var t := StripNewlines(s);
      Decode64(s).Some? <==> (forall i :: 0 <= i < |t| ==> t[i] in ALPHABET64) && |t| % 4 != 1
  {
    var t := StripNewlines(s);
    forall i | 0 <= i < |t|
      ensures Index64(t[i]).Some? <==> t[i] in ALPHABET64
    {
      Alphabetic64(t[i]);
    }
  }

  lemma Alphabetic64(c: char)
    ensures Index64(c).Some? <==> c in ALPHABET64
  {
    if Index64(c).Some? {
      InAlphabet64(Index64(c).value);
    } else {
      forall i | 0 <= i < |ALPHABET64|
        ensures ALPHABET64[i] != c
      {
        InAlphabet64(i);
      }
    }
  }

  // With padding: the text without its padding is decoded, and the strict decoder of the Rust agent accepts only what
  // the encoder would have written.
  function EncodePadded64(bytes: seq<Byte>): string {
    var s := Encode64(bytes);
    s + Pads((4 - |s| % 4) % 4)
  }

  function Pads(n: nat): (r: string)
    ensures |r| == n
  {
    if n == 0 then [] else Pads(n - 1) + ['=']
  }

  // Padded to whole groups of four by one or two signs.
  lemma PaddedForm64(bytes: seq<Byte>)
    ensures var s, t := Encode64(bytes), EncodePadded64(bytes);
      && |t| == (|bytes| + 2) / 3 * 4 && |s| <= |t| <= |s| + 2 && t[..|s|] == s
      && forall i :: |s| <= i < |t| ==> t[i] == '='
  {
    EncodedLength(bytes, 6);
    OnlySigns((4 - |Encode64(bytes)| % 4) % 4);
  }

  lemma {:induction false} OnlySigns(n: nat)
    ensures forall i :: 0 <= i < n ==> Pads(n)[i] == '='
  {
    if n > 0 { OnlySigns(n - 1); }
  }

  function WithoutPadding(s: string): string {
    if s != [] && s[|s| - 1] == '=' then WithoutPadding(s[..|s| - 1]) else s
  }

  function DecodeStrict64(s: string): Option<seq<Byte>> {
    var bytes := Decode64(WithoutPadding(s));
    if bytes.Some? && EncodePadded64(bytes.value) == s then bytes else None
  }

  lemma {:induction false} PaddingRemoved(s: string, n: nat)
    requires s == [] || s[|s| - 1] != '='
    ensures WithoutPadding(s + Pads(n)) == s
  {
    var t := s + Pads(n);
    if n == 0 {
      assert t == s;
    } else {
      PaddingRemoved(s, n - 1);
      assert t[..|t| - 1] == s + Pads(n - 1);
    }
  }

  lemma StrictInverse(bytes: seq<Byte>)
    ensures DecodeStrict64(EncodePadded64(bytes)) == Some(bytes)
  {
    var padded := EncodePadded64(bytes);
    assert WithoutPadding(padded) == Encode64(bytes) by {
      EndsInSymbol(bytes);
      PaddingRemoved(Encode64(bytes), (4 - |Encode64(bytes)| % 4) % 4);
    }
    assert Decode64(Encode64(bytes)) == Some(bytes) by { RoundTrip64(bytes); }
  }

  lemma EndsInSymbol(bytes: seq<Byte>)
    ensures var s := Encode64(bytes); s == [] || s[|s| - 1] != '='
  {
    var s := Encode64(bytes);
    if s != [] {
      assert Index64(s[|s| - 1]).Some?;
    }
  }

  // The strict decoder inverts the padded encoder, and accepts nothing else.
  lemma RoundTripStrict64(bytes: seq<Byte>, s: string)
    ensures DecodeStrict64(s) == Some(bytes) <==> s == EncodePadded64(bytes)
  {
    StrictInverse(bytes);
  }

  // ---- Base32 ----

  function Encode32(bytes: seq<Byte>): (r: string)
    ensures |r| == |Encode(bytes, 5)|
    ensures forall i :: 0 <= i < |r| ==> Index32(r[i]) == Some(Encode(bytes, 5)[i])
  {
    assert Pow2(5) == 32;
    var symbols := Encode(bytes, 5);
    seq(|symbols|, i requires 0 <= i < |symbols| => Symbol32(symbols[i]))
  }

  lemma TextOf32(bytes: seq<Byte>) returns (digits: seq<nat>)
    ensures |Encode32(bytes)| == |digits| == (8 * |bytes| + 4) / 5
    ensures forall i :: 0 <= i < |digits| ==>
              digits[i] < 32 == |ALPHABET32| && Encode32(bytes)[i] == ALPHABET32[digits[i]]
    ensures FromDigits(digits, 32) == FromDigits(Widen(bytes), 256) * Pow2(Fill(|bytes|, 5))
  {
    digits := Encode(bytes, 5);
    assert Pow2(5) == 32;
    EncodedLength(bytes, 5);
    EncodedValue(bytes, 5);
    forall i | 0 <= i < |digits|
      ensures digits[i] < 32 == |ALPHABET32| && Encode32(bytes)[i] == ALPHABET32[digits[i]]
    {
      InAlphabet32(digits[i]);
    }
  }

  // The sizes a last group of symbols can have.
  predicate EndsGroup(r: nat) {
    r == 0 || r == 2 || r == 4 || r == 5 || r == 7
  }

  // A last group of 1, 3 or 6 symbols yields no bytes.
  function Whole(n: nat): (m: nat)
    ensures m <= n
  {
    if n % 8 == 1 || n % 8 == 3 || n % 8 == 6 then n - n % 8 else n
  }

  // base32.StdEncoding.WithPadding(base32.NoPadding)
  function Decode32(s: string): Option<seq<Byte>> {
    var symbols := Indexes(StripNewlines(s), Index32);
    if symbols.None? then None else Some(Decode(symbols.value[..Whole(|symbols.value|)], 5))
  }

  // How many bytes the last group of symbols yields: none if there are 1, 3 or 6.
  function LastBytes(r: nat): nat {
    if r == 2 then 1 else if r == 4 then 2 else if r == 5 then 3 else if r == 7 then 4 else 0
  }

  lemma DecodedLength32(s: string)
    ensures var n := |StripNewlines(s)|;
      Decode32(s).Some? ==> |Decode32(s).value| == n / 8 * 5 + LastBytes(n % 8)
  {
    var n := |StripNewlines(s)|;
    var w := Whole(n);
    assert w == n / 8 * 8 + w % 8 && w % 8 in {0, 2, 4, 5, 7};
    assert w * 5 / 8 == n / 8 * 5 + w % 8 * 5 / 8;
  }

  lemma RoundTrip32(bytes: seq<Byte>)
    ensures Decode32(Encode32(bytes)) == Some(bytes)
  {
    var s, symbols := Encode32(bytes), Encode(bytes, 5);
    NothingToStrip(s);
    IndexesOf(s, symbols, Index32);
    WholeGroups(bytes);
    assert symbols[..|symbols|] == symbols;
    RoundTrip(bytes, 5);
  }

  lemma WholeGroups(bytes: seq<Byte>)
    ensures var n := |Encode(bytes, 5)|; Whole(n) == n && EndsGroup(n % 8)
  {
    EncodedLength(bytes, 5);
  }

  // ---- Base32 with padding (base32.StdEncoding) ----

  // How many symbols the next group starts with.
  function GroupLength(s: string): (j: nat)
    ensures j <= 8 && j <= |s|
    ensures forall i :: 0 <= i < j ==> Index32(s[i]).Some?
    ensures j < 8 && j < |s| ==> Index32(s[j]).None?
  {
    LeadingSymbols(s, 8)
  }

  function LeadingSymbols(s: string, limit: nat): (j: nat)
    ensures j <= limit && j <= |s|
    ensures forall i :: 0 <= i < j ==> Index32(s[i]).Some?
    ensures j < limit && j < |s| ==> Index32(s[j]).None?
  {
    if limit == 0 || s == [] || Index32(s[0]).None? then 0 else 1 + LeadingSymbols(s[1..], limit - 1)
  }

  predicate AllPad(s: string) {
    forall i :: 0 <= i < |s| ==> s[i] == '='
  }

  // A group of j < 8 symbols must be completed to eight characters by padding and ends the text, give or take a
  // few characters not looked at.
  function ShortGroup(s: string, j: nat): Option<seq<nat>>
    requires j < 8 && j <= |s|
  {
    if j == |s| || s[j] != '=' || j < 2 || |s| - j - 1 >= 8 || |s| < 8 then None
    else if !AllPad(s[j..8]) || j == 3 || j == 6 then None
    else Indexes(s[..j], Index32)
  }

  // The groups of a text without newlines, one after the other.
  function Groups(s: string): Option<seq<nat>>
    decreases |s|
  {
    if s == [] then Some([])
    else
      var j := GroupLength(s);
      if j < 8 then ShortGroup(s, j)
      else
        var rest := Groups(s[8..]);
        if rest.None? then None else Some(Indexes(s[..8], Index32).value + rest.value)
  }

  function DecodePadded32(s: string): Option<seq<Byte>> {
    var symbols := Groups(StripNewlines(s));
    if symbols.None? then None else Some(Decode(symbols.value, 5))
  }

  // A character that is neither a symbol nor a padding sign, with nothing but symbols before it.
  predicate Foreign(s: string, j: nat) {
    j < |s| && s[j] != '=' && Index32(s[j]).None? && forall i :: 0 <= i < j ==> Index32(s[i]).Some?
  }

  lemma {:induction false} GroupsRefuse(s: string, j: nat)
    requires Foreign(s, j)
    ensures Groups(s).None?
    decreases |s|
  {
    if GroupLength(s) == 8 { GroupsRefuse(s[8..], j - 8); }
  }

  // Both decoders refuse it.
  lemma Refused32(s: string, j: nat)
    requires Foreign(StripNewlines(s), j)
    ensures Decode32(s).None? && DecodePadded32(s).None?
  {
    GroupsRefuse(StripNewlines(s), j);
  }

  lemma Alphabetic32(c: char)
    ensures Index32(c).Some? <==> c in ALPHABET32
  {
    if Index32(c).Some? {
      InAlphabet32(Index32(c).value);
    } else {
      forall i | 0 <= i < |ALPHABET32|
        ensures ALPHABET32[i] != c
      {
        InAlphabet32(i);
      }
    }
  }

  function Padding(n: nat): (r: string)
    ensures AllPad(r) && |r| < 8 && (n + |r|) % 8 == 0
  {
    seq((8 - n % 8) % 8, _ => '=')
  }

  function EncodePadded32(bytes: seq<Byte>): string {
    var s := Encode32(bytes);
    s + Padding(|s|)
  }

  lemma {:induction false} LeadingSymbolsOf(s: string, rest: string, limit: nat)
    requires |s| <= limit && forall i :: 0 <= i < |s| ==> Index32(s[i]).Some?
    requires rest == [] || |s| == limit || Index32(rest[0]).None?
    ensures LeadingSymbols(s + rest, limit) == |s|
  {
    if s == [] {
      assert s + rest == rest;
    } else {
      assert (s + rest)[1..] == s[1..] + rest;
      LeadingSymbolsOf(s[1..], rest, limit - 1);
    }
  }

  predicate AreSymbols(s: string, symbols: seq<nat>) {
    |s| == |symbols| && forall i :: 0 <= i < |s| ==> Index32(s[i]) == Some(symbols[i])
  }

  lemma FullGroup(s: string, symbols: seq<nat>, rest: string)
    requires |s| == 8 && AreSymbols(s, symbols) && Groups(rest).Some?
    ensures Groups(s + rest) == Some(symbols + Groups(rest).value)
  {
    var t := s + rest;
    LeadingSymbolsOf(s, rest, 8);
    IndexesOf(s, symbols, Index32);
    assert t[..8] == s && t[8..] == rest;
  }

  lemma LastGroup(s: string, symbols: seq<nat>, pad: string)
    requires 0 < |s| < 8 && EndsGroup(|s|) && AreSymbols(s, symbols)
    requires AllPad(pad) && |s| + |pad| == 8
    ensures Groups(s + pad) == Some(symbols)
  {
    var t := s + pad;
    assert pad[0] == '=' && t[|s|] == '=';
    LeadingSymbolsOf(s, pad, 8);
    IndexesOf(s, symbols, Index32);
    assert t[..|s|] == s && t[|s|..8] == pad;
    assert ShortGroup(t, |s|) == Some(symbols);
  }

  lemma SlicesAreSymbols(s: string, symbols: seq<nat>)
    requires AreSymbols(s, symbols) && 8 <= |s|
    ensures AreSymbols(s[..8], symbols[..8]) && AreSymbols(s[8..], symbols[8..])
  {
  }

  // Symbols completed by padding are read back.
  lemma {:induction false} GroupsOf(s: string, symbols: seq<nat>, pad: string)
    requires AreSymbols(s, symbols) && EndsGroup(|s| % 8)
    requires AllPad(pad) && |pad| < 8 && (|s| + |pad|) % 8 == 0
    ensures Groups(s + pad) == Some(symbols)
    decreases |s|
  {
    if |s| >= 8 {
      SlicesAreSymbols(s, symbols);
      GroupsOf(s[8..], symbols[8..], pad);
      FullGroup(s[..8], symbols[..8], s[8..] + pad);
      SplitConcat(s, pad, 8);
      assert symbols[..8] + symbols[8..] == symbols;
    } else if s == [] {
      assert s + pad == [];
    } else {
      LastGroup(s, symbols, pad);
    }
  }

  lemma RoundTripPadded32(bytes: seq<Byte>)
    ensures DecodePadded32(EncodePadded32(bytes)) == Some(bytes)
  {
    var s := Encode32(bytes);
    NothingToStrip(s + Padding(|s|));
    WholeGroups(bytes);
    GroupsOf(s, Encode(bytes, 5), Padding(|s|));
    RoundTrip(bytes, 5);
  }
}
