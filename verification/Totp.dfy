// Time-based one-time passwords (RFC 6238): base32 secrets, the dynamic truncation of section 5.3 of RFC 4226, and
// a window of one step either way. HMAC-SHA-1 is a parameter.
module Totp {
  import opened Common
  import opened Bits
  import opened Integers
  import opened Text
  import opened Base

  const PERIOD := 30
  const DIGITS := 6

  type Mac = h: seq<Byte> | |h| == 20 witness seq(20, _ => 0)

  // Key and message to authentication code.
  type Hmac = (seq<Byte>, seq<Byte>) -> Mac

  // ---- Secrets ----

  function GenerateSecret(bytes: seq<Byte>): string {
    Encode32(bytes)
  }

  // Unpadded base32 and, should that fail, padded.
  function DecodeKey(secret: string): Option<seq<Byte>> {
    var s := ToUpper(Trim(secret));
    var key := Decode32(s);
    if key.Some? then key else DecodePadded32(s)
  }

  // `s` is `t` in any letter case.
  predicate SameLetters(s: string, t: string) {
    |s| == |t| && forall i :: 0 <= i < |s| ==> Upper(s[i]) == t[i]
  }

  lemma NotSpace(c: char)
    requires Index32(Upper(c)).Some? || Upper(c) == '='
    ensures !IsSpace(c)
  {
  }

  // Every byte string survives base32 encoding, any change of letter case and any white space around it.
  lemma SecretRoundTrip(bytes: seq<Byte>, pre: string, s: string, post: string)
    requires SameLetters(s, GenerateSecret(bytes)) && AllSpace(pre) && AllSpace(post)
    ensures DecodeKey(pre + s + post) == Some(bytes)
  {
    forall i | 0 <= i < |s|
      ensures !IsSpace(s[i])
    {
      NotSpace(s[i]);
    }
    TrimAround(pre, s, post);
    assert ToUpper(s) == GenerateSecret(bytes);
    RoundTrip32(bytes);
  }

  // The text with some of its letters in lower case.
  predicate Lowered(s: string, t: string) {
    |s| == |t| && forall i :: 0 <= i < |s| ==> s[i] == t[i] || ('A' <= t[i] <= 'Z' && s[i] as int == t[i] as int + 32)
  }

  lemma AnyCase(bytes: seq<Byte>, s: string)
    requires Lowered(s, GenerateSecret(bytes))
    ensures DecodeKey(s) == Some(bytes)
  {
    var t := GenerateSecret(bytes);
    forall i | 0 <= i < |s|
      ensures Upper(s[i]) == t[i]
    {
      assert Index32(t[i]).Some?;
    }
    SecretRoundTrip(bytes, [], s, []);
    assert [] + s + [] == s;
  }

  // So does it in padded form: without padding it is the same text, and with padding only the second decoder
  // accepts it.
  lemma PaddedSecretRoundTrip(bytes: seq<Byte>, pre: string, s: string, post: string)
    requires SameLetters(s, EncodePadded32(bytes)) && AllSpace(pre) && AllSpace(post)
    ensures DecodeKey(pre + s + post) == Some(bytes)
  {
    var padded := EncodePadded32(bytes);
    var plain := Encode32(bytes);
    forall i | 0 <= i < |s|
      ensures !IsSpace(s[i]) && !IsNewline(padded[i])
    {
      assert i < |plain| ==> padded[i] == plain[i];
      NotSpace(s[i]);
    }
    TrimAround(pre, s, post);
    assert ToUpper(s) == padded;
    if padded == plain {
      RoundTrip32(bytes);
    } else {
      NothingToStrip(padded);
      assert Index32(padded[|plain|]).None?;
      RoundTripPadded32(bytes);
    }
  }

  // A secret in which, trimmed and in upper case, the first character outside the alphabet is not a padding sign is
  // refused: no code is generated for it, and none accepted.
  lemma SecretRefused(secret: string, j: nat, otp: Otp, code: string, t: int)
    requires var s := StripNewlines(ToUpper(Trim(secret)));
      j < |s| && s[j] != '=' && s[j] !in ALPHABET32 && forall i :: 0 <= i < j ==> s[i] in ALPHABET32
    ensures DecodeKey(secret).None? && Generate(otp, secret, t).None? && !Accepts(otp, secret, code, t)
  {
    var s := StripNewlines(ToUpper(Trim(secret)));
    Alphabetic32(s[j]);
    forall i | 0 <= i < j
      ensures Index32(s[i]).Some?
    {
      Alphabetic32(s[i]);
    }
    Refused32(ToUpper(Trim(secret)), j);
  }

  // ---- Codes ----

  // (a & 0x7F) << 24 | (b & 0xFF) << 16 | (c & 0xFF) << 8 | d & 0xFF
  function Pick(a: Byte, b: Byte, c: Byte, d: Byte): nat {
    Or(Or(Or(Shl(And(a, 0x7F), 24), Shl(And(b, 0xFF), 16)), Shl(And(c, 0xFF), 8)), And(d, 0xFF))
  }

  // The number read from the code at the offset its last byte names.
  function Truncate(h: Mac): nat {
    Mask(h[19], 0x0F, 4);
    var o := And(h[19], 0x0F);
    Pick(h[o], h[o + 1], h[o + 2], h[o + 3])
  }

  lemma Mask(a: nat, mask: nat, k: nat)
    requires mask + 1 == Pow2(k)
    ensures And(a, mask) == a % (mask + 1)
  {
    AndMask(a, k);
  }

  lemma Powers()
    ensures Pow2(8) == 0x100 && Pow2(16) == 0x1_0000 && Pow2(24) == 0x100_0000
  {
    Pow2Eight(0);
    Pow2Eight(8);
    Pow2Eight(16);
  }

  lemma ShlTwice(a: nat, k: nat)
    ensures Shl(a, k + 2) == 4 * Shl(a, k)
  {
    assert Shl(a, k + 2) == 2 * Shl(a, k + 1);
  }

  lemma {:induction false} ShlByte(x: nat, b: Byte, k: nat)
    ensures Shl(b, k) < Pow2(k + 8)
    ensures Shl(x, k + 8) + Shl(b, k) == Shl(x * 256 + b, k)
  {
    if k == 0 {
      Powers();
      ShlTwice(x, 0);
      ShlTwice(x, 2);
      ShlTwice(x, 4);
      ShlTwice(x, 6);
    } else {
      ShlByte(x, b, k - 1);
    }
  }

  // Or-ing in one more byte below.
  lemma OrByte(x: nat, b: Byte, j: nat, k: nat)
    requires j == k + 8
    ensures Or(Shl(x, j), Shl(b, k)) == Shl(x * 256 + b, k)
  {
    ShlByte(x, b, k);
    OrShifted(x, Shl(b, k), j);
  }

  lemma OrLast(x: nat, b: Byte)
    ensures Or(Shl(x, 8), b) == x * 256 + b
  {
    ShlByte(x, b, 0);
    OrShifted(x, b, 8);
  }

  lemma Combine(a: nat, b: Byte, c: Byte, d: Byte)
    ensures Or(Or(Or(Shl(a, 24), Shl(b, 16)), Shl(c, 8)), d) == ((a * 256 + b) * 256 + c) * 256 + d
  {
    OrByte(a, b, 24, 16);
    OrByte(a * 256 + b, c, 16, 8);
    OrLast((a * 256 + b) * 256 + c, d);
  }

  lemma MaskByte(a: Byte)
    ensures And(a, 0xFF) == a
  {
    Mask(a, 0xFF, 8);
  }

  lemma PickIsBigEndian(a: Byte, b: Byte, c: Byte, d: Byte)
    ensures Pick(a, b, c, d) == FromBigEndian([a, b, c, d]) % 0x8000_0000
  {
    Mask(a, 0x7F, 7);
    MaskByte(b);
    MaskByte(c);
    MaskByte(d);
    Combine(a % 128, b, c, d);
    FourBytes(a, b, c, d);
  }

  // For every authentication code, shifting and or-ing gives the low 31 bits of the big-endian integer of the four
  // bytes that start at the offset, and the offset leaves four bytes to read.
  lemma TruncateIsBigEndian(h: Mac)
    ensures var o := h[19] % 16; o + 4 <= 19 && Truncate(h) == FromBigEndian(h[o..o + 4]) % 0x8000_0000
  {
    Mask(h[19], 0x0F, 4);
    var o := h[19] % 16;
    PickIsBigEndian(h[o], h[o + 1], h[o + 2], h[o + 3]);
    assert h[o..o + 4] == [h[o], h[o + 1], h[o + 2], h[o + 3]];
  }

  lemma FourBytes(a: Byte, b: Byte, c: Byte, d: Byte)
    ensures FromBigEndian([a, b, c, d]) % 0x8000_0000 == ((a % 128 * 256 + b) * 256 + c) * 256 + d
  {
    assert [a, b, c, d][..3] == [a, b, c] && [a, b, c][..2] == [a, b] && [a, b][..1] == [a] && [a][..0] == [];
    assert FromBigEndian([a]) == a;
    assert FromBigEndian([a, b]) == a * 256 + b;
    assert FromBigEndian([a, b, c]) == (a * 256 + b) * 256 + c;
  }

  function Display(h: Mac): string {
    PrintPadded(Truncate(h) % 1000000, DIGITS)
  }

  // Always six digits, which parse back to the truncated integer modulo 10^6.
  lemma SixDigits(h: Mac)
    ensures |Display(h)| == 6 && AllDigits(Display(h))
    ensures var o := h[19] % 16; Value(Display(h)) == FromBigEndian(h[o..o + 4]) % 0x8000_0000 % 1000000
  {
    TruncateIsBigEndian(h);
    var n := Truncate(h) % 1000000;
    assert Pow10(6) == 1000000;
    PrintLength(n, 6);
    PrintPaddedValue(n, 6);
  }

  // Division of 64-bit integers truncates toward zero.
  function TruncDiv(a: int, b: int): int
    requires 0 < b
  {
    if a < 0 then -(-a / b) else a / b
  }

  // The time step of an instant in Unix seconds.
  function StepOf(t: int): int {
    TruncDiv(t, PERIOD)
  }

  const UINT64 := 0x1_0000_0000_0000_0000

  // The counter of a time step, an unsigned 64-bit integer, as written into a buffer of eight bytes.
  function Message(step: int): seq<Byte> {
    var buf: seq<Byte> := seq(8, _ => 0);
    BigEndian(step % UINT64, |buf|)
  }

  // The code for a key and a time step.
  type Otp = (seq<Byte>, int) -> string

  function Hotp(hmac: Hmac): Otp {
    (key: seq<Byte>, step: int) => Display(hmac(key, Message(step)))
  }

  ghost predicate SixDigitCodes(otp: Otp) {
    forall key, step :: |otp(key, step)| == DIGITS && AllDigits(otp(key, step))
  }

  lemma HotpSixDigits(hmac: Hmac)
    ensures SixDigitCodes(Hotp(hmac))
  {
    forall key, step
      ensures |Hotp(hmac)(key, step)| == DIGITS && AllDigits(Hotp(hmac)(key, step))
    {
      SixDigits(hmac(key, Message(step)));
    }
  }

  // GenerateTOTP is Generate(Hotp(hmac), ...), and ValidateTOTP likewise.
  function Generate(otp: Otp, secret: string, t: int): Option<string> {
    var key := DecodeKey(secret);
    if key.None? then None else Some(otp(key.value, StepOf(t)))
  }

  // The counter of an instant: its number of 30-second periods since the epoch, as an unsigned 64-bit integer.
  lemma CounterOf(t: int)
    ensures var m := Message(StepOf(t));
      |m| == 8 && FromBigEndian(m) == (if t < 0 then -(-t / 30) else t / 30) % 0x1_0000_0000_0000_0000
  {
    EightBytes();
    BigEndianInverse(StepOf(t) % UINT64, 8);
  }

  // What GenerateTOTP computes (section 5.3 of RFC 4226, section 4.2 of RFC 6238): the HMAC is keyed with the decoded
  // secret and taken of the eight big-endian bytes m of the counter; four of its bytes, from the offset that its last
  // four bits name, give a 31-bit number, of which the code is the last six decimal digits.
  lemma GeneratedCode(hmac: Hmac, secret: string, t: int) returns (m: seq<Byte>, code: string)
    requires DecodeKey(secret).Some?
    ensures |m| == 8 && FromBigEndian(m) == (if t < 0 then -(-t / 30) else t / 30) % 0x1_0000_0000_0000_0000
    ensures Generate(Hotp(hmac), secret, t) == Some(code) && |code| == 6 && AllDigits(code)
    ensures var h: seq<Byte> := hmac(DecodeKey(secret).value, m);
      var o := h[19] % 16;
      Value(code) == FromBigEndian(h[o..o + 4]) % 0x8000_0000 % 1000000
  {
    m := Message(StepOf(t));
    CounterOf(t);
    var h := hmac(DecodeKey(secret).value, m);
    code := Display(h);
    SixDigits(h);
  }

  // ---- Validation ----

  ghost predicate Accepts(otp: Otp, secret: string, code: string, t: int) {
    exists k :: -1 <= k <= 1 && Attempt(otp, secret, code, t, k)
  }

  predicate Attempt(otp: Otp, secret: string, code: string, t: int, k: int) {
    Generate(otp, secret, t + k * PERIOD) == Some(Trim(code))
  }

  method Validate(otp: Otp, secret: string, code: string, t: int) returns (ok: bool)
    requires SixDigitCodes(otp)
    ensures ok <==> Accepts(otp, secret, code, t)
  {
    var trimmed := Trim(code);
    if |trimmed| != DIGITS {
      return false;
    }
    ok := MatchAny(GeneratorOf(otp, secret), trimmed, t);
    forall k
      ensures Attempt(otp, secret, code, t, k) <==> Matches(GeneratorOf(otp, secret), trimmed, t, k)
    {
      AttemptMatches(otp, secret, code, t, k);
    }
  }

  function GeneratorOf(otp: Otp, secret: string): int -> Option<string> {
    at => Generate(otp, secret, at)
  }

  lemma AttemptMatches(otp: Otp, secret: string, code: string, t: int, k: int)
    ensures Attempt(otp, secret, code, t, k) <==> Matches(GeneratorOf(otp, secret), Trim(code), t, k)
  {
  }

  predicate Matches(generate: int -> Option<string>, code: string, t: int, k: int) {
    generate(t + k * PERIOD) == Some(code)
  }

  // The loop of ValidateTOTP over the three steps.
  method MatchAny(generate: int -> Option<string>, code: string, t: int) returns (ok: bool)
    ensures ok <==> exists k :: -1 <= k <= 1 && Matches(generate, code, t, k)
  {
    var steps := [0, -1, 1];
    var i := 0;
    while i < |steps|
      invariant 0 <= i <= |steps|
      invariant forall j :: 0 <= j < i ==> !Matches(generate, code, t, steps[j])
    {
      var expected := generate(t + steps[i] * PERIOD);
      if expected == Some(code) {
        assert Matches(generate, code, t, steps[i]);
        return true;
      }
      i := i + 1;
    }
    assert !Matches(generate, code, t, steps[0]);
    assert !Matches(generate, code, t, steps[1]);
    assert !Matches(generate, code, t, steps[2]);
    return false;
  }

  // The time steps the three attempts fall in.
  function Tried(t: int): set<int> {
    {StepOf(t - PERIOD), StepOf(t), StepOf(t + PERIOD)}
  }

  // They are the step before, the step itself and the step after, except within one period of the epoch, where
  // truncation merges two of them.
  lemma WindowExact(t: int)
    ensures Tried(t) == {StepOf(t) - 1, StepOf(t), StepOf(t) + 1} <==> t <= -PERIOD || t == 0 || PERIOD <= t
  {
    var a, b, c := StepOf(t - PERIOD), StepOf(t), StepOf(t + PERIOD);
    if t <= -PERIOD || t == 0 || PERIOD <= t {
      assert a == b - 1 && c == b + 1;
    } else if 0 < t {
      assert a == 0 && b == 0 && c == 1;
      assert b - 1 !in Tried(t);
    } else {
      assert a == -1 && b == 0 && c == 0;
      assert b + 1 !in Tried(t);
    }
  }

  lemma StepShift(t: int, k: int)
    requires PERIOD <= t && -1 <= k <= 1
    ensures StepOf(t + k * PERIOD) == StepOf(t) + k
  {
  }

  lemma AttemptIs(otp: Otp, secret: string, code: string, t: int, k: int, key: seq<Byte>)
    requires PERIOD <= t && -1 <= k <= 1 && DecodeKey(secret) == Some(key)
    ensures Attempt(otp, secret, code, t, k) <==> Trim(code) == otp(key, StepOf(t) + k)
  {
    StepShift(t, k);
  }

  // From 30 seconds after the epoch on, with a decodable secret, a code is accepted exactly when, trimmed, it is the
  // code of the current time step, the one before or the one after.
  lemma DriftWindow(otp: Otp, secret: string, code: string, t: int)
    requires PERIOD <= t && DecodeKey(secret).Some?
    ensures var key, step := DecodeKey(secret).value, StepOf(t);
      Accepts(otp, secret, code, t) <==>
      Trim(code) == otp(key, step - 1) || Trim(code) == otp(key, step) || Trim(code) == otp(key, step + 1)
  {
    var key := DecodeKey(secret).value;
    AttemptIs(otp, secret, code, t, -1, key);
    AttemptIs(otp, secret, code, t, 0, key);
    AttemptIs(otp, secret, code, t, 1, key);
  }

  // A code generated at most one time step away is accepted, whatever white space surrounds it.
  lemma NeighbourAccepted(otp: Otp, secret: string, at: int, t: int, pre: string, code: string, post: string)
    requires SixDigitCodes(otp) && PERIOD <= t && -1 <= StepOf(at) - StepOf(t) <= 1
    requires Generate(otp, secret, at) == Some(code) && AllSpace(pre) && AllSpace(post)
    ensures Accepts(otp, secret, pre + code + post, t)
  {
    TrimAround(pre, code, post);
    DriftWindow(otp, secret, pre + code + post, t);
  }

  // Different time steps, as unsigned 64-bit counters, are different messages to the authentication code.
  lemma CountersDistinct(a: int, b: int)
    requires Message(a) == Message(b)
    ensures a % UINT64 == b % UINT64
  {
    EightBytes();
    BigEndianInverse(a % UINT64, 8);
    BigEndianInverse(b % UINT64, 8);
  }

  lemma EightBytes()
    ensures Pow2(64) == UINT64
  {
    Powers();
    Pow2Eight(24);
    Pow2Eight(32);
    Pow2Eight(40);
    Pow2Eight(48);
    Pow2Eight(56);
  }
}
