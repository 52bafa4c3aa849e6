// Strings as the Go library handles them: white space, splitting, letter case and decimal numbers.
module Text {
  import opened Common
  import Bits

  // unicode.IsSpace; the scanner of package fmt uses the same set.
  predicate IsSpace(c: char) {
    var n := c as int;
    || 9 <= n <= 13 || n == 0x20 || n == 0x85 || n == 0xA0 || n == 0x1680 || 0x2000 <= n <= 0x200A
    || n == 0x2028 || n == 0x2029 || n == 0x202F || n == 0x205F || n == 0x3000
  }

  // Of ASCII: tab, line feed, vertical tab, form feed, carriage return and space.
  lemma AsciiSpaces(c: char)
    requires c as int < 0x80
    ensures IsSpace(c) <==> c in {'\t', '\n', '\U{B}', '\U{C}', '\r', ' '}
  {
  }

  predicate AllSpace(s: string) {
    forall i :: 0 <= i < |s| ==> IsSpace(s[i])
  }

  predicate NoSpace(s: string) {
    forall i :: 0 <= i < |s| ==> !IsSpace(s[i])
  }

  function TrimLeft(s: string): string {
    if s != [] && IsSpace(s[0]) then TrimLeft(s[1..]) else s
  }

  function TrimRight(s: string): string {
    if s != [] && IsSpace(s[|s| - 1]) then TrimRight(s[..|s| - 1]) else s
  }

  // strings.TrimSpace
  function Trim(s: string): string {
    TrimRight(TrimLeft(s))
  }

  lemma {:induction false} TrimLeftPrefix(pre: string, s: string)
    requires AllSpace(pre)
    ensures TrimLeft(pre + s) == TrimLeft(s)
  {
    if pre == [] {
      assert pre + s == s;
    } else {
      assert (pre + s)[1..] == pre[1..] + s;
      TrimLeftPrefix(pre[1..], s);
    }
  }

  lemma {:induction false} TrimRightSuffix(s: string, post: string)
    requires AllSpace(post)
    ensures TrimRight(s + post) == TrimRight(s)
  {
    if post == [] {
      assert s + post == s;
    } else {
      var n := |post| - 1;
      assert (s + post)[..|s| + n] == s + post[..n];
      TrimRightSuffix(s, post[..n]);
    }
  }

  // White space around a text without any is removed, and nothing else.
  lemma TrimAround(pre: string, s: string, post: string)
    requires AllSpace(pre) && AllSpace(post) && NoSpace(s)
    ensures Trim(pre + s + post) == s
  {
    assert pre + s + post == pre + (s + post);
    TrimLeftPrefix(pre, s + post);
    if s == [] {
      assert s + post == post && post + [] == post;
      TrimLeftPrefix(post, []);
    } else {
      TrimRightSuffix(s, post);
    }
  }

  // unicode.ToUpper as far as it yields ASCII: the Latin letters, dotless i and long s. Other characters stay
  // other than ASCII, so how they change makes no difference to a decoder of ASCII text.
  function Upper(c: char): char {
    if 'a' <= c <= 'z' then (c as int - 32) as char
    else if c == '\U{131}' then 'I'
    else if c == '\U{17F}' then 'S'
    else c
  }

  function ToUpper(s: string): (r: string)
    ensures |r| == |s| && forall i :: 0 <= i < |s| ==> r[i] == Upper(s[i])
  {
    seq(|s|, i requires 0 <= i < |s| => Upper(s[i]))
  }

  // strings.Split on one separator.
  function Split(s: string, sep: char): (r: seq<string>)
    ensures |r| >= 1
  {
    if s == [] then [[]]
    else
      var rest := Split(s[1..], sep);
      if s[0] == sep then [[]] + rest else [[s[0]] + rest[0]] + rest[1..]
  }

  lemma {:induction false} SplitWhole(s: string, sep: char)
    requires sep !in s
    ensures Split(s, sep) == [s]
  {
    if s != [] {
      SplitWhole(s[1..], sep);
      assert s == [s[0]] + s[1..];
    }
  }

  lemma {:induction false} SplitFirst(s: string, sep: char, rest: string)
    requires sep !in s
    ensures Split(s + [sep] + rest, sep) == [s] + Split(rest, sep)
  {
    if s == [] {
      assert (s + [sep] + rest)[1..] == rest;
    } else {
      assert (s + [sep] + rest)[1..] == s[1..] + [sep] + rest;
      SplitFirst(s[1..], sep, rest);
      assert s == [s[0]] + s[1..];
    }
  }

  // ---- Decimal numbers ----

  predicate IsDigit(c: char) {
    '0' <= c <= '9'
  }

  predicate AllDigits(s: string) {
    forall i :: 0 <= i < |s| ==> IsDigit(s[i])
  }

  function DigitOf(d: nat): (c: char)
    requires d < 10
    ensures IsDigit(c)
  {
    ('0' as int + d) as char
  }

  // %d of a natural number.
  function Print(n: nat): (r: string)
    ensures r != [] && AllDigits(r)
  {
    if n < 10 then [DigitOf(n)] else Print(n / 10) + [DigitOf(n % 10)]
  }

  // %06d and the like.
  function PrintPadded(n: nat, width: nat): (r: string)
    ensures |r| >= width && AllDigits(r)
  {
    var digits := Print(n);
    if |digits| < width then seq(width - |digits|, _ => '0') + digits else digits
  }

  // The number a string of digits stands for.
  function Value(s: string): nat
    requires AllDigits(s)
  {
    if s == [] then 0
    else 10 * Value(s[..|s| - 1]) + (s[|s| - 1] as int - '0' as int)
  }

  lemma {:induction false} PrintValue(n: nat)
    ensures Value(Print(n)) == n
  {
    if n < 10 {
      assert Print(n)[..0] == [];
    } else {
      PrintValue(n / 10);
      assert Print(n)[..|Print(n)| - 1] == Print(n / 10);
    }
  }

  lemma {:induction false} ValuePadded(k: nat, s: string)
    requires AllDigits(s)
    ensures var t := seq(k, _ => '0') + s; AllDigits(t) && Value(t) == Value(s)
  {
    var zeros := seq(k, _ => '0');
    var t := zeros + s;
    if s == [] {
      if k > 0 {
        ValuePadded(k - 1, []);
        assert t[..|t| - 1] == seq(k - 1, _ => '0') + [];
      }
    } else {
      var n := |s| - 1;
      ValuePadded(k, s[..n]);
      assert t[..|t| - 1] == zeros + s[..n];
    }
  }

  lemma PrintPaddedValue(n: nat, width: nat)
    ensures Value(PrintPadded(n, width)) == n
  {
    PrintValue(n);
    if |Print(n)| < width { ValuePadded(width - |Print(n)|, Print(n)); }
  }

  function Pow10(k: nat): nat {
    if k == 0 then 1 else 10 * Pow10(k - 1)
  }

  lemma {:induction false} PrintLength(n: nat, k: nat)
    requires 0 < k && n < Pow10(k)
    ensures |Print(n)| <= k
  {
    if n >= 10 { PrintLength(n / 10, k - 1); }
  }

  lemma {:induction false} Pow10Positive(k: nat)
    ensures 1 <= Pow10(k)
  {
    if k > 0 { Pow10Positive(k - 1); }
  }

  lemma TenfoldQuotient(n: nat, m: nat)
    requires 0 < m
    ensures n / (10 * m) == n / 10 / m
  {
    var q := n / 10 / m;
    assert n / 10 == q * m + n / 10 % m;
    var r := 10 * (n / 10 % m) + n % 10;
    assert 10 * (n / 10 % m) <= 10 * (m - 1);
    assert n == q * (10 * m) + r;
    Bits.Quotient(n, q, 10 * m);
  }

  // The digit with i digits after it stands for 10^i.
  lemma {:induction false} PrintDigits(n: nat, i: nat)
    requires i < |Print(n)|
    ensures Pow10(i) != 0
    ensures Print(n)[|Print(n)| - 1 - i] as int - '0' as int == n / Pow10(i) % 10
  {
    Pow10Positive(i);
    if i > 0 {
      assert n >= 10;
      PrintDigits(n / 10, i - 1);
      Pow10Positive(i - 1);
      TenfoldQuotient(n, Pow10(i - 1));
    }
  }

  // ---- fmt.Sscanf ----

  // What is left of the input after a verb or a literal; None when scanning fails.
  type Rest = Option<string>

  function ScanLiteral(s: string, text: string): Rest {
    if text <= s then Some(s[|text|..]) else None
  }

  // White space before a number is skipped, but a newline is an error.
  function SkipSpace(s: string): Rest {
    if s == [] || !IsSpace(s[0]) then Some(s)
    else if s[0] == '\n' then None
    else SkipSpace(s[1..])
  }

  function DigitCount(s: string): (k: nat)
    ensures k <= |s| && AllDigits(s[..k]) && (k < |s| ==> !IsDigit(s[k]))
  {
    if s != [] && IsDigit(s[0]) then
      var k := DigitCount(s[1..]);
      assert s[..k + 1] == [s[0]] + s[1..][..k];
      k + 1
    else 0
  }

  // %d into an unsigned integer below `bound`: no sign, at least one digit, no overflow.
  function ScanUint(s: string, bound: nat): Option<(nat, string)> {
    var skipped := SkipSpace(s);
    if skipped.None? then None
    else
      var k := DigitCount(skipped.value);
      if k == 0 || Value(skipped.value[..k]) >= bound then None
      else Some((Value(skipped.value[..k]), skipped.value[k..]))
  }

  // %d into a signed integer: an optional sign.
  function ScanInt(s: string, bound: int): Option<(int, string)> {
    var skipped := SkipSpace(s);
    if skipped.None? then None
    else
      var t := skipped.value;
      var signed := t != [] && (t[0] == '+' || t[0] == '-');
      var digits := if signed then t[1..] else t;
      var k := DigitCount(digits);
      if k == 0 then None
      else
        var n: int := Value(digits[..k]);
        var v: int := if signed && t[0] == '-' then -n else n;
        if -bound <= v < bound then Some((v as int, digits[k..])) else None
  }

  lemma {:induction false} DigitCountOf(digits: string, rest: string)
    requires AllDigits(digits) && (rest == [] || !IsDigit(rest[0]))
    ensures DigitCount(digits + rest) == |digits|
  {
    if digits == [] {
      assert digits + rest == rest;
    } else {
      assert (digits + rest)[1..] == digits[1..] + rest;
      DigitCountOf(digits[1..], rest);
    }
  }

  // A printed number is scanned back, up to whatever follows it.
  lemma ScanPrinted(n: nat, rest: string, bound: nat)
    requires n < bound && (rest == [] || !IsDigit(rest[0]))
    ensures ScanUint(Print(n) + rest, bound) == Some((n, rest))
    ensures ScanInt(Print(n) + rest, bound) == Some((n as int, rest))
  {
    var s := Print(n) + rest;
    assert IsDigit(s[0]);
    DigitCountOf(Print(n), rest);
    assert s[..|Print(n)|] == Print(n) && s[|Print(n)|..] == rest;
    PrintValue(n);
  }

  // White space without a newline, and then something else.
  predicate Blank(s: string) {
    forall i :: 0 <= i < |s| ==> IsSpace(s[i]) && s[i] != '\n'
  }

  lemma {:induction false} SkipBlank(pre: string, t: string)
    requires Blank(pre) && (t == [] || !IsSpace(t[0]))
    ensures SkipSpace(pre + t) == Some(t)
  {
    if pre == [] {
      assert pre + t == t;
    } else {
      assert (pre + t)[1..] == pre[1..] + t;
      SkipBlank(pre[1..], t);
    }
  }

  lemma {:induction false} SkippedBlank(s: string) returns (pre: string)
    requires SkipSpace(s).Some?
    ensures Blank(pre) && s == pre + SkipSpace(s).value
  {
    if s == [] || !IsSpace(s[0]) {
      pre := [];
    } else {
      var more := SkippedBlank(s[1..]);
      pre := [s[0]] + more;
      assert s == [s[0]] + s[1..];
      Assoc([s[0]], more, SkipSpace(s[1..]).value);
    }
  }

  // `n` is written in decimal digits, after white space if any and up to `rest`.
  ghost predicate Scanned(s: string, n: nat, rest: string) {
    exists pre, digits :: IsScanned(s, pre, digits, n, rest)
  }

  ghost predicate IsScanned(s: string, pre: string, digits: string, n: nat, rest: string) {
    && s == pre + (digits + rest) && Blank(pre) && digits != [] && AllDigits(digits) && Value(digits) == n
    && (rest == [] || !IsDigit(rest[0]))
  }

  lemma ScanUintWritten(s: string, bound: nat)
    requires ScanUint(s, bound).Some?
    ensures Scanned(s, ScanUint(s, bound).value.0, ScanUint(s, bound).value.1)
  {
    var pre := SkippedBlank(s);
    var t := SkipSpace(s).value;
    var k := DigitCount(t);
    assert t == t[..k] + t[k..];
    assert IsScanned(s, pre, t[..k], Value(t[..k]), t[k..]);
  }

  lemma WrittenScanned(s: string, bound: nat, pre: string, digits: string, n: nat, rest: string)
    requires IsScanned(s, pre, digits, n, rest) && n < bound
    ensures ScanUint(s, bound) == Some((n, rest))
  {
    var t := digits + rest;
    assert t[0] == digits[0];
    SkipBlank(pre, t);
    DigitCountOf(digits, rest);
    assert t[..|digits|] == digits && t[|digits|..] == rest;
  }

  // Exactly the numbers below the bound that are written so are scanned.
  lemma ScanUintMeans(s: string, bound: nat, n: nat, rest: string)
    ensures ScanUint(s, bound) == Some((n, rest)) <==> Scanned(s, n, rest) && n < bound
  {
    if ScanUint(s, bound) == Some((n, rest)) { ScanUintWritten(s, bound); }
    if Scanned(s, n, rest) && n < bound {
      var pre, digits :| IsScanned(s, pre, digits, n, rest);
      WrittenScanned(s, bound, pre, digits, n, rest);
    }
  }

  // The parts, with the separator between them.
  function Joined(parts: seq<string>, sep: char): string
    requires |parts| >= 1
  {
    if |parts| == 1 then parts[0] else parts[0] + [sep] + Joined(parts[1..], sep)
  }

  // Splitting loses nothing, and splits at every separator.
  lemma {:induction false} SplitInverse(s: string, sep: char)
    ensures Joined(Split(s, sep), sep) == s
    ensures forall i :: 0 <= i < |Split(s, sep)| ==> sep !in Split(s, sep)[i]
  {
    if s != [] {
      var rest, parts := Split(s[1..], sep), Split(s, sep);
      SplitInverse(s[1..], sep);
      assert s == [s[0]] + s[1..];
      if s[0] == sep {
        assert parts[1..] == rest;
      } else if |rest| == 1 {
        assert rest[1..] == [];
      } else {
        assert parts[1..] == rest[1..];
        assert Joined(parts, sep) == ([s[0]] + rest[0]) + [sep] + Joined(rest[1..], sep);
      }
    }
  }
}
