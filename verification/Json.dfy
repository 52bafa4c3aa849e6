// JSON strings (section 7 of RFC 8259) as encoding/json of Go and serde_json of Rust write them, and a reader that
// reads either.
module Json {
  import opened Common
  import opened Text
  import opened Utf8

  datatype Writer = Go | Serde

  function HexDigit(n: nat): char
    requires n < 16
  {
    if n < 10 then ('0' as int + n) as char else ('a' as int + n - 10) as char
  }

  function HexValue(c: char): Option<nat> {
    if '0' <= c <= '9' then Some(c as int - '0' as int)
    else if 'a' <= c <= 'f' then Some(c as int - 'a' as int + 10)
    else if 'A' <= c <= 'F' then Some(c as int - 'A' as int + 10)
    else None
  }

  function UnicodeEscape(c: char): string
    requires c as int < 0x1_0000
  {
    var n := c as int;
    ['\\', 'u', HexDigit(n / 0x1000), HexDigit(n / 0x100 % 16), HexDigit(n / 16 % 16), HexDigit(n % 16)]
  }

  // The characters that Go escapes, for the sake of HTML and JavaScript, and serde does not.
  predicate GoOnly(c: char) {
    c == '<' || c == '>' || c == '&' || c == '\U{2028}' || c == '\U{2029}'
  }

  predicate Plain(s: string) {
    forall i :: 0 <= i < |s| ==> !GoOnly(s[i])
  }

  function EscapeChar(w: Writer, c: char): string {
    if c == '"' then "\\\""
    else if c == '\\' then "\\\\"
    else if c == '\U{8}' then "\\b"
    else if c == '\U{C}' then "\\f"
    else if c == '\n' then "\\n"
    else if c == '\r' then "\\r"
    else if c == '\t' then "\\t"
    else if c as int < 0x20 || (w == Go && GoOnly(c)) then UnicodeEscape(c)
    else [c]
  }

  // Seven characters are escaped with two, the other control characters and, by Go, its own five with six; nothing else
  // is escaped.
  lemma EscapeForms(w: Writer, c: char)
    ensures var e, controls := EscapeChar(w, c), ['"', '\\', '\U{8}', '\U{C}', '\n', '\r', '\t'];
      if c in controls
      then |e| == 2 && e[0] == '\\' && (e[1], c) in {('"', '"'), ('\\', '\\'), ('b', '\U{8}'), ('f', '\U{C}'),
                                                   ('n', '\n'), ('r', '\r'), ('t', '\t')}
      else if c < ' ' || (w == Go && c in {'<', '>', '&', '\U{2028}', '\U{2029}'})
      then |e| == 6 && e[..2] == ['\\', 'u'] && HexNumber(e[2..]) == c as int
      else e == [c]
  {
    if c as int < 0x1_0000 {
      var n := c as int;
      HexRoundTrip(n / 0x1000);
      HexRoundTrip(n / 0x100 % 16);
      HexRoundTrip(n / 16 % 16);
      HexRoundTrip(n % 16);
      FourDigits(n);
    }
  }

  // The number written by four hexadecimal digits; -1 if they are not that.
  function HexNumber(s: string): int {
    if |s| != 4 || exists i :: 0 <= i < 4 && HexValue(s[i]).None? then -1
    else ((HexValue(s[0]).value * 16 + HexValue(s[1]).value) * 16 + HexValue(s[2]).value) * 16 + HexValue(s[3]).value
  }

  // What serde writes of a text.
  function Escape(s: string): string {
    if s == [] then [] else EscapeChar(Serde, s[0]) + Escape(s[1..])
  }

  // What Go writes of a string: a bad byte, whichever it is, becomes the escape of U+FFFD.
  function EscapeRune(r: Rune): string {
    if r.Scalar? then EscapeChar(Go, r.c) else UnicodeEscape('\U{FFFD}')
  }

  function EscapeRunes(rs: seq<Rune>): string {
    if rs == [] then [] else EscapeRune(rs[0]) + EscapeRunes(rs[1..])
  }

  function EscapeGo(b: GoString): string {
    EscapeRunes(Runes(b))
  }

  // ---- Reading ----

  // One character, escaped or not, and what follows it.
  function ReadChar(s: string): Option<(char, string)> {
    if s == [] || s[0] == '"' || s[0] as int < 0x20 then None
    else if s[0] != '\\' then Some((s[0], s[1..]))
    else if |s| < 2 then None
    else
      match s[1]
      case '"' => Some(('"', s[2..]))
      case '\\' => Some(('\\', s[2..]))
      case '/' => Some(('/', s[2..]))
      case 'b' => Some(('\U{8}', s[2..]))
      case 'f' => Some(('\U{C}', s[2..]))
      case 'n' => Some(('\n', s[2..]))
      case 'r' => Some(('\r', s[2..]))
      case 't' => Some(('\t', s[2..]))
      case 'u' => ReadUnicode(s[2..])
      case _ => None
  }

  function ReadUnicode(s: string): Option<(char, string)> {
    if |s| < 4 then None
    else
      var a, b, c, d := HexValue(s[0]), HexValue(s[1]), HexValue(s[2]), HexValue(s[3]);
      if a.None? || b.None? || c.None? || d.None? then None
      else
        var n := ((a.value * 16 + b.value) * 16 + c.value) * 16 + d.value;
        if n >= 0x1_0000 || 0xD800 <= n < 0xE000 then None else Some((n as char, s[4..]))
  }

  // The characters up to the closing quotation mark, and what follows it.
  function ReadString(s: string): Option<(string, string)>
    decreases |s|
  {
    if s != [] && s[0] == '"' then Some(([], s[1..]))
    else
      var first := ReadChar(s);
      if first.None? then None
      else
        var rest := ReadString(first.value.1);
        if rest.None? then None else Some(([first.value.0] + rest.value.0, rest.value.1))
  }

  lemma HexRoundTrip(n: nat)
    requires n < 16
    ensures HexValue(HexDigit(n)) == Some(n)
  {
  }

  lemma FourDigits(n: nat)
    ensures ((n / 0x1000 * 16 + n / 0x100 % 16) * 16 + n / 16 % 16) * 16 + n % 16 == n
  {
    assert n / 0x1000 * 16 + n / 0x100 % 16 == n / 0x100;
    assert n / 0x100 * 16 + n / 16 % 16 == n / 16;
  }

  lemma UnicodeRead(c: char, rest: string)
    requires c as int < 0x1_0000
    ensures ReadChar(UnicodeEscape(c) + rest) == Some((c, rest))
  {
    var n := c as int;
    HexRoundTrip(n / 0x1000);
    HexRoundTrip(n / 0x100 % 16);
    HexRoundTrip(n / 16 % 16);
    HexRoundTrip(n % 16);
    var s := UnicodeEscape(c) + rest;
    assert s[2..][4..] == rest;
    FourDigits(n);
  }

  lemma CharRead(w: Writer, c: char, rest: string)
    ensures ReadChar(EscapeChar(w, c) + rest) == Some((c, rest))
  {
    var e := EscapeChar(w, c);
    if |e| == 6 {
      UnicodeRead(c, rest);
    } else if |e| == 2 {
      assert (e + rest)[2..] == rest;
    } else {
      assert (e + rest)[1..] == rest;
    }
  }

  lemma RuneRead(r: Rune, rest: string)
    ensures ReadChar(EscapeRune(r) + rest) == Some((if r.Scalar? then r.c else '\U{FFFD}', rest))
  {
    if r.Scalar? { CharRead(Go, r.c, rest); } else { UnicodeRead('\U{FFFD}', rest); }
  }

  lemma EscapedStart(r: Rune)
    ensures EscapeRune(r) != [] && EscapeRune(r)[0] != '"'
  {
  }

  // The escaped text e, closed by a quotation mark, reads as s.
  ghost predicate Reads(e: string, s: string) {
    forall rest :: ReadString(e + ['"'] + rest) == Some((s, rest))
  }

  lemma {:induction false} SerdeRead(s: string, rest: string)
    ensures ReadString(Escape(s) + ['"'] + rest) == Some((s, rest))
  {
    var t := Escape(s) + ['"'] + rest;
    if s == [] {
      assert t == ['"'] + rest;
    } else {
      var tail := Escape(s[1..]) + ['"'] + rest;
      assert t == EscapeChar(Serde, s[0]) + tail;
      CharRead(Serde, s[0], tail);
      SerdeRead(s[1..], rest);
      assert s == [s[0]] + s[1..];
    }
  }

  lemma {:induction false} GoRead(rs: seq<Rune>, rest: string)
    ensures ReadString(EscapeRunes(rs) + ['"'] + rest) == Some((HealRunes(rs), rest))
  {
    var t := EscapeRunes(rs) + ['"'] + rest;
    if rs == [] {
      assert t == ['"'] + rest;
    } else {
      var tail := EscapeRunes(rs[1..]) + ['"'] + rest;
      assert t == EscapeRune(rs[0]) + tail;
      RuneRead(rs[0], tail);
      EscapedStart(rs[0]);
      GoRead(rs[1..], rest);
      assert HealRunes(rs) == [HealRunes(rs)[0]] + HealRunes(rs[1..]);
    }
  }

  // What either writer escaped is read back; a bad byte as U+FFFD.
  lemma ReadsBack(s: string, b: GoString)
    ensures Reads(Escape(s), s) && Reads(EscapeGo(b), Heal(b))
  {
    forall rest
      ensures ReadString(Escape(s) + ['"'] + rest) == Some((s, rest))
      ensures ReadString(EscapeGo(b) + ['"'] + rest) == Some((Heal(b), rest))
    {
      SerdeRead(s, rest);
      GoRead(Runes(b), rest);
    }
  }

  // ---- Go and serde compared ----

  // Neither a bad byte nor a character that Go alone escapes.
  predicate CleanRunes(rs: seq<Rune>) {
    forall i :: 0 <= i < |rs| ==> rs[i].Scalar? && !GoOnly(rs[i].c)
  }

  predicate Clean(b: GoString) {
    CleanRunes(Runes(b))
  }

  lemma CleanMeans(b: GoString)
    ensures Clean(b) <==> Valid(b) && Plain(Heal(b))
  {
  }

  lemma CleanStep(rs: seq<Rune>)
    requires rs != []
    ensures CleanRunes(rs) <==> rs[0].Scalar? && !GoOnly(rs[0].c) && CleanRunes(rs[1..])
  {
    assert forall i :: 0 < i < |rs| ==> rs[i] == rs[1..][i - 1];
  }

  // Go writes more for a string that is not clean than serde does for the text seen, and the same for one that is.
  lemma {:induction false} WritersCompared(rs: seq<Rune>)
    ensures CleanRunes(rs) ==> EscapeRunes(rs) == Escape(HealRunes(rs))
    ensures !CleanRunes(rs) ==> |EscapeRunes(rs)| > |Escape(HealRunes(rs))|
  {
    if rs != [] {
      WritersCompared(rs[1..]);
      assert HealRunes(rs)[1..] == HealRunes(rs[1..]);
      CleanStep(rs);
    }
  }

  // ---- What the escaped text determines ----

  // The characters of a string, and where its bad bytes are.
  function Marks(rs: seq<Rune>): (ms: seq<Option<char>>)
    ensures |ms| == |rs|
    ensures forall i :: 0 <= i < |rs| ==> ms[i] == if rs[i].Scalar? then Some(rs[i].c) else None
  {
    seq(|rs|, i requires 0 <= i < |rs| => if rs[i].Scalar? then Some(rs[i].c) else None)
  }

  // No character is escaped as a bad byte is.
  lemma BadEscapeAlone(c: char, x: string, y: string)
    ensures EscapeChar(Go, c) + x != UnicodeEscape('\U{FFFD}') + y
  {
    var a, b := EscapeChar(Go, c) + x, UnicodeEscape('\U{FFFD}') + y;
    CharRead(Go, c, x);
    UnicodeRead('\U{FFFD}', y);
    if c == '\U{FFFD}' { assert a[0] == c && b[0] == '\\'; }
  }

  lemma SameRune(r: Rune, r': Rune, x: string, y: string)
    requires EscapeRune(r) + x == EscapeRune(r') + y
    ensures Marks([r]) == Marks([r']) && x == y
  {
    RuneRead(r, x);
    RuneRead(r', y);
    if r.Scalar? && r'.BadByte? { BadEscapeAlone(r.c, x, y); }
    if r.BadByte? && r'.Scalar? { BadEscapeAlone(r'.c, y, x); }
  }

  lemma StartsOtherwise(rs: seq<Rune>, x: string)
    requires rs != []
    ensures (EscapeRunes(rs) + ['"'] + x)[0] != '"'
  {
    EscapedStart(rs[0]);
  }

  lemma EndIsEnd(rs: seq<Rune>, x: string, y: string)
    requires EscapeRunes(rs) + ['"'] + x == ['"'] + y
    ensures rs == [] && x == y
  {
    if rs != [] { StartsOtherwise(rs, x); }
    assert (['"'] + x)[1..] == x && (['"'] + y)[1..] == y;
    assert rs == [] ==> EscapeRunes(rs) + ['"'] + x == ['"'] + x;
  }

  lemma EscapeStep(rs: seq<Rune>, x: string)
    requires rs != []
    ensures EscapeRunes(rs) + ['"'] + x == EscapeRune(rs[0]) + (EscapeRunes(rs[1..]) + ['"'] + x)
  {
    Assoc(EscapeRune(rs[0]), EscapeRunes(rs[1..]), ['"']);
    Assoc(EscapeRune(rs[0]), EscapeRunes(rs[1..]) + ['"'], x);
  }

  lemma MarksStep(rs: seq<Rune>)
    requires rs != []
    ensures Marks(rs) == Marks([rs[0]]) + Marks(rs[1..])
  {
  }

  // Escaped and closed by a quotation mark, a string determines its characters and the places of its bad bytes.
  lemma {:induction false} SameMarks(rs: seq<Rune>, rs': seq<Rune>, x: string, y: string)
    requires EscapeRunes(rs) + ['"'] + x == EscapeRunes(rs') + ['"'] + y
    ensures Marks(rs) == Marks(rs') && x == y
  {
    if rs == [] {
      assert EscapeRunes(rs) + ['"'] + x == ['"'] + x;
      EndIsEnd(rs', y, x);
    } else if rs' == [] {
      assert EscapeRunes(rs') + ['"'] + y == ['"'] + y;
      EndIsEnd(rs, x, y);
    } else {
      EscapeStep(rs, x);
      EscapeStep(rs', y);
      SameRune(rs[0], rs'[0], EscapeRunes(rs[1..]) + ['"'] + x, EscapeRunes(rs'[1..]) + ['"'] + y);
      SameMarks(rs[1..], rs'[1..], x, y);
      MarksStep(rs);
      MarksStep(rs');
    }
  }

  lemma MarksOfValid(b: GoString, b': GoString)
    requires Valid(b) && Marks(Runes(b)) == Marks(Runes(b'))
    ensures b == b'
  {
    forall i | 0 <= i < |Runes(b)|
      ensures Runes(b)[i] == Runes(b')[i]
    {
      assert Marks(Runes(b))[i] == Marks(Runes(b'))[i];
    }
    assert Runes(b) == Runes(b');
    RunesInverse(b);
    RunesInverse(b');
  }

  // A string that is not valid is escaped like another one.
  lemma {:induction false} AnotherEscapedAlike(b: GoString) returns (b': GoString)
    requires !Valid(b)
    ensures b' != b && EscapeGo(b') == EscapeGo(b)
    decreases |b|
  {
    if Head(b).None? {
      var other := if b[0] == 0xFF then 0xFE else 0xFF;
      b' := [other] + b[1..];
      assert b'[1..] == b[1..] && b'[0] == other;
      assert Head(b').None? by { NoHead(b'); }
      assert Runes(b') == [BadByte(other)] + Runes(b[1..]);
    } else {
      var c := Head(b).value;
      var rest := b[|EncodeChar(c)|..];
      assert Runes(b)[1..] == Runes(rest);
      var rest' := AnotherEscapedAlike(rest);
      b' := EncodeChar(c) + rest';
      HeadOf(c, rest');
      assert b'[|EncodeChar(c)|..] == rest';
      assert Runes(b') == [Scalar(c)] + Runes(rest');
    }
  }

  lemma NoHead(b: GoString)
    requires b != [] && (b[0] == 0xFE || b[0] == 0xFF)
    ensures Head(b).None?
  {
    if Head(b).Some? { assert EncodeChar(Head(b).value)[0] == b[0]; FirstByte(Head(b).value); }
  }

  lemma FirstByte(c: char)
    ensures EncodeChar(c)[0] < 0xF8
  {
  }
}
