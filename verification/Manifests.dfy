// Update packages: the server signs the hash of Go's JSON, the agent verifies the hash of serde's.
module Manifests {
  import opened Common
  import opened Text
  import opened Json
  import opened Base
  import Utf8

  type GoString = Utf8.GoString

  datatype Package<T> = Package(
    version: T,
    platform: T,
    downloadUrl: T,
    sha256Hex: T,
    sizeBytes: int,
    changelogUrl: T,
    minApiVersion: T,
    releaseTrack: T)

  datatype Manifest<T> = Manifest(
    schemaVersion: string,
    package: Package<T>,
    signature: string,
    publicKeyHex: string,
    issuedAt: Time,
    expiresAt: Time)

  // ---- Serialisation ----

  function MapFields<T, U>(p: Package<T>, f: T -> U): Package<U> {
    Package(f(p.version), f(p.platform), f(p.downloadUrl), f(p.sha256Hex), p.sizeBytes, f(p.changelogUrl),
            f(p.minApiVersion), f(p.releaseTrack))
  }

  function PrintInt(n: int): string {
    if n < 0 then "-" + Print(-n) else Print(n)
  }

  // An escaped string, after its name and before the rest of the text.
  function Quoted(name: string, escaped: string, rest: string): string {
    name + (escaped + ['"'] + rest)
  }

  // The fields from the fifth on, and all of them, in the order of the struct; the strings are already escaped.
  function LastFields(e: Package<string>): string {
    ",\"size_bytes\":" + PrintInt(e.sizeBytes)
    + Quoted(",\"changelog_url\":\"", e.changelogUrl,
      Quoted(",\"min_api_version\":\"", e.minApiVersion,
      Quoted(",\"release_track\":\"", e.releaseTrack, "}")))
  }

  function Layout(e: Package<string>): string {
    Quoted("{\"version\":\"", e.version,
    Quoted(",\"platform\":\"", e.platform,
    Quoted(",\"download_url\":\"", e.downloadUrl,
    Quoted(",\"sha256_hex\":\"", e.sha256Hex, LastFields(e)))))
  }

  const QUOTE := "\""

  // The text of the object: the names of the fields, in order, each before its value.
  lemma LayoutSpelt(e: Package<string>)
    ensures Layout(e)
         == "{\"version\":\"" + e.version + QUOTE
            + (",\"platform\":\"" + e.platform + QUOTE
               + (",\"download_url\":\"" + e.downloadUrl + QUOTE
                  + (",\"sha256_hex\":\"" + e.sha256Hex + QUOTE
                     + (",\"size_bytes\":" + PrintInt(e.sizeBytes)
                        + (",\"changelog_url\":\"" + e.changelogUrl + QUOTE
                           + (",\"min_api_version\":\"" + e.minApiVersion + QUOTE
                              + (",\"release_track\":\"" + e.releaseTrack + QUOTE + "}")))))))
  {
    var t := Quoted(",\"release_track\":\"", e.releaseTrack, "}");
    QuotedSpelt(",\"release_track\":\"", e.releaseTrack, "}");
    QuotedSpelt(",\"min_api_version\":\"", e.minApiVersion, t);
    var m := Quoted(",\"min_api_version\":\"", e.minApiVersion, t);
    QuotedSpelt(",\"changelog_url\":\"", e.changelogUrl, m);
    QuotedSpelt(",\"sha256_hex\":\"", e.sha256Hex, LastFields(e));
    var s := Quoted(",\"sha256_hex\":\"", e.sha256Hex, LastFields(e));
    QuotedSpelt(",\"download_url\":\"", e.downloadUrl, s);
    var d := Quoted(",\"download_url\":\"", e.downloadUrl, s);
    QuotedSpelt(",\"platform\":\"", e.platform, d);
    QuotedSpelt("{\"version\":\"", e.version, Quoted(",\"platform\":\"", e.platform, d));
  }

  lemma QuotedSpelt(name: string, escaped: string, rest: string)
    ensures Quoted(name, escaped, rest) == name + escaped + QUOTE + rest
  {
  }

  // The server's fields are Go strings, the agent's are text.
  function GoBytes(p: Package<GoString>): seq<Byte> {
    Utf8.Encode(Layout(MapFields(p, EscapeGo)))
  }

  function SerdeBytes(p: Package<string>): seq<Byte> {
    Utf8.Encode(Layout(MapFields(p, Escape)))
  }

  // The package an agent sees when it reads what the server wrote.
  function Healed(p: Package<GoString>): Package<string> {
    MapFields(p, Utf8.Heal)
  }

  function ReadQuoted(s: string, name: string): Option<(string, string)> {
    var rest := ScanLiteral(s, name);
    if rest.None? then None else ReadString(rest.value)
  }

  function ReadDigits(s: string): Option<(nat, string)> {
    var k := DigitCount(s);
    if k == 0 then None else Some((Value(s[..k]), s[k..]))
  }

  function ReadSigned(s: string): Option<(int, string)> {
    var negative := s != [] && s[0] == '-';
    var digits := ReadDigits(if negative then s[1..] else s);
    if digits.None? then None
    else
      var n: int := digits.value.0;
      Some((if negative then -n else n, digits.value.1))
  }

  function ReadInt(s: string, name: string): Option<(int, string)> {
    var rest := ScanLiteral(s, name);
    if rest.None? then None else ReadSigned(rest.value)
  }

  function ReadLast(s: string): Option<(int, string, string, string)> {
    var size := ReadInt(s, ",\"size_bytes\":");
    if size.None? then None else
    var changelog := ReadQuoted(size.value.1, ",\"changelog_url\":\"");
    if changelog.None? then None else
    var api := ReadQuoted(changelog.value.1, ",\"min_api_version\":\"");
    if api.None? then None else
    var track := ReadQuoted(api.value.1, ",\"release_track\":\"");
    if track.None? || track.value.1 != "}" then None
    else Some((size.value.0, changelog.value.0, api.value.0, track.value.0))
  }

  // Reads what either writer wrote, with the fields in their order and no white space.
  function Deserialise(s: string): Option<Package<string>> {
    var version := ReadQuoted(s, "{\"version\":\"");
    if version.None? then None else
    var platform := ReadQuoted(version.value.1, ",\"platform\":\"");
    if platform.None? then None else
    var download := ReadQuoted(platform.value.1, ",\"download_url\":\"");
    if download.None? then None else
    var sha := ReadQuoted(download.value.1, ",\"sha256_hex\":\"");
    if sha.None? then None else
    var last := ReadLast(sha.value.1);
    if last.None? then None
    else Some(Package(version.value.0, platform.value.0, download.value.0, sha.value.0,
                      last.value.0, last.value.1, last.value.2, last.value.3))
  }

  lemma QuotedRead(name: string, e: string, s: string, rest: string)
    requires Reads(e, s)
    ensures ReadQuoted(Quoted(name, e, rest), name) == Some((s, rest))
  {
    assert Quoted(name, e, rest)[|name|..] == e + ['"'] + rest;
  }

  lemma DigitsRead(n: nat, rest: string)
    requires rest == [] || !IsDigit(rest[0])
    ensures ReadDigits(Print(n) + rest) == Some((n, rest))
  {
    var s := Print(n) + rest;
    DigitCountOf(Print(n), rest);
    assert s[..|Print(n)|] == Print(n) && s[|Print(n)|..] == rest;
    PrintValue(n);
  }

  lemma SignRead(digits: string, n: int, rest: string)
    requires n >= 0 && digits != [] && digits[0] != '-' && ReadDigits(digits + rest) == Some((n as nat, rest))
    ensures ReadSigned(digits + rest) == Some((n, rest))
    ensures ReadSigned("-" + digits + rest) == Some((-n, rest))
  {
    assert ("-" + digits + rest)[1..] == digits + rest;
  }

  lemma SignedRead(n: int, rest: string)
    requires rest == [] || !IsDigit(rest[0])
    ensures ReadSigned(PrintInt(n) + rest) == Some((n, rest))
  {
    var m := if n < 0 then -n else n;
    DigitsRead(m, rest);
    assert IsDigit(Print(m)[0]);
    SignRead(Print(m), m, rest);
  }

  lemma IntRead(name: string, n: int, rest: string)
    requires rest == [] || !IsDigit(rest[0])
    ensures ReadInt(name + PrintInt(n) + rest, name) == Some((n, rest))
  {
    assert (name + PrintInt(n) + rest)[|name|..] == PrintInt(n) + rest;
    SignedRead(n, rest);
  }

  // The escaped fields e read as the fields of p.
  ghost predicate FieldsRead(e: Package<string>, p: Package<string>) {
    && e.sizeBytes == p.sizeBytes && Reads(e.version, p.version) && Reads(e.platform, p.platform)
    && Reads(e.downloadUrl, p.downloadUrl) && Reads(e.sha256Hex, p.sha256Hex)
    && Reads(e.changelogUrl, p.changelogUrl) && Reads(e.minApiVersion, p.minApiVersion)
    && Reads(e.releaseTrack, p.releaseTrack)
  }

  lemma LastRead(e: Package<string>, p: Package<string>)
    requires FieldsRead(e, p)
    ensures ReadLast(LastFields(e)) == Some((p.sizeBytes, p.changelogUrl, p.minApiVersion, p.releaseTrack))
  {
    var t3 := Quoted(",\"release_track\":\"", e.releaseTrack, "}");
    var t2 := Quoted(",\"min_api_version\":\"", e.minApiVersion, t3);
    var t1 := Quoted(",\"changelog_url\":\"", e.changelogUrl, t2);
    IntRead(",\"size_bytes\":", e.sizeBytes, t1);
    QuotedRead(",\"changelog_url\":\"", e.changelogUrl, p.changelogUrl, t2);
    QuotedRead(",\"min_api_version\":\"", e.minApiVersion, p.minApiVersion, t3);
    QuotedRead(",\"release_track\":\"", e.releaseTrack, p.releaseTrack, "}");
  }

  lemma LayoutRead(e: Package<string>, p: Package<string>)
    requires FieldsRead(e, p)
    ensures Deserialise(Layout(e)) == Some(p)
  {
    var t4 := LastFields(e);
    var t3 := Quoted(",\"sha256_hex\":\"", e.sha256Hex, t4);
    var t2 := Quoted(",\"download_url\":\"", e.downloadUrl, t3);
    var t1 := Quoted(",\"platform\":\"", e.platform, t2);
    QuotedRead("{\"version\":\"", e.version, p.version, t1);
    QuotedRead(",\"platform\":\"", e.platform, p.platform, t2);
    QuotedRead(",\"download_url\":\"", e.downloadUrl, p.downloadUrl, t3);
    QuotedRead(",\"sha256_hex\":\"", e.sha256Hex, p.sha256Hex, t4);
    LastRead(e, p);
  }

  lemma SerdeFieldsRead(p: Package<string>)
    ensures FieldsRead(MapFields(p, Escape), p)
  {
    ReadsBack(p.version, []);
    ReadsBack(p.platform, []);
    ReadsBack(p.downloadUrl, []);
    ReadsBack(p.sha256Hex, []);
    ReadsBack(p.changelogUrl, []);
    ReadsBack(p.minApiVersion, []);
    ReadsBack(p.releaseTrack, []);
  }

  lemma GoFieldsRead(q: Package<GoString>)
    ensures FieldsRead(MapFields(q, EscapeGo), Healed(q))
  {
    ReadsBack("", q.version);
    ReadsBack("", q.platform);
    ReadsBack("", q.downloadUrl);
    ReadsBack("", q.sha256Hex);
    ReadsBack("", q.changelogUrl);
    ReadsBack("", q.minApiVersion);
    ReadsBack("", q.releaseTrack);
  }

  // Every package is read back from what serde writes; from what Go writes, for any bytes in its fields, with U+FFFD
  // for each bad one.
  lemma SerialiseRead(p: Package<string>, q: Package<GoString>)
    ensures Deserialise(Layout(MapFields(p, Escape))) == Some(p)
    ensures Deserialise(Layout(MapFields(q, EscapeGo))) == Some(Healed(q))
  {
    SerdeFieldsRead(p);
    LayoutRead(MapFields(p, Escape), p);
    GoFieldsRead(q);
    LayoutRead(MapFields(q, EscapeGo), Healed(q));
  }

  // ---- What the signed bytes determine ----

  // If server and agent hashed the same bytes, the agent has the package the server wrote, as text.
  lemma BytesDetermine(p: Package<string>, q: Package<GoString>)
    requires SerdeBytes(p) == GoBytes(q)
    ensures p == Healed(q)
  {
    Utf8.EncodeInjective(Layout(MapFields(p, Escape)), Layout(MapFields(q, EscapeGo)));
    SerialiseRead(p, q);
  }

  predicate ValidPackage(p: Package<GoString>) {
    && Utf8.Valid(p.version) && Utf8.Valid(p.platform) && Utf8.Valid(p.downloadUrl) && Utf8.Valid(p.sha256Hex)
    && Utf8.Valid(p.changelogUrl) && Utf8.Valid(p.minApiVersion) && Utf8.Valid(p.releaseTrack)
  }

  lemma QuotedMarks(name: string, b: GoString, b': GoString, x: string, y: string)
    requires Quoted(name, EscapeGo(b), x) == Quoted(name, EscapeGo(b'), y)
    ensures Marks(Utf8.Runes(b)) == Marks(Utf8.Runes(b')) && x == y
  {
    assert Quoted(name, EscapeGo(b), x)[|name|..] == EscapeGo(b) + ['"'] + x;
    assert Quoted(name, EscapeGo(b'), y)[|name|..] == EscapeGo(b') + ['"'] + y;
    SameMarks(Utf8.Runes(b), Utf8.Runes(b'), x, y);
  }

  lemma QuotedSame(name: string, b: GoString, b': GoString, x: string, y: string)
    requires Utf8.Valid(b) && Quoted(name, EscapeGo(b), x) == Quoted(name, EscapeGo(b'), y)
    ensures b == b' && x == y
  {
    QuotedMarks(name, b, b', x, y);
    MarksOfValid(b, b');
  }

  lemma LastSame(p: Package<GoString>, p': Package<GoString>)
    requires ValidPackage(p) && LastFields(MapFields(p, EscapeGo)) == LastFields(MapFields(p', EscapeGo))
    ensures p.sizeBytes == p'.sizeBytes && p.changelogUrl == p'.changelogUrl
    ensures p.minApiVersion == p'.minApiVersion && p.releaseTrack == p'.releaseTrack
  {
    var x3 := Quoted(",\"release_track\":\"", EscapeGo(p.releaseTrack), "}");
    var y3 := Quoted(",\"release_track\":\"", EscapeGo(p'.releaseTrack), "}");
    var x2 := Quoted(",\"min_api_version\":\"", EscapeGo(p.minApiVersion), x3);
    var y2 := Quoted(",\"min_api_version\":\"", EscapeGo(p'.minApiVersion), y3);
    var x1 := Quoted(",\"changelog_url\":\"", EscapeGo(p.changelogUrl), x2);
    var y1 := Quoted(",\"changelog_url\":\"", EscapeGo(p'.changelogUrl), y2);
    IntRead(",\"size_bytes\":", p.sizeBytes, x1);
    IntRead(",\"size_bytes\":", p'.sizeBytes, y1);
    QuotedSame(",\"changelog_url\":\"", p.changelogUrl, p'.changelogUrl, x2, y2);
    QuotedSame(",\"min_api_version\":\"", p.minApiVersion, p'.minApiVersion, x3, y3);
    QuotedSame(",\"release_track\":\"", p.releaseTrack, p'.releaseTrack, "}", "}");
  }

  // The bytes the server signs determine a valid package, in all eight fields, among all packages.
  lemma ValidDetermined(p: Package<GoString>, p': Package<GoString>)
    requires ValidPackage(p) && GoBytes(p) == GoBytes(p')
    ensures p == p'
  {
    var e, e' := MapFields(p, EscapeGo), MapFields(p', EscapeGo);
    Utf8.EncodeInjective(Layout(e), Layout(e'));
    var x3 := Quoted(",\"sha256_hex\":\"", e.sha256Hex, LastFields(e));
    var y3 := Quoted(",\"sha256_hex\":\"", e'.sha256Hex, LastFields(e'));
    var x2 := Quoted(",\"download_url\":\"", e.downloadUrl, x3);
    var y2 := Quoted(",\"download_url\":\"", e'.downloadUrl, y3);
    var x1 := Quoted(",\"platform\":\"", e.platform, x2);
    var y1 := Quoted(",\"platform\":\"", e'.platform, y2);
    QuotedSame("{\"version\":\"", p.version, p'.version, x1, y1);
    QuotedSame(",\"platform\":\"", p.platform, p'.platform, x2, y2);
    QuotedSame(",\"download_url\":\"", p.downloadUrl, p'.downloadUrl, x3, y3);
    QuotedSame(",\"sha256_hex\":\"", p.sha256Hex, p'.sha256Hex, LastFields(e), LastFields(e'));
    LastSame(p, p');
  }

  // A package with a bad byte shares its signed bytes with another one.
  lemma InvalidShared(p: Package<GoString>) returns (p': Package<GoString>)
    requires !ValidPackage(p)
    ensures p' != p && GoBytes(p') == GoBytes(p)
  {
    p' := p;
    if !Utf8.Valid(p.version) {
      var b := AnotherEscapedAlike(p.version);
      p' := p.(version := b);
    } else if !Utf8.Valid(p.platform) {
      var b := AnotherEscapedAlike(p.platform);
      p' := p.(platform := b);
    } else if !Utf8.Valid(p.downloadUrl) {
      var b := AnotherEscapedAlike(p.downloadUrl);
      p' := p.(downloadUrl := b);
    } else if !Utf8.Valid(p.sha256Hex) {
      var b := AnotherEscapedAlike(p.sha256Hex);
      p' := p.(sha256Hex := b);
    } else if !Utf8.Valid(p.changelogUrl) {
      var b := AnotherEscapedAlike(p.changelogUrl);
      p' := p.(changelogUrl := b);
    } else if !Utf8.Valid(p.minApiVersion) {
      var b := AnotherEscapedAlike(p.minApiVersion);
      p' := p.(minApiVersion := b);
    } else {
      var b := AnotherEscapedAlike(p.releaseTrack);
      p' := p.(releaseTrack := b);
    }
    assert MapFields(p', EscapeGo) == MapFields(p, EscapeGo);
  }

  // No other package is signed over the same bytes.
  ghost predicate Determined(p: Package<GoString>) {
    forall p' :: GoBytes(p') == GoBytes(p) ==> p' == p
  }

  // The signed bytes determine the server's package, in all eight fields, exactly when it has no bad byte.
  lemma DeterminedIffValid(p: Package<GoString>)
    ensures Determined(p) <==> ValidPackage(p)
  {
    if ValidPackage(p) {
      forall p' | GoBytes(p') == GoBytes(p)
        ensures p' == p
      {
        ValidDetermined(p, p');
      }
    } else {
      var p' := InvalidShared(p);
    }
  }

  // ---- Whether server and agent hash the same bytes ----

  predicate CleanPackage(p: Package<GoString>) {
    && Clean(p.version) && Clean(p.platform) && Clean(p.downloadUrl) && Clean(p.sha256Hex)
    && Clean(p.changelogUrl) && Clean(p.minApiVersion) && Clean(p.releaseTrack)
  }

  lemma QuotedCompared(name: string, b: GoString, goRest: string, serdeRest: string)
    requires |goRest| >= |serdeRest|
    ensures var x, y := Quoted(name, EscapeGo(b), goRest), Quoted(name, Escape(Utf8.Heal(b)), serdeRest);
      && (Clean(b) && goRest == serdeRest ==> x == y)
      && |x| >= |y| && (!Clean(b) || |goRest| > |serdeRest| ==> |x| > |y|)
  {
    WritersCompared(Utf8.Runes(b));
  }

  lemma LastCompared(p: Package<GoString>)
    ensures var x, y := LastFields(MapFields(p, EscapeGo)), LastFields(MapFields(Healed(p), Escape));
      var clean := Clean(p.changelogUrl) && Clean(p.minApiVersion) && Clean(p.releaseTrack);
      |x| >= |y| && (clean ==> x == y) && (!clean ==> |x| > |y|)
  {
    var e, f := MapFields(p, EscapeGo), MapFields(Healed(p), Escape);
    var g3 := Quoted(",\"release_track\":\"", e.releaseTrack, "}");
    var s3 := Quoted(",\"release_track\":\"", f.releaseTrack, "}");
    var g2 := Quoted(",\"min_api_version\":\"", e.minApiVersion, g3);
    var s2 := Quoted(",\"min_api_version\":\"", f.minApiVersion, s3);
    QuotedCompared(",\"release_track\":\"", p.releaseTrack, "}", "}");
    QuotedCompared(",\"min_api_version\":\"", p.minApiVersion, g3, s3);
    QuotedCompared(",\"changelog_url\":\"", p.changelogUrl, g2, s2);
  }

  // Server and agent hash the same bytes exactly when no field has a bad byte or one of the five characters that only
  // Go escapes.
  lemma SameBytes(p: Package<GoString>)
    ensures GoBytes(p) == SerdeBytes(Healed(p)) <==> CleanPackage(p)
  {
    var e, f := MapFields(p, EscapeGo), MapFields(Healed(p), Escape);
    var g4, s4 := LastFields(e), LastFields(f);
    var g3 := Quoted(",\"sha256_hex\":\"", e.sha256Hex, g4);
    var s3 := Quoted(",\"sha256_hex\":\"", f.sha256Hex, s4);
    var g2 := Quoted(",\"download_url\":\"", e.downloadUrl, g3);
    var s2 := Quoted(",\"download_url\":\"", f.downloadUrl, s3);
    var g1 := Quoted(",\"platform\":\"", e.platform, g2);
    var s1 := Quoted(",\"platform\":\"", f.platform, s2);
    LastCompared(p);
    QuotedCompared(",\"sha256_hex\":\"", p.sha256Hex, g4, s4);
    QuotedCompared(",\"download_url\":\"", p.downloadUrl, g3, s3);
    QuotedCompared(",\"platform\":\"", p.platform, g2, s2);
    QuotedCompared("{\"version\":\"", p.version, g1, s1);
    if GoBytes(p) == SerdeBytes(Healed(p)) { Utf8.EncodeInjective(Layout(e), Layout(f)); }
  }

  // ---- Signing ----

  function Hex(bytes: seq<Byte>): (r: string)
    ensures |r| == 2 * |bytes| && Plain(r)
  {
    if bytes == [] then [] else [HexDigit(bytes[0] / 16), HexDigit(bytes[0] % 16)] + Hex(bytes[1..])
  }

  // Two lower-case digits a byte.
  lemma {:induction false} HexDigits(bytes: seq<Byte>, i: nat)
    requires i < |bytes|
    ensures Hex(bytes)[2 * i] == "0123456789abcdef"[bytes[i] / 16]
    ensures Hex(bytes)[2 * i + 1] == "0123456789abcdef"[bytes[i] % 16]
  {
    if i == 0 {
      DigitIs(bytes[0] / 16);
      DigitIs(bytes[0] % 16);
    } else {
      HexDigits(bytes[1..], i - 1);
      assert Hex(bytes)[2..] == Hex(bytes[1..]);
    }
  }

  lemma DigitIs(n: nat)
    requires n < 16
    ensures HexDigit(n) == "0123456789abcdef"[n]
  {
  }

  lemma {:induction false} HexInjective(a: seq<Byte>, b: seq<Byte>)
    requires Hex(a) == Hex(b)
    ensures a == b
  {
    if a != [] {
      assert |a| == |b|;
      assert Hex(a)[0] == Hex(b)[0] && Hex(a)[1] == Hex(b)[1];
      HexRoundTrip(a[0] / 16);
      HexRoundTrip(a[0] % 16);
      HexRoundTrip(b[0] / 16);
      HexRoundTrip(b[0] % 16);
      assert Hex(a)[2..] == Hex(a[1..]) && Hex(b)[2..] == Hex(b[1..]);
      HexInjective(a[1..], b[1..]);
    }
  }

  // SHA-256 and Ed25519.
  datatype Crypto = Crypto(
    sha256: seq<Byte> -> seq<Byte>,
    publicOf: seq<Byte> -> seq<Byte>,
    sign: (seq<Byte>, seq<Byte>) -> seq<Byte>,
    validKey: seq<Byte> -> bool,
    verify: (seq<Byte>, seq<Byte>, seq<Byte>) -> bool)

  // What is assumed of them: digests have 32 bytes; signatures have 64, and verify for the digest they were made for
  // and no other.
  ghost predicate Sound(crypto: Crypto) {
    && (forall x :: |crypto.sha256(x)| == 32)
    && (forall k, m :: |crypto.sign(k, m)| == 64)
    && (forall k, m, m' :: |m| == 32 && |m'| == 32 ==>
          (crypto.verify(crypto.publicOf(k), m', crypto.sign(k, m)) <==> m' == m))
  }

  // And of the inputs at hand: that they are not a collision of the hash.
  predicate NoCollision(crypto: Crypto, x: seq<Byte>, y: seq<Byte>) {
    crypto.sha256(x) == crypto.sha256(y) ==> x == y
  }

  // The assumption can be met: sign by padding the digest.
  lemma SoundIsPossible() returns (crypto: Crypto)
    ensures Sound(crypto)
  {
    var pad := (m: seq<Byte>) => if |m| == 32 then m + seq(32, _ => 0) else seq(64, _ => 0);
    crypto := Crypto(_ => seq(32, _ => 0), k => k, (k, m) => pad(m), k => true, (k, m, s) => s == pad(m));
    forall k, m, m' | |m| == 32 && |m'| == 32
      ensures crypto.verify(crypto.publicOf(k), m', crypto.sign(k, m)) <==> m' == m
    {
      assert pad(m)[..32] == m && pad(m')[..32] == m';
    }
  }

  const MIN_API_VERSION := "1.0" + ".0"
  const DIGEST_PREFIX := "controlhub" + "-agent-"
  const SLASH := "/"
  const FILE := "/controlhub" + "-agent-"
  const ZIP := ".zip"
  const AGENT_URL := "https://updates" + ".controlhub.io" + "/agent/"
  const CHANGELOG_URL := "https://docs" + ".controlhub.io" + "/agent/changelog#v"

  // a + v + b + p + c, in bytes, of texts a, b and c.
  function Interleave(a: string, v: GoString, b: string, p: GoString, c: string): GoString {
    Utf8.Encode(a) + (v + (Utf8.Encode(b) + (p + Utf8.Encode(c))))
  }

  function FakeSha256(crypto: Crypto, version: GoString, platform: GoString): string {
    Hex(crypto.sha256(Interleave(DIGEST_PREFIX, version, "-", platform, "")))
  }

  function DownloadUrl(version: GoString, platform: GoString): GoString {
    Interleave(AGENT_URL, version, SLASH, platform, FILE) + (version + Utf8.Encode(ZIP))
  }

  function ChangelogUrl(version: GoString): GoString {
    Utf8.Encode(CHANGELOG_URL) + version
  }

  function BuildPackage(crypto: Crypto, version: GoString, platform: GoString, track: GoString): Package<GoString> {
    Package(version, platform, DownloadUrl(version, platform),
            Utf8.Encode(FakeSha256(crypto, version, platform)), 8_547_328,
            ChangelogUrl(version), Utf8.Encode(MIN_API_VERSION), track)
  }

  function Signed(crypto: Crypto, key: seq<Byte>, p: Package<GoString>, now: Time): Manifest<GoString> {
    Manifest("1", p, EncodePadded64(crypto.sign(key, crypto.sha256(GoBytes(p)))), Hex(crypto.publicOf(key)),
             now, now + 7 * 24 * 3600 * SECOND)
  }

  function BuildManifest(crypto: Crypto, key: seq<Byte>, version: GoString, platform: GoString, track: GoString,
                         now: Time): Manifest<GoString>
  {
    Signed(crypto, key, BuildPackage(crypto, version, platform, track), now)
  }

  // The manifest as an agent reads it.
  function Received(m: Manifest<GoString>): Manifest<string> {
    Manifest(m.schemaVersion, Healed(m.package), m.signature, m.publicKeyHex, m.issuedAt, m.expiresAt)
  }

  // What a built manifest says: the version, platform and track asked for, each in its own field and the first two in
  // the archive's URL and digest, signed with the key, and good for seven days.
  lemma BuiltSays(crypto: Crypto, key: seq<Byte>, version: GoString, platform: GoString, track: GoString, now: Time)
    ensures var m := BuildManifest(crypto, key, version, platform, track, now);
      && m.package.version == version && m.package.platform == platform && m.package.releaseTrack == track
      && m.package.downloadUrl
         == Utf8.Encode(AGENT_URL) + version + Utf8.Encode("/") + platform + Utf8.Encode(FILE) + version
            + Utf8.Encode(ZIP)
      && m.package.changelogUrl == Utf8.Encode(CHANGELOG_URL) + version
      && Utf8.Heal(m.package.sha256Hex) == FakeSha256(crypto, version, platform)
         == Hex(crypto.sha256(Utf8.Encode(DIGEST_PREFIX) + version + Utf8.Encode("-") + platform))
      && m.package.sizeBytes == 8547328
      && DecodeStrict64(m.signature) == Some(crypto.sign(key, crypto.sha256(GoBytes(m.package))))
      && m.publicKeyHex == Hex(crypto.publicOf(key))
      && m.issuedAt == now && m.expiresAt == now + 7 * 24 * 3600 * SECOND
  {
    var p := BuildPackage(crypto, version, platform, track);
    StrictInverse(crypto.sign(key, crypto.sha256(GoBytes(p))));
    Utf8.RunesOfText(FakeSha256(crypto, version, platform));
    DigestText(version, platform);
    UrlText(version, platform);
  }

  // How the agent sees the digest and the version.
  lemma ReceivedDigest(crypto: Crypto, key: seq<Byte>, version: GoString, platform: GoString, track: GoString,
                       now: Time)
    ensures var package := Received(BuildManifest(crypto, key, version, platform, track, now)).package;
      && package.sha256Hex == FakeSha256(crypto, version, platform) && package.version == Utf8.Heal(version)
      && |package.sha256Hex| == 2 * |crypto.sha256(Interleave(DIGEST_PREFIX, version, "-", platform, ""))|
  {
    Utf8.RunesOfText(FakeSha256(crypto, version, platform));
  }

  lemma DigestText(version: GoString, platform: GoString)
    ensures Interleave(DIGEST_PREFIX, version, "-", platform, "")
         == Utf8.Encode(DIGEST_PREFIX) + version + Utf8.Encode("-") + platform
  {
    var a, b := Utf8.Encode(DIGEST_PREFIX), Utf8.Encode("-");
    assert platform + Utf8.Encode("") == platform;
    Assoc(a, version, b + platform);
    Assoc(a + version, b, platform);
  }

  lemma UrlText(version: GoString, platform: GoString)
    ensures DownloadUrl(version, platform)
         == Utf8.Encode(AGENT_URL) + version + Utf8.Encode("/") + platform + Utf8.Encode(FILE) + version
            + Utf8.Encode(ZIP)
  {
    UrlParts(Utf8.Encode(AGENT_URL), version, Utf8.Encode("/"), platform, Utf8.Encode(FILE), Utf8.Encode(ZIP));
  }

  lemma UrlParts(a: GoString, v: GoString, b: GoString, p: GoString, c: GoString, d: GoString)
    ensures a + (v + (b + (p + c))) + (v + d) == a + v + b + p + c + v + d
  {
  }

  datatype SignatureError = BadPinnedKey | BadSignatureText | BadSignatureLength | Rejected

  // The key in the manifest plays no part.
  function VerifySignature(crypto: Crypto, pinned: seq<Byte>, m: Manifest<string>): Result<(), SignatureError> {
    if |pinned| != 32 || !crypto.validKey(pinned) then Err(BadPinnedKey)
    else
      var sig := DecodeStrict64(m.signature);
      if sig.None? then Err(BadSignatureText)
      else if |sig.value| != 64 then Err(BadSignatureLength)
      else if !crypto.verify(pinned, crypto.sha256(SerdeBytes(m.package)), sig.value) then Err(Rejected)
      else Ok(())
  }

  // A manifest verifies exactly under a valid key of 32 bytes, with 64 bytes of signature in canonical base64 that
  // verify for the hash of the package; the key that it carries itself makes no difference.
  lemma VerifiedMeans(crypto: Crypto, pinned: seq<Byte>, m: Manifest<string>, other: string)
    ensures VerifySignature(crypto, pinned, m).Ok? <==>
            |pinned| == 32 && crypto.validKey(pinned)
            && exists sig :: |sig| == 64 && m.signature == EncodePadded64(sig)
                             && crypto.verify(pinned, crypto.sha256(SerdeBytes(m.package)), sig)
    ensures VerifySignature(crypto, pinned, m.(publicKeyHex := other)) == VerifySignature(crypto, pinned, m)
  {
    forall sig
      ensures DecodeStrict64(m.signature) == Some(sig) <==> m.signature == EncodePadded64(sig)
    {
      RoundTripStrict64(sig, m.signature);
    }
  }

  // ---- When a built manifest verifies ----

  lemma CleanConcat(x: seq<Utf8.Rune>, y: seq<Utf8.Rune>)
    ensures CleanRunes(x + y) <==> CleanRunes(x) && CleanRunes(y)
  {
    assert forall i :: 0 <= i < |x| ==> (x + y)[i] == x[i];
    assert forall i :: 0 <= i < |y| ==> (x + y)[|x| + i] == y[i];
  }

  lemma CleanAfterText(s: string, b: GoString)
    ensures Clean(Utf8.Encode(s) + b) <==> Plain(s) && Clean(b)
  {
    Utf8.RunesAfterText(s, b);
    CleanConcat(Utf8.Scalars(s), Utf8.Runes(b));
    assert CleanRunes(Utf8.Scalars(s)) <==> Plain(s);
  }

  lemma CleanText(s: string)
    ensures Clean(Utf8.Encode(s)) <==> Plain(s)
  {
    Utf8.RunesOfText(s);
  }

  predicate AsciiStart(s: string) {
    s != [] && (s[0] as int) < 0x80
  }

  lemma CleanBefore(a: GoString, s: string, b: GoString)
    requires AsciiStart(s) && Plain(s)
    ensures Clean(a + (Utf8.Encode(s) + b)) <==> Clean(a) && Clean(b)
  {
    var rest := Utf8.Encode(s) + b;
    assert rest[0] == Utf8.EncodeChar(s[0])[0];
    Utf8.RunesBeforeAscii(a, rest);
    CleanConcat(Utf8.Runes(a), Utf8.Runes(rest));
    CleanAfterText(s, b);
  }

  lemma Reassociate(a: GoString, v: GoString, b: GoString, p: GoString, c: GoString, d: GoString)
    ensures a + (v + (b + (p + c))) + (v + d) == a + (v + (b + (p + (c + (v + (d + []))))))
  {
  }

  lemma CleanUrl(a: string, v: GoString, b: string, p: GoString, c: string, d: string)
    requires Plain(a) && Plain(b) && Plain(c) && Plain(d) && AsciiStart(b) && AsciiStart(c) && AsciiStart(d)
    ensures Clean(Interleave(a, v, b, p, c) + (v + Utf8.Encode(d))) <==> Clean(v) && Clean(p)
  {
    var t1 := v + (Utf8.Encode(d) + []);
    var t2 := p + (Utf8.Encode(c) + t1);
    CleanBefore(v, d, []);
    CleanBefore(p, c, t1);
    CleanBefore(v, b, t2);
    CleanAfterText(a, v + (Utf8.Encode(b) + t2));
    Reassociate(Utf8.Encode(a), v, Utf8.Encode(b), p, Utf8.Encode(c), Utf8.Encode(d));
  }

  // Plain texts, a few characters at a time.
  lemma PlainConcat(s: string, t: string)
    requires Plain(s) && Plain(t)
    ensures Plain(s + t)
  {
  }

  lemma AgentUrlPlain()
    ensures Plain(AGENT_URL)
  {
    var a, b, c := "https://updates", ".controlhub.io", "/agent/";
    assert Plain(a);
    assert Plain(b);
    assert Plain(c);
    PlainConcat(a, b);
    PlainConcat(a + b, c);
    assert AGENT_URL == a + b + c;
  }

  lemma ChangelogUrlPlain()
    ensures Plain(CHANGELOG_URL)
  {
    var a, b, c := "https://docs", ".controlhub.io", "/agent/changelog#v";
    assert Plain(a);
    assert Plain(b);
    assert Plain(c);
    PlainConcat(a, b);
    PlainConcat(a + b, c);
    assert CHANGELOG_URL == a + b + c;
  }

  lemma FilePlain()
    ensures Plain(FILE) && AsciiStart(FILE)
  {
    var a, b := "/controlhub", "-agent-";
    assert Plain(a);
    assert Plain(b);
    PlainConcat(a, b);
  }

  lemma SeparatorsPlain()
    ensures Plain(SLASH) && AsciiStart(SLASH) && Plain(ZIP) && AsciiStart(ZIP)
  {
  }

  lemma DownloadClean(version: GoString, platform: GoString)
    ensures Clean(DownloadUrl(version, platform)) <==> Clean(version) && Clean(platform)
  {
    AgentUrlPlain();
    FilePlain();
    SeparatorsPlain();
    CleanUrl(AGENT_URL, version, SLASH, platform, FILE, ZIP);
  }

  lemma ChangelogClean(version: GoString)
    ensures Clean(ChangelogUrl(version)) <==> Clean(version)
  {
    ChangelogUrlPlain();
    CleanAfterText(CHANGELOG_URL, version);
  }

  lemma ApiVersionClean()
    ensures Clean(Utf8.Encode(MIN_API_VERSION))
  {
    CleanText(MIN_API_VERSION);
  }

  lemma HexClean(bytes: seq<Byte>)
    ensures Clean(Utf8.Encode(Hex(bytes)))
  {
    CleanText(Hex(bytes));
  }

  lemma BuiltClean(crypto: Crypto, version: GoString, platform: GoString, track: GoString)
    ensures CleanPackage(BuildPackage(crypto, version, platform, track)) <==>
            Clean(version) && Clean(platform) && Clean(track)
  {
    DownloadClean(version, platform);
    ChangelogClean(version);
    ApiVersionClean();
    HexClean(crypto.sha256(Interleave(DIGEST_PREFIX, version, "-", platform, "")));
  }

  lemma VerifiesIff(crypto: Crypto, key: seq<Byte>, m: Manifest<string>, digest: seq<Byte>)
    requires Sound(crypto) && |crypto.publicOf(key)| == 32 && crypto.validKey(crypto.publicOf(key))
    requires |digest| == 32 && DecodeStrict64(m.signature) == Some(crypto.sign(key, digest))
    ensures VerifySignature(crypto, crypto.publicOf(key), m).Ok? <==> crypto.sha256(SerdeBytes(m.package)) == digest
  {
  }

  lemma SignedVerifies(crypto: Crypto, key: seq<Byte>, p: Package<GoString>, now: Time)
    requires Sound(crypto) && |crypto.publicOf(key)| == 32 && crypto.validKey(crypto.publicOf(key))
    requires NoCollision(crypto, GoBytes(p), SerdeBytes(Healed(p)))
    ensures VerifySignature(crypto, crypto.publicOf(key), Received(Signed(crypto, key, p, now))).Ok?
            <==> CleanPackage(p)
  {
    var digest := crypto.sha256(GoBytes(p));
    StrictInverse(crypto.sign(key, digest));
    VerifiesIff(crypto, key, Received(Signed(crypto, key, p, now)), digest);
    SameBytes(p);
  }

  // Valid UTF-8 without a character that only Go escapes.
  predicate Harmless(b: GoString) {
    Utf8.Valid(b) && Plain(Utf8.Heal(b))
  }

  // A manifest the server built, read by an agent that pins the server's key, verifies exactly when the version, the
  // platform and the track are all valid UTF-8 and none contains a character that only Go escapes.
  lemma BuiltVerifies(crypto: Crypto, key: seq<Byte>, version: GoString, platform: GoString, track: GoString, now: Time)
    requires Sound(crypto) && |crypto.publicOf(key)| == 32 && crypto.validKey(crypto.publicOf(key))
    requires var p := BuildPackage(crypto, version, platform, track);
      NoCollision(crypto, GoBytes(p), SerdeBytes(Healed(p)))
    ensures var m := Received(BuildManifest(crypto, key, version, platform, track, now));
      VerifySignature(crypto, crypto.publicOf(key), m).Ok? <==>
            Harmless(version) && Harmless(platform) && Harmless(track)
  {
    SignedVerifies(crypto, key, BuildPackage(crypto, version, platform, track), now);
    BuiltClean(crypto, version, platform, track);
    CleanMeans(version);
    CleanMeans(platform);
    CleanMeans(track);
  }

  lemma BadBytes()
    ensures Plain(Utf8.Heal([0xFF])) && !Utf8.Valid([0xFF]) && EscapeGo([0xFF]) == EscapeGo([0xFE])
  {
    NoHead([0xFF]);
    NoHead([0xFE]);
    var rs, rs' := [Utf8.BadByte(0xFF)], [Utf8.BadByte(0xFE)];
    assert Utf8.Runes([0xFF]) == rs && Utf8.Runes([0xFE]) == rs';
    assert !rs[0].Scalar? && rs[1..] == [] && rs'[1..] == [];
  }

  lemma SameTrackBytes(p: Package<GoString>, track: GoString)
    requires EscapeGo(track) == EscapeGo(p.releaseTrack)
    ensures GoBytes(p.(releaseTrack := track)) == GoBytes(p)
  {
    assert MapFields(p.(releaseTrack := track), EscapeGo) == MapFields(p, EscapeGo);
  }

  // The track "\xff", which has none of those characters: the built manifest is rejected, and it is signed over the
  // same bytes as for the track "\xfe".
  lemma BadByteTrack(crypto: Crypto, key: seq<Byte>, version: GoString, platform: GoString, now: Time)
    requires Sound(crypto) && |crypto.publicOf(key)| == 32 && crypto.validKey(crypto.publicOf(key))
    requires var p := BuildPackage(crypto, version, platform, [0xFF]);
      NoCollision(crypto, GoBytes(p), SerdeBytes(Healed(p)))
    ensures Plain(Utf8.Heal([0xFF]))
    ensures VerifySignature(crypto, crypto.publicOf(key),
                            Received(BuildManifest(crypto, key, version, platform, [0xFF], now))).Err?
    ensures GoBytes(BuildPackage(crypto, version, platform, [0xFE]))
         == GoBytes(BuildPackage(crypto, version, platform, [0xFF]))
  {
    BadBytes();
    BuiltVerifies(crypto, key, version, platform, [0xFF], now);
    SameTrackBytes(BuildPackage(crypto, version, platform, [0xFF]), [0xFE]);
  }

  // If a manifest verifies with a signature the key's owner made for the server's package q, its package is q as text,
  // in every field, and q has no bad byte.
  lemma VerifiedIsSigned(crypto: Crypto, key: seq<Byte>, m: Manifest<string>, q: Package<GoString>)
    requires Sound(crypto) && VerifySignature(crypto, crypto.publicOf(key), m).Ok?
    requires NoCollision(crypto, SerdeBytes(m.package), GoBytes(q))
    requires DecodeStrict64(m.signature) == Some(crypto.sign(key, crypto.sha256(GoBytes(q))))
    ensures m.package == Healed(q) && ValidPackage(q)
  {
    VerifiesIff(crypto, key, m, crypto.sha256(GoBytes(q)));
    BytesDetermine(m.package, q);
    SameBytes(q);
    CleanIsValid(q);
  }

  lemma CleanIsValid(p: Package<GoString>)
    requires CleanPackage(p)
    ensures ValidPackage(p) && p == MapFields(Healed(p), Utf8.Encode)
  {
    forall b | Clean(b)
      ensures Utf8.Valid(b) && b == Utf8.Encode(Utf8.Heal(b))
    {
      Utf8.ValidIsText(b);
    }
  }
}
