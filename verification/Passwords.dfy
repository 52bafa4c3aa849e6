// The stored form of an Argon2id password hash: one function prints it, another parses it.
module Passwords {
  import opened Common
  import opened Text
  import opened Base

  const UINT8 := 0x100
  const UINT32 := 0x1_0000_0000
  const INT64: int := 0x8000_0000_0000_0000   // int is 64 bits wide

  const VERSION := 19

  // Password, salt, iterations, memory, parallelism, key length; None where the derivation panics.
  type Kdf = (string, seq<Byte>, nat, nat, nat, nat) -> Option<seq<Byte>>

  ghost predicate KeysHaveLength(kdf: Kdf) {
    forall password, salt, t, m, p, n: nat ::
      kdf(password, salt, t, m, p, n).Some? ==> |kdf(password, salt, t, m, p, n).value| == n
  }

  datatype Params = Params(memory: nat, iterations: nat, parallelism: nat, keyLength: nat)

  // What a stored string records.
  datatype Stored = Stored(memory: nat, iterations: nat, parallelism: nat, salt: seq<Byte>, hash: seq<Byte>)

  predicate Fits(st: Stored) {
    st.memory < UINT32 && st.iterations < UINT32 && st.parallelism < UINT8
  }

  function PrintParams(m: nat, t: nat, p: nat): string {
    "m=" + Print(m) + ",t=" + Print(t) + ",p=" + Print(p)
  }

  function PrintStored(version: nat, st: Stored): string {
    "$argon2id$v=" + Print(version) + "$" + PrintParams(st.memory, st.iterations, st.parallelism)
    + "$" + Encode64(st.salt) + "$" + Encode64(st.hash)
  }

  // The salt is the random bytes the function draws, as many as the parameters say.
  function HashPassword(kdf: Kdf, password: string, params: Params, salt: seq<Byte>): Option<string> {
    var hash := kdf(password, salt, params.iterations, params.memory, params.parallelism, params.keyLength);
    if hash.None? then None
    else Some(PrintStored(VERSION, Stored(params.memory, params.iterations, params.parallelism, salt, hash.value)))
  }

  datatype VerifyError = BadFormat | WrongAlgorithm | BadVersion | BadParams | BadSalt | BadHash | Mismatch | Panicked

  // fmt.Sscanf with "v=%d"; what follows the number is not looked at.
  function ScanVersion(s: string): Option<int> {
    var rest := ScanLiteral(s, "v=");
    if rest.None? then None
    else
      var n := ScanInt(rest.value, INT64);
      if n.None? then None else Some(n.value.0)
  }

  function ScanField(s: string, name: string, bound: nat): Option<(nat, string)> {
    var rest := ScanLiteral(s, name);
    if rest.None? then None else ScanUint(rest.value, bound)
  }

  // fmt.Sscanf with "m=%d,t=%d,p=%d"
  function ScanParams(s: string): Option<(nat, nat, nat)> {
    var m := ScanField(s, "m=", UINT32);
    if m.None? then None
    else
      var t := ScanField(m.value.1, ",t=", UINT32);
      if t.None? then None
      else
        var p := ScanField(t.value.1, ",p=", UINT8);
        if p.None? then None else Some((m.value.0, t.value.0, p.value.0))
  }

  function Parse(encoded: string): Result<Stored, VerifyError> {
    var parts := Split(encoded, '$');
    if |parts| != 6 then Err(BadFormat)
    else if parts[1] != "argon2id" then Err(WrongAlgorithm)
    else if ScanVersion(parts[2]).None? then Err(BadVersion)
    else
      var params := ScanParams(parts[3]);
      if params.None? then Err(BadParams)
      else
        var salt := Decode64(parts[4]);
        if salt.None? then Err(BadSalt)
        else
          var hash := Decode64(parts[5]);
          if hash.None? then Err(BadHash)
          else Ok(Stored(params.value.0, params.value.1, params.value.2, salt.value, hash.value))
  }

  function VerifyPassword(kdf: Kdf, password: string, encoded: string): Result<(), VerifyError> {
    var parsed := Parse(encoded);
    if parsed.Err? then Err(parsed.error)
    else Compare(kdf, password, parsed.value)
  }

  function Compare(kdf: Kdf, password: string, st: Stored): Result<(), VerifyError> {
    var hash := kdf(password, st.salt, st.iterations, st.memory, st.parallelism, |st.hash| % UINT32);
    if hash.None? then Err(Panicked)
    else if hash.value == st.hash then Ok(())
    else Err(Mismatch)
  }

  // ---- Round trip ----

  lemma NoDollar(s: string)
    requires AllDigits(s) || forall i :: 0 <= i < |s| ==> Index64(s[i]).Some?
    ensures '$' !in s
  {
  }

  lemma ParamsNoDollar(m: nat, t: nat, p: nat)
    ensures '$' !in PrintParams(m, t, p)
  {
    NoDollar(Print(m));
    NoDollar(Print(t));
    NoDollar(Print(p));
  }

  lemma SplitSix(a: string, b: string, c: string, d: string, e: string)
    requires '$' !in a && '$' !in b && '$' !in c && '$' !in d && '$' !in e
    ensures Split("$" + (a + ['$'] + (b + ['$'] + (c + ['$'] + (d + ['$'] + e)))), '$') == ["", a, b, c, d, e]
  {
    SplitWhole(e, '$');
    var r3 := d + ['$'] + e;
    SplitFirst(d, '$', e);
    var r2 := c + ['$'] + r3;
    SplitFirst(c, '$', r3);
    var r1 := b + ['$'] + r2;
    SplitFirst(b, '$', r2);
    var r0 := a + ['$'] + r1;
    SplitFirst(a, '$', r1);
    SplitFirst("", '$', r0);
    assert "" + ['$'] + r0 == "$" + r0;
  }

  // The printed string splits into exactly six parts.
  lemma SixParts(version: nat, st: Stored)
    ensures Split(PrintStored(version, st), '$') ==
            ["", "argon2id", "v=" + Print(version), PrintParams(st.memory, st.iterations, st.parallelism),
             Encode64(st.salt), Encode64(st.hash)]
  {
    NoDollar(Print(version));
    ParamsNoDollar(st.memory, st.iterations, st.parallelism);
    NoDollar(Encode64(st.salt));
    NoDollar(Encode64(st.hash));
    SplitSix("argon2id", "v=" + Print(version), PrintParams(st.memory, st.iterations, st.parallelism),
             Encode64(st.salt), Encode64(st.hash));
    Flatten(Print(version), PrintParams(st.memory, st.iterations, st.parallelism), Encode64(st.salt),
            Encode64(st.hash));
  }

  lemma Flatten(v: string, params: string, salt: string, hash: string)
    ensures "$argon2id$v=" + v + "$" + params + "$" + salt + "$" + hash
         == "$" + ("argon2id" + ['$'] + (("v=" + v) + ['$'] + (params + ['$'] + (salt + ['$'] + hash))))
  {
  }

  lemma FieldScanned(name: string, n: nat, rest: string, bound: nat)
    requires n < bound && (rest == [] || !IsDigit(rest[0]))
    ensures ScanField(name + Print(n) + rest, name, bound) == Some((n, rest))
  {
    var s := name + Print(n) + rest;
    assert s[|name|..] == Print(n) + rest;
    ScanPrinted(n, rest, bound);
  }

  lemma ParamsScanned(m: nat, t: nat, p: nat)
    requires m < UINT32 && t < UINT32 && p < UINT8
    ensures ScanParams(PrintParams(m, t, p)) == Some((m, t, p))
  {
    var third := ",p=" + Print(p) + "";
    var second := ",t=" + Print(t) + third;
    assert PrintParams(m, t, p) == "m=" + Print(m) + second;
    FieldScanned("m=", m, second, UINT32);
    FieldScanned(",t=", t, third, UINT32);
    FieldScanned(",p=", p, "", UINT8);
  }

  lemma VersionScanned(version: nat)
    requires version < INT64
    ensures ScanVersion("v=" + Print(version)) == Some(version as int)
  {
    assert ("v=" + Print(version))[2..] == Print(version) + "";
    ScanPrinted(version, "", INT64);
  }

  lemma ParseParts(encoded: string, v: string, params: string, salt: string, hash: string, st: Stored)
    requires Split(encoded, '$') == ["", "argon2id", v, params, salt, hash]
    requires ScanVersion(v).Some? && ScanParams(params) == Some((st.memory, st.iterations, st.parallelism))
    requires Decode64(salt) == Some(st.salt) && Decode64(hash) == Some(st.hash)
    ensures Parse(encoded) == Ok(st)
  {
  }

  // The three numbers, each in its place and below its bound.
  ghost predicate ParamsWritten(s: string, m: nat, t: nat, p: nat, s1: string, s2: string, s3: string) {
    && "m=" <= s && Scanned(s[2..], m, s1) && m < 0x1_0000_0000
    && ",t=" <= s1 && Scanned(s1[3..], t, s2) && t < 0x1_0000_0000
    && ",p=" <= s2 && Scanned(s2[3..], p, s3) && p < 0x100
  }

  lemma FieldMeans(s: string, name: string, bound: nat, n: nat, rest: string)
    ensures ScanField(s, name, bound) == Some((n, rest)) <==>
            name <= s && Scanned(s[|name|..], n, rest) && n < bound
  {
    if name <= s { ScanUintMeans(s[|name|..], bound, n, rest); }
  }

  // Exactly the parameters written so are read, with anything after them.
  lemma ParamsMeans(s: string, m: nat, t: nat, p: nat)
    ensures ScanParams(s) == Some((m, t, p)) <==> exists s1, s2, s3 :: ParamsWritten(s, m, t, p, s1, s2, s3)
  {
    if ScanParams(s) == Some((m, t, p)) {
      var f := ScanField(s, "m=", UINT32).value;
      var g := ScanField(f.1, ",t=", UINT32).value;
      var h := ScanField(g.1, ",p=", UINT8).value;
      FieldMeans(s, "m=", UINT32, m, f.1);
      FieldMeans(f.1, ",t=", UINT32, t, g.1);
      FieldMeans(g.1, ",p=", UINT8, p, h.1);
      assert ParamsWritten(s, m, t, p, f.1, g.1, h.1);
    }
    if s1, s2, s3 :| ParamsWritten(s, m, t, p, s1, s2, s3) {
      FieldMeans(s, "m=", UINT32, m, s1);
      FieldMeans(s1, ",t=", UINT32, t, s2);
      FieldMeans(s2, ",p=", UINT8, p, s3);
    }
  }

  // What is accepted is six parts around five dollar signs: the second names the algorithm, the fourth writes the
  // parameters, and the last two decode to the salt and the key.
  lemma AcceptedForm(encoded: string, st: Stored) returns (parts: seq<string>)
    requires Parse(encoded) == Ok(st)
    ensures |parts| == 6 && Joined(parts, '$') == encoded && (forall i :: 0 <= i < 6 ==> '$' !in parts[i])
    ensures parts[1] == "argon2id" && "v=" <= parts[2] && ScanInt(parts[2][2..], INT64).Some?
    ensures exists s1, s2, s3 :: ParamsWritten(parts[3], st.memory, st.iterations, st.parallelism, s1, s2, s3)
    ensures Decode64(parts[4]) == Some(st.salt) && Decode64(parts[5]) == Some(st.hash)
  {
    parts := Split(encoded, '$');
    SplitInverse(encoded, '$');
    ParamsMeans(parts[3], st.memory, st.iterations, st.parallelism);
  }

  // The string that is stored for a password.
  lemma HashedForm(kdf: Kdf, password: string, params: Params, salt: seq<Byte>)
    requires HashPassword(kdf, password, params, salt).Some?
    ensures var key := kdf(password, salt, params.iterations, params.memory, params.parallelism, params.keyLength);
      && key.Some?
      && HashPassword(kdf, password, params, salt).value
         == "$argon2id$v=" + Print(19) + "$" + ("m=" + Print(params.memory) + ",t=" + Print(params.iterations) + ",p="
                                               + Print(params.parallelism))
            + "$" + Encode64(salt) + "$" + Encode64(key.value)
  {
  }

  // Each refusal and its cause, in the order of the checks.
  lemma Refusals(encoded: string)
    ensures var parts, r := Split(encoded, '$'), Parse(encoded);
      && (r == Err(BadFormat) <==> |parts| != 6)
      && (r == Err(WrongAlgorithm) <==> |parts| == 6 && parts[1] != "argon2id")
      && (|parts| == 6 && parts[1] == "argon2id" ==>
            && (r == Err(BadVersion) <==> ScanVersion(parts[2]).None?)
            && (ScanVersion(parts[2]).Some? ==>
                  && (r == Err(BadParams) <==> ScanParams(parts[3]).None?)
                  && (ScanParams(parts[3]).Some? ==>
                        && (r == Err(BadSalt) <==> Decode64(parts[4]).None?)
                        && (Decode64(parts[4]).Some? ==> (r == Err(BadHash) <==> Decode64(parts[5]).None?)))))
  {
  }

  // For all parameters of their widths, salts and hashes, the printed string parses back to the same record; the
  // version is read but makes no difference.
  lemma ParsePrinted(version: nat, st: Stored)
    requires Fits(st) && version < INT64
    ensures Parse(PrintStored(version, st)) == Ok(st)
  {
    SixParts(version, st);
    VersionScanned(version);
    ParamsScanned(st.memory, st.iterations, st.parallelism);
    RoundTrip64(st.salt);
    RoundTrip64(st.hash);
    ParseParts(PrintStored(version, st), "v=" + Print(version), PrintParams(st.memory, st.iterations, st.parallelism),
               Encode64(st.salt), Encode64(st.hash), st);
  }

  // So different records are never stored as the same string.
  lemma PrintInjective(version: nat, st: Stored, version': nat, st': Stored)
    requires Fits(st) && Fits(st') && version < INT64 && version' < INT64
    requires PrintStored(version, st) == PrintStored(version', st')
    ensures st == st'
  {
    ParsePrinted(version, st);
    ParsePrinted(version', st');
  }

  lemma LengthFits(n: nat)
    requires n < UINT32
    ensures n % UINT32 == n
  {
  }

  lemma CompareDerived(kdf: Kdf, st: Stored, attempt: string, key: Option<seq<Byte>>)
    requires |st.hash| < UINT32 && key == kdf(attempt, st.salt, st.iterations, st.memory, st.parallelism, |st.hash|)
    ensures Compare(kdf, attempt, st).Ok? <==> key == Some(st.hash)
  {
    LengthFits(|st.hash|);
  }

  lemma VerifyStored(kdf: Kdf, st: Stored, attempt: string)
    requires Fits(st)
    ensures VerifyPassword(kdf, attempt, PrintStored(VERSION, st)) == Compare(kdf, attempt, st)
  {
    ParsePrinted(VERSION, st);
  }

  // A password verifies against a stored hash exactly when the key derived from it, with the salt and parameters
  // the hash was made with, is the stored key; the password that was hashed always does.
  lemma VerifyAgainstHash(kdf: Kdf, password: string, params: Params, salt: seq<Byte>, attempt: string)
    requires KeysHaveLength(kdf) && HashPassword(kdf, password, params, salt).Some?
    requires params.memory < UINT32 && params.iterations < UINT32
    requires params.parallelism < UINT8 && params.keyLength < UINT32
    ensures var encoded := HashPassword(kdf, password, params, salt).value;
      && VerifyPassword(kdf, password, encoded) == Ok(())
      && (VerifyPassword(kdf, attempt, encoded).Ok? <==>
            kdf(attempt, salt, params.iterations, params.memory, params.parallelism, params.keyLength)
            == kdf(password, salt, params.iterations, params.memory, params.parallelism, params.keyLength))
  {
    var hash := kdf(password, salt, params.iterations, params.memory, params.parallelism, params.keyLength).value;
    var st := Stored(params.memory, params.iterations, params.parallelism, salt, hash);
    VerifyStored(kdf, st, password);
    VerifyStored(kdf, st, attempt);
    CompareDerived(kdf, st, password, Some(hash));
    CompareDerived(kdf, st, attempt,
                   kdf(attempt, salt, params.iterations, params.memory, params.parallelism, params.keyLength));
  }
}
