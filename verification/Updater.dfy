// The agent's self-update: one check after another, each taking a manifest and an archive as they come.
module Updates {
  import opened Common
  import opened Manifests
  import Utf8

  datatype Version = Version(major: nat, minor: nat, patch: nat, pre: string, build: string)

  // Parsing, printing and precedence of versions.
  datatype Semver = Semver(
    parse: string -> Option<Version>,
    show: Version -> string,
    atMost: (Version, Version) -> bool)

  datatype Config = Config(current: Version, semver: Semver, crypto: Crypto, pinned: seq<Byte>)

  // How writing the archive goes: the directory or the file cannot be created, some bytes are written before an
  // error, or all of them are.
  datatype Disk = Unwritable | Partial(n: nat) | Complete

  // What one check meets: the manifest if one arrives, the time, the archive at each URL, and the disk.
  datatype Check = Check(fetched: Option<Manifest<string>>, now: Time, archive: string -> Option<seq<Byte>>, disk: Disk)

  datatype UpdateResult =
    | UpdateScheduled(newVersion: string)
    | AlreadyLatest
    | VerificationFailed
    | TransientError
    | ManifestExpired
    | DowngradeRejected

  type Staging = map<string, seq<Byte>>

  // The digest that verify_sha256 lets through unchecked.
  const SENTINEL := "stub_sha256"

  // A manifest in time, of a version newer than the running one, signed under the pinned key, and an archive for it.
  ghost predicate Arrives(cfg: Config, c: Check) {
    && c.fetched.Some? && c.now <= c.fetched.value.expiresAt
    && var m := c.fetched.value;
       && cfg.semver.parse(m.package.version).Some?
       && !cfg.semver.atMost(cfg.semver.parse(m.package.version).value, cfg.current)
       && VerifySignature(cfg.crypto, cfg.pinned, m).Ok?
       && c.archive(m.package.downloadUrl).Some?
  }

  // The archive has the digest, or the digest is the sentinel.
  ghost predicate DigestOk(crypto: Crypto, data: seq<Byte>, expected: string) {
    expected == SENTINEL || Hex(crypto.sha256(data)) == expected
  }

  // Check c offers archive `data` of version v, with the signed digest.
  ghost predicate Trusted(cfg: Config, c: Check, v: Version, data: seq<Byte>) {
    && Arrives(cfg, c)
    && cfg.semver.parse(c.fetched.value.package.version) == Some(v)
    && c.archive(c.fetched.value.package.downloadUrl) == Some(data)
    && DigestOk(cfg.crypto, data, c.fetched.value.package.sha256Hex)
  }

  function FileName(version: string): string {
    "controlhub-agent-" + version + ".zip"
  }

  // The part of the archive that ends up on disk.
  function Kept(disk: Disk, data: seq<Byte>): seq<Byte> {
    if disk.Partial? && disk.n < |data| then data[..disk.n] else data
  }

  // What is staged after writing the archive to the path: as much of it as the disk took, and nothing else changes.
  function Written(staging: Staging, path: string, data: seq<Byte>, disk: Disk): Staging {
    if disk.Unwritable? then staging else staging[path := Kept(disk, data)]
  }

  // Of an archive that arrives, the digest decides: with the one in the manifest, or the sentinel there, as much of the
  // archive is staged as the disk takes, and the update scheduled if that is all of it; with another digest the check
  // fails. Otherwise nothing is staged or scheduled.
  ghost predicate Checked(cfg: Config, c: Check, staging: Staging, staging': Staging, r: UpdateResult) {
    if Arrives(cfg, c)
    then
      var package := c.fetched.value.package;
      var data, shown := c.archive(package.downloadUrl).value,
                         cfg.semver.show(cfg.semver.parse(package.version).value);
      if package.sha256Hex == SENTINEL || Hex(cfg.crypto.sha256(data)) == package.sha256Hex
      then staging' == Written(staging, FileName(shown), data, c.disk)
           && r == if c.disk.Complete? then UpdateScheduled(shown) else TransientError
      else staging' == staging && r == VerificationFailed
    else staging' == staging && !r.UpdateScheduled?
  }

  // ---- One check ----

  class Updater {
    const cfg: Config
    var staging: Staging

    constructor (cfg: Config)
      ensures this.cfg == cfg && staging == map[]
    {
      this.cfg := cfg;
      staging := map[];
    }

    // Whether the data hashes to the digest; the sentinel lets anything through.
    method VerifySha256(data: seq<Byte>, expected: string) returns (ok: bool)
      ensures ok <==> expected == SENTINEL || Hex(cfg.crypto.sha256(data)) == expected
      ensures SENTINEL == "stub_sha256"
    {
      if expected == SENTINEL {
        return true;
      }
      var actual := Hex(cfg.crypto.sha256(data));
      return actual == expected;
    }

    // Writing the archive into the staging directory.
    method StageArchive(data: seq<Byte>, version: string, disk: Disk) returns (ok: bool)
      modifies this
      ensures ok <==> disk.Complete?
      ensures staging == Written(old(staging), FileName(version), data, disk)
      ensures disk.Complete? ==> staging == old(staging)["controlhub-agent-" + version + ".zip" := data]
      ensures disk.Unwritable? ==> staging == old(staging)
      ensures disk.Partial? ==>
                staging == old(staging)["controlhub-agent-" + version + ".zip" :=
                                        if disk.n < |data| then data[..disk.n] else data]
    {
      var dest := "controlhub-agent-" + version + ".zip";
      match disk
      case Unwritable =>
        return false;
      case Partial(n) =>
        staging := staging[dest := if n < |data| then data[..n] else data];
        return false;
      case Complete =>
        staging := staging[dest := data];
        return true;
    }

    // Each result has its exact cause. No check reports a rejected downgrade: an older version is taken for the latest.
    method CheckAndApply(c: Check) returns (r: UpdateResult)
      modifies this
      ensures Checked(cfg, c, old(staging), staging, r)
      ensures r == ManifestExpired <==> c.fetched.Some? && c.fetched.value.expiresAt < c.now
      ensures r == AlreadyLatest <==>
              c.fetched.Some? && c.now <= c.fetched.value.expiresAt
              && var v := cfg.semver.parse(c.fetched.value.package.version);
                 v.Some? && cfg.semver.atMost(v.value, cfg.current)
      ensures r == VerificationFailed <==>
              c.fetched.Some? && c.now <= c.fetched.value.expiresAt
              && var m := c.fetched.value;
                 var v, data := cfg.semver.parse(m.package.version), c.archive(m.package.downloadUrl);
                 v.None?
                 || (!cfg.semver.atMost(v.value, cfg.current)
                     && (VerifySignature(cfg.crypto, cfg.pinned, m).Err?
                         || (data.Some? && m.package.sha256Hex != SENTINEL
                             && Hex(cfg.crypto.sha256(data.value)) != m.package.sha256Hex)))
      ensures r != DowngradeRejected
      ensures Follows(cfg, old(staging), c, staging)
    {
      if c.fetched.None? {
        return TransientError;
      }
      var m := c.fetched.value;
      if c.now > m.expiresAt {
        return ManifestExpired;
      }
      var version := cfg.semver.parse(m.package.version);
      if version.None? {
        return VerificationFailed;
      }
      if cfg.semver.atMost(version.value, cfg.current) {
        return AlreadyLatest;
      }
      if VerifySignature(cfg.crypto, cfg.pinned, m).Err? {
        return VerificationFailed;
      }
      var archive := c.archive(m.package.downloadUrl);
      if archive.None? {
        return TransientError;
      }
      var ok := VerifySha256(archive.value, m.package.sha256Hex);
      if !ok {
        return VerificationFailed;
      }
      ok := StageArchive(archive.value, cfg.semver.show(version.value), c.disk);
      if !ok {
        return TransientError;
      }
      return UpdateScheduled(cfg.semver.show(version.value));
    }
  }

  // ---- From the server to the disk ----

  // The manifest that the server built at time `issued` for the given version, platform and track.
  ghost predicate Served(cfg: Config, c: Check, key: seq<Byte>, version: Utf8.GoString, platform: Utf8.GoString,
                         track: Utf8.GoString, issued: Time) {
    && Sound(cfg.crypto) && |cfg.crypto.publicOf(key)| == 32 && cfg.crypto.validKey(cfg.crypto.publicOf(key))
    && cfg.pinned == cfg.crypto.publicOf(key)
    && c.fetched == Some(Received(BuildManifest(cfg.crypto, key, version, platform, track, issued)))
    && var p := BuildPackage(cfg.crypto, version, platform, track);
       NoCollision(cfg.crypto, GoBytes(p), SerdeBytes(Healed(p)))
  }

  // An archive for it arrives, at an agent that runs an older version and pins the server's key, exactly within seven
  // days and when version, platform and track are harmless.
  lemma ServedArrives(cfg: Config, c: Check, key: seq<Byte>, version: Utf8.GoString, platform: Utf8.GoString,
                      track: Utf8.GoString, issued: Time)
    requires Served(cfg, c, key, version, platform, track, issued)
    requires var v := cfg.semver.parse(Utf8.Heal(version)); v.Some? && !cfg.semver.atMost(v.value, cfg.current)
    requires c.archive(c.fetched.value.package.downloadUrl).Some?
    ensures c.fetched.value.package.version == Utf8.Heal(version)
    ensures Arrives(cfg, c) <==>
            c.now <= issued + 7 * 24 * 3600 * SECOND && Harmless(version) && Harmless(platform) && Harmless(track)
  {
    BuiltSays(cfg.crypto, key, version, platform, track, issued);
    BuiltVerifies(cfg.crypto, key, version, platform, track, issued);
  }

  // The check of such a manifest, met by an archive: within seven days and with harmless texts the update is scheduled
  // and the whole archive staged, if it has the digest that the server published; with another digest it is refused.
  lemma ServedScheduled(cfg: Config, c: Check, data: seq<Byte>, key: seq<Byte>, version: Utf8.GoString,
                        platform: Utf8.GoString, track: Utf8.GoString, issued: Time,
                        staging: Staging, staging': Staging, r: UpdateResult)
    requires Served(cfg, c, key, version, platform, track, issued)
    requires var v := cfg.semver.parse(Utf8.Heal(version)); v.Some? && !cfg.semver.atMost(v.value, cfg.current)
    requires c.archive(c.fetched.value.package.downloadUrl) == Some(data) && c.disk.Complete?
    requires c.now <= issued + 7 * 24 * 3600 * SECOND && Harmless(version) && Harmless(platform) && Harmless(track)
    requires Checked(cfg, c, staging, staging', r)
    ensures var shown := cfg.semver.show(cfg.semver.parse(Utf8.Heal(version)).value);
      if Hex(cfg.crypto.sha256(data)) == FakeSha256(cfg.crypto, version, platform)
      then r == UpdateScheduled(shown) && staging' == staging[FileName(shown) := data]
      else r == VerificationFailed && staging' == staging
  {
    ServedArrives(cfg, c, key, version, platform, track, issued);
    ReceivedDigest(cfg.crypto, key, version, platform, track, issued);
    NotSentinel(FakeSha256(cfg.crypto, version, platform));
    ArrivedScheduled(cfg, c, data, staging, staging', r);
  }

  lemma NotSentinel(s: string)
    requires |s| == 64
    ensures s != SENTINEL
  {
  }

  lemma ArrivedScheduled(cfg: Config, c: Check, data: seq<Byte>, staging: Staging, staging': Staging, r: UpdateResult)
    requires Arrives(cfg, c) && c.archive(c.fetched.value.package.downloadUrl) == Some(data) && c.disk.Complete?
    requires c.fetched.value.package.sha256Hex != SENTINEL && Checked(cfg, c, staging, staging', r)
    ensures var shown := cfg.semver.show(cfg.semver.parse(c.fetched.value.package.version).value);
      if Hex(cfg.crypto.sha256(data)) == c.fetched.value.package.sha256Hex
      then r == UpdateScheduled(shown) && staging' == staging[FileName(shown) := data]
      else r == VerificationFailed && staging' == staging
  {
  }

  // ---- Runs ----

  // `next` may follow `staging` after check c.
  ghost predicate Follows(cfg: Config, staging: Staging, c: Check, next: Staging) {
    if Arrives(cfg, c)
    then
      var package := c.fetched.value.package;
      var data, v := c.archive(package.downloadUrl).value, cfg.semver.parse(package.version).value;
      next == if DigestOk(cfg.crypto, data, package.sha256Hex)
              then Written(staging, FileName(cfg.semver.show(v)), data, c.disk) else staging
    else next == staging
  }

  ghost predicate Run(cfg: Config, states: seq<Staging>, checks: seq<Check>) {
    && |states| == |checks| + 1 && states[0] == map[]
    && (forall i :: 0 <= i < |checks| ==> FollowsAt(cfg, states, checks, i))
  }

  ghost predicate FollowsAt(cfg: Config, states: seq<Staging>, checks: seq<Check>, i: nat)
    requires i < |checks| && |states| == |checks| + 1
  {
    Follows(cfg, states[i], checks[i], states[i + 1])
  }

  // Check c put `content` at `path`.
  ghost predicate Source(cfg: Config, c: Check, path: string, content: seq<Byte>) {
    exists v, data :: Trusted(cfg, c, v, data) && path == FileName(cfg.semver.show(v)) && content == Kept(c.disk, data)
  }

  lemma FollowsAtPath(cfg: Config, staging: Staging, c: Check, next: Staging, path: string)
    requires Follows(cfg, staging, c, next) && path in next
    ensures Source(cfg, c, path, next[path]) || (path in staging && next[path] == staging[path])
  {
    if next != staging {
      var package := c.fetched.value.package;
      var data, v := c.archive(package.downloadUrl).value, cfg.semver.parse(package.version).value;
      assert Trusted(cfg, c, v, data);
    }
  }

  // One of the first i checks put `content` at `path`.
  ghost predicate Sourced(cfg: Config, checks: seq<Check>, i: nat, path: string, content: seq<Byte>)
    requires i <= |checks|
  {
    exists j :: 0 <= j < i && Source(cfg, checks[j], path, content)
  }

  lemma SourcedLater(cfg: Config, checks: seq<Check>, i: nat, path: string, content: seq<Byte>)
    requires i < |checks| && (Source(cfg, checks[i], path, content) || Sourced(cfg, checks, i, path, content))
    ensures Sourced(cfg, checks, i + 1, path, content)
  {
  }

  lemma StepSourced(cfg: Config, states: seq<Staging>, checks: seq<Check>, i: nat, path: string)
    requires Run(cfg, states, checks) && i < |checks| && path in states[i + 1]
    requires path in states[i] ==> Sourced(cfg, checks, i, path, states[i][path])
    ensures Sourced(cfg, checks, i + 1, path, states[i + 1][path])
  {
    assert FollowsAt(cfg, states, checks, i);
    FollowsAtPath(cfg, states[i], checks[i], states[i + 1], path);
    SourcedLater(cfg, checks, i, path, states[i + 1][path]);
  }

  // Over any run of checks, every staged file is named after a version strictly newer than the running one and holds
  // the archive (or, where a write broke off, the beginning of it) of a manifest that was signed, had not expired and
  // carried the archive's digest or the sentinel.
  lemma {:induction false} StagedIsTrusted(cfg: Config, states: seq<Staging>, checks: seq<Check>, i: nat, path: string)
    requires Run(cfg, states, checks) && i < |states| && path in states[i]
    ensures Sourced(cfg, checks, i, path, states[i][path])
  {
    if i > 0 {
      if path in states[i - 1] { StagedIsTrusted(cfg, states, checks, i - 1, path); }
      StepSourced(cfg, states, checks, i - 1, path);
    }
  }

  // The owner of the pinned key has signed the packages `published` and nothing else, and nobody can forge.
  ghost predicate Unforgeable(crypto: Crypto, pinned: seq<Byte>, published: set<Package<GoString>>) {
    forall m, s :: crypto.verify(pinned, m, s) ==> exists q :: q in published && m == crypto.sha256(GoBytes(q))
  }

  lemma VerifiedWasPublished(crypto: Crypto, pinned: seq<Byte>, m: Manifest<string>, published: set<Package<GoString>>)
    requires VerifySignature(crypto, pinned, m).Ok? && Unforgeable(crypto, pinned, published)
    requires forall q :: q in published ==> NoCollision(crypto, SerdeBytes(m.package), GoBytes(q))
    ensures MapFields(m.package, Utf8.Encode) in published
  {
    var message := crypto.sha256(SerdeBytes(m.package));
    var q :| q in published && message == crypto.sha256(GoBytes(q));
    assert SerdeBytes(m.package) == GoBytes(q);
    SamePackage(m.package, q);
  }

  // If both hash the same bytes, the server's package is the agent's, byte for byte.
  lemma SamePackage(p: Package<string>, q: Package<GoString>)
    requires SerdeBytes(p) == GoBytes(q)
    ensures q == MapFields(p, Utf8.Encode)
  {
    BytesDetermine(p, q);
    SameBytes(q);
    CleanIsValid(q);
  }

  // Then, short of a collision of the hash, whatever is trusted was published, field by field, and, unless its digest
  // is the sentinel, the archive is the one and only archive with the published digest.
  lemma TrustedIsPublished(cfg: Config, c: Check, v: Version, data: seq<Byte>, other: seq<Byte>,
                           published: set<Package<GoString>>)
    requires Trusted(cfg, c, v, data) && Unforgeable(cfg.crypto, cfg.pinned, published)
    requires forall q :: q in published ==> NoCollision(cfg.crypto, SerdeBytes(c.fetched.value.package), GoBytes(q))
    requires NoCollision(cfg.crypto, data, other)
    ensures MapFields(c.fetched.value.package, Utf8.Encode) in published
    ensures var digest := c.fetched.value.package.sha256Hex;
      digest != SENTINEL ==> Hex(cfg.crypto.sha256(data)) == digest
                             && (Hex(cfg.crypto.sha256(other)) == digest ==> other == data)
  {
    VerifiedWasPublished(cfg.crypto, cfg.pinned, c.fetched.value, published);
    if Hex(cfg.crypto.sha256(data)) == Hex(cfg.crypto.sha256(other)) {
      HexInjective(cfg.crypto.sha256(data), cfg.crypto.sha256(other));
    }
  }
}
