/** The release bundle: what the builder writes and what the installer reads back. */
module Bundle {
  import opened Basics
  import opened Metadata

  const BUILD_PLATFORMS := ["darwin-arm64", "linux-amd64", "linux-arm64"]
  const BUILD_ROLES := ["keybroker", "keybroker-mcp", "release-verify"]
  const VERIFIER := "release-verify"
  const SEQUENCE := 5

  datatype Bootstrap = Bootstrap(schema: int, release: string, platforms: seq<string>, files: map<string, string>)

  /** The text encoders of the builder and the decoder of the installer. */
  datatype Codec = Codec(
    manifest: Manifest -> Bytes,
    channel: Bytes -> Bytes,
    bootstrap: Bootstrap -> Bytes,
    readBootstrap: Bytes -> Option<Bootstrap>)

  /** Decoding gives back what was encoded. */
  ghost predicate Faithful(c: Codec, trust: Trust)
  {
    && (forall b: Bootstrap :: c.readBootstrap(c.bootstrap(b)) == Some(b))
    && (forall m: Manifest :: trust.parse(c.manifest(m)) == Some(m))
  }

  type Files = map<string, Bytes>

  function Binary(role: string, platform: string): string { role + "-" + platform }

  function ArtefactOf(b: Bytes, digest: Bytes -> Sha): Artefact { Artefact(digest(b), |b|) }

  function ArtefactsOf(platform: string, compile: (string, string) -> Bytes, digest: Bytes -> Sha):
    map<string, Artefact>
  {
    map role | role in ROLES :: ArtefactOf(compile(platform, role), digest)
  }

  function ManifestFor(commit: string, sourceId: string, now: int, artefacts: map<string, map<string, Artefact>>):
    Manifest
  {
    Manifest(1, SEQUENCE, RELEASE, commit, sourceId, 1, ["system.status"], now, now + 7 * DAY, [], artefacts)
  }

  lemma BinaryNamesDiffer(r: string, p: string, r': string, p': string)
    requires r in BUILD_ROLES && r' in BUILD_ROLES && p in BUILD_PLATFORMS && p' in BUILD_PLATFORMS
    requires Binary(r, p) == Binary(r', p')
    ensures r == r' && p == p'
  {
    var name := Binary(r, p);
    assert p[0] != 'm' && p'[0] != 'm' && |p| > 1 && |p'| > 1;
    assert name[|r| + 1] == p[0] && name[|r'| + 1] == p'[0] && name[0] == r[0] == r'[0];
    assert |r| == |r'|;
    assert name[..|r|] == r && name[..|r'|] == r';
    assert name[|r| + 1..] == p && name[|r'| + 1..] == p';
  }

  function BinariesOf(platform: string, roles: seq<string>): set<string>
  {
    set role | role in roles :: Binary(role, platform)
  }

  lemma RolesBuilt()
    ensures forall role :: role in ROLES <==> role in BUILD_ROLES && role != VERIFIER
  {
  }

  /** Compiles every role for one platform; no other file changes. */
  method CompilePlatform(platform: string, compile: (string, string) -> Bytes, digest: Bytes -> Sha, files: Files)
    returns (written: Files, roles: map<string, Artefact>)
    requires platform in BUILD_PLATFORMS
    ensures forall r | r in BUILD_ROLES ::
      Binary(r, platform) in written && written[Binary(r, platform)] == compile(platform, r)
    ensures forall name | name !in BinariesOf(platform, BUILD_ROLES) ::
      (name in written <==> name in files) && (name in files ==> written[name] == files[name])
    ensures roles == ArtefactsOf(platform, compile, digest)
  {
    hide Binary, BUILD_ROLES, BUILD_PLATFORMS, ROLES, VERIFIER;
    RolesBuilt();
    written, roles := files, map[];
    for j := 0 to |BUILD_ROLES|
      invariant forall r | r in BUILD_ROLES[..j] ::
        Binary(r, platform) in written && written[Binary(r, platform)] == compile(platform, r)
      invariant forall name | name !in BinariesOf(platform, BUILD_ROLES) ::
        (name in written <==> name in files) && (name in files ==> written[name] == files[name])
      invariant roles == map r | r in BUILD_ROLES[..j] && r != VERIFIER ::
        ArtefactOf(compile(platform, r), digest)
    {
      var role := BUILD_ROLES[j];
      forall r | r in BUILD_ROLES && Binary(r, platform) == Binary(role, platform) ensures r == role {
        BinaryNamesDiffer(r, platform, role, platform);
      }
      var output := compile(platform, role);
      written := written[Binary(role, platform) := output];
      if role != VERIFIER {
        roles := roles[role := ArtefactOf(output, digest)];
      }
      assert BUILD_ROLES[..j + 1] == BUILD_ROLES[..j] + [role];
    }
    assert BUILD_ROLES[..|BUILD_ROLES|] == BUILD_ROLES;
  }

  predicate IsBinary(name: string)
  {
    exists p, r | p in BUILD_PLATFORMS && r in BUILD_ROLES :: name == Binary(r, p)
  }

  lemma BinariesAreBinaries(platform: string)
    requires platform in BUILD_PLATFORMS
    ensures forall name | name in BinariesOf(platform, BUILD_ROLES) :: IsBinary(name)
  {
    hide Binary, BUILD_ROLES, BUILD_PLATFORMS;
  }

  /** Compiles everything; no other file changes. */
  method Compile(compile: (string, string) -> Bytes, digest: Bytes -> Sha, files: Files)
    returns (written: Files, artefacts: map<string, map<string, Artefact>>)
    ensures forall p, r | p in BUILD_PLATFORMS && r in BUILD_ROLES ::
      Binary(r, p) in written && written[Binary(r, p)] == compile(p, r)
    ensures forall name | !IsBinary(name) ::
      (name in written <==> name in files) && (name in files ==> written[name] == files[name])
    ensures artefacts == map p | p in BUILD_PLATFORMS :: ArtefactsOf(p, compile, digest)
  {
    hide Binary, IsBinary, BUILD_ROLES, BUILD_PLATFORMS, ROLES, ArtefactsOf;
    written, artefacts := files, map[];
    for i := 0 to |BUILD_PLATFORMS|
      invariant forall p, r | p in BUILD_PLATFORMS[..i] && r in BUILD_ROLES ::
        Binary(r, p) in written && written[Binary(r, p)] == compile(p, r)
      invariant forall name | !IsBinary(name) ::
        (name in written <==> name in files) && (name in files ==> written[name] == files[name])
      invariant artefacts == map p | p in BUILD_PLATFORMS[..i] :: ArtefactsOf(p, compile, digest)
    {
      var platform := BUILD_PLATFORMS[i];
      forall p, r | p in BUILD_PLATFORMS[..i] && r in BUILD_ROLES
        ensures Binary(r, p) !in BinariesOf(platform, BUILD_ROLES) || p == platform
      {
        if r' :| r' in BUILD_ROLES && Binary(r', platform) == Binary(r, p) {
          BinaryNamesDiffer(r, p, r', platform);
        }
      }
      BinariesAreBinaries(platform);
      var roles;
      written, roles := CompilePlatform(platform, compile, digest, written);
      artefacts := artefacts[platform := roles];
      assert BUILD_PLATFORMS[..i + 1] == BUILD_PLATFORMS[..i] + [platform];
    }
    assert BUILD_PLATFORMS[..|BUILD_PLATFORMS|] == BUILD_PLATFORMS;
  }

  /** Binaries end in a digit, so none is one of the builder's other files. */
  lemma BinaryEndsInDigit(name: string)
    requires IsBinary(name)
    ensures name != "" && name[|name| - 1] == '4'
  {
  }

  /** A bundle file name that the installer accepts. */
  predicate SafeName(name: string)
  {
    '/' !in name && forall i | 0 <= i < |name| - 1 :: !(name[i] == '.' && name[i + 1] == '.')
  }

  /** The files listed in the bootstrap, with their hashes. */
  function Hashes(files: Files, digest: Bytes -> Sha): map<string, string>
  {
    map name | name in files :: digest(files[name])
  }

  datatype Built = Built(bundle: Files, payload: Files, manifest: Manifest, pin: Sha)

  /** The bundle holds the payload, and a bootstrap that lists exactly the payload. */
  ghost predicate Describes(b: Built, codec: Codec, digest: Bytes -> Sha)
  {
    && (forall name | name in b.payload :: name in b.bundle && b.bundle[name] == b.payload[name])
    && "bootstrap.json" in b.bundle
    && b.bundle["bootstrap.json"]
       == codec.bootstrap(Bootstrap(1, RELEASE, BUILD_PLATFORMS, Hashes(b.payload, digest)))
    && b.pin == digest(b.bundle["bootstrap.json"])
  }

  /** Writes the bundle: sources, binaries, manifest, channel, manager, and last the bootstrap that hashes
      everything before it, with the installer that carries the bootstrap's own hash. */
  method Build(
    codec: Codec, digest: Bytes -> Sha, compile: (string, string) -> Bytes,
    sources: Bytes, manager: Bytes, installer: Sha -> Bytes, commit: string, now: int)
    returns (b: Built)
    ensures Describes(b, codec, digest)
    ensures b.manifest == ManifestFor(commit, digest(sources), now,
      map p | p in BUILD_PLATFORMS :: ArtefactsOf(p, compile, digest))
    ensures "manifest.json" in b.payload && b.payload["manifest.json"] == codec.manifest(b.manifest)
    ensures "channel.json" in b.payload && b.payload["channel.json"] == codec.channel(codec.manifest(b.manifest))
    ensures "release-manager.py" in b.payload && b.payload["release-manager.py"] == manager
    ensures forall p, r | p in BUILD_PLATFORMS && r in BUILD_ROLES ::
      Binary(r, p) in b.payload && b.payload[Binary(r, p)] == compile(p, r)
    ensures "install.py" in b.bundle && b.bundle["install.py"] == installer(b.pin)
    ensures forall name | name in b.payload :: SafeName(name)
  {
    hide Binary, IsBinary;
    NotBinaries();
    var out: Files := map["source-manifest.json" := sources];
    var artefacts;
    out, artefacts := Compile(compile, digest, out);
    var manifest := ManifestFor(commit, digest(sources), now, artefacts);
    var raw := codec.manifest(manifest);
    out := out["manifest.json" := raw]["channel.json" := codec.channel(raw)]["release-manager.py" := manager];
    var payload := out;
    var bootstrap := codec.bootstrap(Bootstrap(1, RELEASE, BUILD_PLATFORMS, Hashes(payload, digest)));
    out := out["bootstrap.json" := bootstrap];
    out := out["install.py" := installer(digest(bootstrap))];
    b := Built(out, payload, manifest, digest(bootstrap));
    forall name | name in payload ensures SafeName(name) && name != "bootstrap.json" && name != "install.py" {
      if IsBinary(name) {
        BinaryIsSafe(name);
        BinaryEndsInDigit(name);
      } else {
        FixedIsSafe(name);
      }
    }
  }

  const FIXED := ["source-manifest.json", "manifest.json", "channel.json", "release-manager.py"]

  lemma FixedIsSafe(name: string)
    requires name in FIXED
    ensures SafeName(name)
  {
  }

  lemma NotBinaries()
    ensures forall name | name in FIXED :: !IsBinary(name)
  {
    forall name | name in FIXED ensures !IsBinary(name) {
      if IsBinary(name) {
        BinaryEndsInDigit(name);
      }
    }
  }

  lemma PlainParts()
    ensures forall role | role in BUILD_ROLES :: '/' !in role && '.' !in role
    ensures forall platform | platform in BUILD_PLATFORMS :: '/' !in platform && '.' !in platform
  {
  }

  lemma BinaryIsSafe(name: string)
    requires IsBinary(name)
    ensures SafeName(name)
  {
    hide BUILD_ROLES, BUILD_PLATFORMS;
    PlainParts();
    var p, r :| p in BUILD_PLATFORMS && r in BUILD_ROLES && name == Binary(r, p);
    forall i | 0 <= i < |name| ensures name[i] != '.' && name[i] != '/' {
      assert name[i] == if i < |r| then r[i] else if i == |r| then '-' else p[i - |r| - 1];
    }
  }

  // Reading a bundle back

  ghost predicate Sealed(bundle: Files, pin: string, codec: Codec, digest: Bytes -> Sha)
  {
    && "bootstrap.json" in bundle && digest(bundle["bootstrap.json"]) == pin
    && var boot := codec.readBootstrap(bundle["bootstrap.json"]);
    && boot.Some? && boot.value.schema == 1
    && forall name | name in boot.value.files ::
         SafeName(name) && name in bundle && digest(bundle[name]) == boot.value.files[name]
  }

  function Contents(bundle: Files, boot: Bootstrap): Files
    requires forall name | name in boot.files :: name in bundle
  {
    map name | name in boot.files :: bundle[name]
  }

  /** Snapshots every listed file, or refuses the whole bundle. */
  method LoadBundle(bundle: Files, pin: string, codec: Codec, digest: Bytes -> Sha)
    returns (r: Result<(Bootstrap, Files)>)
    ensures r.Returned? <==> Sealed(bundle, pin, codec, digest)
    // the seal, file by file
    ensures r.Returned? <==>
      && "bootstrap.json" in bundle && digest(bundle["bootstrap.json"]) == pin
      && codec.readBootstrap(bundle["bootstrap.json"]).Some?
      && var boot := codec.readBootstrap(bundle["bootstrap.json"]).value;
      && boot.schema == 1
      && forall name | name in boot.files ::
           && name in bundle && digest(bundle[name]) == boot.files[name]
           && '/' !in name && forall i | 0 < i < |name| :: !(name[i - 1] == '.' && name[i] == '.')
    ensures r.Returned? ==>
      && r.value.1.Keys == r.value.0.files.Keys
      && forall name | name in r.value.1 :: name in bundle && r.value.1[name] == bundle[name]
    ensures r.Returned? ==>
      && Some(r.value.0) == codec.readBootstrap(bundle["bootstrap.json"])
      && r.value.1 == Contents(bundle, r.value.0)
  {
    if "bootstrap.json" !in bundle {
      return Raised(SystemError);
    }
    var raw := bundle["bootstrap.json"];
    if digest(raw) != pin {
      return Raised(InvalidMetadata);
    }
    var decoded := codec.readBootstrap(raw);
    if decoded.None? || decoded.value.schema != 1 {
      return Raised(InvalidMetadata);
    }
    var boot := decoded.value;
    var verified: Files := map[];
    var todo := boot.files.Keys;
    while todo != {}
      invariant todo <= boot.files.Keys && verified.Keys == boot.files.Keys - todo
      invariant forall name | name in verified ::
        && SafeName(name) && name in bundle
        && verified[name] == bundle[name] && digest(bundle[name]) == boot.files[name]
      decreases todo
    {
      var name :| name in todo;
      todo := todo - {name};
      if !SafeName(name) || name !in bundle {
        return Raised(InvalidMetadata);
      }
      var data := bundle[name];
      if digest(data) != boot.files[name] {
        return Raised(InvalidMetadata);
      }
      verified := verified[name := data];
    }
    return Returned((boot, verified));
  }

  /** A built bundle loads back as exactly the files that were written, whatever else its directory
      holds. */
  lemma BuiltBundleLoads(b: Built, codec: Codec, trust: Trust, bundle: Files)
    requires Describes(b, codec, trust.digest) && Faithful(codec, trust)
    requires forall name | name in b.payload :: SafeName(name)
    requires forall name | name in b.bundle :: name in bundle && bundle[name] == b.bundle[name]
    ensures Sealed(bundle, b.pin, codec, trust.digest)
    ensures Contents(bundle, codec.readBootstrap(bundle["bootstrap.json"]).value) == b.payload
  {
    hide SafeName;
  }

  /** Any bundle that the built pin accepts, however its files came there, yields the bytes that the
      builder wrote, or exhibits two files with one hash. */
  lemma PinFixesContents(b: Built, codec: Codec, trust: Trust, bundle: Files)
    requires Describes(b, codec, trust.digest) && Faithful(codec, trust)
    requires Sealed(bundle, b.pin, codec, trust.digest)
    ensures Contents(bundle, codec.readBootstrap(bundle["bootstrap.json"]).value) == b.payload
      || Collide(trust.digest, bundle["bootstrap.json"], b.bundle["bootstrap.json"])
      || exists name | name in b.payload && name in bundle :: Collide(trust.digest, bundle[name], b.payload[name])
  {
    hide SafeName;
    if bundle["bootstrap.json"] == b.bundle["bootstrap.json"] {
      forall name | name in b.payload
        ensures name in bundle
        ensures bundle[name] == b.payload[name] || Collide(trust.digest, bundle[name], b.payload[name])
      {
      }
    }
  }

  // The built manifest

  /** Every executable is within the size limit that the manager enforces. */
  ghost predicate Fits(compile: (string, string) -> Bytes)
  {
    forall p, r | p in BUILD_PLATFORMS && r in ROLES :: 1 <= |compile(p, r)| <= MAX_BINARY
  }

  /** The built manifest passes every check that does not read the clock exactly when the commit is a
      commit hash, the build clock is in range and the executables are within the limit. */
  lemma BuiltManifestIsWellFormed(
    commit: string, sourceId: Sha, now: int, compile: (string, string) -> Bytes, digest: Bytes -> Sha,
    platform: string)
    requires platform in BUILD_PLATFORMS
    ensures var m := ManifestFor(commit, sourceId, now,
                                 map p | p in BUILD_PLATFORMS :: ArtefactsOf(p, compile, digest));
      WellFormed(m, platform) <==>
        IsHex(commit, 40) && 1 <= now && now + 7 * DAY <= MAX_INT && Fits(compile)
  {
    hide IsTag, IsHex, ROLES;
    ReleaseTagReads();
    HashIsHex(sourceId);
    var artefacts := map p | p in BUILD_PLATFORMS :: ArtefactsOf(p, compile, digest);
    PlatformsBuilt();
    assert artefacts.Keys == PLATFORMS;
    forall p, r | p in BUILD_PLATFORMS && r in ROLES
      ensures IsHex(artefacts[p][r].sha256, 64) && artefacts[p][r].size == |compile(p, r)|
    {
      HashIsHex(digest(compile(p, r)));
    }
    forall p | p in BUILD_PLATFORMS ensures artefacts[p].Keys == ROLES {
    }
  }

  lemma HashIsHex(sha: Sha)
    ensures IsHex(sha, 64)
  {
  }

  lemma PlatformsBuilt()
    ensures forall p :: p in PLATFORMS <==> p in BUILD_PLATFORMS
  {
  }

  /** The manager accepts the built manifest at exactly the clocks from a minute before the build to its
      expiry. */
  lemma BuiltManifestAccepted(codec: Codec, env: Env, m: Manifest, clock: int)
    requires Faithful(codec, env.trust) && |codec.manifest(m)| <= MAX_META && WellFormed(m, env.platform)
    ensures ReadManifest(env, codec.manifest(m), clock) ==
      if m.issuedAt - SLACK <= clock < m.expiresAt then Returned(m) else Raised(Expired)
  {
    hide IsTag, IsHex, AllArtefactsOk, RevocationsOk;
  }
}
