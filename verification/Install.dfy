/** The installer: a fresh root from a sealed bundle, up to the state the manager starts from. */
module Install {
  import opened Basics
  import opened Metadata
  import opened Protocol
  import opened Runs
  import opened Reload
  import opened Bundle
  import opened Hosts
  import M = Manager

  /** The account that will own the service. */
  datatype Owner = Owner(uid: int, user: string)

  /** What the installer writes, file by file. Any effect may fail and end the installation; every file
      written so far then stays for review. */
  class Root {
    var bootstrap: Files
    var store: map<string, Directory>
    var link: Option<string>
    var policy: Option<Policy>
    var installed: Option<Installed>
    var running: Option<string>
    var proven: Option<string>
    var audit: seq<AuditEntry>
    var failures: seq<bool>

    constructor (failures: seq<bool>)
      ensures Empty() && this.failures == failures
    {
      bootstrap, store, link, policy := map[], map[], None, None;
      installed, running, proven, audit, this.failures := None, None, None, [], failures;
    }

    /** Nothing exists yet: the installer refuses a root it did not make. */
    predicate Empty()
      reads this
    {
      bootstrap == map[] && store == map[] && link == None && policy == None && installed == None
      && running == None && proven == None && audit == []
    }

    method Attempt() returns (ok: bool)
      modifies this`failures
      ensures ok <==> old(failures) == [] || !old(failures)[0]
      ensures failures == if old(failures) == [] then [] else old(failures)[1..]
    {
      ok := failures == [] || !failures[0];
      if failures != [] {
        failures := failures[1..];
      }
    }

    function AsDisk(): Disk
      requires installed.Some?
      reads this
    {
      Disk(installed.value, None, link, running, proven, store, {}, audit)
    }

    /** Creates a bootstrap file that must not exist yet. */
    method WriteBootstrap(name: string, data: Bytes) returns (r: Result<()>)
      modifies this`bootstrap, this`failures
      ensures r.Returned? ==> bootstrap == old(bootstrap)[name := data] && name !in old(bootstrap)
      ensures !r.Returned? ==> bootstrap == old(bootstrap)
      ensures old(failures) == [] ==> failures == [] && (r.Returned? <==> name !in old(bootstrap))
    {
      var ok := Attempt();
      if !ok || name in bootstrap {
        return Raised(SystemError);
      }
      bootstrap := bootstrap[name := data];
      return Returned(());
    }

    /** Creates an executable of a release that must not exist yet. */
    method WriteRole(sha: string, role: string, data: Bytes) returns (r: Result<()>)
      requires sha in store
      modifies this`store, this`failures
      ensures r.Returned? ==>
        store == old(store)[sha := old(store)[sha].(files := old(store)[sha].files[role := File(data, false)])]
      ensures !r.Returned? ==> store == old(store)
      ensures old(failures) == [] ==> failures == [] && (r.Returned? <==> role !in old(store)[sha].files)
    {
      var ok := Attempt();
      if !ok || role in store[sha].files {
        return Raised(SystemError);
      }
      store := store[sha := store[sha].(files := store[sha].files[role := File(data, false)])];
      return Returned(());
    }
  }

  /** The files that staging takes from the bundle. */
  predicate HasFiles(verified: Files, platform: string)
  {
    && "manifest.json" in verified && "release-manager.py" in verified
    && Binary("release-verify", platform) in verified
    && Binary("keybroker", platform) in verified && Binary("keybroker-mcp", platform) in verified
  }

  function Staged(verified: Files, platform: string): Directory
    requires HasFiles(verified, platform)
  {
    Directory(Some(verified["manifest.json"]),
      map["keybroker" := File(verified[Binary("keybroker", platform)], false),
          "keybroker-mcp" := File(verified[Binary("keybroker-mcp", platform)], false)])
  }

  /** The texts that the installer writes for the account and the platform. */
  datatype Texts = Texts(grant: Bytes, unit: Bytes)

  function UnitName(platform: string): string
  {
    if "linux-" <= platform then "keybroker-health.service" else "com.keybroker.health.plist"
  }

  /** The bootstrap directory: the grant, the manager, the verifier and the service unit. */
  function BootstrapFiles(verified: Files, platform: string, texts: Texts): Files
    requires HasFiles(verified, platform)
  {
    map["sudoers" := texts.grant, "release-manager.py" := verified["release-manager.py"],
        "release-verify" := verified[Binary("release-verify", platform)], UnitName(platform) := texts.unit]
  }

  /** Stages the authenticated bytes and points the current link at them, before any grant, policy or
      activation exists. */
  method StageRelease(root: Root, verified: Files, sha: string, platform: string, texts: Texts)
    returns (r: Result<()>)
    requires root.store == map[] && root.bootstrap == map["sudoers" := texts.grant]
    requires HasFiles(verified, platform)
    modifies root`bootstrap, root`store, root`link, root`failures
    ensures r.Returned? ==>
      && root.store == map[sha := Staged(verified, platform)] && root.link == Some(sha)
      && root.bootstrap == BootstrapFiles(verified, platform, texts)
    ensures old(root.failures) == [] ==> r.Returned? && root.failures == []
  {
    hide Binary;
    var _ :- root.WriteBootstrap("release-manager.py", verified["release-manager.py"]);
    var _ :- root.WriteBootstrap("release-verify", verified[Binary("release-verify", platform)]);
    var _ :- StageFiles(root, verified, sha, platform);
    var _ :- root.WriteBootstrap(UnitName(platform), texts.unit);
    var ok := root.Attempt();    // the platform's own check of the staged unit
    if !ok {
      return Raised(SystemError);
    }
    return Returned(());
  }

  /** The release directory and the link to it. */
  method StageFiles(root: Root, verified: Files, sha: string, platform: string) returns (r: Result<()>)
    requires root.store == map[] && HasFiles(verified, platform)
    modifies root`store, root`link, root`failures
    ensures r.Returned? ==> root.store == map[sha := Staged(verified, platform)] && root.link == Some(sha)
    ensures old(root.failures) == [] ==> r.Returned? && root.failures == []
  {
    hide Binary;
    var ok := root.Attempt();
    if !ok {
      return Raised(SystemError);
    }
    root.store := root.store[sha := Directory(Some(verified["manifest.json"]), map[])];
    var _ :- root.WriteRole(sha, "keybroker", verified[Binary("keybroker", platform)]);
    var _ :- root.WriteRole(sha, "keybroker-mcp", verified[Binary("keybroker-mcp", platform)]);
    ok := root.Attempt();
    if !ok {
      return Raised(SystemError);
    }
    root.link := Some(sha);
    return Returned(());
  }

  function FirstPolicy(owner: Owner, platform: string, sha: Sha, verifier: Sha): Policy
  {
    Policy(1, owner.uid, owner.user, platform, {sha}, "", verifier, DAY, true)
  }

  function FirstState(sha: Sha, m: Manifest, verifiedAt: int): Installed
  {
    Installed(1, sha, None, m.sequence, sha, verifiedAt, m.expiresAt, {}, {})
  }

  lemma VerifiedLater(sha: Sha, m: Manifest, clock: int)
    ensures FirstState(sha, m, 1).(lastVerifiedAt := clock) == FirstState(sha, m, clock)
    ensures FirstState(sha, m, 1).current == sha
  {
  }

  datatype Clocks = Clocks(start: int, probe: int, end: int)

  /** Everything that decides whether an undisturbed installation completes. */
  predicate Installable(env: Env, boot: Bootstrap, verified: Files, owner: Owner, clocks: Clocks)
  {
    && HasFiles(verified, env.platform) && env.platform in boot.platforms
    && owner.uid != 0 && IsUser(owner.user)
    && var raw := verified["manifest.json"];
    && var sha := env.trust.digest(raw);
    && env.trust.parse(raw).Some?
    && clocks.start < env.trust.parse(raw).value.expiresAt
    && M.PolicyOk(FirstPolicy(owner, env.platform, sha,
                              env.trust.digest(verified[Binary("release-verify", env.platform)])))
    && StateOk(FirstState(sha, env.trust.parse(raw).value, 1))
    && Usable(env, map[sha := Staged(verified, env.platform)], sha, clocks.probe)
  }

  lemma FreshHost(
    env: Env, sha: Sha, raw: Bytes, store: map<string, Directory>, audit: seq<AuditEntry>, clocks: Clocks)
    requires Intact(env, store, sha, clocks.probe) && store[sha].manifest == Some(raw)
    requires env.trust.parse(raw).Some? && StateOk(FirstState(sha, env.trust.parse(raw).value, 1))
    ensures var s := FirstState(sha, env.trust.parse(raw).value, clocks.end);
      && Consistent(env, Disk(s, None, Some(sha), Some(sha), Some(sha), store, {}, audit))
      && (Sound(s) <==> 1 <= clocks.end <= MAX_INT) && (Sound(s) ==> Restarts(s))
      && (clocks.probe <= clocks.end ==> (LeaseBounded(s) <==> clocks.end < s.expiresAt))
  {
    hide IsHex, IsTag, AllArtefactsOk, RevocationsOk, Restarts;
    var s := FirstState(sha, env.trust.parse(raw).value, clocks.end);
    assert Named(Disk(s, None, Some(sha), Some(sha), Some(sha), store, {}, audit)) == {sha};
    if Sound(s) {
      ReloadLimit(s);
    }
  }

  lemma HasManifest(verified: Files, platform: string)
    requires HasFiles(verified, platform)
    ensures "manifest.json" in verified && Binary("release-verify", platform) in verified
  {
  }

  lemma StagedHoldsManifest(verified: Files, platform: string)
    requires HasFiles(verified, platform)
    ensures Staged(verified, platform).manifest == Some(verified["manifest.json"])
  {
  }

  /** The policy and the state that an installation leaves, field by field. */
  ghost predicate Records(root: Root, env: Env, verified: Files, owner: Owner, clocks: Clocks)
    reads root
  {
    && "manifest.json" in verified && "release-verify" + "-" + env.platform in verified
    && var raw := verified["manifest.json"];
    && env.trust.parse(raw).Some?
    && var m, sha := env.trust.parse(raw).value, env.trust.digest(raw);
    && root.policy == Some(Policy(1, owner.uid, owner.user, env.platform, {sha}, "",
                                  env.trust.digest(verified["release-verify" + "-" + env.platform]), 86400, true))
    && root.installed == Some(Installed(1, sha, None, m.sequence, sha, clocks.end, m.expiresAt, {}, {}))
  }

  /** The files that an installation lays down, name by name. */
  ghost predicate Lays(root: Root, env: Env, verified: Files, texts: Texts)
    reads root
  {
    var platform := env.platform;
    && "manifest.json" in verified && "release-manager.py" in verified && "release-verify" + "-" + platform in verified
    && "keybroker" + "-" + platform in verified && "keybroker-mcp" + "-" + platform in verified
    && var unit := if "linux-" <= platform then "keybroker-health.service" else "com.keybroker.health.plist";
    && root.bootstrap == map["sudoers" := texts.grant, "release-manager.py" := verified["release-manager.py"],
                             "release-verify" := verified["release-verify" + "-" + platform], unit := texts.unit]
    && root.store == map[env.trust.digest(verified["manifest.json"]) :=
         Directory(Some(verified["manifest.json"]),
                   map["keybroker" := File(verified["keybroker" + "-" + platform], false),
                       "keybroker-mcp" := File(verified["keybroker-mcp" + "-" + platform], false)])]
  }

  lemma LaysNow(root: Root, env: Env, verified: Files, texts: Texts)
    requires HasFiles(verified, env.platform)
    requires root.bootstrap == BootstrapFiles(verified, env.platform, texts)
    requires root.store == map[env.trust.digest(verified["manifest.json"]) := Staged(verified, env.platform)]
    ensures Lays(root, env, verified, texts)
  {
  }

  lemma RecordsNow(root: Root, env: Env, verified: Files, owner: Owner, clocks: Clocks)
    requires HasFiles(verified, env.platform) && env.trust.parse(verified["manifest.json"]).Some?
    requires var raw := verified["manifest.json"];
      && root.policy == Some(FirstPolicy(owner, env.platform, env.trust.digest(raw),
                                         env.trust.digest(VerifierIn(verified, env.platform))))
      && root.installed == Some(FirstState(env.trust.digest(raw), env.trust.parse(raw).value, clocks.end))
    ensures Records(root, env, verified, owner, clocks)
  {
  }

  /** What a completed installation leaves, given the staged bytes. */
  ghost predicate Completed(root: Root, env: Env, verified: Files, clocks: Clocks)
    reads root
  {
    && HasFiles(verified, env.platform) && env.trust.parse(verified["manifest.json"]).Some?
    && var sha := env.trust.digest(verified["manifest.json"]);
    && root.installed == Some(FirstState(sha, env.trust.parse(verified["manifest.json"]).value, clocks.end))
    && Consistent(env, root.AsDisk()) && AllProve(env, root.AsDisk())
    && root.policy.Some? && M.PolicyOk(root.policy.value) && root.policy.value.platform == env.platform
    && root.policy.value.approved == {sha}
    && root.running == root.link == root.proven == Some(sha) && Live(env, root.AsDisk(), sha)
    && (Sound(root.installed.value) <==> 1 <= clocks.end <= MAX_INT)
    && (Sound(root.installed.value) ==> Restarts(root.installed.value))
    && (clocks.probe <= clocks.end ==>
          (LeaseBounded(root.installed.value) <==> clocks.end < root.installed.value.expiresAt))
  }

  lemma IntactIsVerified(env: Env, store: map<string, Directory>, sha: string, clock: int)
    requires Intact(env, store, sha, clock)
    ensures Verified(env, store, sha)
  {
  }

  lemma CompletedNow(root: Root, env: Env, verified: Files, clocks: Clocks)
    requires HasFiles(verified, env.platform) && env.trust.parse(verified["manifest.json"]).Some?
    requires var raw := verified["manifest.json"];
      var sha, m := env.trust.digest(raw), env.trust.parse(raw).value;
      && root.installed == Some(FirstState(sha, m, clocks.end)) && StateOk(FirstState(sha, m, 1))
      && Usable(env, root.store, sha, clocks.probe) && root.store[sha].manifest == Some(raw)
      && root.policy.Some? && M.PolicyOk(root.policy.value) && root.policy.value.platform == env.platform
      && root.policy.value.approved == {sha}
      && root.running == root.link == root.proven == Some(sha)
    ensures Completed(root, env, verified, clocks)
  {
    hide Intact, Verified, SelfProves, Consistent, StateOk, Sound, Restarts, LeaseBounded, M.PolicyOk;
    IntactIsVerified(env, root.store, env.trust.digest(verified["manifest.json"]), clocks.probe);
    FreshHost(env, env.trust.digest(verified["manifest.json"]), verified["manifest.json"],
              root.store, root.audit, clocks);
  }

  /** A state file exists only beside a policy and a staged, linked release. */
  predicate Ordered(root: Root)
    reads root
  {
    root.installed.Some? ==>
      && root.policy.Some? && root.link == Some(root.installed.value.current)
      && root.installed.value.current in root.store
  }

  /** The installation once the bundle is loaded. */
  method InstallVerified(
    root: Root, env: Env, boot: Bootstrap, verified: Files, texts: Texts, owner: Owner, clocks: Clocks)
    returns (r: Result<()>)
    requires root.Empty()
    modifies root
    ensures r.Returned? ==>
      && Completed(root, env, verified, clocks) && Records(root, env, verified, owner, clocks)
      && Lays(root, env, verified, texts)
    ensures Ordered(root)
    ensures old(root.failures) == [] ==> (r.Returned? <==> Installable(env, boot, verified, owner, clocks))
  {
    hide Binary, IsUser, Usable, Consistent, StateOk, Staged, Completed, Records, Lays, BootstrapFiles;
    var platform := env.platform;
    if owner.uid == 0 || !IsUser(owner.user) || platform !in boot.platforms {
      return Raised(Incompatible);
    }
    if !HasFiles(verified, platform) {
      return Raised(SystemError);
    }
    var raw := verified["manifest.json"];
    if env.trust.parse(raw).None? {
      return Raised(InvalidMetadata);
    }
    if env.trust.parse(raw).value.expiresAt <= clocks.start {
      return Raised(Expired);
    }
    var _ :- root.WriteBootstrap("sudoers", texts.grant);
    var ok := root.Attempt();    // the platform's own check of the staged grant
    if !ok {
      return Raised(SystemError);
    }
    var _ :- StageRelease(root, verified, env.trust.digest(raw), platform, texts);
    r := Establish(root, env, verified, owner, clocks);
    LaysNow(root, env, verified, texts);
  }

  /** Policy, first state, activation, live proof, and the first verified clock. */
  method Establish(root: Root, env: Env, verified: Files, owner: Owner, clocks: Clocks) returns (r: Result<()>)
    requires HasFiles(verified, env.platform) && env.trust.parse(verified["manifest.json"]).Some?
    requires root.installed.None? && root.link == Some(env.trust.digest(verified["manifest.json"]))
    requires root.store == map[env.trust.digest(verified["manifest.json"]) := Staged(verified, env.platform)]
    modifies root
    ensures r.Returned? ==> Completed(root, env, verified, clocks) && Records(root, env, verified, owner, clocks)
    ensures Ordered(root) && root.store == old(root.store) && root.bootstrap == old(root.bootstrap)
    ensures old(root.failures) == [] ==>
      (r.Returned? <==>
        var raw, store := verified["manifest.json"], old(root.store);
        && M.PolicyOk(FirstPolicy(owner, env.platform, env.trust.digest(raw),
                                  env.trust.digest(verified[Binary("release-verify", env.platform)])))
        && StateOk(FirstState(env.trust.digest(raw), env.trust.parse(raw).value, 1))
        && Usable(env, store, env.trust.digest(raw), clocks.probe))
  {
    hide Binary, HasFiles, Usable, Consistent, StateOk, Sound, Restarts, LeaseBounded, Staged, M.PolicyOk,
         Completed, Records, Lays, BootstrapFiles, FirstState;
    HasManifest(verified, env.platform);
    StagedHoldsManifest(verified, env.platform);
    var raw := verified["manifest.json"];
    var sha, release := env.trust.digest(raw), env.trust.parse(raw).value;
    var verifier := env.trust.digest(VerifierIn(verified, env.platform));
    var ok := root.Attempt();
    if !ok {
      return Raised(SystemError);
    }
    root.policy := Some(FirstPolicy(owner, env.platform, sha, verifier));
    ok := root.Attempt();
    if !ok {
      return Raised(SystemError);
    }
    VerifiedLater(sha, release, clocks.end);
    root.installed := Some(FirstState(sha, release, 1));
    ok := root.Attempt();    // wrappers, grants and the unit itself
    if !ok {
      return Raised(SystemError);
    }
    root.running := root.link;
    if !M.PolicyOk(root.policy.value) || !StateOk(root.installed.value) {
      return Raised(InvalidState);
    }
    ok := root.Attempt();    // the live proof of the service
    if !ok || !Usable(env, root.store, sha, clocks.probe) {
      return Raised(ProofFailed);
    }
    root.proven := Some(sha);
    root.audit := root.audit + [AuditEntry(clocks.probe, FirstInstalled, sha)];
    ok := root.Attempt();
    if !ok {
      return Raised(SystemError);
    }
    root.installed := Some(root.installed.value.(lastVerifiedAt := clocks.end));
    CompletedNow(root, env, verified, clocks);
    RecordsNow(root, env, verified, owner, clocks);
    return Returned(());
  }

  function VerifierIn(verified: Files, platform: string): Bytes
    requires HasFiles(verified, platform)
  {
    verified[Binary("release-verify", platform)]
  }

  /** Installs a release from a bundle into an empty root. */
  method InstallRelease(
    root: Root, env: Env, codec: Codec, bundle: Files, pin: string, texts: Texts, owner: Owner, clocks: Clocks)
    returns (r: Result<()>)
    requires root.Empty()
    modifies root
    // a completed installation is where every history of the manager may start
    ensures r.Returned? ==>
      && Sealed(bundle, pin, codec, env.trust.digest)
      && var verified := Contents(bundle, codec.readBootstrap(bundle["bootstrap.json"]).value);
      && Completed(root, env, verified, clocks) && Records(root, env, verified, owner, clocks)
      && Lays(root, env, verified, texts)
    ensures Ordered(root)
    ensures old(root.failures) == [] ==>
      (r.Returned? <==>
        && Sealed(bundle, pin, codec, env.trust.digest)
        && var boot := codec.readBootstrap(bundle["bootstrap.json"]).value;
        && Installable(env, boot, Contents(bundle, boot), owner, clocks))
  {
    hide Binary, SafeName, WellFormed, IsUser, IsHex, Installable, Completed, Records, Lays;
    var loaded :- LoadBundle(bundle, pin, codec, env.trust.digest);
    var (boot, verified) := loaded;
    r := InstallVerified(root, env, boot, verified, texts, owner, clocks);
  }

  /** What the builder makes, the installer can install: on every platform built, for every acceptable
      owner, between the build and the expiry of its manifest. */
  lemma BuiltBundleInstalls(
    b: Built, codec: Codec, env: Env, compile: (string, string) -> Bytes, sources: Bytes, commit: string,
    now: int, owner: Owner, clocks: Clocks)
    requires Faithful(codec, env.trust) && env.platform in BUILD_PLATFORMS
    requires b.manifest == ManifestFor(commit, env.trust.digest(sources), now,
      map p | p in BUILD_PLATFORMS :: ArtefactsOf(p, compile, env.trust.digest))
    requires HasFiles(b.payload, env.platform) && b.payload["manifest.json"] == codec.manifest(b.manifest)
    requires forall r | r in BUILD_ROLES ::
      b.payload[Binary(r, env.platform)] == compile(env.platform, r)
    requires |codec.manifest(b.manifest)| <= MAX_META && WellFormed(b.manifest, env.platform)
    requires 1 <= owner.uid <= 0x7FFF_FFFF && IsUser(owner.user)
    requires clocks.start < b.manifest.expiresAt && b.manifest.issuedAt - SLACK <= clocks.probe
    requires Proves(env, compile(env.platform, SERVER), b.manifest)
    ensures Installable(env, Bootstrap(1, RELEASE, BUILD_PLATFORMS, Hashes(b.payload, env.trust.digest)),
                        b.payload, owner, clocks)
  {
    hide Binary, IsUser, IsTag, Faithful, BUILD_ROLES, BUILD_PLATFORMS, RELEASE, Hashes, Proves, SelfProves;
    var raw := codec.manifest(b.manifest);
    BuiltReleaseProves(b, codec, env, compile);
    ParsesBack(codec, env.trust, b.manifest);
    PlatformsBuilt();
    var artefacts := Artefacts(env, raw);
    assert artefacts == ArtefactsOf(env.platform, compile, env.trust.digest);
    forall r | r in ROLES
      ensures FileOk(artefacts[r], Staged(b.payload, env.platform).files[r], env.trust.digest)
    {
      RolesBuilt();
    }
  }

  lemma BuiltReleaseProves(b: Built, codec: Codec, env: Env, compile: (string, string) -> Bytes)
    requires Faithful(codec, env.trust) && |codec.manifest(b.manifest)| <= MAX_META
    requires HasFiles(b.payload, env.platform) && b.payload["manifest.json"] == codec.manifest(b.manifest)
    requires forall r | r in BUILD_ROLES :: b.payload[Binary(r, env.platform)] == compile(env.platform, r)
    requires Proves(env, compile(env.platform, SERVER), b.manifest)
    ensures var sha := env.trust.digest(codec.manifest(b.manifest));
      SelfProves(env, map[sha := Staged(b.payload, env.platform)], sha)
  {
    hide Binary, Proves;
    assert SERVER == BUILD_ROLES[0];
    ParsesBack(codec, env.trust, b.manifest);
  }

  lemma ParsesBack(codec: Codec, trust: Trust, m: Manifest)
    requires Faithful(codec, trust)
    ensures trust.parse(codec.manifest(m)) == Some(m)
  {
  }

  lemma BuiltHasFiles(b: Built, platform: string)
    requires platform in BUILD_PLATFORMS
    requires "manifest.json" in b.payload && "release-manager.py" in b.payload
    requires forall p, r | p in BUILD_PLATFORMS && r in BUILD_ROLES :: Binary(r, p) in b.payload
    ensures HasFiles(b.payload, platform)
  {
    hide Binary;
    assert forall r | r in BUILD_ROLES :: Binary(r, platform) in b.payload;
    assert BUILD_ROLES[0] in BUILD_ROLES && BUILD_ROLES[1] in BUILD_ROLES && BUILD_ROLES[2] in BUILD_ROLES;
  }

  /** From source to service: on a quiet host, an installation of a freshly built bundle completes, for
      every built platform and every acceptable owner, and leaves a host the manager can start from. */
  method BuildThenInstall(
    codec: Codec, env: Env, compile: (string, string) -> Bytes, sources: Bytes, manager: Bytes,
    installer: Sha -> Bytes, commit: string, now: int, texts: Texts, owner: Owner, clocks: Clocks)
    returns (b: Built, root: Root)
    requires Faithful(codec, env.trust) && env.platform in BUILD_PLATFORMS
    requires IsHex(commit, 40) && 1 <= now && now + 7 * DAY <= MAX_INT && Fits(compile)
    requires 1 <= owner.uid <= 0x7FFF_FFFF && IsUser(owner.user)
    requires now <= clocks.start <= clocks.probe <= clocks.end < now + 7 * DAY
    ensures |codec.manifest(b.manifest)| <= MAX_META && Proves(env, compile(env.platform, SERVER), b.manifest) ==>
      && root.installed.Some? && Live(env, root.AsDisk(), env.trust.digest(codec.manifest(b.manifest)))
      && Consistent(env, root.AsDisk()) && AllProve(env, root.AsDisk()) && Restarts(root.installed.value)
      && Sound(root.installed.value) && LeaseBounded(root.installed.value)
      && root.policy.Some? && M.PolicyOk(root.policy.value)
      && root.running == root.link == Some(root.installed.value.current)
  {
    hide Binary, WellFormed, IsUser, IsHex, SafeName, Intact, Verified, SelfProves, Consistent, AllProve, Sound,
         Restarts, IsTag, Installable, Records, Lays,
         HasFiles, Sealed, Describes, Faithful, ArtefactsOf, BUILD_ROLES, BUILD_PLATFORMS;
    b := Build(codec, env.trust.digest, compile, sources, manager, installer, commit, now);
    root := new Root([]);
    if |codec.manifest(b.manifest)| <= MAX_META && Proves(env, compile(env.platform, SERVER), b.manifest) {
      BuiltBundleLoads(b, codec, env.trust, b.bundle);
      BuiltManifestIsWellFormed(commit, env.trust.digest(sources), now, compile, env.trust.digest, env.platform);
      BuiltHasFiles(b, env.platform);
      BuiltBundleInstalls(b, codec, env, compile, sources, commit, now, owner, clocks);
      ParsesBack(codec, env.trust, b.manifest);
      PayloadInBundle(b, codec, env.trust);
      var _ := InstallRelease(root, env, codec, b.bundle, b.pin, texts, owner, clocks);
    }
  }

  /** A completed installation is where a managed host starts, whatever happens to it then. */
  method Manage(root: Root, env: Env, verified: Files, clocks: Clocks, script: seq<Moment>, clock: int)
    returns (host: Host)
    requires Completed(root, env, verified, clocks)
    requires Binary("release-verify", env.platform) in verified
    ensures host.Valid() && host.env == env && host.start == root.AsDisk() && host.script == script
    ensures Consistent(env, host.start) && AllProve(env, host.start) && Settled(host.disk)
    ensures 1 <= clocks.end <= MAX_INT ==> Restarts(host.disk.installed)
  {
    hide Binary, Consistent, AllProve, Sound, Restarts, LeaseBounded, M.PolicyOk, Live;
    host := new Host(env, verified[Binary("release-verify", env.platform)], root.AsDisk(), script, clock);
  }

  lemma PayloadInBundle(b: Built, codec: Codec, trust: Trust)
    requires Describes(b, codec, trust.digest) && Faithful(codec, trust) && "manifest.json" in b.payload
    ensures "manifest.json" in b.bundle && b.bundle["manifest.json"] == b.payload["manifest.json"]
    ensures "bootstrap.json" in b.bundle && codec.readBootstrap(b.bundle["bootstrap.json"])
      == Some(Bootstrap(1, RELEASE, BUILD_PLATFORMS, Hashes(b.payload, trust.digest)))
  {
  }
}
