/** The release manager: check, rollback and recovery over one host.

    Each method carries out the manager's effects in the manager's own order and is proved to take only steps that the
    protocol allows, whatever the host's script does. */
module Manager {
  import opened Basics
  import opened Metadata
  import opened Protocol
  import opened Runs
  import opened Hosts
  import opened Reload
  import opened Requirements

  const ORIGIN := "https://truth.adilzuberi.com/git/adil/keybroker/releases/download/"
  const CHANNEL := ORIGIN + "approved-health/channel.json"

  // The audit trail

  /** What was audited and the releases they name, without their times. */
  function Trail(d: Disk): seq<(Note, string)>
  {
    seq(|d.audit|, i requires 0 <= i < |d.audit| => (d.audit[i].note, d.audit[i].release))
  }

  /** What recovering this disk adds to the trail. */
  function RecoveryTrail(d: Disk): seq<(Note, string)>
  {
    match d.journal
    case None => []
    case Some(j) => [(if j.candidate == d.installed.current then Completed else Recovered, j.candidate)]
  }

  /** What a concluded check adds to it, for the state it found and the release announced. */
  function CheckTrail(r: Result<Verdict>, was: Installed, announced: string): seq<(Note, string)>
  {
    match r
    case Returned(OfflineApproved(_)) => [(ApprovedOffline, was.current)]
    case Returned(Current(_)) => [(Rechecked, announced)]
    case Returned(Upgrade(_)) => [(Prepared, announced), (Confirmed, announced)]
    case Raised(UpgradeFailed) => [(Prepared, announced), (Undone, announced)]
    case Raised(InstalledRevoked) => if was.current in was.revoked then [] else [(Withdrawn, was.current)]
    case _ => []
  }

  /** The check reached a decision and carried it out. */
  predicate Decided<T>(r: Result<T>) { r.Returned? || (r.Raised? && Decides(r.error)) }

  /** How a check concludes, with the clock it read. */
  datatype Verdict = OfflineApproved(now: int) | Current(now: int) | Upgrade(now: int)

  predicate PolicyOk(p: Policy)
  {
    && p.schema == 1 && p.enabled && p.platform in PLATFORMS
    && InRange(p.ownerUid, 1, 0x7FFF_FFFF) && InRange(p.offlineGrace, 0, DAY)
    && IsUser(p.ownerUser)
    && (forall x | x in p.approved :: IsHex(x, 64)) && IsHex(p.verifierSha, 64)
  }

  /** Only the current link, its proof, the service and leftovers may differ. */
  predicate LinkFrame(d: Disk, d': Disk)
  {
    d' == d.(link := d'.link, running := d'.running, proven := d'.proven, temps := d'.temps)
  }

  /** Only stored releases, the service and leftovers may differ. */
  predicate StoreFrame(d: Disk, d': Disk)
  {
    d' == d.(store := d'.store, running := d'.running, temps := d'.temps) && ServiceMoved(d, d'.running)
  }

  /** When recovery of this disk succeeds on a calm host. */
  predicate Recoverable(env: Env, d: Disk, clock: int)
  {
    d.journal.Some? ==>
      && d.installed.current !in d.installed.revoked && CurrentNew !in d.temps
      && Usable(env, d.store, d.installed.current, clock)
  }

  /** Nothing on this disk stops a check on a calm host before it reaches the channel, except revocation. */
  predicate Sturdy(env: Env, d: Disk, clock: int)
  {
    Aligned(d) && Recoverable(env, d, clock) && Intact(env, d.store, d.installed.current, clock)
  }

  predicate CanExchange(s: Installed) { s.previous.Some? && s.previous.value !in s.revoked }

  /** Nothing keeps the link from being moved to this release. */
  predicate Linkable(env: Env, d: Disk, sha: string, clock: int)
  {
    CurrentNew !in d.temps && Intact(env, d.store, sha, clock)
  }

  /** Nothing keeps this release from being linked and proved. */
  predicate Provable(env: Env, d: Disk, sha: string, clock: int)
  {
    CurrentNew !in d.temps && Usable(env, d.store, sha, clock)
  }

  /** Nothing was left over, and this release can be linked and proved. */
  predicate Exchangeable(env: Env, d: Disk, previous: string, clock: int)
  {
    InstalledNew !in d.temps && JournalNew !in d.temps && Provable(env, d, previous, clock)
  }

  /** When a rollback of this disk succeeds on a calm host. */
  predicate Reversible(env: Env, d: Disk, clock: int)
  {
    var s := d.installed;
    Recoverable(env, d, clock) && CanExchange(s) && Exchangeable(env, d, s.previous.value, clock)
  }

  /** What staging starts from. */
  function Found(env: Env, store: map<string, Directory>, raw: Bytes): Directory
  {
    var sha := env.trust.digest(raw);
    if sha in store then store[sha] else Directory(Some(raw), map[])
  }

  /** The stored manifest has the announced one's hash and is not it. */
  predicate Impostor(env: Env, d: Disk, raw: Bytes)
  {
    Found(env, d.store, raw).manifest.Some? && Collide(env.trust.digest, Found(env, d.store, raw).manifest.value, raw)
  }

  /** The release directory can be found or made. */
  predicate Openable(env: Env, d: Disk, raw: Bytes)
  {
    var sha := env.trust.digest(raw);
    if sha in d.store then d.store[sha].manifest.Some? && env.trust.digest(d.store[sha].manifest.value) == sha
    else StagedNew(sha, "manifest.json") !in d.temps
  }

  /** An executable already there has the right hash; no interrupted write blocks one that is missing. */
  predicate RoleReady(env: Env, d: Disk, raw: Bytes, role: string)
    requires Readable(env, raw) && role in Artefacts(env, raw)
  {
    if role in Found(env, d.store, raw).files
    then env.trust.digest(Found(env, d.store, raw).files[role].data) == Artefacts(env, raw)[role].sha256
    else StagedNew(env.trust.digest(raw), role) !in d.temps
  }

  /** When staging this release succeeds on a calm host with honest downloads: what is already there is
      right, and no interrupted write blocks what is missing. */
  ghost predicate Stageable(env: Env, d: Disk, raw: Bytes, clock: int)
    requires Readable(env, raw)
  {
    var artefacts, found := Artefacts(env, raw), Found(env, d.store, raw);
    && ManifestOf(env, raw).issuedAt - SLACK <= clock && Openable(env, d, raw) && found.manifest == Some(raw)
    && forall role | role in artefacts ::
         && RoleReady(env, d, raw, role)
         && (role in found.files ==> FileOk(artefacts[role], found.files[role], env.trust.digest))
  }

  lemma VerifiedParts(env: Env, store: map<string, Directory>, sha: string)
    requires Verified(env, store, sha)
    ensures sha in store && store[sha].manifest.Some? && SERVER in store[sha].files
    ensures Decode(env.trust, store[sha].manifest.value).Some?
  {
    assert SERVER in ROLES;
  }

  lemma ReleaseKeeps(env: Env, store: map<string, Directory>, sha: string)
    requires Verified(env, store, sha)
    ensures sha in store && store[sha].manifest.Some? && Decode(env.trust, store[sha].manifest.value).Some?
    ensures var raw := store[sha].manifest.value; Keeps(env, store, sha, raw, ManifestOf(env, raw))
  {
    hide Keeps, Verified;
    VerifiedIff(env, store, sha);
    forall raw, m | Keeps(env, store, sha, raw, m)
      ensures sha in store && store[sha].manifest == Some(raw) && Decode(env.trust, raw) == Some(m)
    {
      KeptManifest(env, store, sha, raw, m);
    }
  }

  lemma AllCommands(env: Env, executable: Bytes, m: Manifest)
    requires forall k | 0 <= k < |COMMANDS| :: Right(COMMANDS[k], env.answers(executable, executable, COMMANDS[k]), m)
    ensures Proves(env, executable, m)
  {
    hide Right;
    forall c: Command ensures Right(c, env.answers(executable, executable, c), m) {
      assert exists k | 0 <= k < |COMMANDS| :: COMMANDS[k] == c by {
        match c {
          case Wait => assert COMMANDS[0] == c;
          case Capabilities => assert COMMANDS[1] == c;
          case CheckStatus => assert COMMANDS[2] == c;
          case InvokeStatus => assert COMMANDS[3] == c;
          case RevealCredential => assert COMMANDS[4] == c;
          case ListZones => assert COMMANDS[5] == c;
          case ExecuteSsh => assert COMMANDS[6] == c;
        }
      }
    }
  }

  /** Verification and proof of a release look at its own directory only. */
  lemma UsableDependsOn(
    env: Env, store: map<string, Directory>, store': map<string, Directory>, sha: string, clock: int)
    requires sha in store ==> sha in store' && store[sha] == store'[sha]
    ensures Usable(env, store, sha, clock) ==> Usable(env, store', sha, clock)
  {
  }

  /** An intact release stays intact as the clock goes on. */
  lemma IntactStays(env: Env, store: map<string, Directory>, sha: string)
    ensures forall clock, later | clock <= later ::
      Intact(env, store, sha, clock) ==> Intact(env, store, sha, later)
  {
    hide Verified;
  }

  method Listed(members: set<string>) returns (xs: seq<string>)
    ensures Lists(xs, members)
  {
    xs := [];
    var rest := members;
    while rest != {}
      invariant rest <= members && Lists(xs, members - rest)
      decreases rest
    {
      var x :| x in rest;
      xs, rest := xs + [x], rest - {x};
    }
    assert members - rest == members;
  }

  class Manager {
    const host: Host
    const policy: Policy
    const fetch: (string, int) -> Fetch
    var state: Installed

    constructor (host: Host, policy: Policy, fetch: (string, int) -> Fetch)
      requires host.Valid() && PolicyOk(policy) && policy.platform == host.env.platform
      requires Restarts(host.disk.installed)
      ensures Ready() && this.host == host && this.policy == policy && this.fetch == fetch
      ensures state == host.disk.installed
    {
      this.host, this.policy, this.fetch := host, policy, fetch;
      this.state := host.disk.installed;
    }

    /** Start-up: refuses a disabled or malformed policy and a state file that is too large or has an
        invalid field. */
    static method Open(host: Host, policy: Policy, fetch: (string, int) -> Fetch) returns (r: Result<Manager>)
      requires host.Valid() && policy.platform == host.env.platform
      ensures !r.Died? && (r.Raised? ==> !Telling(r.error))
      ensures r.Returned? ==> fresh(r.value) && r.value.Ready() && r.value.host == host
                              && r.value.policy == policy && r.value.fetch == fetch
      ensures r.Returned? <==> PolicyOk(policy) && Restarts(host.disk.installed)
    {
      if !PolicyOk(policy) {
        return Raised(UpdatesDisabled);
      }
      var s := host.disk.installed;
      var listRevoked := Listed(s.revoked);
      var listFailed := Listed(s.failed);
      LoadsInAnyOrder(s, listRevoked, listFailed);
      if |Text(s, listRevoked, listFailed)| > MAX_META {
        return Raised(InvalidMetadata);
      }
      if !StateOk(s) {
        return Raised(InvalidState);
      }
      var m := new Manager(host, policy, fetch);
      return Returned(m);
    }

    ghost predicate Ready()
      reads this, host
    {
      host.Valid() && state == host.disk.installed && PolicyOk(policy) && policy.platform == host.env.platform
    }

    method Record(ghost e: Event) returns (r: Result<()>)
      requires host.Valid() && !e.Serviced? && !e.Proved? && Guard(host.env, host.disk, e)
      requires Apply(host.env, host.disk, e) == host.disk.(installed := state)
      modifies host
      ensures r.Raised? ==> FromHost(r.error)
      ensures host.Valid() && host.AdvancedBy(e) && ServiceMoved(old(host.disk), host.disk.running)
      ensures r.Returned? && Writes(e) ==> host.writes == old(host.writes) + [e]
      ensures r.Returned? ==> host.disk == old(host.disk).(installed := state, running := host.disk.running)
      ensures host.disk == old(host.disk).(installed := host.disk.installed, temps := host.disk.temps,
                                           running := host.disk.running)
      ensures host.disk.installed in {old(host.disk).installed, state}
      ensures old(host.Calm()) ==> (r.Returned? <==> InstalledNew !in old(host.disk).temps)
                                         && (r.Returned? || r == Raised(LeftoverTemporary))
                                         && host.disk.running == old(host.disk).running
    {
      hide Guard, Apply, Legal, Replay, WritesOf, PolicyOk;
      r := host.Atomic(InstalledNew, host.disk.(installed := state), e);
    }

    method Audit(note: Note, release: string) returns (r: Result<()>)
      requires host.Valid()
      modifies host
      ensures r.Raised? ==> FromHost(r.error)
      ensures host.Valid() && host.Advanced() && ServiceMoved(old(host.disk), host.disk.running)
      ensures host.disk == old(host.disk).(running := host.disk.running, audit := host.disk.audit)
      ensures old(host.disk).audit <= host.disk.audit
      ensures r.Returned? ==> Trail(host.disk) == Trail(old(host.disk)) + [(note, release)]
      ensures old(host.Calm()) ==> r.Returned? && host.disk.running == old(host.disk).running
    {
      hide Guard, Apply, Legal, Replay, WritesOf, PolicyOk;
      var entry := AuditEntry(host.clock, note, release);
      LoggedStep(host.env, host.disk, entry);
      r := host.Simple(host.disk.(audit := host.disk.audit + [entry]), Logged(entry));
    }

    /** A record and its audit line, in that order. */
    method RecordAndAudit(ghost e: Event, note: Note, release: string) returns (r: Result<()>)
      requires host.Valid() && !e.Serviced? && !e.Proved? && Guard(host.env, host.disk, e)
      requires Apply(host.env, host.disk, e) == host.disk.(installed := state)
      modifies host
      ensures r.Raised? ==> FromHost(r.error)
      ensures host.Valid() && host.AdvancedBy(e) && ServiceMoved(old(host.disk), host.disk.running)
      ensures r.Returned? && Writes(e) ==> host.writes == old(host.writes) + [e]
      ensures r.Returned? ==>
        && host.disk == old(host.disk).(installed := state, running := host.disk.running, audit := host.disk.audit)
        && Trail(host.disk) == Trail(old(host.disk)) + [(note, release)]
      ensures host.disk == old(host.disk).(installed := host.disk.installed, temps := host.disk.temps,
                                           running := host.disk.running, audit := host.disk.audit)
      ensures host.disk.installed in {old(host.disk).installed, state}
      ensures old(host.Calm()) ==> (r.Returned? <==> InstalledNew !in old(host.disk).temps)
                                         && (r.Returned? || r == Raised(LeftoverTemporary))
                                         && host.disk.running == old(host.disk).running
    {
      hide Guard, Apply, Legal, Replay, WritesOf, PolicyOk;
      var _ :- Record(e);
      r := Audit(note, release);
    }

    /** Removes the journal. */
    method Unlink() returns (r: Result<()>)
      requires host.Valid() && host.disk.journal.Some?
      requires host.disk.link == host.disk.proven == Some(host.disk.installed.current) && Settled(host.disk)
      modifies host
      ensures r.Raised? ==> FromHost(r.error)
      ensures host.Valid() && host.Advanced() && ServiceMoved(old(host.disk), host.disk.running)
      ensures host.disk == old(host.disk).(running := host.disk.running, journal := host.disk.journal)
      ensures host.disk.journal in {old(host.disk).journal, None}
      ensures r.Returned? ==> host.disk.journal == None
      ensures old(host.Calm()) ==> r.Returned? && host.disk.running == old(host.disk).running
    {
      hide Guard, Apply, Legal, Replay, WritesOf, PolicyOk;
      EndedStep(host.env, host.disk);
      r := host.Simple(host.disk.(journal := None), Ended);
    }

    /** Verifies a stored release in full, at a clock clamped below its own expiry. */
    method Release(sha: string) returns (r: Result<Manifest>)
      requires host.Valid() && policy.platform == host.env.platform
      modifies host
      ensures r.Raised? ==> !Telling(r.error)
      ensures host.Valid() && host.Advanced() && Drifted(old(host.disk), host.disk)
      ensures r.Returned? ==>
        && Intact(host.env, host.disk.store, sha, host.clock)
        && r.value == ManifestOf(host.env, host.disk.store[sha].manifest.value)
      // in plain terms: the manifest has the release's name, and both executables are exactly as described
      ensures r.Returned? ==>
        && sha in host.disk.store && host.disk.store[sha].manifest.Some?
        && Keeps(host.env, host.disk.store, sha, host.disk.store[sha].manifest.value, r.value)
      ensures host.Ticked()
      ensures old(host.Head()).Smooth? ==> (r.Returned? <==> Intact(host.env, host.disk.store, sha, host.clock))
      ensures old(host.Calm()) ==>
        && host.disk == old(host.disk) && !r.Died?
        && (r.Returned? <==> Intact(host.env, host.disk.store, sha, host.clock))
    {
      hide ReadManifest, Guard, Apply, Legal, Replay, WritesOf, WellFormed, PolicyOk;
      var _ :- host.Look();
      if !IsHex(sha, 64) {
        return Raised(InvalidIdentity);
      }
      if sha !in host.disk.store || host.disk.store[sha].manifest.None? {
        return Raised(SystemError);
      }
      var release := host.disk.store[sha];
      var raw := release.manifest.value;
      if host.env.trust.digest(raw) != sha {
        return Raised(ReleaseChanged);
      }
      var stored := Decode(host.env.trust, raw);
      if stored.None? {
        return Raised(InvalidMetadata);
      }
      ClampedCheckIgnoresExpiry(host.env, raw, host.clock);
      ManifestRefusals(host.env, raw, Min(host.clock, stored.value.expiresAt - 1));
      var m :- ReadManifest(host.env, raw, Min(host.clock, stored.value.expiresAt - 1));
      var artefacts := Artefacts(host.env, raw);
      var todo := artefacts.Keys;
      while todo != {}
        invariant todo <= artefacts.Keys
        invariant forall role | role in artefacts.Keys - todo ::
          role in release.files && FileOk(artefacts[role], release.files[role], host.env.trust.digest)
        decreases todo
      {
        var role :| role in todo;
        if role !in release.files {
          return Raised(SystemError);
        }
        if !FileOk(artefacts[role], release.files[role], host.env.trust.digest) {
          return Raised(ReleaseChanged);
        }
        todo := todo - {role};
      }
      ReleaseKeeps(host.env, host.disk.store, sha);
      return Returned(m);
    }

    /** Swaps the current link to a verified end of the open transaction. */
    method Link(sha: string) returns (r: Result<()>)
      requires host.Valid() && policy.platform == host.env.platform
      requires host.disk.journal.Some?
      requires sha in {host.disk.journal.value.previous, host.disk.journal.value.candidate}
      modifies host
      ensures r.Raised? ==> !Telling(r.error)
      ensures host.Valid() && host.Advanced() && LinkFrame(old(host.disk), host.disk)
      ensures host.disk.link in {old(host.disk).link, Some(sha)}
      ensures r.Returned? ==>
        && Verified(host.env, host.disk.store, sha)
        && host.disk == old(host.disk).(link := Some(sha), proven := None, running := host.disk.running)
      ensures CurrentNew in old(host.disk).temps ==> !r.Returned? && Drifted(old(host.disk), host.disk)
      ensures KilledAt(old(host.script), 1) && Linkable(host.env, old(host.disk), sha, old(host.script)[0].clock) ==>
        && r.Died?
        && host.disk == old(host.disk).(running := host.disk.running, temps := old(host.disk).temps + {CurrentNew})
      ensures old(host.Calm()) ==>
        && !r.Died? && host.disk.temps == old(host.disk).temps
        && (Linkable(host.env, old(host.disk), sha, old(host.clock)) ==> r.Returned?)
        && (r.Returned? ==> Linkable(host.env, old(host.disk), sha, host.clock))
    {
      hide Keeps, Guard, Apply, Legal, Replay, WritesOf, Verified, PolicyOk;
      var _ :- Release(sha);
      if CurrentNew in host.disk.temps {
        return Raised(LeftoverTemporary);
      }
      PointedStep(host.env, host.disk, sha);
      r := host.Atomic(CurrentNew, host.disk.(link := Some(sha), proven := None), Pointed(sha));
    }

    method Restart() returns (r: Result<()>)
      requires host.Valid()
      modifies host
      ensures r.Raised? ==> FromHost(r.error)
      ensures host.Valid() && host.Advanced() && Drifted(old(host.disk), host.disk)
      ensures r.Returned? ==> host.disk.running == host.disk.link
      ensures old(host.Calm()) ==> r.Returned?
    {
      r := host.RestartService();
    }

    /** The linked release's service must be up for all seven commands of the proof and answer each of
        them right. */
    method Probe(sha: string) returns (r: Result<()>)
      requires host.Valid() && policy.platform == host.env.platform
      requires host.disk.link == Some(sha) && Settled(host.disk)
      modifies host
      ensures r.Raised? ==> !Telling(r.error)
      ensures host.Valid() && host.Advanced() && ServiceMoved(old(host.disk), host.disk.running)
      ensures host.disk == old(host.disk).(running := host.disk.running, proven := host.disk.proven)
      ensures r.Returned? ==> host.disk.proven == Some(sha) && Live(host.env, host.disk, sha)
      // in plain terms
      ensures r.Returned? ==>
        && sha in host.disk.store && host.disk.store[sha].manifest.Some? && SERVER in host.disk.store[sha].files
        && var m := host.env.trust.parse(host.disk.store[sha].manifest.value);
        && m.Some? && RightAnswers(host.env, host.disk.store[sha].files[SERVER].data, m.value)
      ensures old(host.Calm()) ==> host.disk.running == old(host.disk).running && !r.Died?
      ensures old(host.Calm()) && host.disk.running == Some(sha) ==>
        && (Usable(host.env, host.disk.store, sha, old(host.clock)) ==> r.Returned?)
        && (r.Returned? ==> Usable(host.env, host.disk.store, sha, host.clock))
        && (Intact(host.env, host.disk.store, sha, old(host.clock)) && !r.Returned? ==> r == Raised(ProofFailed))
    {
      hide Keeps, RightAnswers, Host.Ticked, CalmFrom, Right, Guard, Apply, Legal, Replay, WritesOf, WellFormed,
           Verified, PolicyOk;
      var expected :- Release(sha);
      VerifiedParts(host.env, host.disk.store, sha);
      var client := host.disk.store[sha].files[SERVER].data;
      for k := 0 to |COMMANDS|
        invariant host.Valid() && host.Advanced() && Drifted(old(host.disk), host.disk) && Settled(host.disk)
        invariant old(host.Calm()) ==> host.disk == old(host.disk)
        invariant old(host.Calm()) ==> Intact(host.env, host.disk.store, sha, host.clock)
        invariant k > 0 ==> host.disk.running == Some(sha)
        invariant forall x | 0 <= x < k ::
          Right(COMMANDS[x], host.env.answers(client, client, COMMANDS[x]), expected)
      {
        var _ :- host.Look();
        match host.disk.running
        case None => return Raised(ProofFailed);
        case Some(serving) =>
          var server := host.disk.store[serving].files[SERVER].data;
          if !Right(COMMANDS[k], host.env.answers(client, server, COMMANDS[k]), expected) {
            return Raised(ProofFailed);
          }
      }
      AllCommands(host.env, client, expected);
      ProvesIff(host.env, client, expected);
      ProvedStep(host.env, host.disk, sha);
      host.Effect(host.disk.(proven := Some(sha)), Proved(sha));
      return Returned(());
    }

    /** Link, restart and probe, in that order. */
    method Activate(sha: string) returns (r: Result<()>)
      requires host.Valid() && policy.platform == host.env.platform
      requires host.disk.journal.Some?
      requires sha in {host.disk.journal.value.previous, host.disk.journal.value.candidate}
      modifies host
      ensures r.Raised? ==> !Telling(r.error)
      ensures host.Valid() && host.Advanced() && LinkFrame(old(host.disk), host.disk)
      ensures host.disk.link in {old(host.disk).link, Some(sha)}
      ensures r.Returned? ==>
        && Settled(host.disk) && Live(host.env, host.disk, sha)
        && host.disk == old(host.disk).(link := Some(sha), proven := Some(sha), running := host.disk.running)
      ensures CurrentNew in old(host.disk).temps ==> !r.Returned? && Drifted(old(host.disk), host.disk)
      ensures old(host.Calm()) ==>
        && !r.Died? && host.disk.temps == old(host.disk).temps
        && (Provable(host.env, old(host.disk), sha, old(host.clock)) ==> r.Returned?)
        && (r.Returned? ==> Provable(host.env, old(host.disk), sha, host.clock))
    {
      hide Guard, Apply, Legal, Replay, WritesOf, Verified, SelfProves, PolicyOk;
      var _ :- Link(sha);
      var _ :- Restart();
      r := Probe(sha);
    }

    /** Finishes an interrupted transaction towards whichever end is installed. */
    method Recover() returns (r: Result<()>)
      requires Ready()
      modifies host
      ensures r.Returned? ==> Trail(host.disk) == Trail(old(host.disk)) + RecoveryTrail(old(host.disk))
      ensures host.Valid() && host.Advanced()
      ensures host.disk.installed == old(host.disk).installed && host.disk.store == old(host.disk).store
      ensures old(host.disk).journal.None? ==> unchanged(host)
      ensures old(host.disk).journal.None? && host.disk.link == Some(state.current) ==> r.Returned?
      ensures host.disk.journal in {old(host.disk).journal, None}
      ensures old(host.disk).journal.Some? && host.disk.journal.None? ==>
        host.disk.link == Some(state.current) && Settled(host.disk)
      ensures r.Returned? ==>
        && host.disk.journal == None && host.disk.link == Some(state.current)
        && host.disk.temps == old(host.disk).temps
        && (old(host.disk).journal.Some? || Settled(old(host.disk)) ==> Settled(host.disk))
        && (old(host.disk).journal.Some? ==>
              && state.current !in state.revoked
              && state.current in {old(host.disk).journal.value.candidate, old(host.disk).journal.value.previous})
      ensures r.Raised? ==> !Decides(r.error)
      ensures Aligned(old(host.disk)) && r.Raised? ==> !Telling(r.error)
      ensures old(host.Calm()) && Aligned(old(host.disk)) ==>
        && (Recoverable(host.env, old(host.disk), old(host.clock)) ==> r.Returned?)
        && (r.Returned? ==> Recoverable(host.env, old(host.disk), host.clock))
        && (old(host.disk).journal.Some? ==> (r.Returned? <==> host.disk.journal.None?))
      ensures Stuck(old(host.disk)) && Aligned(old(host.disk)) ==>
        r == Raised(RecoveryRevoked) && host.disk == old(host.disk)
      ensures Blocked(old(host.disk)) && Aligned(old(host.disk)) ==>
        !r.Returned? && Drifted(old(host.disk), host.disk)
    {
      hide Guard, Apply, Legal, Replay, WritesOf, Verified, PolicyOk;
      if host.disk.journal.Some? {
        var j := host.disk.journal.value;
        if j.candidate == state.current {
          if j.candidate in state.revoked {
            return Raised(RecoveryRevoked);
          }
          var _ :- Activate(j.candidate);
          var _ :- Audit(Completed, j.candidate);
        } else if j.previous == state.current {
          if j.previous in state.revoked {
            return Raised(RecoveryRevoked);
          }
          var _ :- Activate(j.previous);
          var _ :- Audit(Recovered, j.candidate);
        } else {
          return Raised(NeedsReconciliation);
        }
        var _ :- Unlink();
      }
      if host.disk.link != Some(state.current) {
        return Raised(UnexpectedLink);
      }
      return Returned(());
    }

    function Url(raw: Bytes, role: string): string
      requires Readable(host.env, raw)
    {
      ORIGIN + ManifestOf(host.env, raw).release + "/" + role + "-" + host.env.platform
    }

    /** Every artefact on offer is the one the manifest describes. */
    ghost predicate Honest(raw: Bytes)
      requires Readable(host.env, raw)
    {
      var artefacts := Artefacts(host.env, raw);
      forall role | role in artefacts ::
        var offered := fetch(Url(raw, role), artefacts[role].size);
        offered.Got? && FileOk(artefacts[role], File(offered.data, false), host.env.trust.digest)
    }

    /** The bytes a download of this executable yields, if any. */
    function Offered(raw: Bytes, role: string): Bytes
      requires Readable(host.env, raw)
    {
      if role !in Artefacts(host.env, raw) then []
      else
        match fetch(Url(raw, role), Artefacts(host.env, raw)[role].size)
        case Got(data) => data
        case _ => []
    }

    /** The executable that staging ends with: the one already there, or else the one on offer. */
    function Staged(store: map<string, Directory>, raw: Bytes, role: string): File
      requires Readable(host.env, raw)
    {
      var found := Found(host.env, store, raw);
      if role in found.files then found.files[role] else File(Offered(raw, role), false)
    }

    /** Once staged, the release will prove itself. */
    predicate Promising(d: Disk, raw: Bytes)
      requires Readable(host.env, raw)
    {
      Proves(host.env, Staged(d.store, raw, SERVER).data, ManifestOf(host.env, raw))
    }

    lemma StagedProves(d: Disk, store': map<string, Directory>, raw: Bytes)
      requires Readable(host.env, raw) && Found(host.env, d.store, raw).manifest == Some(raw)
      requires StagedAs(d.store, store', raw)
      ensures SelfProves(host.env, store', host.env.trust.digest(raw)) == Promising(d, raw)
    {
      hide Right;
      assert SERVER in ROLES;
    }

    /** The second store is the first with this release staged. */
    predicate StagedAs(store: map<string, Directory>, store': map<string, Directory>, raw: Bytes)
      requires Readable(host.env, raw)
    {
      var sha := host.env.trust.digest(raw);
      && sha in store' && store'[sha].manifest == Found(host.env, store, raw).manifest
      && (forall role | role in Artefacts(host.env, raw) ::
            role in store'[sha].files && store'[sha].files[role] == Staged(store, raw, role))
      && (forall other | other in store && other != sha :: other in store' && store'[other] == store[other])
    }

    /** Makes a release directory and writes its manifest. */
    method MakeRelease(raw: Bytes) returns (r: Result<()>)
      requires host.Valid() && host.disk.journal.None? && Recorded(host.env, host.disk, raw)
      requires host.env.trust.digest(raw) !in host.disk.store
      modifies host
      ensures r.Raised? ==> FromHost(r.error)
      ensures host.Valid() && host.Advanced() && StoreFrame(old(host.disk), host.disk)
      ensures var sha := host.env.trust.digest(raw);
        && (r.Returned? ==>
              && host.disk.temps == old(host.disk).temps
              && host.disk.store == old(host.disk).store[sha := Directory(Some(raw), map[])])
        && (old(host.Calm()) ==>
              !r.Died? && (r.Returned? <==> StagedNew(sha, "manifest.json") !in old(host.disk).temps))
    {
      hide Legal, Replay, WritesOf, Guard, Apply, WellFormed, PolicyOk;
      var sha := host.env.trust.digest(raw);
      OpenedStep(host.env, host.disk);
      var _ :- host.Simple(host.disk.(store := host.disk.store[sha := Directory(None, map[])]), Opened(sha));
      StagedManifestStep(host.env, host.disk, raw);
      r := host.Atomic(StagedNew(sha, "manifest.json"),
                       host.disk.(store := host.disk.store[sha := Directory(Some(raw), map[])]),
                       StagedManifest(raw));
    }

    /** Finds the release directory with its manifest, or makes it and writes the manifest. */
    method OpenRelease(raw: Bytes) returns (r: Result<()>)
      requires host.Valid() && host.disk.journal.None? && Recorded(host.env, host.disk, raw)
      modifies host
      ensures r.Raised? ==> !Telling(r.error)
      ensures host.Valid() && host.Advanced() && StoreFrame(old(host.disk), host.disk)
      ensures var sha, store := host.env.trust.digest(raw), old(host.disk).store;
        && (r.Returned? ==>
              && host.disk.temps == old(host.disk).temps
              && if sha in store
                 then host.disk.store == store && store[sha].manifest.Some?
                      && host.env.trust.digest(store[sha].manifest.value) == sha
                 else host.disk.store == store[sha := Directory(Some(raw), map[])])
        && (old(host.Calm()) ==>
              !r.Died? &&
              (r.Returned? <==> Openable(host.env, old(host.disk), raw)))
    {
      hide Legal, Replay, WritesOf, Guard, Apply, WellFormed, PolicyOk;
      var sha := host.env.trust.digest(raw);
      if sha in host.disk.store {
        var _ :- host.Look();
        match host.disk.store[sha].manifest
        case None => return Raised(SystemError);
        case Some(found) =>
          if host.env.trust.digest(found) != sha {
            return Raised(StagedChanged);
          }
          return Returned(());
      }
      r := MakeRelease(raw);
    }

    /** Downloads one executable and accepts only the described bytes. */
    method FetchArtefact(raw: Bytes, role: string) returns (r: Result<Bytes>)
      requires host.Valid() && host.disk.journal.None? && Recorded(host.env, host.disk, raw)
      requires role in Artefacts(host.env, raw)
      modifies host
      ensures r.Raised? ==> !Telling(r.error)
      ensures r.Returned? ==> host.LastEvent() == Some(Fetched(raw, role))
      ensures host.Valid() && host.Advanced() && Drifted(old(host.disk), host.disk)
      ensures r.Returned? ==>
        && r.value == Offered(raw, role)
        && |r.value| == Artefacts(host.env, raw)[role].size
        && host.env.trust.digest(r.value) == Artefacts(host.env, raw)[role].sha256
        && FileOk(Artefacts(host.env, raw)[role], File(r.value, false), host.env.trust.digest)
      ensures old(host.Calm()) ==> !r.Died?
      ensures old(host.Calm()) && Honest(raw) ==> r.Returned? && host.disk == old(host.disk)
    {
      hide Legal, Replay, WritesOf, WellFormed, PolicyOk;
      var a := Artefacts(host.env, raw)[role];
      var _ :- host.Simple(host.disk, Fetched(raw, role));
      match fetch(Url(raw, role), a.size)
      case Unavailable => return Raised(TransportOffline);
      case Rejected => return Raised(EndpointRefused);
      case Got(data) =>
        if |data| != a.size || host.env.trust.digest(data) != a.sha256 {
          return Raised(ArtefactMismatch);
        }
        return Returned(data);
    }

    /** Keeps an executable that is already there and has the right hash, or downloads it. */
    method StageRole(raw: Bytes, role: string) returns (r: Result<()>)
      requires host.Valid() && host.disk.journal.None? && Recorded(host.env, host.disk, raw)
      requires role in Artefacts(host.env, raw) && host.env.trust.digest(raw) in host.disk.store
      modifies host
      ensures r.Raised? ==> !Telling(r.error)
      ensures host.Valid() && host.Advanced() && StoreFrame(old(host.disk), host.disk)
      ensures var sha, a := host.env.trust.digest(raw), Artefacts(host.env, raw)[role];
        var before := old(host.disk).store[sha];
        && (r.Returned? ==>
              && host.disk.temps == old(host.disk).temps
              && if role in before.files
                 then host.disk.store == old(host.disk).store
                 else
                   && StagedNew(sha, role) !in host.disk.temps
                   && var f := File(Offered(raw, role), false);
                   && FileOk(a, f, host.env.trust.digest)
                   && host.disk.store
                     == old(host.disk).store[sha := before.(files := before.files[role := f])])
        && (r.Returned? ==> RoleReady(host.env, old(host.disk), raw, role))
        && (old(host.Calm()) ==> !r.Died?)
        && (old(host.Calm()) && Honest(raw) ==>
              (r.Returned? <==> RoleReady(host.env, old(host.disk), raw, role)))
    {
      hide Legal, Replay, WritesOf, Guard, Apply, WellFormed, PolicyOk;
      var sha := host.env.trust.digest(raw);
      var a := Artefacts(host.env, raw)[role];
      if role in host.disk.store[sha].files {
        var _ :- host.Look();
        if host.env.trust.digest(host.disk.store[sha].files[role].data) != a.sha256 {
          return Raised(StagedChanged);
        }
        return Returned(());
      }
      var data :- FetchArtefact(raw, role);
      var before := host.disk.store[sha];
      StagedFileStep(host.env, host.disk, raw, role, data);
      var after := before.(files := before.files[role := File(data, false)]);
      r := host.Atomic(StagedNew(sha, role), host.disk.(store := host.disk.store[sha := after]),
                       StagedFile(raw, role, data));
    }

    /** Every executable of an open release, in any order. */
    method StageRoles(raw: Bytes) returns (r: Result<()>)
      requires host.Valid() && host.disk.journal.None? && Recorded(host.env, host.disk, raw)
      requires host.env.trust.digest(raw) in host.disk.store
      modifies host
      ensures r.Raised? ==> !Telling(r.error)
      ensures host.Valid() && host.Advanced() && StoreFrame(old(host.disk), host.disk)
      ensures r.Returned? ==>
        host.disk.temps == old(host.disk).temps && StagedAs(old(host.disk).store, host.disk.store, raw)
      ensures old(host.Calm()) ==> !r.Died?
      ensures old(host.Calm()) && Honest(raw) ==>
        (r.Returned? <==>
          forall role | role in Artefacts(host.env, raw) :: RoleReady(host.env, old(host.disk), raw, role))
    {
      hide Legal, Replay, WritesOf, WellFormed, Guard, Apply, PolicyOk, Offered, FileOk;
      var sha := host.env.trust.digest(raw);
      var artefacts := Artefacts(host.env, raw);
      ghost var found := host.disk.store[sha];
      var todo := artefacts.Keys;
      while todo != {}
        invariant host.Valid() && host.Advanced() && StoreFrame(old(host.disk), host.disk)
        invariant host.disk.temps == old(host.disk).temps && todo <= artefacts.Keys
        invariant sha in host.disk.store && host.disk.store[sha].manifest == found.manifest
        invariant forall role | role in found.files ::
          role in host.disk.store[sha].files && host.disk.store[sha].files[role] == found.files[role]
        invariant forall role | role in todo && role !in found.files :: role !in host.disk.store[sha].files
        invariant forall role | role in artefacts.Keys - todo ::
          && RoleReady(host.env, old(host.disk), raw, role) && role in host.disk.store[sha].files
          && host.disk.store[sha].files[role] == Staged(old(host.disk).store, raw, role)
        invariant forall other | other in old(host.disk).store && other != sha ::
          other in host.disk.store && host.disk.store[other] == old(host.disk).store[other]
        decreases todo
      {
        var role :| role in todo;
        var _ :- StageRole(raw, role);
        todo := todo - {role};
      }
      return Returned(());
    }

    /** A staged release is intact exactly when it could be staged. */
    lemma StagedIntact(d: Disk, store': map<string, Directory>, raw: Bytes)
      requires Readable(host.env, raw) && Honest(raw) && StagedAs(d.store, store', raw)
      requires Openable(host.env, d, raw)
      requires forall role | role in Artefacts(host.env, raw) :: RoleReady(host.env, d, raw, role)
      ensures forall clock :: Stageable(host.env, d, raw, clock) ==>
        Intact(host.env, store', host.env.trust.digest(raw), clock)
      ensures !Impostor(host.env, d, raw) ==>
        forall clock :: Intact(host.env, store', host.env.trust.digest(raw), clock) ==>
          Stageable(host.env, d, raw, clock)
    {
      hide WellFormed, RoleReady, Openable;
    }

    /** Stages a recorded release, resuming whatever an earlier attempt left. */
    method Prepare(raw: Bytes) returns (r: Result<()>)
      requires host.Valid() && policy.platform == host.env.platform
      requires host.disk.journal.None? && Recorded(host.env, host.disk, raw)
      modifies host
      ensures r.Raised? ==> !Telling(r.error)
      ensures host.Valid() && host.Advanced() && StoreFrame(old(host.disk), host.disk)
      ensures r.Returned? ==>
        && Intact(host.env, host.disk.store, host.env.trust.digest(raw), host.clock)
        && host.disk.temps == old(host.disk).temps && StagedAs(old(host.disk).store, host.disk.store, raw)
      ensures old(host.Calm()) ==> !r.Died?
      ensures old(host.Calm()) && Honest(raw) ==>
        && (Stageable(host.env, old(host.disk), raw, old(host.clock)) ==> r.Returned?)
        && (r.Returned? && !Impostor(host.env, old(host.disk), raw) ==>
              Stageable(host.env, old(host.disk), raw, host.clock))
    {
      hide Keeps, Legal, Replay, WritesOf, WellFormed, Guard, Apply, PolicyOk, Intact, Honest, Impostor;
      ghost var was := host.disk;
      var _ :- OpenRelease(raw);
      ghost var start := host.disk;
      assert Found(host.env, was.store, raw) == Found(host.env, start.store, raw);
      var _ :- StageRoles(raw);
      if Honest(raw) && Openable(host.env, was, raw)
        && forall role | role in Artefacts(host.env, raw) :: RoleReady(host.env, was, raw, role)
      {
        StagedIntact(was, host.disk.store, raw);
      }
      IntactStays(host.env, host.disk.store, host.env.trust.digest(raw));
      var _ :- Release(host.env.trust.digest(raw));
      return Returned(());
    }

    /** What the channel offers, once authenticated. */
    function Announced(): (r: Result<Bytes>)
      ensures !r.Died? && (r.Raised? ==> !Telling(r.error))
      ensures fetch(CHANNEL, MAX_META) == Unavailable ==> r.Raised?
    {
      match fetch(CHANNEL, MAX_META)
      case Unavailable => Raised(TransportOffline)
      case Rejected => Raised(EndpointRefused)
      case Got(data) =>
        if |data| > MAX_META || host.env.trust.open(data).None? then Raised(InvalidMetadata)
        else Authenticate(host.env.trust, policy, host.env.trust.open(data).value, host.verifier)
    }

    /** Nothing on this disk or in these downloads stands in the way of the switch. */
    ghost predicate CanSwitch(d: Disk, raw: Bytes, clock: int)
      requires Readable(host.env, raw)
    {
      && Honest(raw) && Stageable(host.env, d, raw, clock)
      && InstalledNew !in d.temps && JournalNew !in d.temps && CurrentNew !in d.temps
    }

    /** The quarantine of a failed candidate, and the end of its transaction. */
    method Quarantine(sha: string) returns (r: Result<()>)
      requires Ready() && host.disk.journal == Some(Journal(state.current, sha)) && sha == state.metadata
      requires host.disk.link == host.disk.proven == Some(state.current) && Settled(host.disk)
      modifies this, host
      ensures host.Valid() && host.AdvancedBy(Quarantined(sha)) && host.disk.store == old(host.disk).store
      ensures r.Raised? ==> FromHost(r.error)
      ensures var s := old(host.disk).installed;
        && (host.disk.installed == s || host.disk.installed == s.(failed := s.failed + {sha}))
        && (r.Returned? ==>
              && host.disk.installed == s.(failed := s.failed + {sha}) && Trail(host.disk) == Trail(old(host.disk))
              && host.disk.journal == None && host.disk.link == old(host.disk).link && Settled(host.disk))
      ensures old(host.Calm()) ==> !r.Died? && (r.Returned? <==> InstalledNew !in old(host.disk).temps)
    {
      hide Guard, Apply, Legal, Replay, WritesOf, WellFormed, Verified, PolicyOk;
      QuarantinedStep(host.env, host.disk, sha);
      state := state.(failed := state.failed + {sha});
      var _ :- Record(Quarantined(sha));
      r := Unlink();
    }

    /** The failure handler of an upgrade: the old release again, then the quarantine. */
    method PutBack(previous: string, sha: string) returns (r: Result<Verdict>)
      requires Ready() && host.disk.journal == Some(Journal(previous, sha))
      requires previous == state.current && sha == state.metadata
      modifies this, host
      ensures r == Raised(UpgradeFailed) ==> Trail(host.disk) == Trail(old(host.disk)) + [(Undone, sha)]
      ensures host.Valid() && host.AdvancedBy(Quarantined(sha)) && !r.Returned?
      ensures host.disk.store == old(host.disk).store
      ensures r.Raised? ==> r.error == UpgradeFailed || !Telling(r.error)
      ensures r == Raised(UpgradeFailed) ==>
        && host.disk.installed == old(host.disk).installed.(failed := old(host.disk).installed.failed + {sha})
        && host.disk.journal == None && host.disk.link == Some(previous) && Settled(host.disk)
      ensures var s := old(host.disk).installed;
        host.disk.installed in {s, s.(failed := s.failed + {sha})}
      ensures old(host.Calm()) ==>
        && !r.Died?
        && (InstalledNew !in old(host.disk).temps && Provable(host.env, old(host.disk), previous, old(host.clock)) ==>
              r == Raised(UpgradeFailed))
        && (r == Raised(UpgradeFailed) ==>
              InstalledNew !in old(host.disk).temps && Provable(host.env, old(host.disk), previous, host.clock))
    {
      hide Guard, Apply, Legal, Replay, WritesOf, WellFormed, Verified, PolicyOk;
      var _ :- Activate(previous);
      var _ :- Audit(Undone, sha);
      var _ :- Quarantine(sha);
      return Raised(UpgradeFailed);
    }

    /** The success path of an upgrade: the committing record, then the end of the transaction. */
    method Complete(raw: Bytes, now: int) returns (r: Result<Verdict>)
      requires Ready() && Readable(host.env, raw) && Guard(host.env, host.disk, Upgraded(raw, now))
      modifies this, host
      ensures r.Returned? ==> Ready()
      ensures r.Returned? ==>
        Trail(host.disk) == Trail(old(host.disk)) + [(Confirmed, host.disk.installed.current)]
      ensures host.Valid() && host.AdvancedBy(Upgraded(raw, now)) && host.disk.store == old(host.disk).store
      ensures r.Returned? ==> host.writes == old(host.writes) + [Upgraded(raw, now)]
      ensures r.Raised? ==> !Telling(r.error)
      ensures r.Returned? ==>
        && r.value == Upgrade(now)
        && host.disk.temps == old(host.disk).temps
        && host.disk.installed == Promoted(host.env, old(host.disk).installed, raw, now)
        && host.disk.journal == None && host.disk.link == Some(host.disk.installed.current)
        && Settled(host.disk)
      ensures host.disk.installed in {old(host.disk).installed, Promoted(host.env, old(host.disk).installed, raw, now)}
      ensures old(host.Calm()) ==>
        !r.Died? && (r.Returned? ==> InstalledNew !in old(host.disk).temps)
      ensures old(host.Calm()) && InstalledNew !in old(host.disk).temps ==> r.Returned?
    {
      hide Legal, Replay, WritesOf, WellFormed, Verified, PolicyOk;
      var m, sha := ManifestOf(host.env, raw), host.env.trust.digest(raw);
      state := state.(current := sha, previous := Some(state.current), sequence := m.sequence, metadata := sha,
                      lastVerifiedAt := now, expiresAt := m.expiresAt);
      var _ :- RecordAndAudit(Upgraded(raw, now), Confirmed, sha);
      var _ :- Unlink();
      return Returned(Upgrade(now));
    }

    /** The journal of an upgrade to the verified release that was recorded last. */
    method Begin() returns (r: Result<()>)
      requires Ready() && host.disk.journal.None? && host.disk.link == Some(state.current)
      requires Verified(host.env, host.disk.store, state.metadata) && state.current !in state.revoked
      requires state.metadata != state.current && state.metadata !in state.failed
      modifies host
      ensures host.Valid() && host.Advanced()
      ensures r.Raised? ==> FromHost(r.error)
      ensures host.disk == old(host.disk).(journal := host.disk.journal, temps := host.disk.temps,
                                           running := host.disk.running)
      ensures r.Returned? ==>
        && host.disk.journal == Some(Journal(state.current, state.metadata))
        && host.disk.temps == old(host.disk).temps
      ensures old(host.Calm()) ==> !r.Died? && (r.Returned? <==> JournalNew !in old(host.disk).temps)
    {
      hide Legal, Replay, WritesOf, Guard, Apply, WellFormed, Verified, PolicyOk;
      var journal := Journal(state.current, state.metadata);
      BeganStep(host.env, host.disk, journal);
      r := host.Atomic(JournalNew, host.disk.(journal := Some(journal)), Began(journal, false));
    }

    /** Stages the recorded release, puts that on the record and opens the transaction. */
    method OpenUpgrade(raw: Bytes) returns (r: Result<()>)
      requires Ready() && host.disk.journal.None? && host.disk.link == Some(state.current)
      requires Recorded(host.env, host.disk, raw) && state.current !in state.revoked
      requires state.metadata != state.current && state.metadata !in state.failed
      modifies host
      ensures host.Valid() && host.Advanced()
      ensures r.Raised? ==> !Telling(r.error)
      ensures host.disk.installed == old(host.disk).installed && host.disk.link == old(host.disk).link
      ensures r.Returned? ==>
        && host.disk.journal == Some(Journal(state.current, state.metadata))
        && host.disk.temps == old(host.disk).temps && StagedAs(old(host.disk).store, host.disk.store, raw)
        && Verified(host.env, host.disk.store, state.metadata)
        && Trail(host.disk) == Trail(old(host.disk)) + [(Prepared, state.metadata)]
      ensures old(host.Calm()) ==> !r.Died?
      ensures old(host.Calm()) && Honest(raw) && !Impostor(host.env, old(host.disk), raw) && r.Returned? ==>
        JournalNew !in old(host.disk).temps && Stageable(host.env, old(host.disk), raw, host.clock)
      ensures old(host.Calm()) && CanSwitch(old(host.disk), raw, old(host.clock)) ==>
        && r.Returned? && Intact(host.env, host.disk.store, state.metadata, host.clock)
        && SelfProves(host.env, host.disk.store, state.metadata) == Promising(old(host.disk), raw)
        && (Usable(host.env, old(host.disk).store, state.current, old(host.clock)) ==>
              Usable(host.env, host.disk.store, state.current, host.clock))
    {
      hide Legal, Replay, WritesOf, Guard, Apply, WellFormed, Verified, Impostor, Honest, SelfProves, Promising,
           PolicyOk;
      var sha := host.env.trust.digest(raw);
      ghost var found := host.disk;
      var _ :- Prepare(raw);
      if Found(host.env, found.store, raw).manifest == Some(raw) {
        StagedProves(found, host.disk.store, raw);
      }
      UsableDependsOn(host.env, found.store, host.disk.store, state.current, host.clock);
      var _ :- Audit(Prepared, sha);
      r := Begin();
    }

    /** The open transaction: the candidate linked, proved and recorded, or the old release put back. */
    method Transact(raw: Bytes, now: int) returns (r: Result<Verdict>)
      requires Ready() && host.disk.journal == Some(Journal(state.current, state.metadata))
      requires Recorded(host.env, host.disk, raw) && Timely(ManifestOf(host.env, raw), now)
      requires ManifestOf(host.env, raw).sequence == state.sequence
      requires state.lastVerifiedAt - SLACK <= now && state.current !in state.revoked
      requires state.metadata !in state.failed && state.metadata !in RevokedBy(ManifestOf(host.env, raw))
      modifies this, host
      ensures r.Returned? ==> Ready() && host.disk.temps == old(host.disk).temps
      ensures r.Returned? ==> Trail(host.disk) == Trail(old(host.disk)) + [(Confirmed, old(state).metadata)]
      ensures r == Raised(UpgradeFailed) ==>
        Trail(host.disk) == Trail(old(host.disk)) + [(Undone, old(state).metadata)]
      ensures host.Valid() && host.Moved() && host.disk.store == old(host.disk).store
      ensures
        || host.writes == old(host.writes)
        || host.writes == old(host.writes) + [Quarantined(old(state).metadata)]
        || host.writes == old(host.writes) + [Upgraded(raw, now)]
      ensures r.Raised? ==> r.error == UpgradeFailed || !Telling(r.error)
      ensures r.Returned? ==>
        && r.value == Upgrade(now)
        && host.disk.installed == Promoted(host.env, old(host.disk).installed, raw, now)
      ensures r == Raised(UpgradeFailed) ==>
        var s := old(host.disk).installed;
        host.disk.installed == s.(failed := s.failed + {s.metadata})
      ensures r.Returned? || r == Raised(UpgradeFailed) ==>
        host.disk.journal == None && host.disk.link == Some(host.disk.installed.current) && Settled(host.disk)
      ensures var s := old(host.disk).installed;
        host.disk.installed in {s, s.(failed := s.failed + {s.metadata}), Promoted(host.env, s, raw, now)}
      ensures old(host.Calm()) && (CurrentNew in old(host.disk).temps || InstalledNew in old(host.disk).temps) ==>
        r.Raised? && !Telling(r.error)
      ensures old(host.Calm()) ==> !r.Died?
      ensures old(host.Calm()) && CurrentNew !in old(host.disk).temps && InstalledNew !in old(host.disk).temps ==>
        && (Usable(host.env, old(host.disk).store, old(state).metadata, old(host.clock)) ==> r.Returned?)
        && (!SelfProves(host.env, old(host.disk).store, old(state).metadata)
            && Usable(host.env, old(host.disk).store, old(state).current, old(host.clock)) ==>
              r == Raised(UpgradeFailed))
    {
      hide Legal, Replay, WritesOf, Guard, Apply, WellFormed, Verified, SelfProves, PolicyOk;
      var previous, sha := state.current, host.env.trust.digest(raw);
      var proof := Activate(sha);
      if proof.Died? {
        return Died;
      }
      if proof.Raised? {
        r := PutBack(previous, sha);
      } else {
        UpgradedStep(host.env, host.disk, raw, now);
        r := Complete(raw, now);
      }
    }

    /** Stages the recorded release and switches to it, or puts the old one back. */
    method Switch(raw: Bytes, now: int) returns (r: Result<Verdict>)
      requires Ready() && host.disk.journal.None? && host.disk.link == Some(state.current)
      requires Recorded(host.env, host.disk, raw) && Timely(ManifestOf(host.env, raw), now)
      requires ManifestOf(host.env, raw).sequence == state.sequence
      requires state.lastVerifiedAt - SLACK <= now && state.current !in state.revoked
      requires state.metadata != state.current && state.metadata !in state.failed
      requires state.metadata !in RevokedBy(ManifestOf(host.env, raw))
      modifies this, host
      ensures r.Returned? ==> Ready()
      ensures r.Returned? || r == Raised(UpgradeFailed) ==>
        Trail(host.disk) == Trail(old(host.disk)) + CheckTrail(r, old(state), old(state).metadata)
      ensures host.Valid() && host.Moved()
      ensures
        || host.writes == old(host.writes)
        || host.writes == old(host.writes) + [Quarantined(old(state).metadata)]
        || host.writes == old(host.writes) + [Upgraded(raw, now)]
      ensures r.Raised? ==> r.error == UpgradeFailed || !Telling(r.error)
      ensures r.Returned? ==>
        && r.value == Upgrade(now)
        && host.disk.installed == Promoted(host.env, old(host.disk).installed, raw, now)
        && Verified(host.env, host.disk.store, host.disk.installed.current)
      ensures r == Raised(UpgradeFailed) ==>
        var s := old(host.disk).installed;
        host.disk.installed == s.(failed := s.failed + {s.metadata})
      ensures r.Returned? || r == Raised(UpgradeFailed) ==>
        && host.disk.journal == None && host.disk.link == Some(host.disk.installed.current) && Settled(host.disk)
        && StagedAs(old(host.disk).store, host.disk.store, raw)
      ensures r.Returned? ==> host.disk.temps == old(host.disk).temps
      ensures var s := old(host.disk).installed;
        host.disk.installed in {s, s.(failed := s.failed + {s.metadata}), Promoted(host.env, s, raw, now)}
      ensures old(host.Calm()) && now <= old(host.clock) ==> SwitchDue(r, old(host.disk), raw, now)
    {
      hide Legal, Replay, WritesOf, Guard, Apply, WellFormed, Verified, Promising, SelfProves, StagedAs, PolicyOk;
      var _ :- OpenUpgrade(raw);
      r := Transact(raw, now);
    }

    /** Records admitted metadata, revocations first, and does what it calls for. */
    method Accept(raw: Bytes, now: int) returns (r: Result<Verdict>)
      requires Ready() && Announced() == Returned(raw)
      requires host.disk.journal.None? && host.disk.link == Some(state.current)
      requires Verified(host.env, host.disk.store, state.current) && Admits(host.env, state, raw, now)
      modifies this, host
      ensures r.Returned? ==> Ready() && !r.value.OfflineApproved?
      ensures r.Raised? ==> !NeedsOperator(r.error)
      ensures Decided(r) ==>
        Trail(host.disk) == Trail(old(host.disk)) + CheckTrail(r, old(state), host.env.trust.digest(raw))
      ensures host.Valid() && host.Moved()
      ensures Wrote(old(host.writes), host.writes, raw, now)
      ensures Landed(old(host.disk).installed, host.disk.installed, now)
      ensures Decided(r) ==> Concluded(r, old(host.disk).installed, host.disk) && Kept(r, old(host.disk), host.disk)
      ensures Decided(r) ==>
        && host.disk.journal == None && host.disk.link == Some(host.disk.installed.current)
        && (Settled(old(host.disk)) ==> Settled(host.disk))
      ensures old(host.Calm()) && now <= old(host.clock) ==> AdmissionDue(r, old(host.disk), raw, now)
    {
      hide Legal, Replay, WritesOf, Guard, Apply, WellFormed, Verified, PolicyOk, Announced, SwitchDue, StagedAs,
           Concluded, CheckTrail, Landed, CalmFrom;
      ghost var found := host.disk;
      var m, sha := ManifestOf(host.env, raw), host.env.trust.digest(raw);
      AcceptedStep(host.env, host.disk, raw, now);
      AdmissionLands(state, raw, now);
      state := state.(revoked := state.revoked + RevokedBy(m));
      state := state.(sequence := m.sequence, metadata := sha);
      if state.current in state.revoked {
        var _ :- RecordAndAudit(Accepted(raw, now), Withdrawn, state.current);
        AdmissionConcludes(found.installed, raw, now, host.disk);
        return Raised(InstalledRevoked);
      }
      if sha == state.current {
        state := state.(lastVerifiedAt := now, expiresAt := m.expiresAt);
        var _ :- RecordAndAudit(Accepted(raw, now), Rechecked, sha);
        AdmissionConcludes(found.installed, raw, now, host.disk);
        return Returned(Current(now));
      }
      r := Advance(raw, now);
    }

    /** The record of another release, and the switch to it. */
    method Advance(raw: Bytes, now: int) returns (r: Result<Verdict>)
      requires host.Valid() && PolicyOk(policy) && policy.platform == host.env.platform
      requires Announced() == Returned(raw) && Admits(host.env, host.disk.installed, raw, now)
      requires state == Merged(host.env, host.disk.installed, raw, now)
      requires host.env.trust.digest(raw) != state.current && state.current !in state.revoked
      requires host.disk.journal.None? && host.disk.link == Some(state.current)
      modifies this, host
      ensures r.Returned? ==> Ready() && !r.value.OfflineApproved?
      ensures r.Raised? ==> !NeedsOperator(r.error)
      ensures Decided(r) ==>
        Trail(host.disk) == Trail(old(host.disk)) + CheckTrail(r, old(host.disk).installed, host.env.trust.digest(raw))
      ensures host.Valid() && host.Moved()
      ensures Wrote(old(host.writes), host.writes, raw, now)
      ensures Landed(old(host.disk).installed, host.disk.installed, now)
      ensures Decided(r) ==> Concluded(r, old(host.disk).installed, host.disk) && Kept(r, old(host.disk), host.disk)
      ensures Decided(r) ==>
        && host.disk.journal == None && host.disk.link == Some(host.disk.installed.current) && Settled(host.disk)
      ensures old(host.Calm()) && now <= old(host.clock) ==>
        if InstalledNew in old(host.disk).temps then r == Raised(LeftoverTemporary)
        else SwitchDue(r, old(host.disk), raw, now)
    {
      hide Legal, Replay, WritesOf, Guard, Apply, WellFormed, Verified, PolicyOk, Announced, SwitchDue, StagedAs,
           Concluded, CheckTrail, Landed, CalmFrom;
      ghost var found := host.disk;
      AcceptedStep(host.env, host.disk, raw, now);
      AdmissionLands(found.installed, raw, now);
      var _ :- Record(Accepted(raw, now));
      ghost var recorded := host.disk;
      r := Switch(raw, now);
      AdmissionConcludes(found.installed, raw, now, host.disk);
      SwitchDueDependsOn(r, recorded, found, raw, now);
    }

    /** Decides about authenticated metadata and acts on it. */
    method Consider(raw: Bytes, now: int) returns (r: Result<Verdict>)
      requires Ready() && Announced() == Returned(raw)
      requires host.disk.journal.None? && host.disk.link == Some(state.current)
      requires Verified(host.env, host.disk.store, state.current)
      requires state.current !in state.revoked && state.lastVerifiedAt - SLACK <= now
      modifies this, host
      ensures r.Returned? ==> Ready() && !r.value.OfflineApproved?
      ensures Decided(r) ==>
        Trail(host.disk) == Trail(old(host.disk)) + CheckTrail(r, old(state), host.env.trust.digest(raw))
      ensures host.Valid() && host.Moved()
      ensures Wrote(old(host.writes), host.writes, raw, now)
      ensures r.Raised? ==> !NeedsOperator(r.error)
      ensures Landed(old(host.disk).installed, host.disk.installed, now)
      ensures Decided(r) ==> Concluded(r, old(host.disk).installed, host.disk) && Kept(r, old(host.disk), host.disk)
      ensures Decided(r) ==>
        && host.disk.journal == None && host.disk.link == Some(host.disk.installed.current)
        && (Settled(old(host.disk)) ==> Settled(host.disk))
      ensures old(host.Calm()) && now <= old(host.clock) ==> Due(r, old(host.disk), now)
    {
      hide ReadManifest, Legal, Replay, WritesOf, Guard, Apply, WellFormed, Verified, PolicyOk, Announced,
           Due, AdmissionDue, Concluded, StagedAs;
      DueOnAnnouncement(host.disk, raw, now);
      ManifestRefusals(host.env, raw, now);
      var m :- ReadManifest(host.env, raw, now);
      var sha := host.env.trust.digest(raw);
      if sha in RevokedBy(m) {
        RefusedForContent(ChannelRevoked, raw, host.disk);
        return Raised(ChannelRevoked);
      }
      if sha in state.failed {
        RefusedForContent(ReleaseQuarantined, raw, host.disk);
        return Raised(ReleaseQuarantined);
      }
      if m.sequence < state.sequence || (m.sequence == state.sequence && sha != state.metadata) {
        RefusedForContent(ReplayOrEquivocation, raw, host.disk);
        return Raised(ReplayOrEquivocation);
      }
      r := Accept(raw, now);
    }

    function AnnouncedHash(): string
    {
      if Announced().Returned? then host.env.trust.digest(Announced().value) else ""
    }

    /** How a switch to this release ends on a calm host, given what this disk and these downloads can take. */
    ghost predicate SwitchDue(r: Result<Verdict>, d: Disk, raw: Bytes, clock: int)
      requires Readable(host.env, raw)
    {
      if CanSwitch(d, raw, clock) then
        if Promising(d, raw) then r == Returned(Upgrade(clock))
        else Usable(host.env, d.store, d.installed.current, clock) ==> r == Raised(UpgradeFailed)
      else
        // a switch that cannot be made is refused without a conclusion
        Honest(raw) && !Impostor(host.env, d, raw) ==> r.Raised? && !Telling(r.error)
    }

    /** How admissible metadata is answered on a calm host. */
    ghost predicate AdmissionDue(r: Result<Verdict>, d: Disk, raw: Bytes, clock: int)
      requires Readable(host.env, raw)
    {
      if InstalledNew in d.temps then r == Raised(LeftoverTemporary)
      else if d.installed.current in RevokedBy(ManifestOf(host.env, raw)) then r == Raised(InstalledRevoked)
      else if host.env.trust.digest(raw) == d.installed.current then r == Returned(Current(clock))
      else SwitchDue(r, d, raw, clock)
    }

    /** The answer that the state, the clock and the channel call for on a calm host. */
    ghost predicate Due(r: Result<Verdict>, d: Disk, clock: int)
    {
      var s := d.installed;
      if s.current in s.revoked then r == Raised(InstalledRevoked)
      else if clock < s.lastVerifiedAt - SLACK then r == Raised(ClockMovedBack(clock))
      else if fetch(CHANNEL, MAX_META) == Unavailable then
        r == if LeaseAllows(s, clock, policy.offlineGrace)
             then Returned(OfflineApproved(clock)) else Raised(LeaseExpired(clock))
      else if Announced().Raised? then r == Raised(Announced().error)
      else Announced().Returned? ==> AnnouncementDue(r, d, Announced().value, clock)
    }

    /** How authenticated metadata is answered on a calm host. */
    ghost predicate AnnouncementDue(r: Result<Verdict>, d: Disk, raw: Bytes, clock: int)
    {
      var s := d.installed;
      match ReadManifest(host.env, raw, clock)
      case Raised(e) => r == Raised(e)
      case Returned(m) =>
        var sha := host.env.trust.digest(raw);
        if sha in RevokedBy(m) then r == Raised(ChannelRevoked)
        else if sha in s.failed then r == Raised(ReleaseQuarantined)
        else if !Fresh(s, m.sequence, sha) then r == Raised(ReplayOrEquivocation)
        else AdmissionDue(r, d, raw, clock)
      case Died => true
    }

    lemma DueOnAnnouncement(d: Disk, raw: Bytes, clock: int)
      requires Announced() == Returned(raw) && d.installed.current !in d.installed.revoked
      requires d.installed.lastVerifiedAt - SLACK <= clock
      ensures forall r :: Due(r, d, clock) <==> AnnouncementDue(r, d, raw, clock)
    {
      hide Announced, AnnouncementDue;
    }

    /** It depends on the installed state, the store and the leftovers, and on nothing else. */
    lemma DueDependsOn(d: Disk, d': Disk)
      requires d'.installed == d.installed && d'.store == d.store && d'.temps == d.temps
      ensures forall r, clock :: Due(r, d, clock) == Due(r, d', clock)
    {
      hide Announced, AnnouncementDue;
      forall r, raw, clock ensures AnnouncementDue(r, d, raw, clock) == AnnouncementDue(r, d', raw, clock) {
        AnnouncementDueDependsOn(r, d, d', raw, clock);
      }
    }

    lemma AnnouncementDueDependsOn(r: Result<Verdict>, d: Disk, d': Disk, raw: Bytes, clock: int)
      requires d'.installed == d.installed && d'.store == d.store && d'.temps == d.temps
      ensures AnnouncementDue(r, d, raw, clock) == AnnouncementDue(r, d', raw, clock)
    {
      hide SwitchDue, WellFormed, ReadManifest;
      if Readable(host.env, raw) {
        SwitchDueDependsOn(r, d, d', raw, clock);
      }
    }

    lemma SwitchDueDependsOn(r: Result<Verdict>, d: Disk, d': Disk, raw: Bytes, clock: int)
      requires Readable(host.env, raw)
      requires d'.installed.current == d.installed.current && d'.store == d.store && d'.temps == d.temps
      ensures SwitchDue(r, d, raw, clock) == SwitchDue(r, d', raw, clock)
    {
      hide WellFormed, Right;
    }

    /** The answer when the transport is down: allowed only inside the lease. */
    method UseOffline(now: int) returns (r: Result<Verdict>)
      requires Ready() && fetch(CHANNEL, MAX_META) == Unavailable
      requires host.disk.journal.None? && host.disk.link == Some(state.current)
      requires Verified(host.env, host.disk.store, state.current)
      requires state.current !in state.revoked && state.lastVerifiedAt - SLACK <= now
      modifies host
      ensures r.Returned? ==> host.LastEvent() == Some(UsedOffline(now, policy.offlineGrace))
      ensures r.Returned? ==> Trail(host.disk) == Trail(old(host.disk)) + CheckTrail(r, state, "")
      ensures host.Valid() && host.Advanced() && host.disk.installed == state
      ensures r.Raised? ==>
        || FromHost(r.error)
        || (r.error == LeaseExpired(now) && host.disk == old(host.disk)
            && now > Min(state.expiresAt, state.lastVerifiedAt + policy.offlineGrace))
      ensures r.Returned? ==> r.value == OfflineApproved(now)
      ensures Decided(r) ==> Concluded(r, state, host.disk) && Kept(r, old(host.disk), host.disk)
      ensures r.Returned? ==>
        && host.disk.journal == None && host.disk.link == Some(state.current)
        && (Settled(old(host.disk)) ==> Settled(host.disk))
      ensures old(host.Calm()) ==>
        r == if LeaseAllows(state, now, policy.offlineGrace)
             then Returned(OfflineApproved(now)) else Raised(LeaseExpired(now))
    {
      hide Legal, Replay, WritesOf, Guard, Apply, WellFormed, Verified;
      if now > Min(state.expiresAt, state.lastVerifiedAt + policy.offlineGrace) {
        return Raised(LeaseExpired(now));
      }
      var _ :- Audit(ApprovedOffline, state.current);
      UsedOfflineStep(host.env, host.disk, now, policy.offlineGrace);
      host.Effect(host.disk, UsedOffline(now, policy.offlineGrace));
      return Returned(OfflineApproved(now));
    }

    /** Asks the channel and acts on the answer, or on its absence. */
    method Ask(now: int) returns (r: Result<Verdict>)
      requires Ready() && host.disk.journal.None? && host.disk.link == Some(state.current)
      requires Verified(host.env, host.disk.store, state.current)
      requires state.current !in state.revoked && state.lastVerifiedAt - SLACK <= now
      modifies this, host
      ensures r.Returned? ==> Ready()
      ensures r.Returned? && r.value.OfflineApproved? ==>
        host.LastEvent() == Some(UsedOffline(r.value.now, policy.offlineGrace))
      ensures Decided(r) ==>
        Trail(host.disk) == Trail(old(host.disk)) + CheckTrail(r, old(state), AnnouncedHash())
      ensures host.Valid() && host.Moved()
      ensures host.writes == old(host.writes)
        || (Announced().Returned? && Wrote(old(host.writes), host.writes, Announced().value, now))
      ensures r.Raised? ==> !NeedsOperator(r.error)
      ensures host.disk.installed != old(host.disk).installed ==> Announced().Returned?
      ensures Landed(old(host.disk).installed, host.disk.installed, now)
      ensures Decided(r) ==>
        && Concluded(r, old(host.disk).installed, host.disk) && Kept(r, old(host.disk), host.disk)
        && host.disk.journal == None && host.disk.link == Some(host.disk.installed.current)
        && (Settled(old(host.disk)) ==> Settled(host.disk))
      ensures old(host.Calm()) && now <= old(host.clock) ==> Due(r, old(host.disk), now)
    {
      hide Legal, Replay, WritesOf, Guard, Apply, WellFormed, Verified, Concluded, Announced, AnnouncementDue,
           AdmissionDue,
           StagedAs, PolicyOk;
      ghost var found := host.disk;
      var _ :- host.Look();
      DueDependsOn(found, host.disk);
      if fetch(CHANNEL, MAX_META) == Unavailable {
        r := UseOffline(now);
        return;
      }
      var raw :- Announced();
      r := Consider(raw, now);
    }

    /** One protected check: recovery, the installed release, then whatever the channel announces. */
    method Check() returns (r: Result<Verdict>)
      requires Ready()
      modifies this, host
      ensures r.Returned? ==> Ready()
      // every offline approval is on the record
      ensures r.Returned? && r.value.OfflineApproved? ==>
        host.LastEvent() == Some(UsedOffline(r.value.now, policy.offlineGrace))
      ensures Decided(r) ==>
        Trail(host.disk) == Trail(old(host.disk)) + RecoveryTrail(old(host.disk))
                            + CheckTrail(r, old(state), AnnouncedHash())
      ensures host.Valid() && host.Moved()
      ensures host.writes == old(host.writes)
        || (Announced().Returned? && exists now :: Wrote(old(host.writes), host.writes, Announced().value, now))
      // from an aligned disk no operator is ever needed
      ensures Aligned(old(host.disk)) && r.Raised? ==> !NeedsOperator(r.error)
      // a revoked installed release is refused
      ensures Decided(r) && old(host.disk).installed.current in old(host.disk).installed.revoked ==>
        r == Raised(InstalledRevoked)
      // only authenticated metadata changes the installed state
      ensures host.disk.installed != old(host.disk).installed ==> Announced().Returned?
      // whatever happens, and wherever it stops
      ensures exists now :: Landed(old(host.disk).installed, host.disk.installed, now)
      ensures Decided(r) ==> Concluded(r, old(host.disk).installed, host.disk) && Kept(r, old(host.disk), host.disk)
      ensures Decided(r) ==>
        && host.disk.journal == None && host.disk.link == Some(host.disk.installed.current)
        && (old(host.disk).journal.Some? || Settled(old(host.disk)) ==> Settled(host.disk))
      // on a calm host it gives the answer that is due at the clock it reads
      ensures old(host.Calm()) && Sturdy(host.env, old(host.disk), old(host.clock)) ==>
        exists t :: old(host.clock) <= t <= host.clock && Due(r, old(host.disk), t)
      ensures Stuck(old(host.disk)) && Aligned(old(host.disk)) ==>
        r == Raised(RecoveryRevoked) && host.disk == old(host.disk)
      ensures Blocked(old(host.disk)) && Aligned(old(host.disk)) ==>
        !r.Returned? && Drifted(old(host.disk), host.disk)
    {
      hide Wrote, Kept, Keeps, Legal, Replay, WritesOf, Guard, Apply, WellFormed, Verified, Concluded, Announced,
           StagedAs, Due,
           PolicyOk,
           Stuck, Jammed, Blocked, Aligned, Recoverable, CheckTrail, AnnouncedHash;
      ghost var found := host.disk;
      assert Landed(state, state, host.clock);
      var _ :- Recover();
      if host.disk.temps == found.temps && host.disk.store == found.store {
        DueDependsOn(found, host.disk);
      }
      var _ :- Release(state.current);
      if state.current in state.revoked {
        RefusedOutright(InstalledRevoked, state, host.disk, host.clock);
        KeptAll(Raised(InstalledRevoked), found, host.disk);
        assert Due(Raised(InstalledRevoked), host.disk, host.clock);
        return Raised(InstalledRevoked);
      }
      var now := host.clock;
      if now < state.lastVerifiedAt - SLACK {
        RefusedOutright(ClockMovedBack(now), state, host.disk, now);
        KeptAll(Raised(ClockMovedBack(now)), found, host.disk);
        return Raised(ClockMovedBack(now));
      }
      ghost var asked := host.disk;
      r := Ask(now);
      KeptDependsOn(r, asked, found, host.disk);
      assert old(host.Calm()) && Sturdy(host.env, found, old(host.clock)) ==> Due(r, found, now);
    }

    /** What each way of concluding says about the disk. */
    ghost predicate Concluded(r: Result<Verdict>, was: Installed, d': Disk)
    {
      match r
      case Returned(OfflineApproved(now)) =>
        && fetch(CHANNEL, MAX_META) == Unavailable && d'.installed == was
        && LeaseAllows(was, now, policy.offlineGrace) && Verified(host.env, d'.store, was.current)
      case Returned(Current(now)) =>
        && Announced().Returned? && Admits(host.env, was, Announced().value, now)
        && var s' := Merged(host.env, was, Announced().value, now);
        && d'.installed == s' && s'.current == s'.metadata && s'.lastVerifiedAt == now
        && s'.current !in s'.revoked && Verified(host.env, d'.store, s'.current)
      case Returned(Upgrade(now)) =>
        && Announced().Returned? && Admits(host.env, was, Announced().value, now)
        && var raw, s' := Announced().value, d'.installed;
        && s' == Promoted(host.env, Merged(host.env, was, raw, now), raw, now)
        && s'.current != was.current && s'.previous == Some(was.current)
        && s'.previous.value !in s'.revoked
        // the channel's own list cannot name the candidate; an older list still can
        && (s'.current in s'.revoked <==> s'.current in was.revoked)
        && Verified(host.env, d'.store, s'.current)
      case Raised(e) => Refused(e, was, d'.installed)
      case Died => true
    }

    /** What a check writes about this announcement at this clock: its record first, and then at most the
        quarantine or the upgrade. */
    predicate Wrote(before: seq<Event>, after: seq<Event>, raw: Bytes, now: int)
    {
      || after == before
      || after == before + [Accepted(raw, now)]
      || after == before + [Accepted(raw, now)] + [Quarantined(host.env.trust.digest(raw))]
      || after == before + [Accepted(raw, now)] + [Upgraded(raw, now)]
    }

    /** Every installed state that a check at this clock can leave, concluded or not: what it found, or else
        the record of the announcement, with the quarantine, or with the upgrade. */
    ghost predicate Landed(was: Installed, s': Installed, now: int)
    {
      || s' == was
      || (&& Announced().Returned? && Admits(host.env, was, Announced().value, now)
          && var s := Merged(host.env, was, Announced().value, now);
          || s' == s
          || (s.metadata != was.current && was.current !in s.revoked
              && s' in {s.(failed := s.failed + {s.metadata}), Promoted(host.env, s, Announced().value, now)}))
    }

    /** What a conclusion leaves of the store and of the leftovers. */
    ghost predicate Kept(r: Result<Verdict>, d: Disk, d': Disk)
    {
      if r.Returned? && r.value.Upgrade? then
        && OffersReadable() && StagedAs(d.store, d'.store, Announced().value) && d'.temps == d.temps
      else if r == Raised(UpgradeFailed) then OffersReadable() && StagedAs(d.store, d'.store, Announced().value)
      else d'.store == d.store && d'.temps == d.temps
    }

    lemma KeptAll(r: Result<Verdict>, d: Disk, d': Disk)
      requires d'.store == d.store && d'.temps == d.temps && r.Raised? && r.error != UpgradeFailed
      ensures Kept(r, d, d')
    {
    }

    lemma KeptDependsOn(r: Result<Verdict>, d: Disk, same: Disk, d': Disk)
      requires d.store == same.store && d.temps == same.temps
      ensures Kept(r, d, d') == Kept(r, same, d')
    {
    }

    /** Which refusal was given, why, and what it left on record. */
    predicate Refused(e: Error, was: Installed, s': Installed)
    {
      match e
      case ClockMovedBack(now) => s' == was && now < was.lastVerifiedAt - SLACK
      case LeaseExpired(now) =>
        && s' == was && fetch(CHANNEL, MAX_META) == Unavailable
        && now > Min(was.expiresAt, was.lastVerifiedAt + policy.offlineGrace)
      case ChannelRevoked => s' == was && OffersReadable() && AnnouncedHash() in OfferedRevocations()
      case ReleaseQuarantined => s' == was && OffersReadable() && AnnouncedHash() in was.failed
      case ReplayOrEquivocation => s' == was && OffersReadable() && !OfferedFresh(was)
      case InstalledRevoked =>
        if was.current in was.revoked then s' == was
        else
          && OffersReadable() && was.current in OfferedRevocations() && AnnouncedHash() !in OfferedRevocations()
          && AnnouncedHash() !in was.failed && OfferedFresh(was) && s' == Noted(was)
      case UpgradeFailed =>
        && OffersReadable() && AnnouncedHash() !in was.failed && OfferedFresh(was)
        && s' == Noted(was).(failed := was.failed + {AnnouncedHash()})
      case _ => true
    }

    lemma RefusedOutright(e: Error, was: Installed, d: Disk, clock: int)
      requires d.installed == was
      requires
        || (e == ClockMovedBack(clock) && was.current !in was.revoked && clock < was.lastVerifiedAt - SLACK)
        || (e == InstalledRevoked && was.current in was.revoked)
      ensures Concluded(Raised(e), was, d) && CheckTrail(Raised(e), was, AnnouncedHash()) == []
      ensures Due(Raised(e), d, clock)
    {
      hide WellFormed, Right;
    }

    lemma AdmissionLands(was: Installed, raw: Bytes, now: int)
      requires Announced() == Returned(raw) && Admits(host.env, was, raw, now)
      ensures var s := Merged(host.env, was, raw, now);
        && Landed(was, was, now) && Landed(was, s, now)
        && (s.metadata != was.current && was.current !in s.revoked ==>
              && Landed(was, s.(failed := s.failed + {s.metadata}), now)
              && Landed(was, Promoted(host.env, s, raw, now), now))
    {
      hide Announced, WellFormed, Admits;
    }

    lemma AdmissionConcludes(was: Installed, raw: Bytes, now: int, d': Disk)
      requires Announced() == Returned(raw) && Admits(host.env, was, raw, now)
      ensures var s, sha := Merged(host.env, was, raw, now), host.env.trust.digest(raw);
        if was.current in RevokedBy(ManifestOf(host.env, raw)) then
          d'.installed == s ==> Concluded(Raised(InstalledRevoked), was, d')
        else if sha == was.current then
          d'.installed == s && Verified(host.env, d'.store, sha) ==> Concluded(Returned(Current(now)), was, d')
        else
          && (d'.installed == Promoted(host.env, s, raw, now) && Verified(host.env, d'.store, sha) ==>
                Concluded(Returned(Upgrade(now)), was, d'))
          && (d'.installed == s.(failed := s.failed + {sha}) ==> Concluded(Raised(UpgradeFailed), was, d'))
      ensures CheckTrail(Raised(InstalledRevoked), was, host.env.trust.digest(raw)) == [(Withdrawn, was.current)]
      ensures CheckTrail(Returned(Current(now)), was, host.env.trust.digest(raw))
        == [(Rechecked, host.env.trust.digest(raw))]
      ensures var s, sha := Merged(host.env, was, raw, now), host.env.trust.digest(raw);
        && CheckTrail(Returned(Upgrade(now)), s, sha) == CheckTrail(Returned(Upgrade(now)), was, sha)
        && CheckTrail(Raised(UpgradeFailed), s, sha) == CheckTrail(Raised(UpgradeFailed), was, sha)
    {
      hide Announced, WellFormed, Verified;
    }

    lemma RefusedForContent(e: Error, raw: Bytes, d: Disk)
      requires Announced() == Returned(raw) && Readable(host.env, raw)
      requires var m, sha, s := ManifestOf(host.env, raw), host.env.trust.digest(raw), d.installed;
        || (e == ChannelRevoked && sha in RevokedBy(m)) || (e == ReleaseQuarantined && sha in s.failed)
        || (e == ReplayOrEquivocation && !Fresh(s, m.sequence, sha))
      ensures Concluded(Raised(e), d.installed, d)
    {
      hide Announced, WellFormed;
    }

    predicate OffersReadable() { Announced().Returned? && Readable(host.env, Announced().value) }

    function OfferedRevocations(): set<string>
      requires OffersReadable()
    {
      RevokedBy(ManifestOf(host.env, Announced().value))
    }

    predicate OfferedFresh(s: Installed)
      requires OffersReadable()
    {
      Fresh(s, ManifestOf(host.env, Announced().value).sequence, AnnouncedHash())
    }

    /** The state once the announcement is on record and nothing else is. */
    function Noted(s: Installed): Installed
      requires OffersReadable()
    {
      s.(sequence := ManifestOf(host.env, Announced().value).sequence, metadata := AnnouncedHash(),
         revoked := s.revoked + OfferedRevocations())
    }

    /** The failure handler of a rollback. */
    method Abandon() returns (r: Result<()>)
      requires Ready() && host.disk.journal.Some? && host.disk.journal.value.previous == state.current
      modifies host
      ensures r.Raised? ==> !Telling(r.error)
      ensures host.Valid() && host.Advanced()
      ensures host.disk.installed == state && host.disk.store == old(host.disk).store
      ensures host.disk.journal in {None, old(host.disk).journal}
      ensures r.Returned? ==>
        host.disk.journal == None && host.disk.link == Some(state.current) && Settled(host.disk)
      ensures old(host.Calm()) ==>
        && (Provable(host.env, old(host.disk), state.current, old(host.clock)) ==> r.Returned?)
        && (r.Returned? ==> Provable(host.env, old(host.disk), state.current, host.clock))
    {
      hide Legal, Replay, WritesOf, Guard, Apply, WellFormed, Verified, PolicyOk;
      var _ :- Activate(state.current);
      r := Unlink();
    }

    /** Nothing stands in the way of a rollback but that the release does not prove itself. An installation
        that completed rules this out for good: see EveryVouchedReleaseProves in Runs. */
    predicate Unproved(d: Disk, previous: string, clock: int)
      reads this
    {
      && JournalNew !in d.temps && CurrentNew !in d.temps
      && Intact(host.env, d.store, previous, clock) && !SelfProves(host.env, d.store, previous)
      && Usable(host.env, d.store, state.current, clock)
    }

    /** Restart and proof of the linked candidate; if they fail, the installed release again. */
    method ProveOrAbandon(candidate: string) returns (r: Result<()>)
      requires Ready() && host.disk.journal == Some(Journal(state.current, candidate))
      requires host.disk.link == Some(candidate)
      modifies host
      ensures r.Raised? ==> !Telling(r.error)
      ensures host.Valid() && host.Advanced()
      ensures host.disk.installed == state && host.disk.store == old(host.disk).store
      ensures r.Returned? ==>
        && Settled(host.disk) && Live(host.env, host.disk, candidate)
        && host.disk == old(host.disk).(running := host.disk.running, proven := Some(candidate))
      ensures old(host.Calm()) ==>
        && (Usable(host.env, host.disk.store, candidate, old(host.clock)) ==> r.Returned?)
        && (r.Returned? ==> Usable(host.env, host.disk.store, candidate, host.clock))
        && (Intact(host.env, host.disk.store, candidate, old(host.clock)) && !r.Returned?
            && Provable(host.env, old(host.disk), state.current, old(host.clock)) ==>
              r == Raised(ProofFailed) && host.disk.journal == None && host.disk.link == Some(state.current))
    {
      hide Legal, Replay, WritesOf, Guard, Apply, WellFormed, Verified, SelfProves, PolicyOk;
      var proof := Restart();
      if proof.Returned? {
        proof := Probe(candidate);
      }
      if proof.Died? {
        return Died;
      }
      if proof.Raised? {
        var _ :- Abandon();
      }
      return proof;
    }

    /** The journal of a rollback, and the link to its target. */
    method OpenRollback(previous: string) returns (r: Result<()>)
      requires Ready() && host.disk.journal.None? && host.disk.link == Some(state.current)
      requires state.previous == Some(previous) && previous !in state.revoked
      modifies host
      ensures host.Valid() && host.Advanced()
      ensures r.Raised? ==> !Telling(r.error)
      ensures host.disk.installed == state && host.disk.store == old(host.disk).store
      ensures r.Returned? ==>
        host.disk == old(host.disk).(journal := Some(Journal(state.current, previous)), link := Some(previous),
                                     proven := None, running := host.disk.running)
      ensures old(host.Calm()) ==>
        && host.disk.temps == old(host.disk).temps
        && (JournalNew !in old(host.disk).temps && Linkable(host.env, old(host.disk), previous, old(host.clock)) ==>
              r.Returned?)
        && (r.Returned? ==>
              JournalNew !in old(host.disk).temps && Linkable(host.env, old(host.disk), previous, host.clock))
      ensures KilledAt(old(host.script), 2) && JournalNew !in old(host.disk).temps
        && Linkable(host.env, old(host.disk), previous, old(host.script)[1].clock)
        ==> r.Died? && Jammed(host.disk)
    {
      hide Legal, Replay, WritesOf, Guard, Apply, WellFormed, Verified, PolicyOk;
      var journal := Journal(state.current, previous);
      OperatorBeganStep(host.env, host.disk, journal);
      var _ :- host.Atomic(JournalNew, host.disk.(journal := Some(journal)), Began(journal, true));
      r := Link(previous);
    }

    /** Swaps the installed release and the previous one. */
    method Exchange(previous: string) returns (r: Result<()>)
      requires Ready() && host.disk.journal.None? && host.disk.link == Some(state.current)
      requires state.previous == Some(previous) && previous !in state.revoked
      modifies this, host
      ensures r.Returned? ==> Ready()
      ensures r.Returned? ==> Trail(host.disk) == Trail(old(host.disk)) + [(Reversed, previous)]
      ensures host.Valid() && host.AdvancedBy(RolledBack)
      ensures r.Raised? ==> !Telling(r.error)
      ensures host.disk.store == old(host.disk).store
      ensures r.Returned? ==>
        && host.disk.installed == Exchanged(old(host.disk).installed)
        && host.disk.journal == None && host.disk.link == Some(previous) && Settled(host.disk)
        && host.disk.temps == old(host.disk).temps
      ensures host.disk.installed in {old(host.disk).installed, Exchanged(old(host.disk).installed)}
      ensures old(host.Calm()) ==>
        && (Exchangeable(host.env, old(host.disk), previous, old(host.clock)) ==> r.Returned?)
        && (r.Returned? ==> Exchangeable(host.env, old(host.disk), previous, host.clock))
      ensures KilledAt(old(host.script), 2) && JournalNew !in old(host.disk).temps
        && Linkable(host.env, old(host.disk), previous, old(host.script)[1].clock)
        ==> r.Died? && Jammed(host.disk) && host.disk.installed == old(host.disk).installed
      // an error of the proof leaves the state alone, and on a calm host everything else as well
      ensures r.Raised? && !FromHost(r.error) ==> host.disk.installed == old(host.disk).installed
      ensures old(host.Calm()) && Unproved(old(host.disk), previous, old(host.clock)) ==>
        r == Raised(ProofFailed) && host.disk.journal == None && host.disk.link == old(host.disk).link
    {
      hide Legal, Replay, WritesOf, Guard, Apply, WellFormed, Verified, SelfProves, PolicyOk;
      var current := state.current;
      var _ :- OpenRollback(previous);
      var _ :- ProveOrAbandon(previous);
      RolledBackStep(host.env, host.disk);
      state := state.(current := previous, previous := Some(current));
      var _ :- RecordAndAudit(RolledBack, Reversed, previous);
      r := Unlink();
    }

    /** A rollback of this disk gets as far as moving the link. */
    predicate CutShort(d: Disk, clock: int)
      reads this
    {
      && d.journal == None && d.link == Some(d.installed.current) && CanExchange(d.installed)
      && JournalNew !in d.temps && Linkable(host.env, d, d.installed.previous.value, clock)
    }

    /** The operator's rollback to the previous release. */
    method Rollback() returns (r: Result<()>)
      requires Ready()
      modifies this, host
      ensures r.Returned? ==> Ready()
      ensures r.Returned? ==>
        Trail(host.disk) == Trail(old(host.disk)) + RecoveryTrail(old(host.disk))
                            + [(Reversed, host.disk.installed.current)]
      ensures host.Valid() && host.AdvancedBy(RolledBack)
      ensures Aligned(old(host.disk)) && r.Raised? ==> !Telling(r.error)
      ensures r.Returned? ==>
        && CanExchange(old(host.disk).installed)
        && host.disk.installed == Exchanged(old(host.disk).installed)
        && host.disk.journal == None && host.disk.link == Some(host.disk.installed.current)
        && Settled(host.disk)
        && host.disk.store == old(host.disk).store && host.disk.temps == old(host.disk).temps
      ensures host.disk.installed != old(host.disk).installed ==>
        && CanExchange(old(host.disk).installed)
        && host.disk.installed == Exchanged(old(host.disk).installed)
      ensures old(host.Calm()) && Aligned(old(host.disk)) ==>
        && (Reversible(host.env, old(host.disk), old(host.clock)) ==> r.Returned?)
        && (r.Returned? ==> Reversible(host.env, old(host.disk), host.clock))
      ensures KilledAt(old(host.script), 2) && CutShort(old(host.disk), old(host.script)[1].clock) ==>
        r.Died? && Jammed(host.disk) && host.disk.installed == old(host.disk).installed
      ensures Stuck(old(host.disk)) && Aligned(old(host.disk)) ==>
        r == Raised(RecoveryRevoked) && host.disk == old(host.disk)
      ensures Blocked(old(host.disk)) && Aligned(old(host.disk)) ==>
        !r.Returned? && Drifted(old(host.disk), host.disk)
    {
      hide Legal, Replay, WritesOf, Guard, Apply, WellFormed, Verified, PolicyOk;
      var _ :- Recover();
      if state.previous.None? || state.previous.value in state.revoked {
        return Raised(NoRollbackRelease);
      }
      r := Exchange(state.previous.value);
    }
  }
}
