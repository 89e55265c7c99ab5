/** Small managed hosts, freshly installed, that the manager itself drives into the states of the findings.
    Nothing fails in these runs but for the one kill of KilledInLink. */
module Scenarios {
  import opened Basics
  import opened Metadata
  import opened Protocol
  import opened Runs
  import opened Hosts
  import opened Reload
  import opened Manager
  import opened Findings
  import opened Lifetime
  import I = Install

  /** Two releases, the digest of their one executable, and the releases that each manifest revokes. */
  datatype Names = Names(
    before: Sha, after: Sha, tool: Sha, commit: string, first: seq<string>, second: seq<string>)

  ghost predicate Apart(n: Names)
  {
    && n.before != n.after && n.before != n.tool && n.after != n.tool && IsHex(n.commit, 40)
    && |n.first| <= 1000 && |n.second| <= 1000
    && (forall x | x in n.first :: IsHex(x, 64)) && (forall x | x in n.second :: IsHex(x, 64))
    && n.before !in n.first && n.before !in n.second && n.after !in n.second
  }

  function Described(n: Names, sequence: int, revoked: seq<string>): Manifest
  {
    Manifest(1, sequence, RELEASE, n.commit, n.before, 1, ["system.status"], 1, 7 * DAY, revoked,
             map["linux-amd64" := Tools(n)])
  }

  function Tools(n: Names): map<string, Artefact>
  {
    map["keybroker" := Artefact(n.tool, 1), "keybroker-mcp" := Artefact(n.tool, 1)]
  }

  function Digest(n: Names, b: Bytes): Sha { if b == [] then n.before else if b == [0] then n.after else n.tool }

  function Parse(n: Names, b: Bytes): Option<Manifest>
  {
    if b == [] then Some(Described(n, 1, n.first))
    else if b == [0] then Some(Described(n, 2, n.second))
    else None
  }

  function CodeOf(c: Command): int
  {
    match c
    case RevealCredential => 3
    case ListZones => 3
    case ExecuteSsh => 3
    case _ => 0
  }

  /** Envelopes are bare payloads, and every service gives every right answer. */
  function Small(n: Names): Env
  {
    Env(Trust(b => Digest(n, b), b => Parse(n, b), b => Some(Envelope(Some(b), "")), (key, b, signature) => false),
        "linux-amd64",
        (client, server, c) => Answer(CodeOf(c), ["system.status"], true, "ok", RELEASE, n.before))
  }

  /** Both manifests are approved by hash. */
  function Allowing(n: Names): Policy
  {
    Policy(1, 1000, "operator", "linux-amd64", {n.before, n.after}, "", n.tool, DAY, true)
  }

  /** The channel offers this manifest; any other download is the executable. */
  function Offering(raw: Bytes): (string, int) -> Fetch
  {
    (url, limit) => if limit == MAX_META then Got(raw) else Got([7])
  }

  function Stored(raw: Bytes): Directory
  {
    Directory(Some(raw), map["keybroker" := File([7], false), "keybroker-mcp" := File([7], false)])
  }

  /** A host as an installation at this clock leaves it. */
  function FreshlyInstalled(n: Names, clock: int): Disk
  {
    Disk(I.FirstState(n.before, Described(n, 1, n.first), clock), None, Some(n.before), Some(n.before), Some(n.before),
         map[n.before := Stored([])], {}, [])
  }

  function SetOf(xs: seq<string>): set<string> { set x | x in xs }

  lemma DescribedWell(n: Names, sequence: int, revoked: seq<string>)
    requires Apart(n) && 1 <= sequence <= 2
    requires |revoked| <= 1000 && forall x | x in revoked :: IsHex(x, 64)
    ensures WellFormed(Described(n, sequence, revoked), "linux-amd64")
  {
    hide IsTag;
    ReleaseTagReads();
    var m := Described(n, sequence, revoked);
    assert m.artefacts.Keys == {"linux-amd64"};
    assert m.artefacts["linux-amd64"].Keys == ROLES;
  }

  lemma BothReadable(n: Names)
    requires Apart(n)
    ensures Readable(Small(n), []) && ManifestOf(Small(n), []) == Described(n, 1, n.first)
    ensures Readable(Small(n), [0]) && ManifestOf(Small(n), [0]) == Described(n, 2, n.second)
    ensures Artefacts(Small(n), []) == Artefacts(Small(n), [0]) == Tools(n)
    ensures PolicyOk(Allowing(n)) && Small(n).platform == Allowing(n).platform
  {
    hide WellFormed, IsTag;
    DescribedWell(n, 1, n.first);
    DescribedWell(n, 2, n.second);
  }

  lemma BothRead(n: Names)
    requires Apart(n)
    ensures ReadManifest(Small(n), [], 1500) == Returned(Described(n, 1, n.first))
    ensures ReadManifest(Small(n), [0], 1500) == Returned(Described(n, 2, n.second))
  {
    hide WellFormed, IsTag, ReadManifest;
    DescribedWell(n, 1, n.first);
    DescribedWell(n, 2, n.second);
  }

  lemma FreshHostIsSound(n: Names, clock: int)
    requires Apart(n) && 1 <= clock <= MAX_INT
    ensures Consistent(Small(n), FreshlyInstalled(n, clock)) && Sound(FreshlyInstalled(n, clock).installed)
    ensures Usable(Small(n), FreshlyInstalled(n, clock).store, n.before, clock)
  {
    hide WellFormed, IsTag, PolicyOk;
    BothReadable(n);
    assert Named(FreshlyInstalled(n, clock)) == {n.before};
  }

  // What the manager answers

  lemma Announces(m: Manager, n: Names, raw: Bytes)
    requires Apart(n) && m.host.env == Small(n) && m.policy == Allowing(n) && m.fetch == Offering(raw)
    requires raw == [] || raw == [0]
    ensures m.fetch(CHANNEL, MAX_META) == Got(raw) && m.Announced() == Returned(raw)
  {
  }

  lemma RenewalIsDue(m: Manager, n: Names, d: Disk, r: Result<Verdict>)
    requires Apart(n) && m.host.env == Small(n) && m.policy == Allowing(n) && m.fetch == Offering([])
    requires d.installed == FreshlyInstalled(n, 1500).installed && d.temps == {}
    requires m.Due(r, d, 1500)
    ensures r == Returned(Current(1500))
  {
    hide ReadManifest, Readable, Artefacts, PolicyOk, RELEASE;
    BothReadable(n);
    BothRead(n);
    Announces(m, n, []);
  }

  /** The renewed host. */
  function Renewed(n: Names): Installed { FreshlyInstalled(n, 1500).installed.(revoked := SetOf(n.first)) }

  lemma NothingInTheWay(m: Manager, n: Names, d: Disk)
    requires Apart(n) && m.host.env == Small(n) && m.fetch == Offering([0])
    requires d.installed == Renewed(n) && d.store == FreshlyInstalled(n, 1500).store && d.temps == {}
    ensures Readable(Small(n), [0]) && m.CanSwitch(d, [0], 1500) && m.Promising(d, [0])
  {
    hide Readable, Artefacts, RELEASE;
    BothReadable(n);
  }

  lemma UpgradeIsDue(m: Manager, n: Names, d: Disk, r: Result<Verdict>)
    requires Apart(n) && m.host.env == Small(n) && m.policy == Allowing(n) && m.fetch == Offering([0])
    requires d.installed == Renewed(n) && d.store == FreshlyInstalled(n, 1500).store && d.temps == {}
    requires m.Due(r, d, 1500)
    ensures r == Returned(Upgrade(1500))
  {
    hide ReadManifest, Readable, Artefacts, PolicyOk, RELEASE, Manager.CanSwitch, Manager.Promising, Manager.Due,
         Manager.Announced, Offering, Stored, IsHex, Usable;
    BothReadable(n);
    BothRead(n);
    Announces(m, n, [0]);
    m.DueOnAnnouncement(d, [0], 1500);
    NothingInTheWay(m, n, d);
  }

  // What the answers leave

  /** The state after both manifests were accepted and the second release installed. */
  function BothAccepted(n: Names): Installed
  {
    Installed(1, n.after, Some(n.before), 2, n.after, 1500, 7 * DAY, SetOf(n.first) + SetOf(n.second), {})
  }

  lemma RenewalLeaves(m: Manager, n: Names, was: Installed, d': Disk)
    requires Apart(n) && m.host.env == Small(n) && m.policy == Allowing(n) && m.fetch == Offering([])
    requires was == FreshlyInstalled(n, 1500).installed
    requires m.Concluded(Returned(Current(1500)), was, d')
    ensures d'.installed == Renewed(n)
  {
    hide Readable, Artefacts, PolicyOk, RELEASE;
    BothReadable(n);
    Announces(m, n, []);
    assert {} + RevokedBy(Described(n, 1, n.first)) == SetOf(n.first);
  }

  lemma UpgradeLeaves(m: Manager, n: Names, d: Disk, d': Disk)
    requires Apart(n) && m.host.env == Small(n) && m.policy == Allowing(n) && m.fetch == Offering([0])
    requires d.store == FreshlyInstalled(n, 1500).store
    requires d.installed == Renewed(n)
    requires m.Concluded(Returned(Upgrade(1500)), d.installed, d') && m.Kept(Returned(Upgrade(1500)), d, d')
    ensures d'.installed == BothAccepted(n) && d'.temps == d.temps
    ensures Usable(Small(n), d'.store, n.before, 1500) && Intact(Small(n), d'.store, n.after, 1500)
  {
    hide Readable, Artefacts, PolicyOk, RELEASE;
    BothReadable(n);
    Announces(m, n, [0]);
    FreshHostIsSound(n, 1500);
    assert d'.store[n.before] == d.store[n.before];
  }

  lemma {:induction false} SetNoLarger(xs: seq<string>)
    ensures |SetOf(xs)| <= |xs|
  {
    if xs == [] {
      assert SetOf(xs) == {};
    } else {
      SetNoLarger(xs[1..]);
      assert SetOf(xs) == SetOf(xs[1..]) + {xs[0]};
    }
  }

  lemma StatesAreSound(n: Names)
    requires Apart(n)
    ensures Sound(Renewed(n)) && Sound(BothAccepted(n))
  {
  }

  /** With lists this short, each state on the way can be read by the next start. */
  lemma StillRestarts(n: Names)
    requires Apart(n) && |n.first| <= 972
    ensures Restarts(FreshlyInstalled(n, 1500).installed) && Restarts(Renewed(n))
    ensures |n.first| + |n.second| <= 972 ==> Restarts(BothAccepted(n))
  {
    hide Sound, Restarts;
    FreshHostIsSound(n, 1500);
    StatesAreSound(n);
    SetNoLarger(n.first);
    SetNoLarger(n.second);
    ReloadLimit(FreshlyInstalled(n, 1500).installed);
    ReloadLimit(Renewed(n));
    ReloadLimit(BothAccepted(n));
  }

  lemma HistoryAt(env: Env, start: Disk, es: seq<Event>, longer: seq<Event>)
    requires Legal(env, start, longer) && es <= longer
    ensures Legal(env, start, es) && At(env, start, longer, |es|) == Replay(env, start, es)
  {
    assert longer[..|es|] == es;
    LegalPrefix(env, start, longer, |es|);
  }

  /** A fresh host renews its release and then upgrades, both by the manager's own checks. */
  method RenewAndUpgrade(n: Names) returns (host: Host, ghost renewed: nat)
    requires Apart(n) && |n.first| <= 972
    ensures fresh(host) && host.Valid() && host.env == Small(n) && host.start == FreshlyInstalled(n, 1500)
    ensures host.script == [] && host.clock == 1500
    ensures host.disk.installed == BothAccepted(n) && host.disk.journal == None && host.disk.temps == {}
    ensures host.disk.link == Some(n.after) && Settled(host.disk)
    ensures Usable(Small(n), host.disk.store, n.before, 1500) && Intact(Small(n), host.disk.store, n.after, 1500)
    ensures renewed <= |host.history|
    ensures At(host.env, host.start, host.history, renewed).installed
      == Renewed(n)
  {
    hide Legal, Replay, Guard, Apply, Verified, WellFormed, Readable, PolicyOk, Digest, Parse, Stored, Restarts,
         Manager.Due, Manager.Concluded, Manager.Landed;
    BothReadable(n);
    FreshHostIsSound(n, 1500);
    StillRestarts(n);
    host := new Host(Small(n), [9], FreshlyInstalled(n, 1500), [], 1500);
    var opening := Manager.Open(host, Allowing(n), Offering([]));
    var first := opening.value;
    ghost var found := host.disk;
    var answer := first.Check();
    RenewalIsDue(first, n, found, answer);
    RenewalLeaves(first, n, found.installed, host.disk);
    ghost var history := host.history;
    renewed := |history|;
    opening := Manager.Open(host, Allowing(n), Offering([0]));
    var second := opening.value;
    found := host.disk;
    answer := second.Check();
    UpgradeIsDue(second, n, found, answer);
    UpgradeLeaves(second, n, found, host.disk);
    HistoryAt(host.env, host.start, history, host.history);
  }

  // The scenarios

  function Repeated(c: char): Sha
    requires IsHexDigit(c)
  {
    seq(64, _ => c)
  }

  function Naming(first: seq<string>, second: seq<string>): Names
  {
    Names(Repeated('0'), Repeated('1'), Repeated('2'), seq(40, _ => 'a'), first, second)
  }

  lemma NamingApart(first: seq<string>, second: seq<string>)
    requires |first| <= 1000 && |second| <= 1000
    requires forall x | x in first :: IsHex(x, 64) && x[0] != '0'
    requires forall x | x in second :: IsHex(x, 64) && x[0] != '0' && x[0] != '1'
    ensures Apart(Naming(first, second))
  {
    assert Repeated('0')[0] == '0' && Repeated('1')[0] == '1' && Repeated('2')[0] == '2';
  }

  /** The upgraded host when its new release is revoked: the next check refuses it, and a rollback returns
      to the old one. */
  method RefuseAndGoBack(host: Host, n: Names) returns (answer: Result<Verdict>)
    requires Apart(n) && n.after in n.first && |n.first| + |n.second| <= 972
    requires host.Valid() && host.env == Small(n) && host.script == [] && host.clock == 1500
    requires host.disk.installed == BothAccepted(n) && host.disk.journal == None && host.disk.temps == {}
    requires host.disk.link == Some(n.after) && Settled(host.disk)
    requires Usable(Small(n), host.disk.store, n.before, 1500) && Intact(Small(n), host.disk.store, n.after, 1500)
    modifies host
    ensures host.Valid() && old(host.history) <= host.history
    ensures answer == Raised(InstalledRevoked)
    ensures host.disk.installed.current == n.before && host.disk.journal == None
  {
    hide Legal, Replay, Guard, Apply, Usable, Intact, WellFormed, Readable, PolicyOk, Digest, Parse, Small, Restarts;
    BothReadable(n);
    StillRestarts(n);
    var opening := Manager.Open(host, Allowing(n), Offering([0]));
    var refusing := opening.value;
    answer := refusing.Check();
    opening := Manager.Open(host, Allowing(n), Offering([0]));
    var operator := opening.value;
    var _ := operator.Rollback();
  }

  /** The installed manifest revokes a release that the channel offers next. The upgrade goes through, the
      next check refuses the release, and the operator's rollback goes back. Both transactions pass a
      point where stopping leaves the host stuck. */
  method OfferedAgain()
    returns (n: Names, host: Host, ghost cut: nat, ghost upgraded: nat, ghost undone: nat)
    ensures Apart(n) && host.Valid() && host.env == Small(n) && host.start == FreshlyInstalled(n, 1500)
    ensures host.start.installed.revoked == {} && Consistent(host.env, host.start)
    ensures cut < upgraded <= undone < |host.history|
    ensures host.history[cut].Upgraded? && Stuck(At(host.env, host.start, host.history, cut + 1))
    ensures var d := At(host.env, host.start, host.history, upgraded);
      d.journal == None && d.link == Some(d.installed.current) && d.installed.current in d.installed.revoked
    ensures host.history[undone].RolledBack? && Stuck(At(host.env, host.start, host.history, undone))
    ensures host.disk.installed.current == host.start.installed.current && host.disk.journal == None
  {
    hide Legal, Replay, At, Guard, Apply, Usable, Intact, Consistent, WellFormed, Readable, Digest, Parse, Small;
    n := Naming([Repeated('1')], []);
    assert Repeated('1')[0] == '1';
    NamingApart([Repeated('1')], []);
    assert n.after in n.first;
    FreshHostIsSound(n, 1500);
    ghost var renewed;
    host, renewed := RenewAndUpgrade(n);
    ghost var history := host.history;
    upgraded := |history|;
    HistoryAt(host.env, host.start, history, history);
    cut := LandingRevokedPassesStuck(host.env, host.start, history, renewed, upgraded);
    var _ := RefuseAndGoBack(host, n);
    HistoryAt(host.env, host.start, history, host.history);
    HistoryAt(host.env, host.start, history[..cut + 1], history);
    HistoryAt(host.env, host.start, history[..cut + 1], host.history);
    HistoryAt(host.env, host.start, host.history, host.history);
    undone := LeavingRevokedPassesStuck(host.env, host.start, host.history, upgraded, |host.history|);
  }

  // A leftover link

  /** A host on which nothing is revoked and every release proves itself. The process is killed in the
      middle of an operator's rollback, part-way through the link move, and the transaction is blocked
      for good, whatever is invoked and whatever happens then. */
  method KilledInLink(n: Names, later: seq<Moment>, jobs: seq<Job>) returns (host: Host, ghost killed: Disk)
    requires Apart(n) && n.first == n.second == []
    requires forall i | 0 <= i < |jobs| :: jobs[i].policy.platform == "linux-amd64"
    ensures host.Valid() && host.env == Small(n) && host.start == FreshlyInstalled(n, 1500)
    ensures Jammed(killed) && !Stuck(killed) && Restarts(killed.installed) && killed.installed.revoked == {}
    ensures host.disk == killed.(running := host.disk.running)
  {
    hide Legal, Replay, Guard, Apply, Usable, WellFormed, Readable, PolicyOk, Digest, Parse, Restarts;
    BothReadable(n);
    FreshHostIsSound(n, 1500);
    ghost var renewed;
    host, renewed := RenewAndUpgrade(n);
    UsableIsIntact(Small(n), host.disk.store, n.before, 1500);
    var smooth := Moment(Smooth, Undisturbed, 1500);
    host.script := [smooth, smooth, Moment(Breaks(Partway, true), Undisturbed, 1500)] + later;
    StillRestarts(n);
    var opening := Manager.Open(host, Allowing(n), Offering([0]));
    var operator := opening.value;
    var _ := operator.Rollback();
    killed := host.disk;
    StayUnending(host, jobs);
  }

  lemma UsableIsIntact(env: Env, store: map<string, Directory>, sha: string, clock: int)
    requires Usable(env, store, sha, clock)
    ensures Intact(env, store, sha, clock)
  {
  }

  // Too many revocations to start again

  function HexDigit(k: nat): char
    requires k < 16
  {
    "0123456789abcdef"[k]
  }

  /** Different hashes that begin with f. */
  function Numbered(k: nat): Sha
    requires k < 4096
  {
    ['f', HexDigit(k / 256), HexDigit(k / 16 % 16), HexDigit(k % 16)] + seq(60, _ => '0')
  }

  lemma NumberedAt(k: nat)
    requires k < 4096
    ensures Numbered(k)[0] == 'f' && Numbered(k)[1] == HexDigit(k / 256)
    ensures IsHex(Numbered(k), 64)
    ensures Numbered(k)[2] == HexDigit(k / 16 % 16) && Numbered(k)[3] == HexDigit(k % 16)
  {
  }

  lemma NumbersDiffer(j: nat, k: nat)
    requires j < 4096 && k < 4096 && Numbered(j) == Numbered(k)
    ensures j == k
  {
    hide Numbered, HexDigit;
    NumberedAt(j);
    NumberedAt(k);
    DigitsDiffer(j / 256, k / 256);
    DigitsDiffer(j / 16 % 16, k / 16 % 16);
    DigitsDiffer(j % 16, k % 16);
    assert j / 16 == k / 16 by {
      assert j / 16 / 16 == j / 256 && k / 16 / 16 == k / 256;
    }
  }

  lemma DigitsDiffer(j: nat, k: nat)
    requires j < 16 && k < 16
    ensures HexDigit(j) == HexDigit(k) ==> j == k
  {
  }

  /** Five hundred of them. */
  function HalfFrom(start: nat): seq<string>
    requires start + 500 <= 4096
  {
    seq(500, i requires 0 <= i < 500 => Numbered(start + i))
  }

  lemma BothAcceptedIsSound(n: Names)
    requires Apart(n)
    ensures Sound(BothAccepted(n))
  {
  }

  /** Two accepted manifests of 500 revocations each, and the manager does not start again, under any
      policy. */
  method RevokedTooMany(policy: Policy, fetch: (string, int) -> Fetch)
    returns (n: Names, host: Host, again: Result<Manager>, ghost one: nat, ghost two: nat, ghost cut: nat)
    requires policy.platform == "linux-amd64"
    ensures Apart(n) && host.Valid() && host.env == Small(n) && host.start == FreshlyInstalled(n, 1500)
    ensures host.start.installed.revoked == {} && Consistent(host.env, host.start)
    ensures one < two < |host.history| && host.history[one].Accepted? && host.history[two].Accepted?
    ensures host.history[one].raw == [] && host.history[two].raw == [0]
    ensures |n.first| == |RevokedBy(ManifestOf(host.env, host.history[one].raw))| == 500
    ensures |n.second| == |RevokedBy(ManifestOf(host.env, host.history[two].raw))| == 500
    ensures Sound(host.disk.installed) && host.disk.journal == None && |host.disk.installed.revoked| == 1000
    ensures !Restarts(host.disk.installed) && again.Raised?
    // cut inside the upgrade, the run leaves a transaction that recovery would end and no start can
    ensures two < cut < |host.history|
    ensures var d := At(host.env, host.start, host.history, cut);
      Unending(d) && !Blocked(d) && d.installed.current == n.before
  {
    hide Legal, Replay, At, Guard, Apply, Usable, Intact, Consistent, Readable, PolicyOk, Digest, Parse, Numbered,
         Sound, Restarts, HalfFrom, Small, Decode;
    n := Naming(HalfFrom(0), HalfFrom(500));
    HalfBeginsWithF(0);
    HalfBeginsWithF(500);
    NamingApart(n.first, n.second);
    BothReadable(n);
    FreshHostIsSound(n, 1500);
    BothAcceptedIsSound(n);
    ThousandRevoked(n);
    ghost var renewed;
    host, renewed := RenewAndUpgrade(n);
    one := FirstWasAccepted(n, host.start, host.history, renewed);
    two, cut := CutInUpgrade(n, host.start, host.history, renewed, host.disk);
    ReloadLimit(host.disk.installed);
    again := Manager.Open(host, policy, fetch);
  }

  /** In the run of the two halves, the first stems from the first manifest. */
  lemma FirstWasAccepted(n: Names, start: Disk, es: seq<Event>, renewed: nat) returns (one: nat)
    requires Apart(n) && n.first == HalfFrom(0) && n.second == HalfFrom(500)
    requires start == FreshlyInstalled(n, 1500) && Legal(Small(n), start, es) && renewed <= |es|
    requires At(Small(n), start, es, renewed).installed.revoked == SetOf(n.first)
    ensures one < renewed && es[one].Accepted? && es[one].raw == []
  {
    hide Legal, Replay, At, Guard, Apply, Readable, Numbered, Small, Decode;
    BothReadable(n);
    AtStart(Small(n), start, es);
    HalvesApart(n);
    assert n.first[0] in SetOf(n.first);
    one := RevocationsWereAccepted(Small(n), start, es, 0, renewed, n.first[0]);
    OneOfBoth(n, es[one].raw);
  }

  /** The second stems from the second manifest. Just before the upgrade commits there is an open
      transaction, nothing that recovery refuses, and a state that no start reads. */
  lemma CutInUpgrade(n: Names, start: Disk, es: seq<Event>, renewed: nat, d: Disk) returns (two: nat, cut: nat)
    requires Apart(n) && n.first == HalfFrom(0) && n.second == HalfFrom(500)
    requires start == FreshlyInstalled(n, 1500) && Legal(Small(n), start, es) && renewed <= |es|
    requires At(Small(n), start, es, renewed).installed == Renewed(n)
    requires d == Replay(Small(n), start, es) && d.installed == BothAccepted(n) && d.temps == {}
    ensures renewed <= two < cut < |es| && es[two].Accepted? && es[two].raw == [0]
    ensures var c := At(Small(n), start, es, cut); Unending(c) && !Blocked(c) && c.installed.current == n.before
  {
    hide Legal, Replay, At, Guard, Apply, Readable, Numbered, HalfFrom, Small, Decode, Restarts, Consistent;
    BothReadable(n);
    FreshHostIsSound(n, 1500);
    HistoryAt(Small(n), start, es, es);
    cut := FirstCommit(Small(n), start, es, renewed, |es|);
    Step(Small(n), start, es, cut);
    EveryReachableDiskIsConsistent(Small(n), start, es, cut);
    var c := At(Small(n), start, es, cut);
    CommitsSecond(n, c, es[cut]);
    LedgerOnlyAdvances(Small(n), start, es, renewed, cut);
    LedgerOnlyAdvances(Small(n), start, es, cut, |es|);
    LeftoversStay(Small(n), start, es, cut, |es|, CurrentNew);
    assert c.installed.revoked == SetOf(n.first) + SetOf(n.second);
    ThousandRevoked(n);
    Outgrown(c);
    HalvesNotEmpty(n);
    HalvesApart(n);
    two := RevocationsWereAccepted(Small(n), start, es, renewed, cut, n.second[0]);
    OneOfBoth(n, es[two].raw);
  }

  /** The first commit away from the first release can only be the upgrade to the second. */
  lemma CommitsSecond(n: Names, c: Disk, e: Event)
    requires Apart(n) && Consistent(Small(n), c) && Guard(Small(n), c, e) && Commits(e)
    requires c.installed.current == n.before && c.installed.previous == None
    ensures c.journal.Some? && c.installed.metadata == n.after && SetOf(n.second) <= c.installed.revoked
  {
    hide WellFormed, Verified, Live, IsTag;
    BothReadable(n);
    OneOfBoth(n, e.raw);
  }

  lemma Outgrown(c: Disk)
    requires |c.installed.revoked| == 1000 && IsHex(c.installed.metadata, 64)
    ensures !Restarts(c.installed)
  {
    hide TextSize;
    if Sound(c.installed) {
      ReloadLimit(c.installed);
    }
  }

  lemma HalvesNotEmpty(n: Names)
    requires n.first == HalfFrom(0) && n.second == HalfFrom(500)
    ensures |n.first| == |n.second| == 500 && n.first[0] in SetOf(n.first) && n.second[0] in SetOf(n.second)
  {
    hide Numbered;
    HalfBeginsWithF(0);
    HalfBeginsWithF(500);
  }

  lemma OneOfBoth(n: Names, raw: Bytes)
    requires Readable(Small(n), raw)
    ensures raw == [] || raw == [0]
  {
  }

  lemma HalvesApart(n: Names)
    requires n.first == HalfFrom(0) && n.second == HalfFrom(500)
    ensures n.first[0] !in n.second && n.second[0] !in n.first
  {
    hide Numbered;
    forall i | 0 <= i < 500 ensures n.second[i] != n.first[0] && n.first[i] != n.second[0] {
      if n.second[i] == n.first[0] {
        NumbersDiffer(500 + i, 0);
      }
      if n.first[i] == n.second[0] {
        NumbersDiffer(i, 500);
      }
    }
  }

  lemma AllDiffer(all: seq<string>)
    requires all == HalfFrom(0) + HalfFrom(500)
    ensures forall i, j | 0 <= i < j < |all| :: all[i] != all[j]
  {
    hide Numbered;
    forall i, j | 0 <= i < j < |all| ensures all[i] != all[j] {
      assert all[i] == Numbered(i) && all[j] == Numbered(j);
      if all[i] == all[j] {
        NumbersDiffer(i, j);
      }
    }
  }

  lemma SizeOf(xs: seq<string>)
    requires forall i, j | 0 <= i < j < |xs| :: xs[i] != xs[j]
    ensures |SetOf(xs)| == |xs|
  {
    ListedLength(xs, SetOf(xs));
  }

  lemma SetsOfParts(xs: seq<string>, ys: seq<string>)
    ensures SetOf(xs + ys) == SetOf(xs) + SetOf(ys)
  {
  }

  lemma ThousandRevoked(n: Names)
    requires n.first == HalfFrom(0) && n.second == HalfFrom(500)
    ensures |SetOf(n.first) + SetOf(n.second)| == 1000
    ensures |SetOf(n.first)| == |SetOf(n.second)| == 500
  {
    hide HalfFrom, SetOf;
    var all := n.first + n.second;
    AllDiffer(all);
    HalfBeginsWithF(0);
    HalfBeginsWithF(500);
    assert n.first == all[..500] && n.second == all[500..];
    SetsOfParts(n.first, n.second);
    SizeOf(all);
    SizeOf(all[..500]);
    SizeOf(all[500..]);
  }

  /** The compact sorted-key text of a described manifest. */
  function ManifestText(n: Names, sequence: nat, revoked: seq<string>): string
  {
    "{\"artefacts\":{\"linux-amd64\":{\"keybroker\":" + ArtefactText(n) + ",\"keybroker-mcp\":" + ArtefactText(n)
    + "}},\"capabilities\":[\"system.status\"],\"expires_at\":" + Number(7 * DAY)
    + ",\"issued_at\":" + Number(1) + ",\"release\":" + Quoted(RELEASE) + ",\"revoked\":" + List(revoked)
    + ",\"schema\":" + Number(1) + ",\"sequence\":" + Number(sequence)
    + ",\"source_commit\":" + Quoted(n.commit) + ",\"source_manifest_sha256\":" + Quoted(n.before)
    + ",\"state_schema\":" + Number(1) + "}\n"
  }

  function ArtefactText(n: Names): string
  {
    "{\"sha256\":" + Quoted(n.tool) + ",\"size\":" + Number(1) + "}"
  }

  /** The envelope around so many bytes: their base64 text and an empty signature. */
  function EnvelopeLength(bytes: nat): nat { |"{\"payload\":\"\",\"signature\":\"\"}\n"| + (bytes + 2) / 3 * 4 }

  /** Either manifest of RevokedTooMany is well inside the size limit, and so is the envelope around it. */
  lemma HalfFits(n: Names, sequence: nat, revoked: seq<string>)
    requires Apart(n) && 1 <= sequence <= 2 && |revoked| == 500 && forall x | x in revoked :: IsHex(x, 64)
    ensures |List(revoked)| == 33501 && |ManifestText(n, sequence, revoked)| <= 35000
    ensures EnvelopeLength(|ManifestText(n, sequence, revoked)|) <= 47000 < MAX_META
  {
    hide IsHex;
    HalfLength(n, revoked);
    NumberLength(7 * DAY);
    NumberLength(1);
    NumberLength(sequence);
  }

  lemma HalfLength(n: Names, revoked: seq<string>)
    requires Apart(n) && |revoked| == 500 && forall x | x in revoked :: IsHex(x, 64)
    ensures |List(revoked)| == 33501 && |n.commit| == 40 && |n.before| == |n.tool| == 64
  {
    ItemsLength(revoked);
  }

  lemma HalfBeginsWithF(start: nat)
    requires start + 500 <= 4096
    ensures |HalfFrom(start)| == 500
    ensures forall x | x in HalfFrom(start) :: IsHex(x, 64) && x[0] == 'f'
  {
    hide Numbered;
    forall x | x in HalfFrom(start) ensures IsHex(x, 64) && x[0] == 'f' {
      var i :| 0 <= i < 500 && x == HalfFrom(start)[i];
      var named: Sha := Numbered(start + i);
      assert x == named;
      NumberedAt(start + i);
    }
  }

  // A record at clock zero

  /** A host installed at clock 30 whose clock then stands at zero: the renewal is allowed, and the next
      start refuses the state that it records. */
  lemma RenewedAtClockZero() returns (env: Env, d: Disk, raw: Bytes)
    ensures Consistent(env, d) && Sound(d.installed) && Guard(env, d, Accepted(raw, 0))
    ensures !StateOk(Apply(env, d, Accepted(raw, 0)).installed)
  {
    hide WellFormed, Verified, Readable;
    var n := Naming([], []);
    NamingApart([], []);
    env, d, raw := Small(n), FreshlyInstalled(n, 30), [];
    BothReadable(n);
    FreshHostIsSound(n, 30);
  }

  /** The host of such an installation in the middle of an upgrade, everything but the committing record
      done. */
  function AboutToCommit(n: Names): Disk
  {
    FreshlyInstalled(n, 30).(
      installed := FreshlyInstalled(n, 30).installed.(sequence := 2, metadata := n.after),
      journal := Some(Journal(n.before, n.after)), link := Some(n.after), running := Some(n.after),
      proven := Some(n.after), store := map[n.before := Stored([]), n.after := Stored([0])])
  }

  /** With its clock at zero the upgrade commits all the same, and if it is cut there, no start reads the
      state that would have to end it. */
  lemma CommittedAtClockZero() returns (env: Env, d: Disk, raw: Bytes)
    ensures Consistent(env, d) && AllProve(env, d) && Restarts(d.installed) && !Unending(d)
    ensures Guard(env, d, Upgraded(raw, 0))
    ensures var cut := Apply(env, d, Upgraded(raw, 0)); Unending(cut) && !Blocked(cut)
  {
    hide WellFormed, Verified, SelfProves, Readable, Restarts, Guard, Apply;
    var n := Naming([], []);
    NamingApart([], []);
    env, d, raw := Small(n), AboutToCommit(n), [0];
    BothReadable(n);
    UpgradedStep(env, d, raw, 0);
    BothStoredWell(n);
    ReloadLimit(d.installed);
    NoZeroLease(Apply(env, d, Upgraded(raw, 0)).installed);
  }

  lemma BothStoredWell(n: Names)
    requires Apart(n)
    ensures var store := AboutToCommit(n).store;
      && Verified(Small(n), store, n.before) && SelfProves(Small(n), store, n.before)
      && Verified(Small(n), store, n.after) && SelfProves(Small(n), store, n.after)
  {
    hide WellFormed, IsTag;
    BothReadable(n);
  }

  lemma NoZeroLease(s: Installed)
    requires s.lastVerifiedAt < 1
    ensures !Restarts(s)
  {
  }
}
