/** The installed-state file: the text the manager writes, and what its next start will accept. */
module Reload {
  import opened Basics
  import opened Metadata
  import opened Protocol
  import opened Runs

  /** The field checks made at start-up, once the text has been decoded. */
  predicate StateOk(s: Installed)
  {
    && s.schema == 1
    && IsHex(s.current, 64) && (s.previous.Some? ==> IsHex(s.previous.value, 64))
    && InRange(s.sequence, 1, MAX_INT)
    && InRange(s.lastVerifiedAt, 1, MAX_INT) && InRange(s.expiresAt, 1, MAX_INT)
    && (forall x | x in s.revoked :: IsHex(x, 64)) && (forall x | x in s.failed :: IsHex(x, 64))
  }

  /** What a record keeps: the start-up checks, and the metadata hash that start-up does not look at
      but that a quarantine copies into a list it does. */
  predicate Sound(s: Installed)
  {
    StateOk(s) && IsHex(s.metadata, 64)
  }

  // The text

  function Digits(n: nat): string
  {
    var last := [('0' as int + n % 10) as char];
    if n < 10 then last else Digits(n / 10) + last
  }

  function Number(n: int): string { if n < 0 then "-" + Digits(-n) else Digits(n) }

  function Quoted(s: string): string { "\"" + s + "\"" }

  function Items(xs: seq<string>): string
  {
    if xs == [] then "" else if |xs| == 1 then Quoted(xs[0]) else Quoted(xs[0]) + "," + Items(xs[1..])
  }

  function List(xs: seq<string>): string { "[" + Items(xs) + "]" }

  /** The compact sorted-key text of the installed state. */
  function Text(s: Installed, revoked: seq<string>, failed: seq<string>): string
  {
    "{\"current\":" + Quoted(s.current)
    + ",\"expires_at\":" + Number(s.expiresAt)
    + ",\"failed\":" + List(failed)
    + ",\"last_verified_at\":" + Number(s.lastVerifiedAt)
    + ",\"metadata_sha256\":" + Quoted(s.metadata)
    + ",\"previous\":" + (if s.previous.Some? then Quoted(s.previous.value) else "null")
    + ",\"revoked\":" + List(revoked)
    + ",\"schema\":" + Number(s.schema)
    + ",\"sequence\":" + Number(s.sequence) + "}\n"
  }

  /** xs lists the set, each member once. */
  ghost predicate Lists(xs: seq<string>, members: set<string>)
  {
    (forall x :: x in xs <==> x in members) && forall i, j | 0 <= i < j < |xs| :: xs[i] != xs[j]
  }

  lemma {:induction false} ListedLength(xs: seq<string>, members: set<string>)
    requires Lists(xs, members)
    ensures |xs| == |members|
  {
    if xs == [] {
      assert members == {};
    } else {
      var rest := members - {xs[0]};
      assert forall x :: x in xs[1..] ==> x in xs;
      ListedLength(xs[1..], rest);
    }
  }

  lemma {:induction false} ItemsLength(xs: seq<string>)
    requires forall x | x in xs :: |x| == 64
    ensures |Items(xs)| == if xs == [] then 0 else 67 * |xs| - 1
  {
    if |xs| > 1 {
      assert xs[0] in xs;
      ItemsLength(xs[1..]);
    } else if |xs| == 1 {
      assert xs[0] in xs;
    }
  }

  lemma {:induction false} DigitsLength(n: nat, k: nat, bound: nat)
    requires n < bound && bound == Pow10(k) && k > 0
    ensures 1 <= |Digits(n)| <= k
  {
    if n >= 10 {
      DigitsLength(n / 10, k - 1, Pow10(k - 1));
    }
  }

  function Pow10(k: nat): nat { if k == 0 then 1 else 10 * Pow10(k - 1) }

  lemma NumberLength(n: int)
    requires InRange(n, 1, MAX_INT)
    ensures 1 <= |Number(n)| <= 16
  {
    assert Pow10(4) == 10000 && Pow10(8) == 100000000;
    assert Pow10(12) == 1000000000000 && Pow10(16) == 10000000000000000;
    DigitsLength(n, 16, Pow10(16));
  }

  /** The length of the text, from the fields and the number of entries alone. */
  function TextSize(s: Installed): int
  {
    198 + |s.metadata| + |Number(s.sequence)| + |Number(s.lastVerifiedAt)| + |Number(s.expiresAt)|
    + (if s.previous.Some? then 62 else 0)
    + 67 * (|s.revoked| + |s.failed|)
    - (if s.revoked == {} then 0 else 1) - (if s.failed == {} then 0 else 1)
  }

  lemma TextLength(s: Installed, revoked: seq<string>, failed: seq<string>)
    requires StateOk(s)
    requires Lists(revoked, s.revoked) && Lists(failed, s.failed)
    ensures |Text(s, revoked, failed)| == TextSize(s)
  {
    ListedLength(revoked, s.revoked);
    ListedLength(failed, s.failed);
    ItemsLength(revoked);
    ItemsLength(failed);
  }

  /** The next start accepts the written state: the fields are valid and the text fits. */
  predicate Loads(s: Installed, revoked: seq<string>, failed: seq<string>)
  {
    |Text(s, revoked, failed)| <= MAX_META && StateOk(s)
  }

  /** The same, from the fields and the number of entries alone. */
  predicate Restarts(s: Installed)
  {
    StateOk(s) && TextSize(s) <= MAX_META
  }

  /** A transaction is open that nothing the manager offers will ever end: recovery refuses it, or no start
      reads the state. */
  predicate Unending(d: Disk)
  {
    d.journal.Some? && (Blocked(d) || !Restarts(d.installed))
  }

  /** The order in which the lists are written makes no difference. */
  lemma LoadsInAnyOrder(s: Installed, revoked: seq<string>, failed: seq<string>)
    requires Lists(revoked, s.revoked) && Lists(failed, s.failed)
    ensures Loads(s, revoked, failed) <==> Restarts(s)
  {
    if StateOk(s) {
      TextLength(s, revoked, failed);
    }
  }

  /** However the remaining fields read, 972 revoked and quarantined releases together always reload,
      and 975 never do. */
  lemma ReloadLimit(s: Installed)
    requires Sound(s)
    ensures |s.revoked| + |s.failed| <= 972 ==> Restarts(s)
    ensures |s.revoked| + |s.failed| >= 975 ==> !Restarts(s)
  {
    NumberLength(s.sequence);
    NumberLength(s.lastVerifiedAt);
    NumberLength(s.expiresAt);
  }

  // What every record keeps

  /** The fields stay valid through a step exactly when a step that moves the lease reads a clock of at
      least 1: a host whose clock stands at zero would write a state its next start refuses. */
  lemma StepKeepsSound(env: Env, d: Disk, e: Event)
    requires Guard(env, d, e) && Sound(d.installed)
    ensures Sound(Apply(env, d, e).installed) <==> (MovesLease(env, d, e) ==> e.now >= 1)
    ensures MovesLease(env, d, e) ==> e.now >= -59
  {
    hide Verified, IsTag, AllArtefactsOk, PlatformOffered;
    assert forall x :: x in Apply(env, d, e).installed.revoked ==> IsHex(x, 64);
  }

  /** Everything that a start looks at but the time of the last verification. */
  predicate SoundAside(s: Installed) { Sound(s.(lastVerifiedAt := 1)) }

  lemma StepKeepsSoundAside(env: Env, d: Disk, e: Event)
    requires Guard(env, d, e) && SoundAside(d.installed)
    ensures SoundAside(Apply(env, d, e).installed)
  {
    hide Verified, IsTag, AllArtefactsOk, PlatformOffered;
    assert forall x :: x in Apply(env, d, e).installed.revoked ==> IsHex(x, 64);
  }

  lemma {:induction false} SoundAsideThroughout(env: Env, start: Disk, es: seq<Event>, i: nat)
    requires Legal(env, start, es) && i <= |es| && SoundAside(start.installed)
    ensures SoundAside(At(env, start, es, i).installed)
  {
    hide Legal, Replay, At, Guard, Apply, SoundAside;
    if i > 0 {
      SoundAsideThroughout(env, start, es, i - 1);
      Step(env, start, es, i - 1);
      StepKeepsSoundAside(env, At(env, start, es, i - 1), es[i - 1]);
    } else {
      AtStart(env, start, es);
    }
  }

  /** Step x recorded the lease that stands after the first i steps. */
  ghost predicate LastLease(env: Env, start: Disk, es: seq<Event>, i: nat, x: nat)
    requires Legal(env, start, es) && i <= |es|
  {
    x < i && MovesLeaseAt(env, start, es, x) && forall y | x < y < i :: !MovesLeaseAt(env, start, es, y)
  }

  lemma {:induction false} FindLastLease(env: Env, start: Disk, es: seq<Event>, i: nat) returns (x: Option<nat>)
    requires Legal(env, start, es) && i <= |es|
    ensures x.Some? ==> LastLease(env, start, es, i, x.value)
    ensures x.None? ==> forall y | 0 <= y < i :: !MovesLeaseAt(env, start, es, y)
  {
    hide MovesLeaseAt;
    if i == 0 {
      x := None;
    } else if MovesLeaseAt(env, start, es, i - 1) {
      x := Some(i - 1);
    } else {
      x := FindLastLease(env, start, es, i - 1);
    }
  }

  lemma LeaseAfter(env: Env, start: Disk, es: seq<Event>, i: nat, x: nat)
    requires Legal(env, start, es) && i <= |es| && LastLease(env, start, es, i, x)
    ensures At(env, start, es, i).installed.lastVerifiedAt == es[x].now <= MAX_INT
  {
    hide Legal, Replay, At, Verified, IsTag, AllArtefactsOk;
    Step(env, start, es, x);
    LeaseMovesOnlyWhenVerified(env, At(env, start, es, x), es[x]);
    assert forall y | x < y < i :: !MovesLeaseAt(env, start, es, y);
    LeaseStands(env, start, es, x + 1, i);
  }

  /** After any history from a sound state, the fields pass the next start's checks exactly when the lease
      that stands was not recorded at a clock below 1. */
  lemma EveryStateReloads(env: Env, start: Disk, es: seq<Event>, i: nat)
    requires Legal(env, start, es) && i <= |es| && Sound(start.installed)
    ensures Sound(At(env, start, es, i).installed) <==>
      forall x: nat | LastLease(env, start, es, i, x) :: es[x].now >= 1
  {
    hide Legal, Replay, At, Guard, Apply, IsHex, MovesLease;
    SoundAsideThroughout(env, start, es, i);
    var last := FindLastLease(env, start, es, i);
    forall x: nat | LastLease(env, start, es, i, x) ensures last == Some(x) {
      assert MovesLeaseAt(env, start, es, x);
    }
    if last.Some? {
      LeaseAfter(env, start, es, i, last.value);
    } else {
      assert forall y | 0 <= y < i :: !MovesLeaseAt(env, start, es, y);
      LeaseStands(env, start, es, 0, i);
      AtStart(env, start, es);
    }
  }

  /** After any history from a sound state, the next start succeeds exactly when the lease was not recorded
      at a clock below 1 and the revoked and quarantined releases fit with the fixed fields. */
  lemma EveryStateRestartsIff(env: Env, start: Disk, es: seq<Event>, i: nat)
    requires Legal(env, start, es) && i <= |es| && Sound(start.installed)
    ensures Restarts(At(env, start, es, i).installed) <==>
      && (forall x: nat | LastLease(env, start, es, i, x) :: es[x].now >= 1)
      && TextSize(At(env, start, es, i).installed) <= MAX_META
  {
    hide Legal, Replay, At, Guard, Apply, IsHex, LastLease, TextSize;
    EveryStateReloads(env, start, es, i);
    SoundAsideThroughout(env, start, es, i);
  }

  /** The same of the written file, in whatever order its lists are written. */
  lemma EveryFileLoadsIff(
    env: Env, start: Disk, es: seq<Event>, i: nat, revoked: seq<string>, failed: seq<string>)
    requires Legal(env, start, es) && i <= |es| && Sound(start.installed)
    requires Lists(revoked, At(env, start, es, i).installed.revoked)
    requires Lists(failed, At(env, start, es, i).installed.failed)
    ensures Loads(At(env, start, es, i).installed, revoked, failed) <==>
      && (forall x: nat | LastLease(env, start, es, i, x) :: es[x].now >= 1)
      && TextSize(At(env, start, es, i).installed) <= MAX_META
  {
    hide Legal, Replay, At, Guard, Apply, IsHex, LastLease, TextSize, Loads, Restarts;
    EveryStateRestartsIff(env, start, es, i);
    LoadsInAnyOrder(At(env, start, es, i).installed, revoked, failed);
  }
}
