/** Promises the manager does not keep on every input: when each fails, on which input, and exactly when
    it holds. */
module Findings {
  import opened Basics
  import opened Metadata
  import opened Protocol
  import opened Runs
  import opened Reload

  // An upgrade can land on a release that an earlier manifest revoked

  lemma {:induction false} RevokedStands(env: Env, start: Disk, es: seq<Event>, i: nat, j: nat)
    requires Legal(env, start, es) && i <= j <= |es|
    requires forall x | i <= x < j :: !es[x].Accepted?
    ensures At(env, start, es, j).installed.revoked == At(env, start, es, i).installed.revoked
  {
    hide Legal, Replay, At, Verified, WellFormed;
    if i < j {
      RevokedStands(env, start, es, i, j - 1);
      Step(env, start, es, j - 1);
    }
  }

  lemma {:induction false} MetadataStands(env: Env, start: Disk, es: seq<Event>, i: nat, j: nat)
    requires Legal(env, start, es) && i <= j <= |es|
    requires forall x | i <= x < j :: !es[x].Accepted?
    ensures At(env, start, es, j).installed.metadata == At(env, start, es, i).installed.metadata
  {
    hide Legal, Replay, At, Verified, WellFormed;
    if i < j {
      MetadataStands(env, start, es, i, j - 1);
      Step(env, start, es, j - 1);
    }
  }

  /** An upgrade lands on the release accepted last, and that one is revoked exactly when it was already in
      the durable list before its metadata was accepted: only the manifest's own list is consulted. */
  lemma UpgradeLandsRevokedIff(env: Env, start: Disk, es: seq<Event>, i: nat, j: nat)
    requires Legal(env, start, es) && i < j < |es| && es[i].Accepted? && es[j].Upgraded?
    requires forall x | i < x < j :: !es[x].Accepted?
    ensures var s := At(env, start, es, j + 1).installed;
      && s.current == env.trust.digest(es[i].raw)
      && (s.current in s.revoked <==> s.current in At(env, start, es, i).installed.revoked)
  {
    hide Legal, Replay, At, Verified, WellFormed;
    Step(env, start, es, i);
    RevokedStands(env, start, es, i + 1, j);
    MetadataStands(env, start, es, i + 1, j);
    Step(env, start, es, j);
  }

  // A transaction that can never be ended

  /** The release that an interrupted transaction must recover to is revoked in exactly two cases: an
      upgrade to a release that was already revoked, once it committed, and an operator's rollback away
      from a revoked release, until it commits. */
  lemma TransactionIsStuckIff(env: Env, start: Disk, es: seq<Event>, i: nat, j: nat)
    requires Legal(env, start, es) && i < j <= |es| && es[i].Began?
    requires forall x | i < x < j :: !es[x].Ended?
    ensures Stuck(At(env, start, es, j)) <==> RecoversToRevoked(env, start, es, i, j)
  {
    hide Legal, Replay, At, Verified, WellFormed, CommittedWithin;
    InsideTransaction(env, start, es, i, j);
    Step(env, start, es, i);
  }

  ghost predicate RecoversToRevoked(env: Env, start: Disk, es: seq<Event>, i: nat, j: nat)
    requires Legal(env, start, es) && i < j <= |es| && es[i].Began?
  {
    var s := At(env, start, es, i).installed;
    if CommittedWithin(es, i, j) then !es[i].operator && es[i].journal.candidate in s.revoked
    else es[i].operator && s.current in s.revoked
  }

  /** A temporary file is there exactly when it was there before or an interruption left it since. */
  lemma {:induction false} LeftoversStay(env: Env, start: Disk, es: seq<Event>, i: nat, j: nat, temp: Temp)
    requires Legal(env, start, es) && i <= j <= |es|
    ensures temp in At(env, start, es, j).temps <==>
      temp in At(env, start, es, i).temps || exists x | i <= x < j :: es[x] == Left(temp)
  {
    hide Legal, Replay, At, Verified, WellFormed;
    if i < j {
      LeftoversStay(env, start, es, i, j - 1, temp);
      Step(env, start, es, j - 1);
    }
  }

  /** Recovery will always refuse an interrupted transaction in exactly three cases: those two, and a temporary
      link that an interrupted link move left, in this transaction or before it. */
  lemma TransactionIsBlockedIff(env: Env, start: Disk, es: seq<Event>, i: nat, j: nat)
    requires Legal(env, start, es) && i < j <= |es| && es[i].Began?
    requires forall x | i < x < j :: !es[x].Ended?
    ensures Blocked(At(env, start, es, j)) <==>
      || RecoversToRevoked(env, start, es, i, j)
      || CurrentNew in start.temps || exists x | 0 <= x < j :: es[x] == Left(CurrentNew)
  {
    hide Legal, Replay, At, Verified, WellFormed, RecoversToRevoked;
    TransactionIsStuckIff(env, start, es, i, j);
    InsideTransaction(env, start, es, i, j);
    LeftoversStay(env, start, es, 0, j, CurrentNew);
    AtStart(env, start, es);
  }

  /** An interrupted transaction can never be ended in exactly these three cases and two more: the lease that
      stands was recorded at a clock below 1, or the state has outgrown what a start reads. */
  lemma TransactionIsUnendingIff(env: Env, start: Disk, es: seq<Event>, i: nat, j: nat)
    requires Legal(env, start, es) && i < j <= |es| && es[i].Began? && Sound(start.installed)
    requires forall x | i < x < j :: !es[x].Ended?
    ensures Unending(At(env, start, es, j)) <==>
      || RecoversToRevoked(env, start, es, i, j)
      || CurrentNew in start.temps || (exists x | 0 <= x < j :: es[x] == Left(CurrentNew))
      || (exists x: nat | LastLease(env, start, es, j, x) :: es[x].now < 1)
      || TextSize(At(env, start, es, j).installed) > MAX_META
  {
    hide Legal, Replay, At, Verified, WellFormed, RecoversToRevoked, Blocked, Restarts, LastLease, TextSize;
    TransactionIsBlockedIff(env, start, es, i, j);
    InsideTransaction(env, start, es, i, j);
    EveryStateRestartsIff(env, start, es, j);
  }

  /** Every upgrade that commits at a clock below 1 passes such a point. */
  lemma CommitBelowOneIsUnending(env: Env, start: Disk, es: seq<Event>, k: nat)
    requires Legal(env, start, es) && k < |es| && es[k].Upgraded? && es[k].now < 1
    ensures Unending(At(env, start, es, k + 1))
  {
    hide Legal, Replay, At, Verified, WellFormed;
    Step(env, start, es, k);
  }

  // The way through a stuck disk

  lemma {:induction false} FirstCommit(env: Env, start: Disk, es: seq<Event>, i: nat, j: nat) returns (k: nat)
    requires Legal(env, start, es) && i <= j <= |es|
    requires At(env, start, es, i).installed.current != At(env, start, es, j).installed.current
    ensures i <= k < j && Commits(es[k]) && forall x | i <= x < k :: !Commits(es[x])
    ensures At(env, start, es, k).installed.current == At(env, start, es, i).installed.current
    ensures At(env, start, es, k).installed.previous == At(env, start, es, i).installed.previous
    decreases j - i
  {
    hide Legal, Replay, At, Verified, WellFormed;
    if Commits(es[i]) {
      k := i;
    } else {
      Step(env, start, es, i);
      k := FirstCommit(env, start, es, i + 1, j);
    }
  }

  lemma {:induction false} LastCommit(env: Env, start: Disk, es: seq<Event>, i: nat, j: nat) returns (k: nat)
    requires Legal(env, start, es) && i <= j <= |es|
    requires At(env, start, es, i).installed.current != At(env, start, es, j).installed.current
    ensures i <= k < j && Commits(es[k])
    ensures At(env, start, es, k + 1).installed.current == At(env, start, es, j).installed.current
  {
    hide Legal, Replay, At, Verified, WellFormed;
    Step(env, start, es, j - 1);
    if Commits(es[j - 1]) {
      k := j - 1;
    } else {
      k := LastCommit(env, start, es, i, j - 1);
    }
  }

  /** Every way onto a release that was already revoked leads through an upgrade whose journal, if the
      run stops there, can never be ended. */
  lemma LandingRevokedPassesStuck(env: Env, start: Disk, es: seq<Event>, i: nat, j: nat) returns (k: nat)
    requires Legal(env, start, es) && i <= j <= |es|
    requires At(env, start, es, i).installed.current != At(env, start, es, j).installed.current
    requires At(env, start, es, j).installed.current in At(env, start, es, i).installed.revoked
    ensures i <= k < j && es[k].Upgraded? && Stuck(At(env, start, es, k + 1))
  {
    hide Legal, Replay, At, Verified, WellFormed;
    k := LastCommit(env, start, es, i, j);
    Step(env, start, es, k);
    LedgerOnlyAdvances(env, start, es, i, k);
  }

  /** Every way off a revoked release leads through a rollback that, if the run stops before it commits,
      can never be ended. */
  lemma LeavingRevokedPassesStuck(env: Env, start: Disk, es: seq<Event>, i: nat, j: nat) returns (k: nat)
    requires Legal(env, start, es) && i <= j <= |es|
    requires At(env, start, es, i).installed.current in At(env, start, es, i).installed.revoked
    requires At(env, start, es, i).installed.current != At(env, start, es, j).installed.current
    ensures i <= k < j && es[k].RolledBack? && Stuck(At(env, start, es, k))
  {
    hide Legal, Replay, At, Verified, WellFormed;
    k := FirstCommit(env, start, es, i, j);
    Step(env, start, es, k);
    LedgerOnlyAdvances(env, start, es, i, k);
  }
}
