/** What holds in every history of the managed host: any number of checks, rollbacks, recoveries,
    failures, crashes and supervisor restarts, in any order. */
module Runs {
  import opened Basics
  import opened Metadata
  import opened Protocol

  // Crash consistency

  /** With no journal the current link and the running service are the installed release. With one, they
      and the installed release all lie between its two distinct ends. */
  predicate Aligned(d: Disk)
  {
    var s := d.installed;
    && s.previous != Some(s.current)
    && match d.journal
       case None => d.link == Some(s.current) && Settled(d)
       case Some(j) =>
         var ends := {Some(j.previous), Some(j.candidate)};
         && j.previous != j.candidate
         && Some(s.current) in ends && (s.current == j.candidate ==> s.previous == Some(j.previous))
         && d.link in ends && (d.running == None || d.running in ends)
  }

  /** Every release that the durable state names. */
  function Named(d: Disk): set<string>
  {
    {d.installed.current}
    + (if d.installed.previous.Some? then {d.installed.previous.value} else {})
    + (if d.journal.Some? then {d.journal.value.previous, d.journal.value.candidate} else {})
    + (if d.link.Some? then {d.link.value} else {})
  }

  ghost predicate Consistent(env: Env, d: Disk)
  {
    Aligned(d) && forall sha | sha in Named(d) :: Verified(env, d.store, sha)
  }

  lemma VerifiedInLargerStore(
    env: Env, store: map<string, Directory>, larger: map<string, Directory>, sha: string)
    requires Verified(env, store, sha) && sha in larger
    requires larger[sha].manifest == store[sha].manifest
    requires forall role | role in store[sha].files ::
               role in larger[sha].files && larger[sha].files[role] == store[sha].files[role]
    ensures Verified(env, larger, sha)
  {
  }

  /** No step replaces a stored manifest or executable. */
  lemma StoreOnlyGrows(env: Env, d: Disk, e: Event, sha: string)
    requires Guard(env, d, e) && sha in d.store
    ensures var store := Apply(env, d, e).store;
      && sha in store
      && (d.store[sha].manifest.Some? ==> store[sha].manifest == d.store[sha].manifest)
      && forall role | role in d.store[sha].files ::
           role in store[sha].files && store[sha].files[role] == d.store[sha].files[role]
  {
    hide Verified, SelfProves, Live, WellFormed, FileOk, Admits, LeaseAllows, Merged, Promoted, Exchanged;
  }

  lemma VerifiedSurvives(env: Env, d: Disk, e: Event, sha: string)
    requires Guard(env, d, e) && Verified(env, d.store, sha)
    ensures Verified(env, Apply(env, d, e).store, sha)
    ensures Apply(env, d, e).store[sha].manifest == d.store[sha].manifest
  {
    StoreOnlyGrows(env, d, e, sha);
    VerifiedInLargerStore(env, d.store, Apply(env, d, e).store, sha);
  }

  lemma StepKeepsAligned(env: Env, d: Disk, e: Event)
    requires Aligned(d) && Guard(env, d, e)
    ensures Aligned(Apply(env, d, e))
  {
  }

  lemma StepNames(env: Env, d: Disk, e: Event, sha: string)
    requires Aligned(d) && Guard(env, d, e) && sha in Named(Apply(env, d, e))
    ensures sha in Named(d) || Verified(env, d.store, sha)
  {
  }

  lemma StepKeepsConsistent(env: Env, d: Disk, e: Event)
    requires Consistent(env, d) && Guard(env, d, e)
    ensures Consistent(env, Apply(env, d, e))
  {
    StepKeepsAligned(env, d, e);
    forall sha | sha in Named(Apply(env, d, e)) ensures Verified(env, Apply(env, d, e).store, sha) {
      StepNames(env, d, e, sha);
      VerifiedSurvives(env, d, e, sha);
    }
  }

  lemma {:induction false} EveryReachableDiskIsConsistent(env: Env, start: Disk, es: seq<Event>, i: nat)
    requires Legal(env, start, es) && i <= |es| && Consistent(env, start)
    ensures Consistent(env, At(env, start, es, i))
  {
    hide Legal, Replay, At, Verified, WellFormed;
    if i > 0 {
      EveryReachableDiskIsConsistent(env, start, es, i - 1);
      Step(env, start, es, i - 1);
      StepKeepsConsistent(env, At(env, start, es, i - 1), es[i - 1]);
    } else {
      AtStart(env, start, es);
    }
  }

  // The store

  /** A release that passed verification at one clock passes at every later point of the history and
      every later clock, from the same stored manifest. */
  lemma {:induction false} VerifiedStaysVerified(
    env: Env, start: Disk, es: seq<Event>, i: nat, j: nat, sha: string, clock: int, later: int)
    requires Legal(env, start, es) && i <= j <= |es| && clock <= later
    requires Intact(env, At(env, start, es, i).store, sha, clock)
    ensures Intact(env, At(env, start, es, j).store, sha, later)
    ensures At(env, start, es, j).store[sha].manifest == At(env, start, es, i).store[sha].manifest
  {
    hide Guard, Apply, Verified, Legal, Replay, At;
    if i < j {
      VerifiedStaysVerified(env, start, es, i, j - 1, sha, clock, later);
      Step(env, start, es, j - 1);
      VerifiedSurvives(env, At(env, start, es, j - 1), es[j - 1], sha);
    }
  }

  // Replay, revocation and quarantine

  lemma AcceptanceFacts(env: Env, d: Disk, e: Event)
    requires Guard(env, d, e) && e.Accepted?
    ensures Readable(env, e.raw)
    ensures var m, s, s' := ManifestOf(env, e.raw), d.installed, Apply(env, d, e).installed;
      && Fresh(s, m.sequence, env.trust.digest(e.raw))
      && s'.sequence == m.sequence && s'.metadata == env.trust.digest(e.raw)
      && RevokedBy(m) <= s'.revoked
  {
  }

  lemma StepSucceeds(env: Env, d: Disk, e: Event)
    requires Guard(env, d, e)
    ensures Succeeds(d.installed, Apply(env, d, e).installed)
  {
    hide Verified, WellFormed, Decode, FileOk;
  }

  /** What a later installed state must keep of an earlier one. */
  ghost predicate Succeeds(s: Installed, later: Installed)
  {
    && s.sequence <= later.sequence
    && (s.sequence == later.sequence ==> s.metadata == later.metadata)
    && s.revoked <= later.revoked && s.failed <= later.failed
  }

  /** The durable sequence never decreases, one sequence number never stands for two manifests, and
      neither a revocation nor a quarantine is ever forgotten. */
  lemma {:induction false} LedgerOnlyAdvances(env: Env, start: Disk, es: seq<Event>, i: nat, j: nat)
    requires Legal(env, start, es) && i <= j <= |es|
    ensures Succeeds(At(env, start, es, i).installed, At(env, start, es, j).installed)
  {
    hide Guard, Apply, Readable, Legal, Replay, At;
    if i < j {
      LedgerOnlyAdvances(env, start, es, i, j - 1);
      Step(env, start, es, j - 1);
      StepSucceeds(env, At(env, start, es, j - 1), es[j - 1]);
    }
  }

  /** Two manifests accepted at one sequence number have the same hash: they are the same bytes, or the
      two of them are a collision. */
  lemma NoEquivocation(env: Env, start: Disk, es: seq<Event>, i: nat, j: nat)
    requires Legal(env, start, es) && i < j < |es| && es[i].Accepted? && es[j].Accepted?
    ensures Readable(env, es[i].raw) && Readable(env, es[j].raw)
    ensures ManifestOf(env, es[i].raw).sequence == ManifestOf(env, es[j].raw).sequence ==>
      es[i].raw == es[j].raw || Collide(env.trust.digest, es[i].raw, es[j].raw)
  {
    hide Guard, Apply, Readable, Legal, Replay, At;
    Step(env, start, es, i);
    Step(env, start, es, j);
    AcceptanceFacts(env, At(env, start, es, i), es[i]);
    AcceptanceFacts(env, At(env, start, es, j), es[j]);
    LedgerOnlyAdvances(env, start, es, i + 1, j);
  }

  /** Every accepted manifest is at least as new as every manifest accepted before it. */
  lemma NoReplay(env: Env, start: Disk, es: seq<Event>, i: nat, j: nat)
    requires Legal(env, start, es) && i < j < |es| && es[i].Accepted? && es[j].Accepted?
    ensures Readable(env, es[i].raw) && Readable(env, es[j].raw)
    ensures ManifestOf(env, es[i].raw).sequence <= ManifestOf(env, es[j].raw).sequence
  {
    hide Guard, Apply, Readable, Legal, Replay, At;
    Step(env, start, es, i);
    Step(env, start, es, j);
    AcceptanceFacts(env, At(env, start, es, i), es[i]);
    AcceptanceFacts(env, At(env, start, es, j), es[j]);
    LedgerOnlyAdvances(env, start, es, i + 1, j);
  }

  /** Once a manifest is accepted, its revocations are durable for good. */
  lemma RevocationsAreDurable(env: Env, start: Disk, es: seq<Event>, i: nat, j: nat)
    requires Legal(env, start, es) && i < j <= |es| && es[i].Accepted?
    ensures Readable(env, es[i].raw)
    ensures RevokedBy(ManifestOf(env, es[i].raw)) <= At(env, start, es, j).installed.revoked
    ensures forall x | x in ManifestOf(env, es[i].raw).revoked :: x in At(env, start, es, j).installed.revoked
  {
    hide Guard, Apply, Readable, Legal, Replay, At;
    Step(env, start, es, i);
    AcceptanceFacts(env, At(env, start, es, i), es[i]);
    LedgerOnlyAdvances(env, start, es, i + 1, j);
  }

  /** And nothing else is ever revoked: each new revocation stems from a manifest accepted meanwhile. */
  lemma {:induction false} RevocationsWereAccepted(
    env: Env, start: Disk, es: seq<Event>, i: nat, j: nat, sha: string) returns (k: nat)
    requires Legal(env, start, es) && i <= j <= |es|
    requires sha in At(env, start, es, j).installed.revoked && sha !in At(env, start, es, i).installed.revoked
    ensures i <= k < j && es[k].Accepted? && Readable(env, es[k].raw)
    ensures sha in RevokedBy(ManifestOf(env, es[k].raw))
  {
    hide Legal, Replay, At, Verified, WellFormed;
    Step(env, start, es, j - 1);
    if sha in At(env, start, es, j - 1).installed.revoked {
      k := RevocationsWereAccepted(env, start, es, i, j - 1, sha);
    } else {
      k := j - 1;
    }
  }

  lemma {:induction false} MetadataWasAccepted(env: Env, start: Disk, es: seq<Event>, j: nat)
    returns (i: nat)
    requires Legal(env, start, es) && j <= |es|
    requires At(env, start, es, j).installed.metadata != start.installed.metadata
    ensures i < j && es[i].Accepted?
    ensures env.trust.digest(es[i].raw) == At(env, start, es, j).installed.metadata
  {
    hide Legal, Replay, At, Verified, WellFormed;
    AtStart(env, start, es);
    Step(env, start, es, j - 1);
    if es[j - 1].Accepted? {
      i := j - 1;
    } else {
      i := MetadataWasAccepted(env, start, es, j - 1);
    }
  }

  /** An artefact is fetched only after its manifest was recorded, when every revocation the manifest
      lists is already on disk. */
  lemma FetchFollowsRecord(env: Env, start: Disk, es: seq<Event>, j: nat)
    requires Legal(env, start, es) && j < |es| && es[j].Fetched?
    ensures Readable(env, es[j].raw)
    ensures RevokedBy(ManifestOf(env, es[j].raw)) <= At(env, start, es, j).installed.revoked
    ensures env.trust.digest(es[j].raw) == start.installed.metadata
      || exists i | 0 <= i < j :: es[i].Accepted? && env.trust.digest(es[i].raw) == env.trust.digest(es[j].raw)
  {
    hide Legal, Replay, At, Verified, WellFormed;
    Step(env, start, es, j);
    if At(env, start, es, j).installed.metadata != start.installed.metadata {
      var i := MetadataWasAccepted(env, start, es, j);
    }
  }

  /** Steps that use or replace the installed release without an operator. */
  predicate NeedsUnrevoked(e: Event)
  {
    e.Accepted? || e.UsedOffline? || e.Upgraded? || (e.Began? && !e.operator)
  }

  lemma {:induction false} RevokedCurrentStays(env: Env, start: Disk, es: seq<Event>, i: nat, j: nat)
    requires Legal(env, start, es) && i <= j <= |es|
    requires At(env, start, es, i).installed.current in At(env, start, es, i).installed.revoked
    requires forall x | i <= x < j :: !es[x].RolledBack?
    ensures At(env, start, es, j).installed.current == At(env, start, es, i).installed.current
    ensures At(env, start, es, j).installed.current in At(env, start, es, j).installed.revoked
  {
    hide Legal, Replay, At, Verified, WellFormed;
    if i < j {
      RevokedCurrentStays(env, start, es, i, j - 1);
      Step(env, start, es, j - 1);
    }
  }

  /** Once the installed release is revoked, nothing is accepted, approved offline or upgraded until an
      operator rollback commits. */
  lemma RevokedCurrentBlocks(env: Env, start: Disk, es: seq<Event>, i: nat, j: nat)
    requires Legal(env, start, es) && i <= j < |es|
    requires At(env, start, es, i).installed.current in At(env, start, es, i).installed.revoked
    requires NeedsUnrevoked(es[j])
    ensures exists x | i <= x < j :: es[x].RolledBack?
  {
    hide Legal, Replay, At, Verified, WellFormed;
    if forall x | i <= x < j :: !es[x].RolledBack? {
      RevokedCurrentStays(env, start, es, i, j);
      Step(env, start, es, j);
    }
  }

  /** A rollback commits only to a release that no accepted manifest so far has revoked. */
  lemma RollbackLandsUnrevoked(env: Env, start: Disk, es: seq<Event>, i: nat, j: nat)
    requires Legal(env, start, es) && i < j < |es| && es[i].Accepted? && es[j].RolledBack?
    ensures Readable(env, es[i].raw)
    ensures At(env, start, es, j + 1).installed.current !in RevokedBy(ManifestOf(env, es[i].raw))
    ensures At(env, start, es, j + 1).installed.current !in At(env, start, es, j + 1).installed.revoked
  {
    hide Legal, Replay, At, Verified, WellFormed;
    RevocationsAreDurable(env, start, es, i, j);
    Step(env, start, es, j);
  }

  /** A quarantined release never becomes the candidate of a later upgrade. */
  lemma QuarantineIsPermanent(env: Env, start: Disk, es: seq<Event>, i: nat, j: nat)
    requires Legal(env, start, es) && i < j < |es|
    requires es[i].Quarantined? && es[j].Began? && !es[j].operator
    ensures es[j].journal.candidate != es[i].sha
  {
    hide Legal, Replay, At, Verified, WellFormed;
    Step(env, start, es, i);
    Step(env, start, es, j);
    LedgerOnlyAdvances(env, start, es, i + 1, j);
  }

  // The commit point

  predicate Commits(e: Event) { e.Upgraded? || e.RolledBack? }

  ghost predicate CommittedWithin(es: seq<Event>, i: nat, j: nat)
    requires j <= |es|
  {
    exists x | i < x < j :: Commits(es[x])
  }

  /** Inside a transaction the journal stands still and the installed release is the candidate from
      the committing record on; before it, only the quarantine list can differ. */
  lemma {:induction false} InsideTransaction(env: Env, start: Disk, es: seq<Event>, i: nat, j: nat)
    requires Legal(env, start, es) && i < j <= |es| && es[i].Began?
    requires forall x | i < x < j :: !es[x].Ended?
    ensures var d, t := At(env, start, es, j), es[i].journal;
      && d.journal == Some(t)
      && d.installed.current == (if CommittedWithin(es, i, j) then t.candidate else t.previous)
      && d.installed.revoked == At(env, start, es, i).installed.revoked
      && (!CommittedWithin(es, i, j) ==>
            d.installed == At(env, start, es, i).installed.(failed := d.installed.failed))
  {
    hide Legal, Replay, At, Verified, WellFormed;
    Step(env, start, es, j - 1);
    if i + 1 < j {
      InsideTransaction(env, start, es, i, j - 1);
      assert CommittedWithin(es, i, j) <==> CommittedWithin(es, i, j - 1) || Commits(es[j - 1]);
    }
  }

  /** However many recoveries were interrupted on the way, when the journal is finally removed the
      current link names the candidate exactly when the committing record reached the disk; otherwise it
      names the old release, and current, previous, the lease, sequence and revocations are as the
      transaction found them. */
  lemma CommitPoint(env: Env, start: Disk, es: seq<Event>, i: nat, k: nat)
    requires Legal(env, start, es) && Consistent(env, start)
    requires i < k < |es| && es[i].Began? && es[k].Ended?
    requires forall x | i < x < k :: !es[x].Ended?
    ensures var d, t := At(env, start, es, k + 1), es[i].journal;
      && d.journal == None && Settled(d) && d.link == Some(d.installed.current)
      && (d.link == Some(t.candidate) <==> CommittedWithin(es, i, k))
      && (d.link == Some(t.previous) <==> !CommittedWithin(es, i, k))
      && (!CommittedWithin(es, i, k) ==>
            d.installed == At(env, start, es, i).installed.(failed := d.installed.failed))
  {
    hide Legal, Replay, At, Verified, WellFormed;
    InsideTransaction(env, start, es, i, k);
    EveryReachableDiskIsConsistent(env, start, es, k);
    Step(env, start, es, k);
  }

  // Live proof before commit

  ghost predicate NoMove(es: seq<Event>, i: nat, j: nat)
    requires j <= |es|
  {
    forall x | i <= x < j :: !es[x].Pointed?
  }

  lemma {:induction false} LinkStands(env: Env, start: Disk, es: seq<Event>, i: nat, j: nat)
    requires Legal(env, start, es) && i <= j <= |es| && NoMove(es, i, j)
    ensures At(env, start, es, j).link == At(env, start, es, i).link
  {
    hide Legal, Replay, At, Verified, WellFormed;
    if i < j {
      LinkStands(env, start, es, i, j - 1);
      Step(env, start, es, j - 1);
    }
  }

  lemma {:induction false} ProofWasMade(env: Env, start: Disk, es: seq<Event>, i: nat, j: nat) returns (x: nat)
    requires Legal(env, start, es) && i <= j <= |es|
    requires At(env, start, es, j).proven.Some? && !NoMove(es, i, j)
    ensures i < x < j && es[x] == Proved(At(env, start, es, j).proven.value) && NoMove(es, x, j)
  {
    hide Legal, Replay, At, Verified, WellFormed;
    Step(env, start, es, j - 1);
    if es[j - 1] == Proved(At(env, start, es, j).proven.value) && !NoMove(es, i, j - 1) {
      x := j - 1;
    } else {
      x := ProofWasMade(env, start, es, i, j - 1);
    }
  }

  /** Every commit follows a live proof of the release it commits, made inside the same transaction and
      after the link last moved. */
  lemma CommitFollowsProof(env: Env, start: Disk, es: seq<Event>, i: nat, k: nat) returns (x: nat)
    requires Legal(env, start, es) && Consistent(env, start)
    requires i < k < |es| && es[i].Began? && Commits(es[k])
    requires forall y | i < y < k :: !es[y].Ended?
    ensures i < x < k && es[x] == Proved(es[i].journal.candidate) && NoMove(es, x, k)
    ensures Live(env, At(env, start, es, x), es[i].journal.candidate)
    ensures At(env, start, es, x).link == Some(es[i].journal.candidate)
  {
    hide Legal, Replay, At, Verified, WellFormed, Live;
    InsideTransaction(env, start, es, i, k);
    EveryReachableDiskIsConsistent(env, start, es, i + 1);
    Step(env, start, es, i);
    Step(env, start, es, k);
    if NoMove(es, i, k) {
      LinkStands(env, start, es, i, k);
    }
    x := ProofWasMade(env, start, es, i, k);
    Step(env, start, es, x);
  }

  // The lease

  /** The metadata record of a current release, or the record that completes an upgrade. */
  ghost predicate MovesLease(env: Env, d: Disk, e: Event)
  {
    e.Upgraded? || (e.Accepted? && env.trust.digest(e.raw) == d.installed.current)
  }

  ghost predicate MovesLeaseAt(env: Env, start: Disk, es: seq<Event>, x: nat)
    requires Legal(env, start, es) && x < |es|
  {
    MovesLease(env, At(env, start, es, x), es[x])
  }

  predicate LeaseBounded(s: Installed)
  {
    s.lastVerifiedAt < s.expiresAt <= s.lastVerifiedAt + 7 * DAY + SLACK
  }

  /** The lease window changes only where the metadata was verified at that clock, and then it ends
      after that clock and at most a week and a minute later. */
  lemma LeaseMovesOnlyWhenVerified(env: Env, d: Disk, e: Event)
    requires Guard(env, d, e)
    ensures var s, s' := d.installed, Apply(env, d, e).installed;
      if MovesLease(env, d, e)
      then Timely(ManifestOf(env, e.raw), e.now) && s'.lastVerifiedAt == e.now
           && s'.expiresAt == ManifestOf(env, e.raw).expiresAt && LeaseBounded(s')
           && s.lastVerifiedAt - 60 <= s'.lastVerifiedAt < s'.expiresAt <= s'.lastVerifiedAt + 604860
      else s'.lastVerifiedAt == s.lastVerifiedAt && s'.expiresAt == s.expiresAt
  {
  }

  lemma {:induction false} LeaseStands(env: Env, start: Disk, es: seq<Event>, i: nat, j: nat)
    requires Legal(env, start, es) && i <= j <= |es|
    requires forall x | i <= x < j :: !MovesLeaseAt(env, start, es, x)
    ensures At(env, start, es, j).installed.lastVerifiedAt == At(env, start, es, i).installed.lastVerifiedAt
    ensures At(env, start, es, j).installed.expiresAt == At(env, start, es, i).installed.expiresAt
  {
    hide Legal, Replay, At, Verified, WellFormed;
    if i < j {
      assert !MovesLeaseAt(env, start, es, j - 1);
      LeaseStands(env, start, es, i, j - 1);
      Step(env, start, es, j - 1);
      LeaseMovesOnlyWhenVerified(env, At(env, start, es, j - 1), es[j - 1]);
    }
  }

  /** Offline use between two lease records stays inside the window the first of them left, whatever
      else happened in between: it can never extend itself. */
  lemma OfflineUseStaysInLease(env: Env, start: Disk, es: seq<Event>, i: nat, j: nat)
    requires Legal(env, start, es) && i <= j < |es| && es[j].UsedOffline?
    requires forall x | i <= x < j :: !MovesLeaseAt(env, start, es, x)
    ensures var s := At(env, start, es, i).installed;
      && 0 <= es[j].grace <= 86400
      && s.lastVerifiedAt - 60 <= es[j].now <= Min(s.expiresAt, s.lastVerifiedAt + es[j].grace)
    ensures At(env, start, es, j + 1) == At(env, start, es, j)
  {
    hide Legal, Replay, At, Verified, WellFormed;
    LeaseStands(env, start, es, i, j);
    Step(env, start, es, j);
  }

  lemma {:induction false} LeaseAlwaysBounded(env: Env, start: Disk, es: seq<Event>, i: nat)
    requires Legal(env, start, es) && i <= |es| && LeaseBounded(start.installed)
    ensures LeaseBounded(At(env, start, es, i).installed)
    ensures var s := At(env, start, es, i).installed;
      s.lastVerifiedAt < s.expiresAt <= s.lastVerifiedAt + 604860
  {
    hide Legal, Replay, At, Verified, WellFormed;
    if i > 0 {
      LeaseAlwaysBounded(env, start, es, i - 1);
      Step(env, start, es, i - 1);
      LeaseMovesOnlyWhenVerified(env, At(env, start, es, i - 1), es[i - 1]);
    } else {
      AtStart(env, start, es);
    }
  }

  // Live proof of whatever is installed

  /** The releases that the installed state and the standing proof name. */
  function Vouched(d: Disk): set<string>
  {
    {d.installed.current}
    + (if d.installed.previous.Some? then {d.installed.previous.value} else {})
    + (if d.proven.Some? then {d.proven.value} else {})
  }

  /** Each of them proves itself. */
  predicate AllProve(env: Env, d: Disk) { forall sha | sha in Vouched(d) :: SelfProves(env, d.store, sha) }

  lemma SelfProofSurvives(env: Env, d: Disk, e: Event, sha: string)
    requires Guard(env, d, e) && SelfProves(env, d.store, sha)
    ensures SelfProves(env, Apply(env, d, e).store, sha)
  {
    hide Guard, Apply, Proves;
    StoreOnlyGrows(env, d, e, sha);
  }

  lemma StepVouches(env: Env, d: Disk, e: Event, sha: string)
    requires Guard(env, d, e) && sha in Vouched(Apply(env, d, e))
    ensures sha in Vouched(d) || SelfProves(env, d.store, sha)
  {
    hide Proves, Verified, WellFormed;
  }

  /** Whatever current, previous or the standing proof names proves itself at every point of every history,
      once it does at the start, as after an installation that completed. */
  lemma {:induction false} EveryVouchedReleaseProves(env: Env, start: Disk, es: seq<Event>, i: nat)
    requires Legal(env, start, es) && i <= |es| && AllProve(env, start)
    ensures AllProve(env, At(env, start, es, i))
  {
    hide Legal, Replay, At, Guard, Apply, SelfProves, Vouched;
    if i > 0 {
      EveryVouchedReleaseProves(env, start, es, i - 1);
      Step(env, start, es, i - 1);
      var d, d' := At(env, start, es, i - 1), At(env, start, es, i);
      forall sha | sha in Vouched(d') ensures SelfProves(env, d'.store, sha) {
        StepVouches(env, d, es[i - 1], sha);
        SelfProofSurvives(env, d, es[i - 1], sha);
      }
    } else {
      AtStart(env, start, es);
    }
  }

  /** So on an installed host the clock alone decides whether the installed or the previous release is
      usable. */
  lemma UsableByClockAlone(env: Env, start: Disk, es: seq<Event>, i: nat, sha: string, clock: int)
    requires Legal(env, start, es) && i <= |es| && Consistent(env, start) && AllProve(env, start)
    requires var s := At(env, start, es, i).installed; Some(sha) in {Some(s.current), s.previous}
    ensures var store := At(env, start, es, i).store;
      && Verified(env, store, sha)
      && (Usable(env, store, sha, clock) <==> ManifestOf(env, store[sha].manifest.value).issuedAt - SLACK <= clock)
  {
    hide Legal, Replay, At, Guard, Apply, Verified, SelfProves;
    EveryReachableDiskIsConsistent(env, start, es, i);
    EveryVouchedReleaseProves(env, start, es, i);
    assert sha in Named(At(env, start, es, i)) && sha in Vouched(At(env, start, es, i));
  }

  // Rollback

  /** Audit lines, restarts, link moves and the like. */
  predicate KeepsInstalled(e: Event) { !e.Accepted? && !Commits(e) && !e.Quarantined? }

  lemma {:induction false} InstalledStands(env: Env, start: Disk, es: seq<Event>, i: nat, j: nat)
    requires Legal(env, start, es) && i <= j <= |es|
    requires forall x | i <= x < j :: KeepsInstalled(es[x])
    ensures At(env, start, es, j).installed == At(env, start, es, i).installed
  {
    hide Legal, Replay, At, Verified, WellFormed;
    if i < j {
      InstalledStands(env, start, es, i, j - 1);
      Step(env, start, es, j - 1);
    }
  }

  /** Two rollbacks with only such steps between them restore the installed state exactly. */
  lemma TwoRollbacksRestore(env: Env, start: Disk, es: seq<Event>, i: nat, j: nat)
    requires Legal(env, start, es) && i < j < |es| && es[i].RolledBack? && es[j].RolledBack?
    requires forall x | i < x < j :: KeepsInstalled(es[x])
    ensures At(env, start, es, j + 1).installed == At(env, start, es, i).installed
  {
    hide Legal, Replay, At, Verified, WellFormed;
    Step(env, start, es, i);
    InstalledStands(env, start, es, i + 1, j);
    Step(env, start, es, j);
  }
}
