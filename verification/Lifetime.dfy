/** A managed host over its whole life: any sequence of invocations, each a fresh manager started from
    whatever the last one left on disk. */
module Lifetime {
  import opened Basics
  import opened Metadata
  import opened Protocol
  import opened Runs
  import opened Hosts
  import opened Reload
  import opened Manager

  datatype Operation = CheckNow | RollBack | Status

  datatype Job = Job(operation: Operation, policy: Policy, fetch: (string, int) -> Fetch)

  /** What one invocation reports: the identity of the installed release. */
  method Invoke(host: Host, job: Job) returns (r: Result<(string, string)>)
    requires host.Valid() && job.policy.platform == host.env.platform
    modifies host
    ensures host.Valid() && old(host.history) <= host.history
    ensures r.Returned? ==>
      && Verified(host.env, host.disk.store, host.disk.installed.current)
      && var m := ManifestOf(host.env, host.disk.store[host.disk.installed.current].manifest.value);
         r.value == (m.release, m.sourceManifest)
    ensures Stuck(old(host.disk)) && Aligned(old(host.disk)) ==>
      job.operation.Status? || (!r.Returned? && host.disk == old(host.disk))
    ensures Blocked(old(host.disk)) && Aligned(old(host.disk)) ==>
      Drifted(old(host.disk), host.disk) && (job.operation.Status? || !r.Returned?)
    ensures !Restarts(old(host.disk).installed) ==> !r.Returned? && host.disk == old(host.disk)
    ensures job.operation.Status? ==> Drifted(old(host.disk), host.disk)
  {
    hide Guard, Apply, Legal, Replay, Verified, WellFormed, Stuck, Jammed, Blocked;
    var m :- Manager.Open(host, job.policy, job.fetch);
    match job.operation {
      case CheckNow => var _ :- m.Check();
      case RollBack => var _ :- m.Rollback();
      case Status =>
    }
    var release :- m.Release(m.state.current);
    return Returned(Identity(release));
  }

  /** Whatever invocations are made, whatever the host's script breaks, kills or restarts on the way,
      the disk stays consistent and its ledger only advances. */
  method LiveThrough(host: Host, jobs: seq<Job>)
    requires host.Valid() && forall i | 0 <= i < |jobs| :: jobs[i].policy.platform == host.env.platform
    modifies host
    ensures host.Valid() && old(host.history) <= host.history
    ensures Succeeds(old(host.disk).installed, host.disk.installed)
    ensures Consistent(host.env, host.start) ==> Consistent(host.env, host.disk)
  {
    hide Guard, Apply, Legal, Replay;
    for i := 0 to |jobs|
      invariant host.Valid() && old(host.history) <= host.history
    {
      var _ := host.Tick();
      var _ := Invoke(host, jobs[i]);
    }
    WholeHistory(host.env, host.start, host.history, |old(host.history)|);
    assert host.history[..|old(host.history)|] == old(host.history);
  }

  /** An unending transaction outlasts every check, rollback and status request, whatever the host's script
      does: nothing the manager offers ends it, and nothing on disk changes. */
  method StayUnending(host: Host, jobs: seq<Job>)
    requires host.Valid() && forall i | 0 <= i < |jobs| :: jobs[i].policy.platform == host.env.platform
    requires Unending(host.disk) && Consistent(host.env, host.start)
    modifies host
    ensures host.Valid() && old(host.history) <= host.history
    ensures Unending(host.disk) && host.disk == old(host.disk).(running := host.disk.running)
  {
    hide Guard, Apply, Legal, Replay, Restarts;
    for i := 0 to |jobs|
      invariant host.Valid() && old(host.history) <= host.history
      invariant host.disk == old(host.disk).(running := host.disk.running)
    {
      var _ := host.Tick();
      WholeHistory(host.env, host.start, host.history, 0);
      var _ := Invoke(host, jobs[i]);
    }
  }

  /** The clock is no more than a minute before the issue of this stored release. */
  predicate Issued(env: Env, d: Disk, sha: string, clock: int)
  {
    sha in d.store && d.store[sha].manifest.Some? && Decode(env.trust, d.store[sha].manifest.value).Some?
    && ManifestOf(env, d.store[sha].manifest.value).issuedAt - SLACK <= clock
  }

  lemma HistoryNow(host: Host, sha: string)
    requires host.Valid() && Consistent(host.env, host.start) && AllProve(host.env, host.start)
    ensures Consistent(host.env, host.disk)
    ensures Some(sha) in {Some(host.disk.installed.current), host.disk.installed.previous} ==>
      forall clock :: Usable(host.env, host.disk.store, sha, clock) <==> Issued(host.env, host.disk, sha, clock)
  {
    hide Guard, Apply, Legal, Replay, SelfProves, WellFormed;
    WholeHistory(host.env, host.start, host.history, 0);
    assert host.history[..|host.history|] == host.history;
    if Some(sha) in {Some(host.disk.installed.current), host.disk.installed.previous} {
      forall clock
        ensures Usable(host.env, host.disk.store, sha, clock) <==> Issued(host.env, host.disk, sha, clock)
      {
        UsableByClockAlone(host.env, host.start, host.history, |host.history|, sha, clock);
      }
    }
  }

  /** What an open transaction on an installed host needs to be ended at this clock. */
  predicate Endable(env: Env, d: Disk, policy: Policy, clock: int)
  {
    PolicyOk(policy) && !Unending(d) && Issued(env, d, d.installed.current, clock)
  }

  /** On a host that was installed, a calm start and recovery end an open transaction if and only if it is
      not unending, the policy is valid and the installed release has been issued: by the first clock it is
      enough, by the last it is necessary, and without a script the two are one. */
  method EndTransaction(host: Host, policy: Policy, fetch: (string, int) -> Fetch)
    requires host.Valid() && policy.platform == host.env.platform
    requires Consistent(host.env, host.start) && AllProve(host.env, host.start)
    requires host.Calm() && host.disk.journal.Some?
    modifies host
    ensures host.Valid() && host.disk.installed == old(host.disk).installed
    ensures Endable(host.env, old(host.disk), policy, old(host.clock)) ==> host.disk.journal == None
    ensures host.disk.journal == None ==> Endable(host.env, old(host.disk), policy, host.clock)
    ensures old(host.script) == [] ==>
      (host.disk.journal == None <==> Endable(host.env, old(host.disk), policy, old(host.clock)))
  {
    hide Guard, Apply, Legal, Replay, Verified, SelfProves, WellFormed, Consistent, Issued, Usable, PolicyOk, Restarts,
         CalmFrom;
    HistoryNow(host, host.disk.installed.current);
    ConsistentIsAligned(host.env, host.disk);
    var m := Manager.Open(host, policy, fetch);
    if m.Returned? {
      var _ := m.value.Recover();
    }
  }

  lemma ConsistentIsAligned(env: Env, d: Disk)
    requires Consistent(env, d)
    ensures Aligned(d)
  {
  }

  /** What a rollback on an installed host needs to succeed at this clock. */
  predicate CanRollBack(env: Env, d: Disk, policy: Policy, clock: int)
  {
    var s := d.installed;
    && PolicyOk(policy) && Restarts(s) && s.previous.Some? && s.previous.value !in s.revoked
    && InstalledNew !in d.temps && JournalNew !in d.temps && CurrentNew !in d.temps
    && Issued(env, d, s.previous.value, clock)
    && (d.journal.Some? ==> !Stuck(d) && Issued(env, d, s.current, clock))
  }

  /** On such a host a calm start and rollback succeed if and only if the policy is valid, the state can be
      read, there is an unrevoked previous release, nothing was left over, no open transaction is stuck, and
      the releases to verify have been issued. */
  method RollBackCalmly(host: Host, policy: Policy, fetch: (string, int) -> Fetch) returns (r: Result<()>)
    requires host.Valid() && policy.platform == host.env.platform
    requires Consistent(host.env, host.start) && AllProve(host.env, host.start) && host.Calm()
    modifies host
    ensures host.Valid()
    ensures CanRollBack(host.env, old(host.disk), policy, old(host.clock)) ==> r.Returned?
    ensures r.Returned? ==> CanRollBack(host.env, old(host.disk), policy, host.clock)
    ensures old(host.script) == [] ==>
      (r.Returned? <==> CanRollBack(host.env, old(host.disk), policy, old(host.clock)))
  {
    hide Guard, Apply, Legal, Replay, Verified, SelfProves, WellFormed, Consistent, Issued, Usable, PolicyOk, Restarts,
         CalmFrom;
    HistoryNow(host, host.disk.installed.current);
    if host.disk.installed.previous.Some? {
      HistoryNow(host, host.disk.installed.previous.value);
    }
    ConsistentIsAligned(host.env, host.disk);
    var m :- Manager.Open(host, policy, fetch);
    r := m.Rollback();
  }

  /** A state that a start cannot read stays as it is through every invocation, and each of them fails. */
  method StayShut(host: Host, jobs: seq<Job>) returns (succeeded: bool)
    requires host.Valid() && forall i | 0 <= i < |jobs| :: jobs[i].policy.platform == host.env.platform
    requires !Restarts(host.disk.installed)
    modifies host
    ensures host.Valid() && !succeeded && host.disk == old(host.disk).(running := host.disk.running)
  {
    hide Guard, Apply, Legal, Replay, Restarts;
    succeeded := false;
    for i := 0 to |jobs|
      invariant host.Valid() && !succeeded && host.disk == old(host.disk).(running := host.disk.running)
    {
      var _ := host.Tick();
      var r := Invoke(host, jobs[i]);
      succeeded := succeeded || r.Returned?;
    }
  }

  lemma WholeHistory(env: Env, start: Disk, es: seq<Event>, since: nat)
    requires Legal(env, start, es) && since <= |es|
    ensures Legal(env, start, es[..since])
    ensures Succeeds(Replay(env, start, es[..since]).installed, Replay(env, start, es).installed)
    ensures Consistent(env, start) ==> Consistent(env, Replay(env, start, es))
  {
    hide Guard, Apply, Legal, Replay;
    assert es[..|es|] == es;
    LegalPrefix(env, start, es, since);
    LedgerOnlyAdvances(env, start, es, since, |es|);
    if Consistent(env, start) {
      EveryReachableDiskIsConsistent(env, start, es, |es|);
    }
  }

  /** Two completed rollbacks restore the installed state and the current link exactly. */
  method RollBackTwice(host: Host, policy: Policy, fetch: (string, int) -> Fetch) returns (r: Result<()>)
    requires host.Valid() && policy.platform == host.env.platform
    modifies host
    ensures host.Valid()
    ensures r.Returned? ==>
      && host.disk.installed == old(host.disk).installed
      && host.disk.journal == None && host.disk.link == Some(host.disk.installed.current)
      && Settled(host.disk) && host.disk.store == old(host.disk).store
      && (old(host.disk).journal.None? && Aligned(old(host.disk)) ==> host.disk.link == old(host.disk).link)
  {
    hide Guard, Apply, Legal, Replay, Verified, WellFormed;
    var first :- Manager.Open(host, policy, fetch);
    var _ :- first.Rollback();
    var second :- Manager.Open(host, policy, fetch);
    r := second.Rollback();
  }

  /** Any number of recoveries may be interrupted. None of them changes the installed state, and when
      one returns the link names the candidate exactly when the installed state already did. */
  method RecoverUntilDone(host: Host, attempts: nat, policy: Policy, fetch: (string, int) -> Fetch)
    returns (done: bool)
    requires host.Valid() && policy.platform == host.env.platform
    requires Aligned(host.disk) && host.disk.journal.Some?
    modifies host
    ensures host.Valid() && host.disk.installed == old(host.disk).installed
    ensures var j, s := old(host.disk).journal.value, host.disk.installed;
      done ==>
        && host.disk.journal == None && Settled(host.disk)
        && (host.disk.link == Some(j.candidate) <==> s.current == j.candidate)
        && (host.disk.link == Some(j.previous) <==> s.current == j.previous)
  {
    hide Guard, Apply, Legal, Replay, Verified, WellFormed, Restarts, PolicyOk;
    done := false;
    for i := 0 to attempts
      invariant host.Valid() && host.disk.installed == old(host.disk).installed
      invariant done ==> host.disk.journal == None && Settled(host.disk)
      invariant done ==> host.disk.link == Some(host.disk.installed.current)
      invariant !done ==> host.disk.journal.None? ==>
        Settled(host.disk) && host.disk.link == Some(host.disk.installed.current)
    {
      if !done {
        var m := Manager.Open(host, policy, fetch);
        if m.Returned? {
          var r := m.value.Recover();
          done := r.Returned?;
        }
      }
    }
  }
}
