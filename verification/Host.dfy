/** The host under the manager: its disk, its service and whatever happens to them next.

    A script of moments decides what the world does at each effect. It may break an effect before,
    part-way through or after it took place, as an error or as the death of the process; it may restart
    or stop the service; it may move the clock either way. Every script is possible, so what holds of
    every call holds of every adversary. A script in which nothing fails and the clock only
    goes forward makes a calm host; when the script runs out the host is calm, too. */
module Hosts {
  import opened Basics
  import opened Metadata
  import opened Protocol

  datatype When = Before | Partway | After

  datatype Fault = Smooth | Breaks(when: When, dies: bool)

  datatype Moment = Moment(fault: Fault, service: Service, clock: int)

  /** How an effect with this fault ends for its caller. */
  function Ending(f: Fault): Result<()>
  {
    match f
    case Smooth => Returned(())
    case Breaks(_, dies) => if dies then Died else Raised(SystemError)
  }

  /** All is smooth until, n effects on, the process is killed part-way through one. */
  predicate KilledAt(script: seq<Moment>, n: nat)
  {
    n < |script| && script[n].fault == Breaks(Partway, true) && forall i | 0 <= i < n :: script[i].fault.Smooth?
  }

  /** Nothing fails or disturbs the service in this script, and the clock never goes back. */
  predicate CalmFrom(script: seq<Moment>, clock: int)
  {
    script == [] ||
      (script[0].fault.Smooth? && script[0].service.Undisturbed? && clock <= script[0].clock
       && CalmFrom(script[1..], script[0].clock))
  }

  /** The service may have stopped, or restarted on the release linked at the time. */
  predicate ServiceMoved(d: Disk, running: Option<string>)
  {
    running == d.running || running == None || running == d.link
  }

  /** Nothing but the service moved. */
  predicate Drifted(d: Disk, d': Disk)
  {
    d' == d.(running := d'.running) && ServiceMoved(d, d'.running)
  }

  class Host {
    const env: Env
    const verifier: Bytes
    var disk: Disk
    var script: seq<Moment>
    var clock: int
    ghost const start: Disk
    ghost var history: seq<Event>
    ghost var writes: seq<Event>

    constructor (env: Env, verifier: Bytes, disk: Disk, script: seq<Moment>, clock: int)
      ensures Valid() && this.env == env && this.verifier == verifier && this.disk == start == disk
      ensures this.script == script && this.clock == clock && history == [] && writes == []
    {
      this.env, this.verifier, this.disk, this.script, this.clock := env, verifier, disk, script, clock;
      start, history, writes := disk, [], [];
    }

    /** The disk is what a legal history made of the starting disk. */
    ghost predicate Valid()
      reads this
    {
      Legal(env, start, history) && disk == Replay(env, start, history) && writes == WritesOf(history)
    }

    predicate Calm()
      reads this
    {
      CalmFrom(script, clock)
    }

    /** History only grows, and a calm host stays calm. */
    twostate predicate Moved()
      reads this
    {
      && old(history) <= history
      && (old(Calm()) ==> Calm() && old(clock) <= clock)
      && (old(script) == [] ==> script == [] && clock == old(clock))
    }

    /** And nothing wrote the installed state. */
    twostate predicate Advanced()
      reads this
    {
      Moved() && writes == old(writes)
    }

    /** Or nothing but this step did. */
    twostate predicate AdvancedBy(e: Event)
      reads this
    {
      Moved() && (writes == old(writes) || (Writes(e) && writes == old(writes) + [e]))
    }

    /** How the next effect fares. */
    function Head(): Fault
      reads this
    {
      if script == [] then Smooth else script[0].fault
    }

    /** Exactly one moment passed. */
    twostate predicate Ticked()
      reads this
    {
      if old(script) == [] then script == [] && clock == old(clock)
      else script == old(script)[1..] && clock == old(script)[0].clock
    }

    ghost function LastEvent(): Option<Event>
      reads this
    {
      if history == [] then None else Some(history[|history| - 1])
    }

    /** One step takes place. */
    method Effect(written: Disk, ghost e: Event)
      requires Valid() && Guard(env, disk, e) && written == Apply(env, disk, e)
      modifies this`disk, this`history, this`writes
      ensures Valid() && disk == written && history == old(history) + [e]
      ensures writes == if Writes(e) then old(writes) + [e] else old(writes)
    {
      Extend(env, start, history, e);
      assert (history + [e])[..|history|] == history;
      disk := written;
      writes := if Writes(e) then writes + [e] else writes;
      history := history + [e];
    }

    /** The next moment passes. */
    method Tick() returns (f: Fault)
      requires Valid()
      modifies this
      ensures Valid() && Advanced() && Drifted(old(disk), disk) && Ticked() && f == old(Head())
      ensures old(script) != [] ==> disk == AfterService(old(disk), old(script)[0].service)
      ensures old(Calm()) ==> f == Smooth && disk == old(disk)
      ensures forall e: Event :: Guard(env, old(disk), e) && !e.Serviced? && !e.Proved? ==>
        Guard(env, disk, e) && Apply(env, disk, e) == Apply(env, old(disk), e).(running := disk.running)
    {
      hide Guard, Apply, Legal, Replay, WritesOf;
      if script == [] {
        forall e: Event | Guard(env, disk, e) && !e.Serviced? && !e.Proved?
          ensures Apply(env, disk, e) == Apply(env, disk, e).(running := disk.running)
        {
          GuardSurvivesService(env, disk, Undisturbed, e);
        }
        return Smooth;
      }
      var now := script[0];
      script, clock, f := script[1..], now.clock, now.fault;
      ServiceStep(env, disk, now.service);
      Effect(AfterService(disk, now.service), Serviced(now.service));
      forall e: Event | Guard(env, old(disk), e) && !e.Serviced? && !e.Proved?
        ensures Guard(env, disk, e)
        ensures Apply(env, disk, e) == Apply(env, old(disk), e).(running := disk.running)
      {
        GuardSurvivesService(env, old(disk), now.service, e);
      }
    }

    /** A read, or any other call that leaves no trace: it can fail, and the process can die in it. */
    method Look() returns (r: Result<()>)
      requires Valid()
      modifies this
      ensures r.Raised? ==> FromHost(r.error)
      ensures Valid() && Advanced() && Drifted(old(disk), disk) && Ticked() && r == Ending(old(Head()))
      ensures old(Calm()) ==> r.Returned? && disk == old(disk)
    {
      var f := Tick();
      return Ending(f);
    }

    /** Replaces one file through a ".new" sibling that must not exist yet. An interruption may leave
        the sibling; the replacement itself happens whole or not at all. */
    method Atomic(temp: Temp, written: Disk, ghost e: Event) returns (r: Result<()>)
      requires Valid() && !e.Serviced? && !e.Proved? && Guard(env, disk, e) && written == Apply(env, disk, e)
      modifies this
      ensures r.Raised? ==> FromHost(r.error)
      ensures Valid() && AdvancedBy(e) && ServiceMoved(old(disk), disk.running)
      ensures r.Returned? ==> disk == written.(running := disk.running) && temp !in old(disk).temps
      ensures r.Returned? && Writes(e) ==> writes == old(writes) + [e]
      ensures !r.Returned? ==>
        || disk == old(disk).(running := disk.running)
        || disk == old(disk).(running := disk.running, temps := old(disk).temps + {temp})
        || disk == written.(running := disk.running)
      ensures Ticked()
      ensures old(Head()).Smooth? ==> (r.Returned? <==> temp !in old(disk).temps)
      // the process or the call may break before, part-way or after, and ends accordingly
      ensures old(Head()).Breaks? && old(Head()).when.Before? ==>
        r == Ending(old(Head())) && disk == old(disk).(running := disk.running)
      ensures old(Head()).Breaks? && old(Head()).when.After? && temp !in old(disk).temps ==>
        r == Ending(old(Head())) && disk == written.(running := disk.running)
      ensures old(Head()).Breaks? && old(Head()).when.Partway? && temp !in old(disk).temps ==>
        r == Ending(old(Head())) && disk == old(disk).(running := disk.running, temps := old(disk).temps + {temp})
      ensures old(Calm()) ==>
        && (r.Returned? <==> temp !in old(disk).temps) && !r.Died?
        && disk.running == old(disk).running && (!r.Returned? ==> disk == old(disk) && r == Raised(LeftoverTemporary))
    {
      hide Legal, Replay, WritesOf, Guard, Apply;
      var f := Tick();
      if f.Breaks? && f.when.Before? {
        return Ending(f);
      }
      if temp in disk.temps {
        return Raised(LeftoverTemporary);
      }
      if f.Breaks? && f.when.Partway? {
        LeaveStep(env, disk, temp);
        Effect(disk.(temps := disk.temps + {temp}), Left(temp));
        return Ending(f);
      }
      Effect(written.(running := disk.running), e);
      return Ending(f);
    }

    /** An effect with no intermediate file: an append, an unlink or a new directory. */
    method Simple(written: Disk, ghost e: Event) returns (r: Result<()>)
      requires Valid() && !e.Serviced? && !e.Proved? && !Writes(e)
      requires Guard(env, disk, e) && written == Apply(env, disk, e)
      modifies this
      ensures r.Raised? ==> FromHost(r.error)
      ensures Valid() && Advanced() && ServiceMoved(old(disk), disk.running)
      ensures r.Returned? ==> disk == written.(running := disk.running)
      ensures r.Returned? ==> LastEvent() == Some(e)
      ensures !r.Returned? ==>
        disk == old(disk).(running := disk.running) || disk == written.(running := disk.running)
      ensures r == Ending(old(Head()))
      ensures disk == (if old(Head()).Smooth? || old(Head()).when.After? then written else old(disk))
        .(running := disk.running)
      ensures old(Calm()) ==> r.Returned? && disk.running == old(disk).running
    {
      hide Legal, Replay, WritesOf, Guard, Apply;
      var f := Tick();
      if f.Smooth? || f.when.After? {
        Effect(written.(running := disk.running), e);
      }
      return Ending(f);
    }

    /** The fixed service command. Interrupted part-way it leaves the service stopped. */
    method RestartService() returns (r: Result<()>)
      requires Valid()
      modifies this
      ensures r.Raised? ==> FromHost(r.error)
      ensures Valid() && Advanced() && Drifted(old(disk), disk)
      ensures r.Returned? ==> disk.running == disk.link
      ensures r == Ending(old(Head()))
      ensures old(Head()).Breaks? && old(Head()).when.Partway? ==> disk.running == None
      ensures old(Head()).Breaks? && old(Head()).when.After? ==> disk.running == disk.link
      ensures old(Calm()) ==> r.Returned?
    {
      hide Legal, Replay, WritesOf, Guard, Apply;
      var f := Tick();
      if f.Smooth? || !f.when.Before? {
        var service := if f.Smooth? || f.when.After? then Restarted else Stopped;
        ServiceStep(env, disk, service);
        Effect(AfterService(disk, service), Serviced(service));
      }
      return Ending(f);
    }
  }

  lemma ServiceStep(env: Env, d: Disk, service: Service)
    ensures Guard(env, d, Serviced(service))
    ensures Apply(env, d, Serviced(service)) == AfterService(d, service)
    ensures Drifted(d, AfterService(d, service))
  {
  }

  lemma LeaveStep(env: Env, d: Disk, temp: Temp)
    ensures Guard(env, d, Left(temp))
    ensures Apply(env, d, Left(temp)) == d.(temps := d.temps + {temp})
  {
  }
}
