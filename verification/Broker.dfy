/** The broker: policy, audit before output, and the socket in front of it. */
module Broker {
  import opened Basics
  import opened Redaction
  import opened Audit

  const STATUS := "system.status"
  const SOCKET_CALLER := "local-user"

  datatype Request = Request(caller: string, capability: string, input: Option<Fields>)

  datatype Decision = Decision(allowed: bool, reason: string)

  datatype Reply = Reply(allowed: bool, capability: string, reason: string, output: Option<map<string, string>>)

  datatype Message = Malformed | Message(operation: string, request: Request)

  datatype Response =
    | Capabilities(names: seq<string>)
    | Decided(decision: Decision)
    | Answer(reply: Reply)
    | Failed(error: string)

  function Check(r: Request): (d: Decision)
    ensures d.allowed <==> r.caller in {"local-cli", SOCKET_CALLER} && r.capability == STATUS
    ensures d.allowed <==> d.reason == "allowed by local policy"
    ensures r.caller == "" <==> d.reason == "caller is required"
    ensures r.caller != "" && r.capability != STATUS <==> d.reason == "unknown capability"
  {
    if r.caller == "" then Decision(false, "caller is required")
    else if r.capability != STATUS then Decision(false, "unknown capability")
    else if r.caller != "local-cli" && r.caller != SOCKET_CALLER then Decision(false, "caller is not allowed")
    else Decision(true, "allowed by local policy")
  }

  /** The record that a decision must leave: redacted once by the broker, once more by the file. */
  function EventFor(r: Request, time: int): AuditEvent
  {
    AuditEvent(time, r.caller, r.capability, Check(r).allowed, Check(r).reason, RedactedInput(r.input))
  }

  function Output(release: string, source: string): map<string, string>
  {
    map["broker" := "keybroker", "status" := "ok", "release" := release, "source" := source]
  }

  /** The second redaction finds nothing left to hide. */
  lemma RecordIsTheEvent(r: Request, time: int)
    ensures Scrubbed(EventFor(r, time)) == EventFor(r, time) && EventFor(r, time).time == time
  {
    if r.input.Some? {
      RedactionOfFieldsIsIdempotent(r.input.value);
    }
  }

  /** The request as the socket hands it on: the caller is the socket's, whatever the message says. */
  function FromSocket(r: Request): Request { r.(caller := SOCKET_CALLER) }

  class Service {
    const audit: JSONLAudit
    const release: string
    const source: string

    constructor (audit: JSONLAudit, release: string, source: string)
      ensures this.audit == audit && this.release == release && this.source == source
    {
      this.audit, this.release, this.source := audit, release, source;
    }

    /** Records the decision, and only then produces output. */
    method Invoke(request: Request, time: int) returns (reply: Reply, ok: bool)
      requires audit.Valid()
      modifies audit
      ensures audit.Valid() && old(audit.file) <= audit.file
      ensures audit.chunks == Appended(old(audit.chunks),
        Trace(EventFor(request, time), audit.encode(EventFor(request, time)) + "\n", old(audit.Fault())).0)
      ensures ok == old(audit.Fault()).Healthy? && reply.capability == request.capability
      ensures reply.output.Some? <==> ok && Check(request).allowed
      ensures reply.output.Some? ==>
        && reply == Reply(true, STATUS, "allowed by local policy", Some(Output(release, source)))
        && audit.file == old(audit.file) + audit.encode(EventFor(request, time)) + "\n"
      ensures !ok ==> reply == Reply(false, request.capability, "audit unavailable", None)
      // the record field by field, and the output key by key
      ensures ok ==>
        && |audit.chunks| == |old(audit.chunks)| + 1 && old(audit.chunks) <= audit.chunks
        && var c := audit.chunks[|old(audit.chunks)|];
        && c.Whole? && c.event.time == time
        && c.event.caller == request.caller && c.event.capability == request.capability
        && c.event.allowed == reply.allowed && c.event.reason == reply.reason
        && (request.input.None? ==> c.event.input == None)
        && (request.input.Some? ==> c.event.input == Some(Redacted(request.input.value)))
      ensures reply.output.Some? ==>
        reply.output.value == map["broker" := "keybroker", "status" := "ok", "release" := release, "source" := source]
      ensures ok ==> reply.allowed == Check(request).allowed && reply.reason == Check(request).reason
    {
      RecordIsTheEvent(request, time);
      var decision := Check(request);
      reply := Reply(decision.allowed, request.capability, decision.reason, None);
      var input := request.input;
      if input.Some? {
        var redacted := RedactMap(input.value);
        input := Some(redacted);
      }
      ok := audit.Write(AuditEvent(time, request.caller, request.capability,
                                   decision.allowed, decision.reason, input));
      if !ok {
        reply := reply.(allowed := false, reason := "audit unavailable");
        return;
      }
      if !decision.allowed {
        return;
      }
      reply := reply.(output := Some(Output(release, source)));
    }

    /** One connection of a trusted peer. */
    method HandleConnection(message: Message, time: int) returns (response: Response)
      requires audit.Valid()
      modifies audit
      ensures audit.Valid() && old(audit.file) <= audit.file
      ensures var told := old(audit.Fault()).Healthy?;
        response == ResponseTo(message, told, release, source)
      // what the peer hears, case by case
      ensures message.Malformed? ==> response == Failed("invalid request")
      ensures message.Message? ==>
        var status := message.request.capability == "system.status";
        var reason := if status then "allowed by local policy" else "unknown capability";
        if message.operation == "capabilities" then response == Capabilities(["system.status"])
        else if message.operation == "check" then response == Decided(Decision(status, reason))
        else if message.operation != "invoke" then response == Failed("unknown operation")
        else if !old(audit.Fault()).Healthy? then response == Failed("broker unavailable")
        else
          && response.Answer? && response.reply.allowed == status && response.reply.reason == reason
          && response.reply.capability == message.request.capability && (response.reply.output.Some? <==> status)
      ensures IsInvoke(message) && old(audit.Fault()).Healthy? ==>
        && |audit.chunks| == |old(audit.chunks)| + 1
        && RecordOf(audit.chunks[|old(audit.chunks)|], message)
      ensures IsInvoke(message) ==>
        var e := EventFor(FromSocket(message.request), time);
        audit.chunks == Appended(old(audit.chunks), Trace(e, audit.encode(e) + "\n", old(audit.Fault())).0)
      ensures !IsInvoke(message) ==> audit.chunks == old(audit.chunks) && audit.file == old(audit.file)
    {
      match message
      case Malformed => return Failed("invalid request");
      case Message(operation, original) =>
        if operation == "capabilities" {
          return Capabilities([STATUS]);
        } else if operation == "check" {
          var request := original.(caller := SOCKET_CALLER);
          return Decided(Check(request));
        } else if operation == "invoke" {
          var request := original.(caller := SOCKET_CALLER);
          var reply, ok := Invoke(request, time);
          if !ok {
            return Failed("broker unavailable");
          }
          return Answer(reply);
        }
        return Failed("unknown operation");
    }
  }

  predicate IsInvoke(m: Message) { m.Message? && m.operation == "invoke" }

  /** What a peer hears, given whether its audit record was confirmed. */
  function ResponseTo(m: Message, audited: bool, release: string, source: string): Response
  {
    match m
    case Malformed => Failed("invalid request")
    case Message(operation, request) =>
      if operation == "capabilities" then Capabilities([STATUS])
      else if operation == "check" then Decided(Check(FromSocket(request)))
      else if operation != "invoke" then Failed("unknown operation")
      else if !audited then Failed("broker unavailable")
      else
        var d := Check(FromSocket(request));
        Answer(Reply(d.allowed, request.capability, d.reason,
                     if d.allowed then Some(Output(release, source)) else None))
  }

  // Connections served side by side

  /** Where a connection stands. The record is the place of its confirmed audit record. */
  datatype Phase =
    | Waiting
    | Recorded(record: nat)
    | Unrecorded
    | Answered(response: Response, proof: Option<nat>)

  datatype Connection = Connection(message: Message, phase: Phase)

  datatype Server = Server(chunks: seq<Chunk>, connections: seq<Connection>, release: string, source: string)

  /** A peer connects, a connection's audit write takes its turn, or a connection answers. */
  datatype Action =
    | Arrive(message: Message)
    | Record(who: nat, fault: WriteFault, time: int, line: string)
    | Respond(who: nat)

  /** The audit writes are serialised by the file's lock; everything else interleaves freely. An action
      whose turn has not come does nothing. */
  function Step(s: Server, a: Action): Server
  {
    match a
    case Arrive(message) => s.(connections := s.connections + [Connection(message, Waiting)])
    case Record(who, fault, time, line) =>
      if who < |s.connections| && s.connections[who].phase == Waiting && IsInvoke(s.connections[who].message) then
        var request := FromSocket(s.connections[who].message.request);
        var (chunk, told) := Trace(EventFor(request, time), line, fault);
        s.(chunks := Appended(s.chunks, chunk),
           connections := s.connections[who := s.connections[who].(
             phase := if told then Recorded(|s.chunks|) else Unrecorded)])
      else s
    case Respond(who) =>
      if who < |s.connections| && !s.connections[who].phase.Answered?
         && (IsInvoke(s.connections[who].message) ==> s.connections[who].phase != Waiting) then
        var c := s.connections[who];
        var proof := if c.phase.Recorded? then Some(c.phase.record) else None;
        s.(connections := s.connections[who := c.(
             phase := Answered(ResponseTo(c.message, proof.Some?, s.release, s.source), proof))])
      else s
  }

  function Run(s: Server, schedule: seq<Action>): Server
  {
    if schedule == [] then s else Step(Run(s, schedule[..|schedule| - 1]), schedule[|schedule| - 1])
  }

  function Start(release: string, source: string): Server { Server([], [], release, source) }

  function ProofOf(p: Phase): Option<nat>
  {
    match p
    case Recorded(record) => Some(record)
    case Answered(_, proof) => proof
    case _ => None
  }

  predicate HasOutput(p: Phase)
  {
    p.Answered? && p.response.Answer? && p.response.reply.output.Some?
  }

  /** The chunk is the complete record of this message: the socket's caller, the message's own capability,
      allowed for status and for nothing else, with the reason of its case, and the input redacted. */
  predicate RecordOf(c: Chunk, m: Message)
  {
    && IsInvoke(m) && c.Whole?
    && c.event.caller == "local-user" && c.event.capability == m.request.capability
    && (c.event.allowed <==> m.request.capability == "system.status")
    && c.event.reason == (if m.request.capability == "system.status" then "allowed by local policy"
                          else "unknown capability")
    && (m.request.input.None? ==> c.event.input == None)
    && (m.request.input.Some? ==> c.event.input == Some(Redacted(m.request.input.value)))
  }

  /** What the broker decides to record of a socket's request is its record. */
  lemma EventIsRecord(m: Message, time: int)
    requires IsInvoke(m)
    ensures RecordOf(Whole(EventFor(FromSocket(m.request), time)), m)
  {
    hide Redacted;
  }

  predicate Accounted(s: Server)
  {
    && (forall i | 0 <= i < |s.connections| ::
          var c := s.connections[i];
          && (ProofOf(c.phase).Some? ==>
                ProofOf(c.phase).value < |s.chunks| && RecordOf(s.chunks[ProofOf(c.phase).value], c.message))
          && (HasOutput(c.phase) ==> ProofOf(c.phase).Some?))
    && (forall i, j | 0 <= i < j < |s.connections| ::
          ProofOf(s.connections[i].phase).Some? ==>
            ProofOf(s.connections[i].phase) != ProofOf(s.connections[j].phase))
  }

  lemma StepKeepsAccounted(s: Server, a: Action)
    requires Accounted(s)
    ensures Accounted(Step(s, a))
    ensures s.chunks <= Step(s, a).chunks
  {
    hide Redacted, Check, Scrubbed, RedactedInput, Output, EventFor, RecordOf;
    if a.Record? && a.who < |s.connections| && s.connections[a.who].message.Message? {
      RecordIsTheEvent(FromSocket(s.connections[a.who].message.request), a.time);
      if IsInvoke(s.connections[a.who].message) {
        EventIsRecord(s.connections[a.who].message, a.time);
      }
    }
  }

  /** The peer received output. */
  predicate GaveOutput(c: Connection)
  {
    c.phase.Answered? && c.phase.response.Answer? && c.phase.response.reply.output.Some?
  }

  /** In every schedule, each connection that carries output owns a complete audit record of its own
      request, and no two share one. */
  lemma {:induction false} EveryOutputHasItsOwnRecord(release: string, source: string, schedule: seq<Action>)
    ensures Accounted(Run(Start(release, source), schedule))
    ensures var s := Run(Start(release, source), schedule);
      && (forall i | 0 <= i < |s.connections| && GaveOutput(s.connections[i]) ::
            && s.connections[i].phase.proof.Some? && s.connections[i].phase.proof.value < |s.chunks|
            && RecordOf(s.chunks[s.connections[i].phase.proof.value], s.connections[i].message))
      && (forall i, j | 0 <= i < j < |s.connections| && GaveOutput(s.connections[i]) && GaveOutput(s.connections[j]) ::
            s.connections[i].phase.proof != s.connections[j].phase.proof)
  {
    hide RecordOf, Step;
    if schedule != [] {
      EveryOutputHasItsOwnRecord(release, source, schedule[..|schedule| - 1]);
      StepKeepsAccounted(Run(Start(release, source), schedule[..|schedule| - 1]), schedule[|schedule| - 1]);
    }
  }

  /** A step adds output only to a connection whose record is already there. */
  lemma OutputNeedsRecord(s: Server, a: Action, i: nat)
    requires Accounted(s) && i < |Step(s, a).connections|
    requires HasOutput(Step(s, a).connections[i].phase)
    ensures i < |s.connections| && s.connections[i].message == Step(s, a).connections[i].message
    ensures ProofOf(s.connections[i].phase) == ProofOf(Step(s, a).connections[i].phase)
    ensures HasOutput(s.connections[i].phase) ||
      (s.connections[i].phase.Recorded? && s.connections[i].phase.record < |s.chunks|
       && RecordOf(s.chunks[s.connections[i].phase.record], s.connections[i].message))
  {
    hide Redacted, Check, Scrubbed;
  }

  /** The record is not only there: it was in the file at an earlier moment, when the connection had not
      yet answered. */
  lemma {:induction false} RecordComesFirst(release: string, source: string, schedule: seq<Action>, i: nat)
    returns (t: nat)
    requires i < |Run(Start(release, source), schedule).connections|
    requires HasOutput(Run(Start(release, source), schedule).connections[i].phase)
    ensures t < |schedule|
    ensures var early, late := Run(Start(release, source), schedule[..t]), Run(Start(release, source), schedule);
      && i < |early.connections| && early.connections[i].message == late.connections[i].message
      && early.connections[i].phase.Recorded?
      && Some(early.connections[i].phase.record) == ProofOf(late.connections[i].phase)
      && early.connections[i].phase.record < |early.chunks|
      && RecordOf(early.chunks[early.connections[i].phase.record], late.connections[i].message)
  {
    hide Redacted, Check, Scrubbed, Step, RecordOf, HasOutput;
    var n := |schedule| - 1;
    var before := Run(Start(release, source), schedule[..n]);
    EveryOutputHasItsOwnRecord(release, source, schedule[..n]);
    OutputNeedsRecord(before, schedule[n], i);
    if HasOutput(before.connections[i].phase) {
      t := RecordComesFirst(release, source, schedule[..n], i);
      assert schedule[..n][..t] == schedule[..t];
    } else {
      t := n;
    }
  }

  // The service and the schedule

  lemma RunFurther(s: Server, schedule: seq<Action>, a: Action)
    ensures Run(s, schedule + [a]) == Step(Run(s, schedule), a)
  {
    assert (schedule + [a])[..|schedule|] == schedule;
  }

  /** A connection handled from start to end is three actions of the schedule: what the peer hears and what
      the file gains are the same. */
  lemma HandlingIsThreeActions(s: Server, m: Message, fault: WriteFault, time: int, line: string)
    ensures var who := |s.connections|;
      var after := Step(Step(Step(s, Arrive(m)), Record(who, fault, time, line)), Respond(who));
      && |after.connections| == who + 1 && after.connections[..who] == s.connections
      && after.connections[who].message == m && after.connections[who].phase.Answered?
      && after.connections[who].phase.response == ResponseTo(m, fault.Healthy?, s.release, s.source)
      && after.release == s.release && after.source == s.source
      && after.chunks ==
           if IsInvoke(m)
           then Appended(s.chunks, Trace(EventFor(FromSocket(m.request), time), line, fault).0)
           else s.chunks
  {
    hide Redacted, Check, Scrubbed, RedactedInput;
  }

  /** Serves one peer after another. The responses and the file are those of a schedule, so every output
      among them has its own record. */
  method ServeInTurn(service: Service, messages: seq<Message>, times: seq<int>)
    returns (responses: seq<Response>, ghost schedule: seq<Action>)
    requires service.audit.Valid() && service.audit.chunks == [] && |times| == |messages|
    modifies service.audit
    ensures service.audit.Valid() && |responses| == |messages|
    ensures var s := Run(Start(service.release, service.source), schedule);
      && Accounted(s) && s.chunks == service.audit.chunks && |s.connections| == |messages|
      && forall i | 0 <= i < |messages| ::
           && s.connections[i].message == messages[i] && s.connections[i].phase.Answered?
           && s.connections[i].phase.response == responses[i]
  {
    hide Step, Check, Scrubbed, Trace, ResponseTo, EventFor, Accounted, IsInvoke;
    responses, schedule := [], [];
    ghost var start := Start(service.release, service.source);
    for k := 0 to |messages|
      invariant service.audit.Valid() && |responses| == k
      invariant Run(start, schedule).chunks == service.audit.chunks
      invariant Run(start, schedule).release == service.release && Run(start, schedule).source == service.source
      invariant |Run(start, schedule).connections| == k
      invariant forall i | 0 <= i < k ::
        && Run(start, schedule).connections[i].message == messages[i]
        && Run(start, schedule).connections[i].phase.Answered?
        && Run(start, schedule).connections[i].phase.response == responses[i]
    {
      ghost var s, fault := Run(start, schedule), service.audit.Fault();
      ghost var line := if IsInvoke(messages[k]) then LineFor(service.audit, messages[k], times[k]) else "";
      var response := service.HandleConnection(messages[k], times[k]);
      responses := responses + [response];
      HandlingIsThreeActions(s, messages[k], fault, times[k], line);
      RunFurther(start, schedule, Arrive(messages[k]));
      RunFurther(start, schedule + [Arrive(messages[k])], Record(k, fault, times[k], line));
      RunFurther(start, schedule + [Arrive(messages[k])] + [Record(k, fault, times[k], line)], Respond(k));
      schedule := schedule + [Arrive(messages[k])] + [Record(k, fault, times[k], line)] + [Respond(k)];
      assert forall i | 0 <= i < k :: Run(start, schedule).connections[..k][i] == s.connections[i];
    }
    EveryOutputHasItsOwnRecord(service.release, service.source, schedule);
  }

  ghost function LineFor(audit: JSONLAudit, m: Message, time: int): string
    requires IsInvoke(m)
  {
    audit.encode(EventFor(FromSocket(m.request), time)) + "\n"
  }

  // Spoofed callers

  predicate SameButCaller(m: Message, n: Message)
  {
    match (m, n)
    case (Malformed, Malformed) => true
    case (Message(o, r), Message(p, q)) => o == p && r.(caller := "") == q.(caller := "")
    case _ => false
  }

  predicate SameActions(a: Action, b: Action)
  {
    if a.Arrive? && b.Arrive? then SameButCaller(a.message, b.message) else a == b
  }

  predicate Indistinguishable(s: Server, t: Server)
  {
    && s.chunks == t.chunks && s.release == t.release && s.source == t.source
    && |s.connections| == |t.connections|
    && forall i | 0 <= i < |s.connections| ::
         && s.connections[i].phase == t.connections[i].phase
         && SameButCaller(s.connections[i].message, t.connections[i].message)
  }

  /** Whatever callers the messages claim, every decision, answer and audit record of the whole schedule
      is the same. */
  lemma {:induction false} SpoofedCallersChangeNothing(
    release: string, source: string, a: seq<Action>, b: seq<Action>)
    requires |a| == |b| && forall k | 0 <= k < |a| :: SameActions(a[k], b[k])
    ensures Indistinguishable(Run(Start(release, source), a), Run(Start(release, source), b))
  {
    if a != [] {
      var n := |a| - 1;
      SpoofedCallersChangeNothing(release, source, a[..n], b[..n]);
      StepIgnoresCaller(Run(Start(release, source), a[..n]), Run(Start(release, source), b[..n]), a[n], b[n]);
    }
  }

  lemma StepIgnoresCaller(s: Server, t: Server, a: Action, b: Action)
    requires Indistinguishable(s, t) && SameActions(a, b)
    ensures Indistinguishable(Step(s, a), Step(t, b))
  {
    hide Redacted, Check;
    if !a.Arrive? && a.who < |s.connections| {
      var m, n := s.connections[a.who].message, t.connections[a.who].message;
      assert SameButCaller(m, n);
      assert m.Message? ==> FromSocket(m.request) == FromSocket(n.request);
    }
  }
}
