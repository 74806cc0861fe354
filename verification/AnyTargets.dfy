/**
 * One socket of the port with any target behind it that answers TLM_ACCEPTED and
 * follows the base protocol. It may have any number of transactions under way and
 * may let BEGIN_RESP stand in for END_REQ; payloads are named by their transaction.
 */
module AnyTargets {
  import opened Common
  import opened Kernel
  import opened BaseProtocol
  import opened EventQueues
  import EventLoops

  datatype Queued = Queued(phase: Phase, txn: nat, at: Time)

  /**
   * blocking and blocked are the entries of the two blocking maps at the key of the
   * socket, events the PayloadEvents raised through it. freed lists the transactions
   * in the order in which they freed the request channel.
   */
  datatype SocketState = SocketState(
    now: Time, blocking: Option<nat>, blocked: Option<nat>, events: seq<Queued>, wire: seq<WireEvent>, freed: seq<nat>)

  const NEW_SOCKET := SocketState(0, None, None, [], [], [])

  datatype Step =
    | Accept(t: nat)                             // recvTimingReq accepts a request
    | Answer(phase: Phase, t: nat, at: Time)     // the target calls nb_transport_bw
    | Handle(i: nat, accept: bool, next: Option<nat>)   // pec, on the i-th event; gem5 may send the next request from within
    | Retry                                      // recvRespRetry
    | Tick(to: Time)

  function OnWire(s: SocketState, phase: Phase, t: nat): (r: SocketState) {
    s.(wire := s.wire + [WireEvent(phase, t)])
  }

  /** recvTimingReq: the request is accepted if the channel is free. */
  function Request(s: SocketState, t: nat): (r: SocketState) {
    if s.blocking.Some? then s else OnWire(s, BeginReq, t).(blocking := Some(t))
  }

  predicate Frees(s: SocketState, e: Queued) {
    e.phase == EndReq || (s.blocking == Some(e.txn) && e.phase == BeginResp)
  }

  /** The first half of pec. */
  function Unblock(s: SocketState, e: Queued): (r: Outcome<SocketState>) {
    if Frees(s, e) then
      if s.blocking != Some(e.txn) then Fatal(NotBlocking)
      else Ok(s.(blocking := None, freed := s.freed + [e.txn]))
    else Ok(s)
  }

  /** The second half of pec; accept is gem5's answer to sendTimingResp. */
  function Respond(s: SocketState, e: Queued, accept: bool): (r: Outcome<SocketState>) {
    if e.phase != BeginResp then Ok(s)
    else if s.blocked.Some? then Fatal(ResponseBlocked)
    else if accept then Ok(OnWire(s, EndResp, e.txn))
    else Ok(s.(blocked := Some(e.txn)))
  }

  /** pec: between the two halves it calls sendRetryReq, and gem5 may send the next request at once. */
  function Pec(s: SocketState, e: Queued, accept: bool, next: Option<nat>): (r: Outcome<SocketState>) {
    var s1 :- Unblock(s, e);
    Respond(if next.Some? then Request(s1, next.value) else s1, e, accept)
  }

  /** gem5 services the i-th event. */
  function Service(s: SocketState, i: nat, accept: bool, next: Option<nat>): (r: Outcome<SocketState>)
    requires i < |s.events|
  {
    Pec(s.(events := s.events[..i] + s.events[i + 1..]), s.events[i], accept, next)
  }

  function RecvRespRetry(s: SocketState): (r: SocketState) {
    if s.blocked.None? then s else OnWire(s.(blocked := None), EndResp, s.blocked.value)
  }

  predicate Fresh(s: SocketState, t: nat) {
    Legal(s.wire) && t !in Monitor(s.wire).value.begun
  }

  /** BEGIN_RESP of a transaction is to come into effect after its END_REQ. */
  predicate InTurn(s: SocketState, phase: Phase, t: nat, at: Time) {
    phase == BeginResp ==> forall i :: 0 <= i < |s.events| && s.events[i].txn == t ==> s.events[i].at < at
  }

  /** The target keeps to the protocol, and if strict it answers in turn. */
  predicate Enabled(s: SocketState, step: Step, strict: bool) {
    match step
    case Accept(t) => s.blocking.None? && Fresh(s, t)
    case Answer(phase, t, at) =>
      && (phase == EndReq || phase == BeginResp)
      && Legal(s.wire) && Observe(Monitor(s.wire).value, WireEvent(phase, t)).Some?
      && s.now <= at && (strict ==> InTurn(s, phase, t, at))
    case Handle(i, _, next) =>
      && i < |s.events| && s.events[i].at == s.now
      && (next.Some? ==> Frees(s, s.events[i]) && Fresh(s, next.value))
    case Retry => true
    case Tick(to) => s.now < to && forall i :: 0 <= i < |s.events| ==> to <= s.events[i].at
  }

  function Next(s: SocketState, step: Step): (r: Outcome<SocketState>)
    requires Enabled(s, step, false)
  {
    match step
    case Accept(t) => Ok(Request(s, t))
    case Answer(phase, t, at) => Ok(OnWire(s, phase, t).(events := s.events + [Queued(phase, t, at)]))
    case Handle(i, accept, next) => Service(s, i, accept, next)
    case Retry => Ok(RecvRespRetry(s))
    case Tick(to) => Ok(s.(now := to))
  }

  // ---------- the invariant ----------

  /** At most one END_REQ and one BEGIN_RESP are queued. */
  predicate Shape(events: seq<Queued>) {
    && |events| <= 2
    && (forall i :: 0 <= i < |events| ==> events[i].phase == EndReq || events[i].phase == BeginResp)
    && (|events| == 2 ==> events[0].phase != events[1].phase)
  }

  function Find(events: seq<Queued>, phase: Phase): (r: Option<Queued>) {
    if events == [] then None
    else if events[0].phase == phase then Some(events[0])
    else Find(events[1..], phase)
  }

  /** What the port believes of the request channel, given what is on the wire and what is queued. */
  predicate RequestOk(blocking: Option<nat>, c: Channels, endReq: Option<Queued>, beginResp: Option<Queued>) {
    && (c.request.Some? ==> blocking == c.request && endReq.None?)
    && (endReq.Some? ==> blocking == Some(endReq.value.txn))
    && (c.request.None? && endReq.None? && blocking.Some? ==> beginResp.Some? && blocking == Some(beginResp.value.txn))
    && (blocking.Some? ==> blocking.value in c.begun)
  }

  /** The response on the wire is either queued or refused by gem5. */
  predicate ResponseOk(blocked: Option<nat>, c: Channels, beginResp: Option<Queued>) {
    if beginResp.Some? then c.response == Some(beginResp.value.txn) && blocked.None? else c.response == blocked
  }

  /** A transaction frees the request channel once, between its BEGIN_REQ and the next. */
  ghost predicate FreedOnce(s: SocketState) {
    Legal(s.wire)
    && forall t: nat :: multiset(s.freed)[t] == One(t in Monitor(s.wire).value.begun && s.blocking != Some(t))
  }

  predicate Ordered(endReq: Option<Queued>, beginResp: Option<Queued>) {
    endReq.Some? && beginResp.Some? && endReq.value.txn == beginResp.value.txn ==> endReq.value.at < beginResp.value.at
  }

  predicate Consistent(s: SocketState) {
    && Legal(s.wire) && Shape(s.events)
    && var c, endReq, beginResp := Monitor(s.wire).value, Find(s.events, EndReq), Find(s.events, BeginResp);
    && RequestOk(s.blocking, c, endReq, beginResp) && ResponseOk(s.blocked, c, beginResp)
  }

  ghost predicate Invariant(s: SocketState) {
    && Consistent(s) && FreedOnce(s)
    && Ordered(Find(s.events, EndReq), Find(s.events, BeginResp))
    && forall i :: 0 <= i < |s.events| ==> s.now <= s.events[i].at
  }

  // ---------- steps ----------

  lemma AcceptStep(s: SocketState, t: nat)
    requires Invariant(s) && Enabled(s, Accept(t), true)
    ensures Invariant(Next(s, Accept(t)).value)
  {
    MonitorConsistent(s.wire);
    MonitorAppend(s.wire, WireEvent(BeginReq, t));
  }

  lemma FindAppend(events: seq<Queued>, e: Queued)
    requires Shape(events) && Find(events, e.phase).None? && (e.phase == EndReq || e.phase == BeginResp)
    ensures Shape(events + [e]) && Find(events + [e], e.phase) == Some(e)
    ensures forall p :: p != e.phase ==> Find(events + [e], p) == Find(events, p)
  {
    if |events| == 1 {
      assert (events + [e])[1..] == [e] && events[1..] == [] && [e][1..] == [];
    } else if events == [] {
      assert (events + [e])[1..] == [];
    } else {
      FindMember(events, e.phase);
    }
  }

  lemma AnswerStep(s: SocketState, phase: Phase, t: nat, at: Time)
    requires Invariant(s) && Enabled(s, Answer(phase, t, at), true)
    ensures Invariant(Next(s, Answer(phase, t, at)).value)
  {
    BaseProtocol.MonitorConsistent(s.wire);
    MonitorAppend(s.wire, WireEvent(phase, t));
    var e := Queued(phase, t, at);
    FindAppend(s.events, e);
    FindMember(s.events, EndReq);
  }

  lemma {:induction false} FindMember(events: seq<Queued>, phase: Phase)
    ensures Find(events, phase).Some? ==> exists i :: 0 <= i < |events| && events[i] == Find(events, phase).value
    ensures Find(events, phase).None? ==> forall i :: 0 <= i < |events| ==> events[i].phase != phase
    decreases |events|
  {
    if events != [] {
      FindMember(events[1..], phase);
      assert forall i :: 0 < i < |events| ==> events[i] == events[1..][i - 1];
      assert forall i :: 0 <= i < |events| - 1 ==> events[1..][i] == events[i + 1];
    }
  }

  /** The event that is handled is the one found under its phase, and the other one stays. */
  lemma FindRemove(events: seq<Queued>, i: nat)
    requires Shape(events) && i < |events|
    ensures var rest := events[..i] + events[i + 1..];
            && Shape(rest) && Find(rest, events[i].phase).None? && Find(events, events[i].phase) == Some(events[i])
            && (forall p :: p != events[i].phase ==> Find(rest, p) == Find(events, p))
            && (forall j :: 0 <= j < |rest| ==> rest[j] in events)
  {
    var rest := events[..i] + events[i + 1..];
    if |events| == 1 {
      assert rest == [] && events[1..] == [];
    } else {
      assert rest == [events[1 - i]] && rest[1..] == [] && events[1..] == [events[1]] && events[1..][1..] == [];
    }
  }

  /** What the handler of an event works with, once the event is off the queue. */
  predicate Handling(s: SocketState, s0: SocketState, e: Queued) {
    && s0 == s.(events := s0.events) && Shape(s0.events)
    && Find(s.events, e.phase) == Some(e) && Find(s0.events, e.phase).None?
    && (forall p :: p != e.phase ==> Find(s0.events, p) == Find(s.events, p))
    && (forall j :: 0 <= j < |s0.events| ==> s.now <= s0.events[j].at)
    && e.at == s.now
  }

  lemma HandlingEvent(s: SocketState, i: nat) returns (s0: SocketState)
    requires Invariant(s) && i < |s.events| && s.events[i].at == s.now
    ensures s0 == s.(events := s.events[..i] + s.events[i + 1..])
    ensures Handling(s, s0, s.events[i]) && (s.events[i].phase == EndReq || s.events[i].phase == BeginResp)
  {
    FindRemove(s.events, i);
    s0 := s.(events := s.events[..i] + s.events[i + 1..]);
    forall j | 0 <= j < |s0.events|
      ensures s.now <= s0.events[j].at
    {
      assert s0.events[j] in s.events;
    }
  }

  /** The blocking transaction frees the channel. */
  lemma FreedMore(s: SocketState, s': SocketState)
    requires FreedOnce(s) && s.blocking.Some? && s.blocking.value in Monitor(s.wire).value.begun
    requires s'.wire == s.wire && s'.blocking.None? && s'.freed == s.freed + [s.blocking.value]
    ensures FreedOnce(s')
  {
  }

  lemma EndReqHandled(s: SocketState, s0: SocketState, e: Queued)
    requires Invariant(s) && Handling(s, s0, e) && e.phase == EndReq
    ensures Unblock(s0, e).Ok? && Invariant(Unblock(s0, e).value)
  {
    FreedMore(s, Unblock(s0, e).value);
  }

  /** No END_REQ of the same transaction is still to come. */
  lemma NoEndReqLeft(s: SocketState, s0: SocketState, e: Queued)
    requires Invariant(s) && Handling(s, s0, e) && e.phase == BeginResp
    ensures s.blocking == Some(e.txn) ==> Find(s.events, EndReq).None? && Monitor(s.wire).value.request.None?
  {
    FindMember(s.events, EndReq);
    BaseProtocol.MonitorConsistent(s.wire);
  }

  /** The state after the first half of pec, on BEGIN_RESP. */
  predicate Unblocked(s1: SocketState, e: Queued) {
    && Legal(s1.wire) && Shape(s1.events)
    && Find(s1.events, BeginResp).None? && s1.blocked.None? && Monitor(s1.wire).value.response == Some(e.txn)
    && RequestOk(s1.blocking, Monitor(s1.wire).value, Find(s1.events, EndReq), None)
    && forall j :: 0 <= j < |s1.events| ==> s1.now <= s1.events[j].at
  }

  lemma BeginRespUnblocks(s: SocketState, s0: SocketState, e: Queued)
    requires Invariant(s) && Handling(s, s0, e) && e.phase == BeginResp
    ensures Unblock(s0, e).Ok? && Unblocked(Unblock(s0, e).value, e) && FreedOnce(Unblock(s0, e).value)
  {
    NoEndReqLeft(s, s0, e);
    if s.blocking == Some(e.txn) {
      FreedMore(s, Unblock(s0, e).value);
    }
  }

  /** The next request, from within sendRetryReq. */
  lemma NextAccepted(s: SocketState, s0: SocketState, e: Queued, t: nat)
    requires Invariant(s) && Handling(s, s0, e) && e.phase == BeginResp && s.blocking == Some(e.txn) && Fresh(s, t)
    ensures Unblock(s0, e).Ok?
    ensures Unblocked(Request(Unblock(s0, e).value, t), e) && FreedOnce(Request(Unblock(s0, e).value, t))
  {
    NoEndReqLeft(s, s0, e);
    FreedMore(s, Unblock(s0, e).value);
    MonitorConsistent(s.wire);
    MonitorAppend(s.wire, WireEvent(BeginReq, t));
  }

  lemma RespondKeeps(s1: SocketState, e: Queued, accept: bool)
    requires Unblocked(s1, e) && FreedOnce(s1) && e.phase == BeginResp
    ensures Respond(s1, e, accept).Ok? && Invariant(Respond(s1, e, accept).value)
  {
    MonitorAppend(s1.wire, WireEvent(EndResp, e.txn));
  }

  lemma EndReqStep(s: SocketState, s0: SocketState, e: Queued, next: Option<nat>) returns (s1: SocketState)
    requires Invariant(s) && Handling(s, s0, e) && e.phase == EndReq && (next.Some? ==> Fresh(s, next.value))
    ensures Unblock(s0, e).Ok? && s1 == if next.Some? then Request(Unblock(s0, e).value, next.value) else Unblock(s0, e).value
    ensures Invariant(s1)
  {
    EndReqHandled(s, s0, e);
    s1 := Unblock(s0, e).value;
    if next.Some? {
      AcceptStep(s1, next.value);
      s1 := Request(s1, next.value);
    }
  }

  lemma BeginRespStep(s: SocketState, s0: SocketState, e: Queued, next: Option<nat>) returns (s1: SocketState)
    requires Invariant(s) && Handling(s, s0, e) && e.phase == BeginResp && (next.Some? ==> Frees(s, e) && Fresh(s, next.value))
    ensures Unblock(s0, e).Ok? && s1 == if next.Some? then Request(Unblock(s0, e).value, next.value) else Unblock(s0, e).value
    ensures Unblocked(s1, e) && FreedOnce(s1)
  {
    BeginRespUnblocks(s, s0, e);
    s1 := Unblock(s0, e).value;
    if next.Some? {
      NextAccepted(s, s0, e, next.value);
      s1 := Request(s1, next.value);
    }
  }

  lemma PecStep(s: SocketState, s0: SocketState, e: Queued, accept: bool, next: Option<nat>) returns (s': SocketState)
    requires Invariant(s) && Handling(s, s0, e) && (e.phase == EndReq || e.phase == BeginResp)
    requires next.Some? ==> Frees(s, e) && Fresh(s, next.value)
    ensures Pec(s0, e, accept, next) == Ok(s') && Invariant(s')
  {
    if e.phase == EndReq {
      s' := EndReqStep(s, s0, e, next);
    } else {
      var s1 := BeginRespStep(s, s0, e, next);
      RespondKeeps(s1, e, accept);
      s' := Respond(s1, e, accept).value;
    }
  }

  lemma HandleStep(s: SocketState, i: nat, accept: bool, next: Option<nat>) returns (s': SocketState)
    requires Invariant(s) && Enabled(s, Handle(i, accept, next), true)
    ensures Service(s, i, accept, next) == Ok(s') && Invariant(s')
  {
    var s0 := HandlingEvent(s, i);
    s' := PecStep(s, s0, s.events[i], accept, next);
  }

  lemma RetryStep(s: SocketState)
    requires Invariant(s)
    ensures Invariant(RecvRespRetry(s)) && RecvRespRetry(s).blocked.None?
  {
    if s.blocked.Some? {
      MonitorAppend(s.wire, WireEvent(EndResp, s.blocked.value));
    }
  }

  lemma EveryTargetStep(s: SocketState, step: Step) returns (s': SocketState)
    requires Invariant(s) && Enabled(s, step, true)
    ensures Next(s, step) == Ok(s') && Invariant(s')
  {
    s' := s;
    match step
    case Accept(t) =>
      AcceptStep(s, t);
      s' := Request(s, t);
    case Answer(phase, t, at) =>
      AnswerStep(s, phase, t, at);
      s' := Next(s, step).value;
    case Handle(i, accept, next) => s' := HandleStep(s, i, accept, next);
    case Retry =>
      RetryStep(s);
      s' := RecvRespRetry(s);
    case Tick(to) => s' := s.(now := to);
  }

  // ---------- runs ----------

  predicate Schedule(s: SocketState, steps: seq<Step>, strict: bool)
    decreases |steps|
  {
    steps == [] || (Enabled(s, steps[0], strict)
                    && (Next(s, steps[0]).Ok? ==> Schedule(Next(s, steps[0]).value, steps[1..], strict)))
  }

  function Run(s: SocketState, steps: seq<Step>, strict: bool): (r: Outcome<SocketState>)
    requires Schedule(s, steps, strict)
    decreases |steps|
  {
    if steps == [] then Ok(s)
    else
      var s1 :- Next(s, steps[0]);
      Run(s1, steps[1..], strict)
  }

  lemma {:induction false} EveryTargetRun(s: SocketState, steps: seq<Step>) returns (s': SocketState)
    requires Invariant(s) && Schedule(s, steps, true)
    ensures Run(s, steps, true) == Ok(s') && Invariant(s')
    decreases |steps|
  {
    s' := s;
    if steps != [] {
      var s1 := EveryTargetStep(s, steps[0]);
      s' := EveryTargetRun(s1, steps[1..]);
    }
  }

  /**
   * Whatever a target does within the protocol, if it answers in turn: the
   * assertions of pec hold, the phases on the socket are legal, and every request
   * that has been accepted has freed its request channel once, unless it still
   * blocks it.
   */
  lemma SingleUnblocking(steps: seq<Step>)
    requires Schedule(NEW_SOCKET, steps, true)
    ensures var r := Run(NEW_SOCKET, steps, true);
            && r.Ok? && Legal(r.value.wire)
            && forall t: nat :: multiset(r.value.freed)[t]
                 == One(Count(r.value.wire, WireEvent(BeginReq, t)) == 1 && r.value.blocking != Some(t))
  {
    var s := EveryTargetRun(NEW_SOCKET, steps);
    forall t: nat
      ensures Count(s.wire, WireEvent(BeginReq, t)) == One(t in Monitor(s.wire).value.begun)
    {
      PhaseCounts(s.wire, t);
    }
  }

  // ---------- answers out of turn ----------

  /** END_REQ and then BEGIN_RESP of one transaction have been raised, and neither has been handled. */
  predicate BothQueued(s: SocketState) {
    && Consistent(s) && |s.events| == 2 && s.events[0].txn == s.events[1].txn
    && s.events[0].phase == EndReq && s.events[1].phase == BeginResp
  }

  /** The gem5 queue with the two events in it, scheduled in that order. */
  function Scheduled(endReqAt: Time, beginRespAt: Time): (r: seq<Entry>) {
    Insert(Insert([], EventLoops.PayloadEntry(endReqAt, 0, EndReq, Nothing)),
           EventLoops.PayloadEntry(beginRespAt, 0, BeginResp, Nothing))
  }

  /** Which of the two gem5 services first. */
  function FirstServed(endReqAt: Time, beginRespAt: Time): (r: nat)
    ensures r < 2
  {
    if Scheduled(endReqAt, beginRespAt)[0].kind.phase == EndReq then 0 else 1
  }

  /**
   * The order of the two events is needed. gem5 services the one for the earlier
   * tick first, and of two for the same tick the one scheduled last: unless
   * BEGIN_RESP is due after END_REQ, it is handled first and frees the channel, and
   * the END_REQ that follows fails the assertion.
   */
  lemma OrderMatters(s: SocketState)
    requires BothQueued(s)
    ensures var i := FirstServed(s.events[0].at, s.events[1].at);
            && Service(s, i, true, None).Ok? && |Service(s, i, true, None).value.events| == 1
            && var r := Service(Service(s, i, true, None).value, 0, true, None);
               if s.events[0].at < s.events[1].at then r.Ok? else r == Fatal(NotBlocking)
  {
    FindRemove(s.events, 0);
    FindRemove(s.events, 1);
  }

  lemma StepOn(s: SocketState, step: Step, s1: SocketState, steps: seq<Step>, s': SocketState)
    requires Enabled(s, step, false) && Next(s, step) == Ok(s1)
    requires Schedule(s1, steps, false) && Run(s1, steps, false) == Ok(s')
    ensures Schedule(s, [step] + steps, false) && Run(s, [step] + steps, false) == Ok(s')
  {
    assert ([step] + steps)[1..] == steps;
  }

  /** The state after a request and both of its answers. */
  function AllOnWire(t: nat, at: Time): (r: SocketState) {
    SocketState(0, Some(t), None, [Queued(EndReq, t, at), Queued(BeginResp, t, at)],
                [WireEvent(BeginReq, t), WireEvent(EndReq, t), WireEvent(BeginResp, t)], [])
  }

  /** The three phases are legal one after the other. */
  lemma AllLegal(t: nat, w1: seq<WireEvent>, w2: seq<WireEvent>)
    requires w1 == [WireEvent(BeginReq, t)] && w2 == w1 + [WireEvent(EndReq, t)]
    ensures Legal(w1) && Observe(Monitor(w1).value, WireEvent(EndReq, t)).Some?
    ensures Legal(w2) && Observe(Monitor(w2).value, WireEvent(BeginResp, t)).Some?
    ensures Monitor(w2 + [WireEvent(BeginResp, t)]) == Observe(Monitor(w2).value, WireEvent(BeginResp, t))
  {
    MonitorAppend([], WireEvent(BeginReq, t));
    MonitorAppend(w1, WireEvent(EndReq, t));
    MonitorAppend(w2, WireEvent(BeginResp, t));
    assert [] + [WireEvent(BeginReq, t)] == w1;
  }

  lemma AllOnWireBoth(t: nat, at: Time)
    ensures BothQueued(AllOnWire(t, at))
  {
    var w1 := [WireEvent(BeginReq, t)];
    AllLegal(t, w1, w1 + [WireEvent(EndReq, t)]);
    assert w1 + [WireEvent(EndReq, t)] + [WireEvent(BeginResp, t)] == AllOnWire(t, at).wire;
    assert AllOnWire(t, at).events[1..] == [Queued(BeginResp, t, at)];
  }

  /** Each of the three steps is enabled. */
  lemma AllEnabled(t: nat, at: Time, s1: SocketState, s2: SocketState)
    requires s1 == Request(NEW_SOCKET, t) && s2 == OnWire(s1, EndReq, t).(events := [Queued(EndReq, t, at)])
    ensures Enabled(NEW_SOCKET, Accept(t), false)
    ensures Enabled(s1, Answer(EndReq, t, at), false) && Next(s1, Answer(EndReq, t, at)) == Ok(s2)
    ensures Enabled(s2, Answer(BeginResp, t, at), false) && Next(s2, Answer(BeginResp, t, at)) == Ok(AllOnWire(t, at))
  {
    assert s1.wire == [WireEvent(BeginReq, t)] && s2.wire + [WireEvent(BeginResp, t)] == AllOnWire(t, at).wire;
    assert s1.events + [Queued(EndReq, t, at)] == s2.events;
    assert s2.events + [Queued(BeginResp, t, at)] == AllOnWire(t, at).events;
    AllLegal(t, s1.wire, s2.wire);
  }

  /** Such a state is reached: a request, and both answers for one tick. */
  lemma BothAtOnce(t: nat, at: Time) returns (steps: seq<Step>, s: SocketState)
    ensures Schedule(NEW_SOCKET, steps, false) && Run(NEW_SOCKET, steps, false) == Ok(s)
    ensures BothQueued(s) && s.events[0].at == s.events[1].at == at
  {
    s := AllOnWire(t, at);
    AllOnWireBoth(t, at);
    var s1 := Request(NEW_SOCKET, t);
    var s2 := OnWire(s1, EndReq, t).(events := [Queued(EndReq, t, at)]);
    AllEnabled(t, at, s1, s2);
    steps := [];
    assert Schedule(s, steps, false) && Run(s, steps, false) == Ok(s);
    StepOn(s2, Answer(BeginResp, t, at), s, steps, s);
    steps := [Answer(BeginResp, t, at)] + steps;
    StepOn(s1, Answer(EndReq, t, at), s2, steps, s);
    steps := [Answer(EndReq, t, at)] + steps;
    StepOn(NEW_SOCKET, Accept(t), s1, steps, s);
    steps := [Accept(t)] + steps;
  }
}
