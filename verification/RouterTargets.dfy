/** TxnRouter is one of the targets of AnyTargets: it keeps to the protocol and answers in turn. */
module RouterTargets {
  import opened Common
  import opened Kernel
  import opened BaseProtocol
  import opened Payloads
  import opened BlockingPackets
  import opened TxnRouters
  import opened SlavePorts
  import opened Pipes
  import opened Simulation
  import AnyTargets
  import Bridges
  import BridgeEvents
  import Runs

  function Named(pool: PoolState, h: Option<Handle>): (r: Option<nat>) {
    if h.None? then None else Some(SerialOf(pool, h.value))
  }

  /** Socket k as AnyTargets sees it, each payload named by the serial number of its transaction. */
  function AsSocket(s: PortState, k: nat): (r: AnyTargets.SocketState)
    requires k < |s.lanes|
  {
    var events := s.lanes[k].events;
    AnyTargets.SocketState(
      s.now, Named(s.pool, At(s.helper.request, k)), Named(s.pool, At(s.helper.response, k)),
      seq(|events|, i requires 0 <= i < |events| => AnyTargets.Queued(events[i].phase, SerialOf(s.pool, events[i].h), events[i].at)),
      s.lanes[k].log.wire, [])
  }

  /** The router has made one call more, or none. */
  predicate OneCall(l: Lane, l': Lane, n: nat) {
    || (l'.events == l.events && l'.log.wire == l.log.wire)
    || (|l'.events| == |l.events| + 1 && l'.events == l.events + [l'.events[|l.events|]]
        && l'.log.wire == l.log.wire + [WireEvent(l'.events[|l.events|].phase, n)])
  }

  lemma SendEndReqCalls(l: Lane, p: PoolState, now: Time, h: Handle)
    ensures SendEndReq(l, p, now, h).Ok? ==> OneCall(l, SendEndReq(l, p, now, h).value, SerialOf(p, h))
  {
  }

  lemma SendResponseCalls(l: Lane, p: PoolState, now: Time, h: Handle)
    ensures SendResponse(l, p, now, h).Ok? ==> OneCall(l, SendResponse(l, p, now, h).value.0, SerialOf(p, h))
  {
  }

  lemma PeqCalls(l: Lane, p: PoolState, now: Time, e: PeqEntry) returns (n: nat)
    requires l.router.nextResponse.None?
    ensures PeqCallback(l, p, now, e).Ok? ==> OneCall(l, PeqCallback(l, p, now, e).value.0, n)
  {
    n := 0;
    var l1 := l.(router := l.router.(peq := l.router.peq - multiset{e}));
    if e.phase == BeginReq && Acquire(p, e.h).Ok? {
      n := SerialOf(Acquire(p, e.h).value, e.h);
      SendEndReqCalls(l1, Acquire(p, e.h).value, now, e.h);
    } else if e.phase == EndResp && l.router.endReqPending.Some? {
      n := SerialOf(p, l.router.endReqPending.value);
      SendEndReqCalls(l1.(router := l1.router.(inProgress := None, responding := false)), p, now, l.router.endReqPending.value);
    }
  }

  lemma MemoryCalls(l: Lane, p: PoolState, now: Time) returns (n: nat)
    ensures OnMemoryDone(l, p, now).Ok? ==> OneCall(l, OnMemoryDone(l, p, now).value.0, n)
  {
    n := 0;
    if l.router.inProgress.Some? {
      n := SerialOf(p, l.router.inProgress.value);
      SendResponseCalls(l.(router := l.router.(thread := Listening)), p, now, l.router.inProgress.value);
    }
  }

  predicate OfRouter(step: Runs.Step) {
    step.Peq? || step.Done? || step.Memory?
  }

  lemma StepCalls(s: PortState, pipes: seq<Pipe>, step: Runs.Step, s': PortState) returns (n: nat)
    requires Refines(s, pipes) && Runs.Enabled(s, step) && OfRouter(step) && Runs.Next(s, step) == Ok(s')
    ensures |s'.lanes| == |s.lanes| && OneCall(s.lanes[step.k], s'.lanes[step.k], n)
  {
    n := 0;
    assert LaneAt(s, step.k, pipes[step.k]);
    match step
    case Peq(k, e) => n := PeqCalls(s.lanes[k], s.pool, s.now, e);
    case Done(_, _) =>
    case Memory(k) => n := MemoryCalls(s.lanes[k], s.pool, s.now);
  }

  /** At most one event of a socket is queued, and the phases on the socket are legal. */
  lemma LaneLegal(s: PortState, k: nat, q: Pipe)
    requires LaneAt(s, k, q)
    ensures |s.lanes[k].events| <= 1 && Legal(s.lanes[k].log.wire)
  {
  }

  /**
   * Whatever TxnRouter does in a reachable state, it makes at most one call of
   * nb_transport_bw, and that call is one that AnyTargets allows: it is legal, it
   * takes effect not before now, and BEGIN_RESP is raised when no event of the
   * socket is queued any more, so that its END_REQ has been handled before.
   */
  lemma AnswersInTurn(s: PortState, pipes: seq<Pipe>, step: Runs.Step) returns (s': PortState, n: nat)
    requires Refines(s, pipes) && Runs.Enabled(s, step) && OfRouter(step)
    ensures Runs.Next(s, step) == Ok(s')
    ensures var added := Bridges.NewEvents(s, s', step.k);
            && |added| <= 1
            && (|added| == 1 ==>
                  && s.lanes[step.k].events == []
                  && AnyTargets.Enabled(AsSocket(s, step.k), AnyTargets.Answer(added[0].phase, n, added[0].at), true)
                  && s'.lanes[step.k].log.wire == s.lanes[step.k].log.wire + [WireEvent(added[0].phase, n)])
  {
    var k, q := step.k, pipes;
    q, s' := Runs.InternalStep(s, pipes, step);
    n := StepCalls(s, pipes, step, s');
    BridgeEvents.RouterRaises(s, step);
    LaneLegal(s, k, pipes[k]);
    LaneLegal(s', k, q[k]);
    var added := Bridges.NewEvents(s, s', k);
    if |added| == 1 {
      assert s'.lanes[k].events == s.lanes[k].events + added;
      MonitorAppend(s.lanes[k].log.wire, WireEvent(added[0].phase, n));
    }
  }
}
