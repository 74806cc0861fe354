/**
 * include/txn_router.h: the target behind one socket, as functions on its state.
 * A lane is everything that belongs to one socket besides the port's own maps:
 * the router, the PayloadEvents raised through the socket, and its history.
 */
module TxnRouters {
  import opened Common
  import opened Kernel
  import opened BaseProtocol
  import opened Payloads

  const END_REQ_DELAY: Time := 10_000   // 10 ns in ticks of 1 ps
  const TARGET_LATENCY: Time := 15_000
  const BEGIN_RESP_DELAY: Time := 10_000

  datatype MemRange = MemRange(start: nat, size: nat)

  /** The upper bound is computed on uint64_t and wraps. */
  predicate ToMem(m: MemRange, addr: nat) {
    m.start <= addr < (m.start + m.size) % TWO64
  }

  datatype PeqEntry = PeqEntry(h: Handle, phase: Phase, at: Time)

  /** execute_transaction_process waits for target_done_event, or is inside the memory's b_transport. */
  datatype Thread = Listening | InMemory(until: Time)

  datatype RouterState = RouterState(
    range: MemRange,
    peq: multiset<PeqEntry>,
    inProgress: Option<Handle>,
    responding: bool,
    nextResponse: Option<Handle>,
    endReqPending: Option<Handle>,
    targetDone: Option<Time>,
    thread: Thread)

  /** A PayloadEvent of the port, scheduled on the gem5 queue for tick at. */
  datatype PayloadEvent = PayloadEvent(h: Handle, phase: Phase, at: Time)

  /**
   * The history of a socket: phases in the order of the transport calls, the tick at
   * which each takes effect, and the packets that were accepted, handed to memory,
   * finished by END_RESP, and answered to gem5.
   */
  datatype Log = Log(
    wire: seq<WireEvent>, due: seq<Time>,
    accepted: seq<Ticket>, executed: seq<Ticket>, ended: seq<Ticket>, answered: seq<Ticket>)

  datatype Lane = Lane(router: RouterState, events: seq<PayloadEvent>, log: Log)

  function NewRouter(range: MemRange): (r: RouterState) {
    RouterState(range, multiset{}, None, false, None, None, None, Listening)
  }

  function NewLane(range: MemRange): (r: Lane) {
    Lane(NewRouter(range), [], Log([], [], [], [], [], []))
  }

  function OnWire(l: Lane, p: PoolState, h: Handle, phase: Phase, at: Time): (r: Lane) {
    l.(log := l.log.(wire := l.log.wire + [WireEvent(phase, SerialOf(p, h))], due := l.log.due + [at]))
  }

  /** The port's nb_transport_bw: it queues a PayloadEvent and answers TLM_ACCEPTED. */
  function NbTransportBw(l: Lane, p: PoolState, h: Handle, phase: Phase, at: Time): (r: Lane) {
    OnWire(l, p, h, phase, at).(events := l.events + [PayloadEvent(h, phase, at)])
  }

  /** The router's nb_transport_fw: it queues the phase in its peq and answers TLM_ACCEPTED. */
  function NbTransportFw(l: Lane, p: PoolState, h: Handle, phase: Phase, at: Time): (r: Outcome<Lane>) {
    if h >= |p.slots| then Fatal(BadPayload)
    else if !ToMem(l.router.range, p.slots[h].addr) then Fatal(AddressOutOfRange)
    else Ok(OnWire(l, p, h, phase, at).(router := l.router.(peq := l.router.peq + multiset{PeqEntry(h, phase, at)})))
  }

  function SendEndReq(l: Lane, p: PoolState, now: Time, h: Handle): (r: Outcome<Lane>) {
    var l1 := NbTransportBw(l, p, h, EndReq, now + END_REQ_DELAY);
    if l.router.inProgress.Some? then Fatal(TargetBusy)
    else Ok(l1.(router := l1.router.(
                  targetDone := Notify(l1.router.targetDone, now + END_REQ_DELAY + TARGET_LATENCY),
                  inProgress := Some(h))))
  }

  function SendResponse(l: Lane, p: PoolState, now: Time, h: Handle): (r: Outcome<(Lane, PoolState)>) {
    var l1 := NbTransportBw(l.(router := l.router.(responding := true)), p, h, BeginResp, now + BEGIN_RESP_DELAY);
    var p1 :- Release(p, h);
    Ok((l1, p1))
  }

  /** peq_cb on BEGIN_REQ. */
  function OnBeginReq(l: Lane, p: PoolState, now: Time, h: Handle): (r: Outcome<(Lane, PoolState)>) {
    var p1 :- Acquire(p, h);
    if l.router.inProgress.None? then
      var l1 :- SendEndReq(l, p1, now, h);
      Ok((l1, p1))
    else Ok((l.(router := l.router.(endReqPending := Some(h))), p1))
  }

  /** peq_cb on END_RESP. */
  function OnEndResp(l: Lane, p: PoolState, now: Time): (r: Outcome<(Lane, PoolState)>) {
    if !l.router.responding then Fatal(IllegalPhase)
    else
      var l1 := l.(router := l.router.(inProgress := None, responding := false));
      var (l2, p2) :- if l1.router.nextResponse.None? then Ok((l1, p))
                      else SendResponse(l1, p, now, l1.router.nextResponse.value);
      var l3 := l2.(router := l2.router.(nextResponse := None));
      var l4 :- if l3.router.endReqPending.None? then Ok(l3)
                else SendEndReq(l3, p2, now, l3.router.endReqPending.value);
      Ok((l4.(router := l4.router.(endReqPending := None)), p2))
  }

  /** peq_cb, called with an entry whose time has come. */
  function PeqCallback(l: Lane, p: PoolState, now: Time, e: PeqEntry): (r: Outcome<(Lane, PoolState)>) {
    var l1 := l.(router := l.router.(peq := l.router.peq - multiset{e}));
    match e.phase
    case BeginReq => OnBeginReq(l1, p, now, e.h)
    case EndResp => OnEndResp(l1, p, now)
    case EndReq => Fatal(IllegalPhase)
    case BeginResp => Fatal(IllegalPhase)
  }

  /**
   * target_done_event: the process wakes and hands the transaction to memory for
   * latency ticks. A notification that finds the process inside the memory is lost.
   */
  function OnTargetDone(l: Lane, p: PoolState, now: Time, latency: Time): (r: Outcome<Lane>) {
    if l.router.thread.InMemory? then Ok(l.(router := l.router.(targetDone := None)))
    else if l.router.inProgress.None? then Fatal(NullTransaction)
    else
      var ext :- GetExtension(p, l.router.inProgress.value);
      Ok(l.(router := l.router.(targetDone := None, thread := InMemory(now + latency)),
            log := l.log.(executed := l.log.executed + [ext.packet.Stub()])))
  }

  /** b_transport has returned: respond, or keep the response for later. */
  function OnMemoryDone(l: Lane, p: PoolState, now: Time): (r: Outcome<(Lane, PoolState)>) {
    var l1 := l.(router := l.router.(thread := Listening));
    if l1.router.responding then
      if l1.router.nextResponse.Some? then Fatal(TwoResponses)
      else Ok((l1.(router := l1.router.(nextResponse := l1.router.inProgress)), p))
    else if l1.router.inProgress.None? then Fatal(NullTransaction)
    else SendResponse(l1, p, now, l1.router.inProgress.value)
  }
}
