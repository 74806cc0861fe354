/** include/txn_router.h as an object: the target behind one socket. */
module RouterModule {
  import opened Common
  import opened Kernel
  import opened BaseProtocol
  import opened Payloads
  import opened TxnRouters
  import opened MemoryManagers

  /** The port's end of one socket: the PayloadEvents it has queued for the socket, and the history. */
  class SocketEnd {
    var events: seq<PayloadEvent>
    var log: Log

    constructor ()
      ensures events == [] && log == Log([], [], [], [], [], [])
    {
      events := [];
      log := Log([], [], [], [], [], []);
    }

    /** nb_transport_bw queues an event at the current time plus the annotated delay. */
    method NbTransportBw(mm: MemoryManager, h: Handle, phase: Phase, now: Time, delay: Time)
      modifies this
      ensures events == old(events) + [PayloadEvent(h, phase, now + delay)]
      ensures log == old(log).(wire := old(log).wire + [WireEvent(phase, SerialOf(mm.View(), h))], due := old(log).due + [now + delay])
    {
      events := events + [PayloadEvent(h, phase, now + delay)];
      log := log.(wire := log.wire + [WireEvent(phase, SerialOf(mm.View(), h))], due := log.due + [now + delay]);
    }
  }

  class TxnRouter {
    const range: MemRange
    const tsock: SocketEnd
    var peq: multiset<PeqEntry>
    var transactionInProgress: Option<Handle>
    var responseInProgress: bool
    var nextResponsePending: Option<Handle>
    var endReqPending: Option<Handle>
    var targetDoneEvent: Option<Time>
    var process: Thread

    function State(): (r: RouterState)
      reads this
    {
      RouterState(range, peq, transactionInProgress, responseInProgress, nextResponsePending, endReqPending,
                  targetDoneEvent, process)
    }

    /** The lane of the specification: the router, the events of its socket and the history. */
    function View(): (r: Lane)
      reads this, tsock
    {
      Lane(State(), tsock.events, tsock.log)
    }

    constructor (range: MemRange, tsock: SocketEnd)
      ensures this.range == range && this.tsock == tsock
      ensures State() == NewRouter(range)
    {
      this.range := range;
      this.tsock := tsock;
      peq := multiset{};
      transactionInProgress, nextResponsePending, endReqPending := None, None, None;
      responseInProgress := false;
      targetDoneEvent, process := None, Listening;
    }

    method InMemoryRange(addr: nat) returns (b: bool)
      ensures b == ToMem(range, addr)
    {
      if addr < range.start {
        return false;
      }
      if addr >= (range.start + range.size) % TWO64 {
        return false;
      }
      return true;
    }

    /** nb_transport_fw queues the phase; the answer is TLM_ACCEPTED. */
    method NbTransportFw(mm: MemoryManager, h: Handle, phase: Phase, now: Time, delay: Time)
      requires TxnRouters.NbTransportFw(View(), mm.View(), h, phase, now + delay).Ok?
      modifies this`peq, tsock`log
      ensures Ok(View()) == TxnRouters.NbTransportFw(old(View()), mm.View(), h, phase, now + delay)
    {
      var toMem := InMemoryRange(mm.payloads[h].addr);
      assert toMem;
      tsock.log := tsock.log.(wire := tsock.log.wire + [WireEvent(phase, SerialOf(mm.View(), h))],
                              due := tsock.log.due + [now + delay]);
      peq := peq + multiset{PeqEntry(h, phase, now + delay)};
    }

    /** The port's BEGIN_REQ, entered in the history as accepted. */
    method TakeBeginReq(mm: MemoryManager, h: Handle, now: Time, delay: Time, stub: Ticket)
      requires TxnRouters.NbTransportFw(View(), mm.View(), h, BeginReq, now + delay).Ok?
      modifies this`peq, tsock`log
      ensures var l := TxnRouters.NbTransportFw(old(View()), mm.View(), h, BeginReq, now + delay).value;
              View() == l.(log := l.log.(accepted := l.log.accepted + [stub]))
    {
      NbTransportFw(mm, h, BeginReq, now, delay);
      tsock.log := tsock.log.(accepted := tsock.log.accepted + [stub]);
    }

    /** The port's END_RESP, entered in the history as the end of the transaction. */
    method TakeEndResp(mm: MemoryManager, h: Handle, now: Time, stub: Ticket, isResponse: bool)
      requires TxnRouters.NbTransportFw(View(), mm.View(), h, EndResp, now).Ok?
      modifies this`peq, tsock`log
      ensures var l := TxnRouters.NbTransportFw(old(View()), mm.View(), h, EndResp, now).value;
              View() == l.(log := l.log.(ended := l.log.ended + [stub],
                                         answered := if isResponse then l.log.answered + [stub] else l.log.answered))
    {
      NbTransportFw(mm, h, EndResp, now, 0);
      tsock.log := tsock.log.(ended := tsock.log.ended + [stub]);
      if isResponse {
        tsock.log := tsock.log.(answered := tsock.log.answered + [stub]);
      }
    }

    /** END_REQ goes out, and the target will be done some time after the initiator has seen it. */
    method SendEndRequest(mm: MemoryManager, now: Time, h: Handle)
      requires SendEndReq(View(), mm.View(), now, h).Ok?
      modifies this, tsock
      ensures Ok(View()) == SendEndReq(old(View()), mm.View(), now, h)
      ensures tsock.events == old(tsock.events) + [PayloadEvent(h, EndReq, now + 10_000)]
      ensures old(targetDoneEvent).None? ==> targetDoneEvent == Some(now + 25_000)
    {
      var delay := END_REQ_DELAY;
      tsock.NbTransportBw(mm, h, EndReq, now, delay);
      delay := delay + TARGET_LATENCY;
      targetDoneEvent := Notify(targetDoneEvent, now + delay);
      assert transactionInProgress.None?;
      transactionInProgress := Some(h);
    }

    /** BEGIN_RESP goes out, and the router lets go of the payload. */
    method SendResponseTo(mm: MemoryManager, now: Time, h: Handle)
      requires SendResponse(View(), mm.View(), now, h).Ok?
      modifies this, tsock, mm
      ensures Ok((View(), mm.View())) == SendResponse(old(View()), old(mm.View()), now, h)
      ensures tsock.events == old(tsock.events) + [PayloadEvent(h, BeginResp, now + 10_000)]
    {
      responseInProgress := true;
      tsock.NbTransportBw(mm, h, BeginResp, now, BEGIN_RESP_DELAY);
      mm.ReleasePayload(h);
    }

    /** peq_cb on BEGIN_REQ. */
    method HandleBeginReq(mm: MemoryManager, now: Time, h: Handle)
      requires OnBeginReq(View(), mm.View(), now, h).Ok?
      modifies this, tsock, mm
      ensures Ok((View(), mm.View())) == OnBeginReq(old(View()), old(mm.View()), now, h)
    {
      mm.AcquirePayload(h);
      if transactionInProgress.None? {
        SendEndRequest(mm, now, h);
      } else {
        endReqPending := Some(h);
      }
    }

    /** peq_cb on END_RESP. */
    method HandleEndResp(mm: MemoryManager, now: Time)
      requires OnEndResp(View(), mm.View(), now).Ok?
      modifies this, tsock, mm
      ensures Ok((View(), mm.View())) == OnEndResp(old(View()), old(mm.View()), now)
    {
      assert responseInProgress;
      transactionInProgress := None;
      responseInProgress := false;
      if nextResponsePending.Some? {
        SendResponseTo(mm, now, nextResponsePending.value);
        nextResponsePending := None;
      }
      if endReqPending.Some? {
        SendEndRequest(mm, now, endReqPending.value);
        endReqPending := None;
      }
    }

    /** peq_cb. */
    method PeqCallbackOn(mm: MemoryManager, now: Time, e: PeqEntry)
      requires PeqCallback(View(), mm.View(), now, e).Ok?
      modifies this, tsock, mm
      ensures Ok((View(), mm.View())) == PeqCallback(old(View()), old(mm.View()), now, e)
    {
      peq := peq - multiset{e};
      match e.phase {
        case BeginReq => HandleBeginReq(mm, now, e.h);
        case EndResp => HandleEndResp(mm, now);
      }
    }

    /** execute_transaction_process up to the memory's b_transport, which takes latency ticks. */
    method Execute(mm: MemoryManager, now: Time, latency: Time)
      requires OnTargetDone(View(), mm.View(), now, latency).Ok?
      modifies this, tsock`log
      ensures Ok(View()) == OnTargetDone(old(View()), mm.View(), now, latency)
    {
      targetDoneEvent := None;
      if process.Listening? {
        assert transactionInProgress.Some?;
        var ext := mm.payloads[transactionInProgress.value].ext.value;
        tsock.log := tsock.log.(executed := tsock.log.executed + [ext.packet.Stub()]);
        process := InMemory(now + latency);
      }
    }

    /** execute_transaction_process from the return of b_transport to the next wait. */
    method Complete(mm: MemoryManager, now: Time)
      requires OnMemoryDone(View(), mm.View(), now).Ok?
      modifies this, tsock, mm
      ensures Ok((View(), mm.View())) == OnMemoryDone(old(View()), old(mm.View()), now)
    {
      process := Listening;
      if responseInProgress {
        assert nextResponsePending.None?;
        nextResponsePending := transactionInProgress;
      } else {
        SendResponseTo(mm, now, transactionInProgress.value);
      }
    }
  }
}
