/**
 * When the assertions and the fatal errors of the code stop the simulation: exact
 * conditions for single calls, in any state, reachable or not.
 */
module Faults {
  import opened Common
  import opened Kernel
  import opened BaseProtocol
  import opened Payloads
  import opened BlockingPackets
  import opened TxnRouters
  import SlavePorts
  import EventLoops
  import EventQueues
  import MasterPorts

  // ---------- the helper ----------

  /** The index assertions: updateBlockingMap admits the spare key num, the others do not. */
  lemma HelperFaults(s: HelperState, k: nat, h: Option<Handle>, kind: PacketType, b: bool)
    requires s.Valid()
    ensures UpdateBlocking(s, k, h, kind).Ok? <==> k <= s.num
    ensures GetBlocking(s, k, kind).Ok? <==> k < s.num
    ensures NeedRetry(s, k).Ok? <==> k < s.num
    ensures UpdateRetry(s, k, b).Ok? <==> k < s.num
  {
  }

  // ---------- the router ----------

  predicate InUse(p: PoolState, h: Handle) {
    h < |p.slots| && p.slots[h].refs > 0
  }

  /** peq_cb: only BEGIN_REQ and END_RESP are legal, and END_RESP only while a response is in progress. */
  lemma PeqFaults(l: Lane, p: PoolState, now: Time, e: PeqEntry)
    ensures e.phase == EndReq || e.phase == BeginResp ==> PeqCallback(l, p, now, e) == Fatal(IllegalPhase)
    ensures e.phase == BeginReq ==> (PeqCallback(l, p, now, e).Ok? <==> e.h < |p.slots|)
    ensures e.phase == EndResp && !l.router.responding ==> PeqCallback(l, p, now, e) == Fatal(IllegalPhase)
    ensures e.phase == EndResp && l.router.responding ==>
              (PeqCallback(l, p, now, e).Ok? <==> (l.router.nextResponse.Some? ==> InUse(p, l.router.nextResponse.value)))
  {
  }

  /** send_end_req with a transaction in progress, nb_transport_fw outside the memory. */
  lemma SendFaults(l: Lane, p: PoolState, now: Time, h: Handle, phase: Phase)
    ensures if l.router.inProgress.Some? then SendEndReq(l, p, now, h) == Fatal(TargetBusy) else SendEndReq(l, p, now, h).Ok?
    ensures h < |p.slots| ==>
              var range, addr := l.router.range, p.slots[h].addr;
              if range.start <= addr && addr < (range.start + range.size) % 0x1_0000_0000_0000_0000
              then NbTransportFw(l, p, h, phase, now).Ok? else NbTransportFw(l, p, h, phase, now) == Fatal(AddressOutOfRange)
  {
  }

  /** A notification that finds the process inside the memory is lost; one that finds no transaction is fatal. */
  lemma TargetDoneFaults(l: Lane, p: PoolState, now: Time, latency: Time)
    ensures l.router.thread.InMemory? ==> OnTargetDone(l, p, now, latency) == Ok(l.(router := l.router.(targetDone := None)))
    ensures l.router.thread.Listening? && l.router.inProgress.None? ==> OnTargetDone(l, p, now, latency) == Fatal(NullTransaction)
  {
  }

  /** A second pending response is fatal; the first one waits. */
  lemma MemoryDoneFaults(l: Lane, p: PoolState, now: Time)
    ensures l.router.responding && l.router.nextResponse.Some? ==> OnMemoryDone(l, p, now) == Fatal(TwoResponses)
    ensures l.router.responding && l.router.nextResponse.None? ==>
              OnMemoryDone(l, p, now) == Ok((l.(router := l.router.(thread := Listening, nextResponse := l.router.inProgress)), p))
    ensures !l.router.responding && l.router.inProgress.None? ==> OnMemoryDone(l, p, now) == Fatal(NullTransaction)
  {
  }

  // ---------- the slave port ----------

  /** CAUGHT_UP comes first, then the checks of the packet. */
  lemma RequestFaults(s: SlavePorts.PortState, pkt: Packet)
    ensures s.curTick != s.now ==> SlavePorts.RecvTimingReq(s, pkt) == Fatal(NotCaughtUp)
    ensures s.curTick == s.now && (pkt.cacheResponding || (!pkt.isRead && !pkt.isWrite)) ==>
              SlavePorts.RecvTimingReq(s, pkt) == Fatal(Panic)
  {
  }

  /** BEGIN_RESP with gem5 behind, for a payload without extension, or for a socket whose response is blocked already. */
  lemma RespondFaults(s: SlavePorts.PortState, h: Handle, accept: bool)
    requires s.helper.Valid()
    ensures s.curTick != s.now ==> SlavePorts.Respond(s, h, accept) == Fatal(NotCaughtUp)
    ensures s.curTick == s.now && h < |s.pool.slots| && s.pool.slots[h].ext.Some? ==>
              var k := s.pool.slots[h].ext.value.core;
              && (k < s.helper.num && At(s.helper.response, k).Some? ==> SlavePorts.Respond(s, h, accept) == Fatal(ResponseBlocked))
              && (k >= s.helper.num ==> SlavePorts.Respond(s, h, accept) == Fatal(BadIndex))
  {
  }

  /** recvRespRetry with gem5 behind; a round for a response that gem5 refuses again. */
  lemma RetryFaults(s: SlavePorts.PortState, refused: set<nat>, k: nat)
    ensures s.curTick != s.now ==> SlavePorts.RecvRespRetry(s, refused) == Fatal(NotCaughtUp)
    ensures At(s.helper.response, k).None? ==> SlavePorts.Resend(s, k, true) == Fatal(NullTransaction)
    ensures !SlavePorts.Resend(s, k, false).Ok?
  {
  }

  // ---------- the event loop ----------

  /** catchup: gem5 time must lag, and must not have passed the next event. */
  lemma CatchupFaults(s: EventLoops.LoopState)
    ensures if s.curTick <= s.now && (s.queue == [] || s.curTick <= s.queue[0].at)
            then EventLoops.Catchup(s) == Ok(s.(curTick := s.now)) else EventLoops.Catchup(s) == Fatal(TimeOrder)
  {
  }

  /** eventLoop outside simulate, or with nothing to do; and simulate without an exit event. */
  lemma LoopFaults(s: EventLoops.LoopState)
    ensures !s.inSimulate ==> EventLoops.EventLoop(s) == Fatal(NotSimulating)
    ensures s.inSimulate && s.queue == [] ==> EventLoops.EventLoop(s) == Fatal(OutOfEvents)
    ensures EventLoops.SimulateEnd(s).Ok? <==> s.exitEvent.Some?
    ensures s.exitEvent.None? ==> EventLoops.SimulateEnd(s) == Fatal(NoExitEvent)
  {
  }

  // ---------- the master port ----------

  /** handleBeginReq while a request waits, or for a command that is neither a read nor a write. */
  lemma BeginReqFaults(s: MasterPorts.MasterState, t: nat, p: MasterPorts.TlmPayload, newId: nat, accept: bool)
    ensures s.waitForRetry || s.pendingRequest.Some? || s.pendingPacket.Some? ==>
              MasterPorts.HandleBeginReq(s, t, p, newId, accept) == Fatal(RetryProtocol)
    ensures !s.waitForRetry && s.pendingRequest.None? && s.pendingPacket.None? && p.extension.None? ==>
              (MasterPorts.HandleBeginReq(s, t, p, newId, accept).Ok? <==> p.command == ReadCommand || p.command == WriteCommand)
  {
  }

  /** recvReqRetry that nobody waits for. */
  lemma ReqRetryFaults(s: MasterPorts.MasterState, accept: bool)
    ensures MasterPorts.RecvReqRetry(s, accept).Ok? <==>
              s.waitForRetry && s.pendingRequest.Some? && s.pendingPacket.Some? && s.pendingPacket.value in s.packets
  {
  }

  /** The top of a sender-state stack, if it is the port's own. */
  predicate OwnTop(pkt: MasterPorts.Gem5Packet, payloads: map<nat, MasterPorts.TlmPayload>) {
    var states := pkt.senderStates;
    states != [] && states[|states| - 1].TlmSenderState? && states[|states| - 1].trans in payloads
  }

  /**
   * recvTimingResp: a second refusal in a row, a packet that is no response, one that
   * does not carry the port's entry on top, or a status that the protocol does not have.
   */
  lemma TimingRespFaults(s: MasterPorts.MasterState, id: nat, status: MasterPorts.SyncEnum)
    ensures MasterPorts.RecvTimingResp(s, id, status).Ok? <==>
              if s.responseInProgress then !s.needToSendRetry
              else id in s.packets && s.packets[id].isResponse && OwnTop(s.packets[id], s.payloads) && !status.OtherStatus?
  {
  }

  /** handleEndResp without a response in progress. */
  lemma EndRespFaults(s: MasterPorts.MasterState, t: nat, script: seq<MasterPorts.Resent>)
    ensures !s.responseInProgress ==> MasterPorts.HandleEndResp(s, t, script) == Fatal(IllegalPhase)
  {
  }
}
