/**
 * src/sc_slave_port.cc on the multi-socket transactor, one TxnRouter behind each
 * socket, together with the gem5 peer: the state of the handshake and its
 * transitions, with the branches and assertions of the code.
 */
module SlavePorts {
  import opened Common
  import opened Kernel
  import opened BaseProtocol
  import opened Payloads
  import opened BlockingPackets
  import opened TxnRouters
  import Routing

  /**
   * now is sc_time_stamp and curTick gem5's time, which lags until gem5 catches up.
   * events of a lane are grouped by the socket they were raised on; the handler
   * does not see the grouping and goes by the extension of the payload.
   * peerWaits: gem5 has been refused and may not send before sendRetryReq.
   * ends: the sockets in the order in which END_RESP was sent.
   */
  datatype PortState = PortState(
    now: Time,
    curTick: Time,
    sockets: Routing.SocketMap,
    helper: HelperState,
    pool: PoolState,
    lanes: seq<Lane>,
    peerWaits: bool,
    refusals: nat,
    retries: nat,
    ends: seq<nat>)

  function SocketOf(s: PortState, pkt: Packet): (r: nat) {
    if pkt.cluster.Some? then pkt.cluster.value else Routing.GetSocketId(s.sockets, pkt.requestor)
  }

  /** CAUGHT_UP. */
  predicate CaughtUp(s: PortState) {
    s.curTick == s.now
  }

  function SetLane(s: PortState, k: nat, l: Lane, p: PoolState): (r: PortState)
    requires k < |s.lanes|
  {
    s.(lanes := s.lanes[k := l], pool := p)
  }

  /** recvTimingReq: the answer is false when the request is refused. */
  function RecvTimingReq(s: PortState, pkt: Packet): (r: Outcome<(PortState, bool)>) {
    if !CaughtUp(s) then Fatal(NotCaughtUp)
    else if pkt.cacheResponding || !(pkt.isRead || pkt.isWrite) then Fatal(Panic)
    else
      var k := SocketOf(s, pkt);
      var blocker :- GetBlocking(s.helper, k, Request);
      if blocker.Some? then
        var helper :- UpdateRetry(s.helper, k, true);
        Ok((s.(helper := helper, peerWaits := true, refusals := s.refusals + 1), false))
      else
        var s1 :- Begin(s, pkt, k);
        Ok((s1, true))
  }

  /** The accepting branch: a payload from the pool is filled and BEGIN_REQ goes to socket k. */
  function Begin(s: PortState, pkt: Packet, k: nat): (r: Outcome<PortState>) {
    if k >= |s.lanes| then Fatal(BadIndex)
    else if s.pool.free != [] && s.pool.free[|s.pool.free| - 1] >= |s.pool.slots| then Fatal(BadPayload)
    else
      var (pool, h) := Issue(s.pool, pkt, k, |s.lanes[k].log.accepted|);
      var lane :- NbTransportFw(s.lanes[k], pool, h, BeginReq, s.now + pkt.payloadDelay);
      var helper :- UpdateBlocking(s.helper, k, Some(h), Request);
      var log := lane.log.(accepted := lane.log.accepted + [pkt.Stub()]);
      Ok(SetLane(s, k, lane.(log := log), pool).(helper := helper))
  }

  /** What gem5 sends from within sendRetryReq: it goes on until it is refused. */
  function RecvAll(s: PortState, script: seq<Packet>): (r: Outcome<PortState>)
    decreases |script|
  {
    if script == [] || s.peerWaits then Ok(s)
    else
      var (s1, _) :- RecvTimingReq(s, script[0]);
      RecvAll(s1, script[1..])
  }

  /** The request channel of the payload's socket becomes free; the flag tells whether gem5 is owed a retry. */
  function ClearChannel(helper: HelperState, pool: PoolState, h: Handle): (r: Outcome<(HelperState, bool)>) {
    if !IsBlocking(helper, h) then Fatal(NotBlocking)
    else
      var ext :- GetExtension(pool, h);
      var helper1 :- UpdateBlocking(helper, ext.core, None, Request);
      var need :- NeedRetry(helper1, ext.core);
      if !need then Ok((helper1, false))
      else
        var helper2 :- UpdateRetry(helper1, ext.core, false);
        Ok((helper2, true))
  }

  /** The first half of pec: the request channel becomes free, and a refused peer is called back. */
  function Unblock(s: PortState, h: Handle, script: seq<Packet>): (r: Outcome<PortState>) {
    var (helper, need) :- ClearChannel(s.helper, s.pool, h);
    if !need then Ok(s.(helper := helper))
    else RecvAll(s.(helper := helper, peerWaits := false, retries := s.retries + 1), script)
  }

  /** END_RESP to the target and release of the payload. */
  function Finish(s: PortState, k: nat, h: Handle): (r: Outcome<PortState>) {
    if k >= |s.lanes| then Fatal(BadIndex)
    else
      var ext :- GetExtension(s.pool, h);
      var lane :- NbTransportFw(s.lanes[k], s.pool, h, EndResp, s.now);
      var log := lane.log.(ended := lane.log.ended + [ext.packet.Stub()],
                           answered := if ext.packet.isResponse then lane.log.answered + [ext.packet.Stub()]
                                       else lane.log.answered);
      var p :- Release(s.pool, h);
      Ok(SetLane(s, k, lane.(log := log), p).(ends := s.ends + [k]))
  }

  /** The second half of pec, on BEGIN_RESP; accept is gem5's answer to sendTimingResp. */
  function Respond(s: PortState, h: Handle, accept: bool): (r: Outcome<PortState>) {
    if !CaughtUp(s) then Fatal(NotCaughtUp)
    else
      var ext :- GetExtension(s.pool, h);
      var blocked :- GetBlocking(s.helper, ext.core, Response);
      if blocked.Some? then Fatal(ResponseBlocked)
      else
        var pkt := ext.packet.Answered();
        var s1 := s.(pool := s.pool.(slots := s.pool.slots[h := s.pool.slots[h].(ext := Some(ext.(packet := pkt)))]));
        if pkt.isResponse && !accept then
          var helper :- UpdateBlocking(s1.helper, ext.core, Some(h), Response);
          Ok(s1.(helper := helper))
        else Finish(s1, ext.core, h)
  }

  /** pec: the handler of a PayloadEvent. */
  function Pec(s: PortState, h: Handle, phase: Phase, accept: bool, script: seq<Packet>): (r: Outcome<PortState>) {
    var s1 :- if phase == EndReq || (IsBlocking(s.helper, h) && phase == BeginResp) then Unblock(s, h, script)
              else Ok(s);
    if phase == BeginResp then Respond(s1, h, accept) else Ok(s1)
  }

  /** gem5 services the i-th event raised through socket k. */
  function Service(s: PortState, k: nat, i: nat, accept: bool, script: seq<Packet>): (r: Outcome<PortState>)
    requires k < |s.lanes| && i < |s.lanes[k].events|
  {
    var events := s.lanes[k].events;
    var lane := s.lanes[k].(events := events[..i] + events[i + 1..]);
    Pec(SetLane(s, k, lane, s.pool), events[i].h, events[i].phase, accept, script)
  }

  /** One round of the loop in recvRespRetry, for the blocked response at key k; accept is gem5's answer. */
  function Resend(s: PortState, k: nat, accept: bool): (r: Outcome<PortState>) {
    if At(s.helper.response, k).None? then Fatal(NullTransaction)
    else
      var h := s.helper.response[k].value;
      var ext :- GetExtension(s.pool, h);
      var helper :- UpdateBlocking(s.helper, ext.core, None, Response);
      if !accept then Fatal(ResponseRefused)
      else Finish(s.(helper := helper), ext.core, h)
  }

  /** The sockets with a blocked response, from k on, ascending. */
  function BlockedFrom(h: HelperState, k: nat): (r: seq<nat>)
    decreases h.num + 1 - k
  {
    if k > h.num then []
    else (if At(h.response, k).Some? then [k] else []) + BlockedFrom(h, k + 1)
  }

  /** A round of recvRespRetry for each of the sockets; refused are the ones whose response gem5 refuses again. */
  function ResendAll(s: PortState, sockets: seq<nat>, refused: set<nat>): (r: Outcome<PortState>)
    decreases |sockets|
  {
    if sockets == [] then Ok(s)
    else
      var s1 :- Resend(s, sockets[0], sockets[0] !in refused);
      ResendAll(s1, sockets[1..], refused)
  }

  /**
   * recvRespRetry: what its loop, which looks for the first blocked response before
   * every round, amounts to when each response is blocked at the key of its socket.
   */
  function RecvRespRetry(s: PortState, refused: set<nat>): (r: Outcome<PortState>) {
    if !CaughtUp(s) then Fatal(NotCaughtUp) else ResendAll(s, BlockedFrom(s.helper, 0), refused)
  }

  // ---------- the steps of the targets ----------

  /** peq_cb of router k. */
  function RouterCallback(s: PortState, k: nat, e: PeqEntry): (r: Outcome<PortState>)
    requires k < |s.lanes|
  {
    var (l, p) :- PeqCallback(s.lanes[k], s.pool, s.now, e);
    Ok(SetLane(s, k, l, p))
  }

  /** target_done_event of router k; the memory takes latency ticks. */
  function TargetDone(s: PortState, k: nat, latency: Time): (r: Outcome<PortState>)
    requires k < |s.lanes|
  {
    var l :- OnTargetDone(s.lanes[k], s.pool, s.now, latency);
    Ok(SetLane(s, k, l, s.pool))
  }

  /** The memory behind router k has finished. */
  function MemoryDone(s: PortState, k: nat): (r: Outcome<PortState>)
    requires k < |s.lanes|
  {
    var (l, p) :- OnMemoryDone(s.lanes[k], s.pool, s.now);
    Ok(SetLane(s, k, l, p))
  }
}
