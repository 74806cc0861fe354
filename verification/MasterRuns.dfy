/** What every run of the master port guarantees. */
module MasterRuns {
  import opened Common
  import opened BaseProtocol
  import opened MasterPorts

  // ---------- the invariant ----------

  /** waitForRetry and the two pending fields say the same. */
  predicate RequestSide(s: MasterState) {
    s.waitForRetry == s.pendingRequest.Some? == s.pendingPacket.Some?
  }

  predicate ResponseSide(s: MasterState) {
    && (s.needToSendRetry ==> s.responseInProgress)
    && s.peerWaits == s.needToSendRetry
    && s.refusals == s.retries + if s.peerWaits then 1 else 0
  }

  /** A packet made for the payload: what it asks for, or the response to that. */
  predicate MadeFor(pkt: Gem5Packet, p: TlmPayload) {
    pkt.command == p.command && pkt.addr == p.addr && pkt.size == p.size && pkt.needsResponse == !pkt.isResponse
  }

  /**
   * The port's entry is on the stack of the packet, above what the packet came with;
   * a packet that the port has made asks for what the payload says.
   */
  predicate Carries(s: MasterState, t: nat, f: Flight) {
    && t in s.payloads && f.packet in s.packets
    && (if s.payloads[t].extension.Some? then s.payloads[t].extension.value == f.packet
        else MadeFor(s.packets[f.packet], s.payloads[t]))
    && var states := s.packets[f.packet].senderStates;
       f.below + [TlmSenderState(t)] <= states
  }

  /** The packet of a refused request, with nothing on top of the port's entry. */
  predicate PendingCarries(s: MasterState) {
    s.pendingRequest.Some? && s.pendingPacket.Some? ==>
      && s.pendingRequest.value !in s.flights
      && var states := if s.pendingPacket.value in s.packets then s.packets[s.pendingPacket.value].senderStates else [];
      && states != []
      && Carries(s, s.pendingRequest.value, Flight(s.pendingPacket.value, states[..|states| - 1]))
      && (forall t :: t in s.flights ==> s.flights[t].packet != s.pendingPacket.value)
  }

  predicate FlightsOk(s: MasterState) {
    && (forall t :: t in s.flights ==> Carries(s, t, s.flights[t]))
    && (forall t, u :: t in s.flights && u in s.flights && s.flights[t].packet == s.flights[u].packet ==> t == u)
  }

  /** No BEGIN_RESP stands in for an END_REQ. */
  predicate NoShortcut(wire: seq<WireEvent>) {
    wire == [] ||
    var before, e := wire[..|wire| - 1], wire[|wire| - 1];
    NoShortcut(before) && (e.phase == BeginResp ==> Monitor(before).Some? && e.txn in Monitor(before).value.served)
  }

  /** The phases on the socket are legal, and leave open what the fields of the port say. */
  predicate WireOk(s: MasterState) {
    && Legal(s.wire)
    && var c := Monitor(s.wire).value;
    && c.request == s.pendingRequest
    && c.response.Some? == s.responseInProgress
    && c.served == s.flights.Keys
    && c.begun == s.payloads.Keys
    && NoShortcut(s.wire)
  }

  predicate Invariant(s: MasterState) {
    RequestSide(s) && ResponseSide(s) && PendingCarries(s) && FlightsOk(s) && WireOk(s)
  }

  /** All of the invariant that also holds while gem5 is called back. */
  predicate Core(s: MasterState) {
    RequestSide(s) && PendingCarries(s) && FlightsOk(s) && WireOk(s)
  }

  // ---------- responses ----------

  /** gem5 has made the packet of t a response, and taken off the stack what it had put on it. */
  predicate Deliverable(s: MasterState, t: nat) {
    && t in s.flights && s.flights[t].packet in s.packets
    && s.packets[s.flights[t].packet].isResponse
    && s.packets[s.flights[t].packet].senderStates == s.flights[t].below + [TlmSenderState(t)]
  }

  /** The packet of t as it returns: the stack it came with, or deleted if the port had made it. */
  predicate RoundTrip(s: MasterState, s': MasterState, t: nat)
    requires t in s.flights && t in s.payloads
  {
    var f := s.flights[t];
    && f.packet in s.packets
    && (forall id :: id in s.packets && id != f.packet ==> id in s'.packets && s'.packets[id] == s.packets[id])
    && if s.payloads[t].extension.Some?
       then s.payloads[t].extension.value == f.packet && f.packet in s'.packets
            && s'.packets[f.packet] == s.packets[f.packet].(senderStates := f.below)
       else f.packet !in s'.packets
  }

  predicate SameRetry(s: MasterState, s': MasterState) {
    && s'.needToSendRetry == s.needToSendRetry && s'.peerWaits == s.peerWaits
    && s'.refusals == s.refusals && s'.retries == s.retries
  }

  lemma ShortcutAppend(wire: seq<WireEvent>, e: WireEvent)
    requires NoShortcut(wire)
    requires e.phase == BeginResp ==> Monitor(wire).Some? && e.txn in Monitor(wire).value.served
    ensures NoShortcut(wire + [e])
  {
    assert (wire + [e])[..|wire + [e]| - 1] == wire;
  }

  /** BEGIN_RESP of t on the wire, with END_RESP if the initiator completes at once. */
  function Answering(wire: seq<WireEvent>, t: nat, status: SyncEnum): (r: seq<WireEvent>) {
    var w := wire + [WireEvent(BeginResp, t)];
    if status.Accepted? then w else w + [WireEvent(EndResp, t)]
  }

  lemma AnsweringLegal(wire: seq<WireEvent>, t: nat, status: SyncEnum)
    requires Legal(wire) && Monitor(wire).value.response.None? && t in Monitor(wire).value.served && NoShortcut(wire)
    ensures var c, w := Monitor(wire).value, Answering(wire, t, status);
            && Legal(w)
            && Monitor(w).value.request == c.request && Monitor(w).value.served == c.served - {t}
            && Monitor(w).value.response == (if status.Accepted? then Some(t) else None)
            && Monitor(w).value.begun == c.begun && NoShortcut(w)
  {
    MonitorConsistent(wire);
    ShortcutAppend(wire, WireEvent(BeginResp, t));
    ShortcutAppend(wire + [WireEvent(BeginResp, t)], WireEvent(EndResp, t));
    MonitorAppend(wire, WireEvent(BeginResp, t));
    MonitorAppend(wire + [WireEvent(BeginResp, t)], WireEvent(EndResp, t));
  }

  /** What recvTimingResp does with a response that can be delivered. */
  lemma DeliverCase(s: MasterState, t: nat, status: SyncEnum)
    requires Core(s) && !s.responseInProgress && Deliverable(s, t) && !status.OtherStatus?
    ensures t in s.payloads
    ensures var r := RecvTimingResp(s, s.flights[t].packet, status);
            && r.Ok? && r.value.1
            && r.value.0 == s.(packets := r.value.0.packets, flights := s.flights - {t}, wire := Answering(s.wire, t, status),
                               responseInProgress := status.Accepted?)
            && RoundTrip(s, r.value.0, t)
  {
    var f := s.flights[t];
    assert Carries(s, t, f);
    var states := s.packets[f.packet].senderStates;
    assert states[..|states| - 1] == f.below && states[|states| - 1] == TlmSenderState(t);
  }

  lemma DeliverKeeps(s: MasterState, t: nat, status: SyncEnum, s': MasterState)
    requires Core(s) && !s.responseInProgress && Deliverable(s, t) && t in s.payloads
    requires s' == s.(packets := s'.packets, flights := s.flights - {t}, wire := Answering(s.wire, t, status),
                      responseInProgress := status.Accepted?)
    requires RoundTrip(s, s', t)
    ensures Core(s')
    ensures forall u :: u != t && Deliverable(s, u) ==> Deliverable(s', u)
  {
    AnsweringLegal(s.wire, t, status);
    forall u | u in s'.flights
      ensures Carries(s', u, s'.flights[u])
    {
      assert Carries(s, u, s.flights[u]);
      assert s.flights[u].packet != s.flights[t].packet;
    }
  }

  // ---------- responses from within sendRetryResp ----------

  /** What gem5 may send from within sendRetryResp: responses that can be delivered, each once. */
  predicate Sendable(s: MasterState, script: seq<Resent>) {
    && (forall i :: 0 <= i < |script| ==>
          Deliverable(s, script[i].trans) && script[i].packet == s.flights[script[i].trans].packet && !script[i].status.OtherStatus?)
    && (forall i, j :: 0 <= i < j < |script| ==> script[i].trans != script[j].trans)
  }

  /** The initiator completes every one of them at once, except perhaps the last. */
  predicate AllButLastComplete(script: seq<Resent>) {
    forall i :: 0 <= i < |script| - 1 ==> !script[i].status.Accepted?
  }

  /** The first response of the script is delivered. */
  lemma ResendFirst(s: MasterState, script: seq<Resent>) returns (s': MasterState)
    requires Core(s) && !s.responseInProgress && script != [] && Sendable(s, script)
    ensures RecvTimingResp(s, script[0].packet, script[0].status) == Ok((s', true))
    ensures ResendAll(s, script) == ResendAll(s', script[1..])
    ensures Core(s') && Sendable(s', script[1..]) && SameRetry(s, s')
    ensures s'.responseInProgress == script[0].status.Accepted?
  {
    var first, rest := script[0], script[1..];
    DeliverCase(s, first.trans, first.status);
    s' := RecvTimingResp(s, first.packet, first.status).value.0;
    DeliverKeeps(s, first.trans, first.status, s');
    assert forall i :: 0 <= i < |rest| ==> rest[i] == script[i + 1];
  }

  /** A second response while one is in progress and a retry is owed fails the assertion. */
  lemma ResendBlocked(s: MasterState, script: seq<Resent>)
    requires s.responseInProgress && s.needToSendRetry
    ensures ResendAll(s, script) == if script == [] then Ok(s) else Fatal(RetryProtocol)
  {
  }

  lemma RestCompletes(script: seq<Resent>)
    requires script != []
    ensures AllButLastComplete(script) <==> |script| == 1 || (!script[0].status.Accepted? && AllButLastComplete(script[1..]))
  {
    assert forall i :: 0 <= i < |script| - 1 ==> script[1..][i] == script[i + 1];
    assert script == [script[0]] + script[1..];
  }

  /**
   * The retry flag is still up while gem5 is called back: a second response that
   * finds one in progress fails the assertion, which happens exactly when one of
   * the responses before the last has to wait for its END_RESP.
   */
  lemma {:induction false} ResendExact(s: MasterState, script: seq<Resent>)
    requires Core(s) && !s.responseInProgress && s.needToSendRetry && Sendable(s, script)
    ensures ResendAll(s, script).Ok? <==> AllButLastComplete(script)
    ensures ResendAll(s, script).Ok? ==> Core(ResendAll(s, script).value) && SameRetry(s, ResendAll(s, script).value)
    decreases |script|
  {
    if script != [] {
      var s' := ResendFirst(s, script);
      RestCompletes(script);
      if script[0].status.Accepted? {
        ResendBlocked(s', script[1..]);
      } else {
        ResendExact(s', script[1..]);
      }
    }
  }

  lemma EndRespWire(s: MasterState, t: nat)
    requires Core(s) && Monitor(s.wire).value.response == Some(t)
    ensures Core(OnWire(s, EndResp, t).(responseInProgress := false))
  {
    MonitorAppend(s.wire, WireEvent(EndResp, t));
    ShortcutAppend(s.wire, WireEvent(EndResp, t));
    var s' := OnWire(s, EndResp, t).(responseInProgress := false);
    assert forall u :: u in s.flights ==> (Carries(s, u, s.flights[u]) ==> Carries(s', u, s.flights[u]));
  }

  /** The state in which gem5 is called back from handleEndResp. */
  function CalledBack(s: MasterState, t: nat): (r: MasterState) {
    OnWire(s, EndResp, t).(responseInProgress := false, peerWaits := false, retries := s.retries + 1)
  }

  lemma AcknowledgeCase(s: MasterState, u: nat, script: seq<Resent>)
    requires s.responseInProgress
    ensures var r := ResendAll(CalledBack(s, u), script);
            HandleEndResp(s, u, script)
            == if !s.needToSendRetry then Ok(OnWire(s, EndResp, u).(responseInProgress := false))
               else if r.Ok? then Ok(r.value.(needToSendRetry := false)) else r
  {
  }

  /** handleEndResp: exact, for whatever gem5 sends back from within sendRetryResp. */
  lemma EndRespExact(s: MasterState, t: nat, script: seq<Resent>)
    requires Invariant(s) && Monitor(s.wire).value.response == Some(t)
    requires s.needToSendRetry ==> Sendable(CalledBack(s, t), script)
    ensures HandleEndResp(s, t, script).Ok? <==> !s.needToSendRetry || AllButLastComplete(script)
    ensures HandleEndResp(s, t, script).Ok? ==> Invariant(HandleEndResp(s, t, script).value)
  {
    AcknowledgeCase(s, t, script);
    EndRespWire(s, t);
    if s.needToSendRetry {
      var s1 := CalledBack(s, t);
      CoreFrame(OnWire(s, EndResp, t).(responseInProgress := false), s1);
      ResendExact(s1, script);
      if ResendAll(s1, script).Ok? {
        var s2 := ResendAll(s1, script).value;
        CoreFrame(s2, s2.(needToSendRetry := false));
      }
    }
  }

  /** The retry bookkeeping does not matter to the core of the invariant. */
  lemma CoreFrame(s: MasterState, s': MasterState)
    requires Core(s)
    requires s' == s.(needToSendRetry := s'.needToSendRetry, peerWaits := s'.peerWaits,
                      refusals := s'.refusals, retries := s'.retries)
    ensures Core(s')
  {
    assert forall u :: u in s.flights ==> (Carries(s, u, s.flights[u]) ==> Carries(s', u, s.flights[u]));
  }

  // ---------- requests ----------

  /** A transaction an initiator may begin now, with a packet that is not in use. */
  predicate Startable(s: MasterState, t: nat, p: TlmPayload, newId: nat) {
    && Legal(s.wire) && Observe(Monitor(s.wire).value, WireEvent(BeginReq, t)).Some?
    && match p.extension
       case Some(id) => id in s.packets && forall u :: u in s.flights ==> s.flights[u].packet != id
       case None => !p.command.IgnoreCommand? && newId !in s.packets
  }

  /** The packet of the request, before the port pushes its entry. */
  function RequestPacket(s: MasterState, p: TlmPayload, newId: nat): (r: (nat, Gem5Packet))
    requires PacketFor(s, p, newId).Ok?
  {
    PacketFor(s, p, newId).value
  }

  /** The request is on the wire and its packet carries the port's entry. */
  function Pushed(s: MasterState, t: nat, p: TlmPayload, newId: nat): (r: MasterState)
    requires PacketFor(s, p, newId).Ok?
  {
    var (id, pkt) := RequestPacket(s, p, newId);
    OnWire(s, BeginReq, t).(
      payloads := s.payloads[t := p],
      packets := s.packets[id := pkt.(senderStates := pkt.senderStates + [TlmSenderState(t)])])
  }

  lemma PushedKeeps(s: MasterState, t: nat, p: TlmPayload, newId: nat)
    requires Invariant(s) && Startable(s, t, p, newId)
    ensures PacketFor(s, p, newId).Ok? && s.pendingRequest.None? && t !in s.flights
    ensures var s' := Pushed(s, t, p, newId);
            var (id, pkt) := RequestPacket(s, p, newId);
            && FlightsOk(s') && Carries(s', t, Flight(id, pkt.senderStates))
            && s'.packets[id].senderStates == pkt.senderStates + [TlmSenderState(t)]
            && (forall u :: u in s.flights ==> s.flights[u].packet != id)
  {
    MonitorConsistent(s.wire);
    var s' := Pushed(s, t, p, newId);
    forall u | u in s.flights
      ensures Carries(s', u, s.flights[u])
      ensures s.flights[u].packet != RequestPacket(s, p, newId).0
    {
      assert Carries(s, u, s.flights[u]);
    }
  }

  lemma BeginWire(wire: seq<WireEvent>, t: nat)
    requires Legal(wire) && Observe(Monitor(wire).value, WireEvent(BeginReq, t)).Some? && NoShortcut(wire)
    ensures var c, w := Monitor(wire).value, wire + [WireEvent(BeginReq, t)];
            && Legal(w) && Monitor(w).value == c.(request := Some(t), begun := c.begun + {t})
            && NoShortcut(w)
  {
    MonitorAppend(wire, WireEvent(BeginReq, t));
    ShortcutAppend(wire, WireEvent(BeginReq, t));
  }

  lemma RefusedRequest(s: MasterState, t: nat, p: TlmPayload, newId: nat)
    requires Invariant(s) && Startable(s, t, p, newId)
    ensures HandleBeginReq(s, t, p, newId, false).Ok? && Invariant(HandleBeginReq(s, t, p, newId, false).value)
  {
    PushedKeeps(s, t, p, newId);
    BeginWire(s.wire, t);
    var (id, pkt) := RequestPacket(s, p, newId);
    RefusedKeeps(Pushed(s, t, p, newId), t, id, pkt.senderStates, HandleBeginReq(s, t, p, newId, false).value);
  }

  /** gem5 refuses the packet of t, which waits. */
  lemma RefusedKeeps(s1: MasterState, t: nat, id: nat, below: seq<SenderState>, s': MasterState)
    requires FlightsOk(s1) && ResponseSide(s1) && Carries(s1, t, Flight(id, below)) && t !in s1.flights
    requires s1.packets[id].senderStates == below + [TlmSenderState(t)]
    requires forall u :: u in s1.flights ==> s1.flights[u].packet != id
    requires Legal(s1.wire) && Monitor(s1.wire).value.request == Some(t) && NoShortcut(s1.wire)
    requires Monitor(s1.wire).value.response.Some? == s1.responseInProgress
    requires Monitor(s1.wire).value.served == s1.flights.Keys && Monitor(s1.wire).value.begun == s1.payloads.Keys
    requires s' == s1.(waitForRetry := true, pendingRequest := Some(t), pendingPacket := Some(id))
    ensures Invariant(s')
  {
    FlightsFrame(s1, s');
    PendingPushed(s1, t, id, below, s');
  }

  lemma PendingPushed(s1: MasterState, t: nat, id: nat, below: seq<SenderState>, s': MasterState)
    requires Carries(s1, t, Flight(id, below)) && t !in s1.flights && s1.packets[id].senderStates == below + [TlmSenderState(t)]
    requires forall u :: u in s1.flights ==> s1.flights[u].packet != id
    requires s' == s1.(waitForRetry := true, pendingRequest := Some(t), pendingPacket := Some(id))
    ensures PendingCarries(s')
  {
    var states := s'.packets[id].senderStates;
    assert states[..|states| - 1] == below;
    assert Carries(s', t, Flight(id, below));
  }

  lemma FlightsFrame(s: MasterState, s': MasterState)
    requires FlightsOk(s) && s'.flights == s.flights && s'.packets == s.packets && s'.payloads == s.payloads
    ensures FlightsOk(s')
  {
    forall u | u in s.flights
      ensures Carries(s', u, s.flights[u])
    {
      assert Carries(s, u, s.flights[u]);
    }
  }

  /** gem5 takes the packet of t: END_REQ goes out and t is in flight. */
  lemma LaunchKeeps(s: MasterState, t: nat, f: Flight, s': MasterState)
    requires FlightsOk(s) && Carries(s, t, f) && t !in s.flights
    requires forall u :: u in s.flights ==> s.flights[u].packet != f.packet
    requires Legal(s.wire) && Monitor(s.wire).value.request == Some(t)
    requires Monitor(s.wire).value.served == s.flights.Keys && Monitor(s.wire).value.response.Some? == s.responseInProgress
    requires Monitor(s.wire).value.begun == s.payloads.Keys && NoShortcut(s.wire)
    requires s' == SendEndReq(s, t, f.packet, f.below).(waitForRetry := false, pendingRequest := None, pendingPacket := None)
    requires ResponseSide(s)
    ensures Invariant(s')
  {
    MonitorAppend(s.wire, WireEvent(EndReq, t));
    ShortcutAppend(s.wire, WireEvent(EndReq, t));
    assert s'.flights == s.flights[t := f];
    assert s'.flights.Keys == s.flights.Keys + {t};
    forall u | u in s'.flights
      ensures Carries(s', u, s'.flights[u])
    {
      if u != t {
        assert Carries(s, u, s.flights[u]);
      }
    }
  }

  lemma AcceptedRequest(s: MasterState, t: nat, p: TlmPayload, newId: nat)
    requires Invariant(s) && Startable(s, t, p, newId)
    ensures HandleBeginReq(s, t, p, newId, true).Ok? && Invariant(HandleBeginReq(s, t, p, newId, true).value)
  {
    PushedKeeps(s, t, p, newId);
    BeginWire(s.wire, t);
    var (id, pkt) := RequestPacket(s, p, newId);
    var s1 := Pushed(s, t, p, newId);
    var s' := SendEndReq(s1, t, id, pkt.senderStates);
    assert HandleBeginReq(s, t, p, newId, true) == Ok(s');
    LaunchKeeps(s1, t, Flight(id, pkt.senderStates), s');
  }

  /** A request is turned down, and leaves the port as it was, exactly if it has byte enables or is a burst. */
  lemma TransportExact(s: MasterState, t: nat, p: TlmPayload, newId: nat, accept: bool)
    requires HandleBeginReq(s, t, p, newId, accept).Ok?
    ensures var r := NbTransportFw(s, t, p, newId, accept);
            && r.Ok?
            && (r.value.1 == Accepted <==> !p.byteEnable && p.size <= p.streamingWidth)
            && (r.value.1 == Accepted ==> r.value.0 == HandleBeginReq(s, t, p, newId, accept).value)
            && (r.value.1 != Accepted ==> r.value == (s, Completed))
  {
  }

  /** The packet that gem5 gets for a payload without one: what the payload asks for, to be answered, with the port's entry. */
  lemma GeneratedRequest(s: MasterState, t: nat, p: TlmPayload, newId: nat, accept: bool)
    requires Invariant(s) && Startable(s, t, p, newId) && p.extension.None?
    ensures HandleBeginReq(s, t, p, newId, accept).Ok?
    ensures var s' := HandleBeginReq(s, t, p, newId, accept).value;
            && newId in s'.packets
            && s'.packets[newId] == Gem5Packet(p.command, p.addr, p.size, true, false, [TlmSenderState(t)])
            && if accept then t in s'.flights && s'.flights[t] == Flight(newId, [])
               else s'.pendingRequest == Some(t) && s'.pendingPacket == Some(newId)
  {
    PushedKeeps(s, t, p, newId);
    assert [] + [TlmSenderState(t)] == [TlmSenderState(t)];
  }

  /** The packet of a payload that has one goes to gem5 as it is, with the port's entry on its stack. */
  lemma PipedRequest(s: MasterState, t: nat, p: TlmPayload, newId: nat, accept: bool)
    requires Invariant(s) && Startable(s, t, p, newId) && p.extension.Some?
    ensures HandleBeginReq(s, t, p, newId, accept).Ok?
    ensures var s', id := HandleBeginReq(s, t, p, newId, accept).value, p.extension.value;
            && id in s.packets && id in s'.packets
            && s'.packets[id] == s.packets[id].(senderStates := s.packets[id].senderStates + [TlmSenderState(t)])
            && if accept then t in s'.flights && s'.flights[t] == Flight(id, s.packets[id].senderStates)
               else s'.pendingRequest == Some(t) && s'.pendingPacket == Some(id)
  {
    PushedKeeps(s, t, p, newId);
  }

  /** gem5 owes the retry exactly while the port waits for it. */
  lemma RetryStep(s: MasterState, accept: bool)
    requires Invariant(s) && s.waitForRetry
    ensures RecvReqRetry(s, accept).Ok? && Invariant(RecvReqRetry(s, accept).value)
    ensures RecvReqRetry(s, accept).value.waitForRetry == !accept
  {
    if accept {
      var states := s.packets[s.pendingPacket.value].senderStates;
      LaunchKeeps(s, s.pendingRequest.value, Flight(s.pendingPacket.value, states[..|states| - 1]), RecvReqRetry(s, accept).value);
    }
  }

  // ---------- steps ----------

  datatype Step =
    | Request(t: nat, p: TlmPayload, newId: nat, accept: bool)   // nb_transport_fw with BEGIN_REQ
    | ReqRetry(accept: bool)                                     // gem5 calls recvReqRetry
    | Response(t: nat, status: SyncEnum)                         // gem5 calls recvTimingResp
    | Acknowledge(t: nat, script: seq<Resent>)                   // END_RESP arrives
    | Push(t: nat, tag: nat)                                     // gem5 pushes a sender state on the packet of t
    | Pop(t: nat)                                                // and pops it again
    | Answer(t: nat)                                             // gem5 makes the packet of t a response

  predicate Enabled(s: MasterState, step: Step) {
    match step
    case Request(t, p, newId, _) => Startable(s, t, p, newId)
    case ReqRetry(_) => s.waitForRetry
    case Response(t, status) => !s.peerWaits && Deliverable(s, t) && !status.OtherStatus?
    case Acknowledge(t, script) =>
      && Legal(s.wire) && Monitor(s.wire).value.response == Some(t)
      && (s.needToSendRetry ==> Sendable(CalledBack(s, t), script) && AllButLastComplete(script))
    case Push(t, _) => t in s.flights && s.flights[t].packet in s.packets
    case Pop(t) =>
      && t in s.flights && s.flights[t].packet in s.packets
      && |s.packets[s.flights[t].packet].senderStates| > |s.flights[t].below| + 1
    case Answer(t) => t in s.flights && s.flights[t].packet in s.packets && s.packets[s.flights[t].packet].needsResponse
  }

  function Next(s: MasterState, step: Step): (r: Outcome<MasterState>)
    requires Enabled(s, step)
  {
    match step
    case Request(t, p, newId, accept) => var (s', _) :- NbTransportFw(s, t, p, newId, accept); Ok(s')
    case ReqRetry(accept) => RecvReqRetry(s, accept)
    case Response(t, status) => var (s', _) :- RecvTimingResp(s, s.flights[t].packet, status); Ok(s')
    case Acknowledge(t, script) => HandleEndResp(s, t, script)
    case Push(t, tag) => Ok(Restack(s, t, s.packets[s.flights[t].packet].senderStates + [Foreign(tag)]))
    case Pop(t) =>
      var states := s.packets[s.flights[t].packet].senderStates;
      Ok(Restack(s, t, states[..|states| - 1]))
    case Answer(t) =>
      var id := s.flights[t].packet;
      Ok(s.(packets := s.packets[id := s.packets[id].(needsResponse := false, isResponse := true)]))
  }

  function Restack(s: MasterState, t: nat, states: seq<SenderState>): (r: MasterState)
    requires t in s.flights && s.flights[t].packet in s.packets
  {
    var id := s.flights[t].packet;
    s.(packets := s.packets[id := s.packets[id].(senderStates := states)])
  }

  /** gem5 works on the packet of t, above the port's entry. */
  lemma PacketStep(s: MasterState, t: nat, s': MasterState)
    requires Invariant(s) && t in s.flights && s.flights[t].packet in s.packets
    requires var id := s.flights[t].packet;
             id in s'.packets && s' == s.(packets := s.packets[id := s'.packets[id]])
             && s.flights[t].below + [TlmSenderState(t)] <= s'.packets[id].senderStates
             && SameRequest(s, s', id)
             && (s.packets[id].needsResponse == !s.packets[id].isResponse ==> s'.packets[id].needsResponse == !s'.packets[id].isResponse)
    ensures Invariant(s')
  {
    forall u | u in s'.flights
      ensures Carries(s', u, s'.flights[u])
    {
      assert Carries(s, u, s.flights[u]);
      assert u != t ==> s.flights[u].packet != s.flights[t].packet;
    }
  }

  lemma GemStep(s: MasterState, step: Step)
    requires Invariant(s) && Enabled(s, step) && (step.Push? || step.Pop? || step.Answer?)
    ensures Next(s, step).Ok? && Invariant(Next(s, step).value)
  {
    var f := s.flights[step.t];
    assert Carries(s, step.t, f);
    PacketStep(s, step.t, Next(s, step).value);
  }

  lemma ResponseStep(s: MasterState, t: nat, status: SyncEnum)
    requires Invariant(s) && Enabled(s, Response(t, status))
    ensures Next(s, Response(t, status)).Ok? && Invariant(Next(s, Response(t, status)).value)
  {
    var s' := Next(s, Response(t, status)).value;
    if s.responseInProgress {
      CoreFrame(s, s');
    } else {
      DeliverCase(s, t, status);
      DeliverKeeps(s, t, status, s');
    }
  }

  /** No step fails an assertion, and every step keeps the invariant. */
  lemma EveryMasterStep(s: MasterState, step: Step)
    requires Invariant(s) && Enabled(s, step)
    ensures Next(s, step).Ok? && Invariant(Next(s, step).value)
  {
    match step
    case Request(t, p, newId, accept) =>
      if accept { AcceptedRequest(s, t, p, newId); } else { RefusedRequest(s, t, p, newId); }
      TransportExact(s, t, p, newId, accept);
    case ReqRetry(accept) => RetryStep(s, accept);
    case Response(t, status) => ResponseStep(s, t, status);
    case Acknowledge(t, script) => EndRespExact(s, t, script);
    case Push(_, _) => GemStep(s, step);
    case Pop(_) => GemStep(s, step);
    case Answer(_) => GemStep(s, step);
  }

  // ---------- runs ----------

  predicate Schedule(s: MasterState, steps: seq<Step>)
    decreases |steps|
  {
    steps == [] || (Enabled(s, steps[0]) && (Next(s, steps[0]).Ok? ==> Schedule(Next(s, steps[0]).value, steps[1..])))
  }

  function Run(s: MasterState, steps: seq<Step>): (r: Outcome<MasterState>)
    requires Schedule(s, steps)
    decreases |steps|
  {
    if steps == [] then Ok(s)
    else
      var s1 :- Next(s, steps[0]);
      Run(s1, steps[1..])
  }

  lemma {:induction false} EveryMasterRun(s: MasterState, steps: seq<Step>)
    requires Invariant(s) && Schedule(s, steps)
    ensures Run(s, steps).Ok? && Invariant(Run(s, steps).value)
    decreases |steps|
  {
    if steps != [] {
      EveryMasterStep(s, steps[0]);
      EveryMasterRun(Next(s, steps[0]).value, steps[1..]);
    }
  }

  /** Each transaction is answered at most once, and exactly once unless it is still waiting or in gem5. */
  predicate AnsweredOnce(s: MasterState, t: nat) {
    var begun := Count(s.wire, WireEvent(BeginReq, t));
    && begun <= 1
    && Count(s.wire, WireEvent(EndReq, t)) == begun - One(s.pendingRequest == Some(t))
    && Count(s.wire, WireEvent(BeginResp, t)) == begun - One(s.pendingRequest == Some(t)) - One(t in s.flights)
  }

  /** END_REQ is never left out on this side. */
  lemma {:induction false} EndReqAlways(wire: seq<WireEvent>, t: nat)
    requires Legal(wire) && NoShortcut(wire)
    ensures var c := Monitor(wire).value;
            Count(wire, WireEvent(EndReq, t)) == One(t in c.begun && c.request != Some(t))
    decreases |wire|
  {
    if wire != [] {
      EndReqAlways(wire[..|wire| - 1], t);
      MonitorConsistent(wire[..|wire| - 1]);
    }
  }

  lemma AnswerCounts(s: MasterState, t: nat)
    requires Invariant(s)
    ensures AnsweredOnce(s, t)
  {
    MonitorConsistent(s.wire);
    PhaseCounts(s.wire, t);
    EndReqAlways(s.wire, t);
  }

  /**
   * From the new port on, whatever the initiator and gem5 do within their
   * protocols: no assertion fails, the two sides of the port stay consistent, and
   * every transaction gets its END_REQ and its BEGIN_RESP once.
   */
  lemma EveryRunAnswers(packets: map<nat, Gem5Packet>, steps: seq<Step>)
    requires Schedule(NewPort(packets), steps)
    ensures var r := Run(NewPort(packets), steps);
            r.Ok? && RequestSide(r.value) && ResponseSide(r.value) && Legal(r.value.wire) && forall t :: AnsweredOnce(r.value, t)
  {
    EveryMasterRun(NewPort(packets), steps);
    forall t
      ensures AnsweredOnce(Run(NewPort(packets), steps).value, t)
    {
      AnswerCounts(Run(NewPort(packets), steps).value, t);
    }
  }

  // ---------- pipe through ----------

  /** The packet of a transaction that waits or is in gem5, and what the packet came with. */
  function Origin(s: MasterState, t: nat): (r: Option<Flight>) {
    if t in s.flights then Some(s.flights[t])
    else if s.pendingRequest == Some(t) && s.pendingPacket.Some? && s.pendingPacket.value in s.packets then
      var states := s.packets[s.pendingPacket.value].senderStates;
      Some(Flight(s.pendingPacket.value, if states == [] then [] else states[..|states| - 1]))
    else None
  }

  /** The packet asks for the same. */
  predicate SameRequest(s: MasterState, s': MasterState, id: nat) {
    && id in s.packets && id in s'.packets && s'.packets[id].command == s.packets[id].command
    && s'.packets[id].addr == s.packets[id].addr && s'.packets[id].size == s.packets[id].size
  }

  /**
   * A transaction under way keeps its payload, its packet, what its packet asks for
   * and what it came with until it is answered.
   */
  predicate OriginKept(s: MasterState, s': MasterState, t: nat) {
    && t in s.payloads && t in s'.payloads && s'.payloads[t] == s.payloads[t]
    && (Origin(s', t).Some? ==> Origin(s', t) == Origin(s, t) && SameRequest(s, s', Origin(s, t).value.packet))
  }

  lemma AnyOrigin(s: MasterState, t: nat)
    requires Invariant(s) && t in s.payloads
    ensures OriginKept(s, s, t)
  {
    if t in s.flights {
      assert Carries(s, t, s.flights[t]);
    }
  }

  lemma RequestOrigin(s: MasterState, u: nat, p: TlmPayload, newId: nat, accept: bool, t: nat)
    requires Invariant(s) && Startable(s, u, p, newId) && t in s.payloads
    requires HandleBeginReq(s, u, p, newId, accept).Ok?
    ensures OriginKept(s, HandleBeginReq(s, u, p, newId, accept).value, t)
  {
    assert u !in Monitor(s.wire).value.begun;
  }

  lemma DeliverOrigin(s: MasterState, u: nat, status: SyncEnum, t: nat)
    requires Core(s) && !s.responseInProgress && Deliverable(s, u) && !status.OtherStatus? && t in s.payloads
    requires RecvTimingResp(s, s.flights[u].packet, status).Ok?
    ensures OriginKept(s, RecvTimingResp(s, s.flights[u].packet, status).value.0, t)
  {
    DeliverCase(s, u, status);
  }

  lemma {:induction false} ResendOrigin(s: MasterState, script: seq<Resent>, t: nat)
    requires Core(s) && !s.responseInProgress && s.needToSendRetry && Sendable(s, script) && t in s.payloads
    requires ResendAll(s, script).Ok?
    ensures OriginKept(s, ResendAll(s, script).value, t)
    decreases |script|
  {
    if script != [] {
      DeliverOrigin(s, script[0].trans, script[0].status, t);
      var s' := ResendFirst(s, script);
      if script[0].status.Accepted? {
        ResendBlocked(s', script[1..]);
      } else {
        ResendOrigin(s', script[1..], t);
      }
    }
  }

  /** Where the packets are does not depend on the retry and on the wire. */
  predicate SamePackets(s: MasterState, s': MasterState) {
    && s'.packets == s.packets && s'.payloads == s.payloads && s'.flights == s.flights
    && s'.pendingRequest == s.pendingRequest && s'.pendingPacket == s.pendingPacket
  }

  lemma OriginFrame(s: MasterState, s1: MasterState, s2: MasterState, s': MasterState, t: nat)
    requires SamePackets(s, s1) && OriginKept(s1, s2, t) && SamePackets(s2, s')
    ensures OriginKept(s, s', t)
  {
  }

  lemma AcknowledgeOrigin(s: MasterState, u: nat, script: seq<Resent>, t: nat)
    requires Invariant(s) && Enabled(s, Acknowledge(u, script)) && t in s.payloads
    requires HandleEndResp(s, u, script).Ok?
    ensures OriginKept(s, HandleEndResp(s, u, script).value, t)
  {
    AcknowledgeCase(s, u, script);
    if s.needToSendRetry {
      EndRespWire(s, u);
      CoreFrame(OnWire(s, EndResp, u).(responseInProgress := false), CalledBack(s, u));
      ResendOrigin(CalledBack(s, u), script, t);
      OriginFrame(s, CalledBack(s, u), ResendAll(CalledBack(s, u), script).value, HandleEndResp(s, u, script).value, t);
    } else {
      AnyOrigin(s, t);
      OriginFrame(s, s, s, HandleEndResp(s, u, script).value, t);
    }
  }

  lemma StepOrigin(s: MasterState, step: Step, t: nat)
    requires Invariant(s) && Enabled(s, step) && t in s.payloads
    requires Next(s, step).Ok?
    ensures OriginKept(s, Next(s, step).value, t)
  {
    match step
    case Request(u, p, newId, accept) =>
      if accept { AcceptedRequest(s, u, p, newId); } else { RefusedRequest(s, u, p, newId); }
      RequestOrigin(s, u, p, newId, accept, t);
      AnyOrigin(s, t);
    case Response(u, status) =>
      if !s.responseInProgress {
        DeliverOrigin(s, u, status, t);
      }
    case Acknowledge(u, script) => AcknowledgeOrigin(s, u, script, t);
    case ReqRetry(_) =>
    case Push(_, _) =>
    case Pop(_) =>
    case Answer(_) =>
  }

  lemma {:induction false} RunOrigin(s: MasterState, steps: seq<Step>, t: nat)
    requires Invariant(s) && Schedule(s, steps) && t in s.payloads
    ensures Run(s, steps).Ok? && OriginKept(s, Run(s, steps).value, t)
    decreases |steps|
  {
    if steps != [] {
      EveryMasterStep(s, steps[0]);
      StepOrigin(s, steps[0], t);
      RunOrigin(Next(s, steps[0]).value, steps[1..], t);
    }
  }

  lemma BeginOrigin(s: MasterState, t: nat, p: TlmPayload, newId: nat, accept: bool)
    requires Invariant(s) && Startable(s, t, p, newId)
    ensures PacketFor(s, p, newId).Ok? && HandleBeginReq(s, t, p, newId, accept).Ok?
    ensures var s' := HandleBeginReq(s, t, p, newId, accept).value;
            var (id, pkt) := RequestPacket(s, p, newId);
            && Invariant(s') && t in s'.payloads && s'.payloads[t] == p && Origin(s', t) == Some(Flight(id, pkt.senderStates))
            && (p.extension.Some? ==> id == p.extension.value && SameRequest(s, s', id))
  {
    if accept { AcceptedRequest(s, t, p, newId); } else { RefusedRequest(s, t, p, newId); }
    PushedKeeps(s, t, p, newId);
    var pkt := RequestPacket(s, p, newId).1;
    assert (pkt.senderStates + [TlmSenderState(t)])[..|pkt.senderStates|] == pkt.senderStates;
  }

  /**
   * However many requests are in gem5 and in whatever order it answers them: the
   * response to a request goes to the transaction the request came from, and a
   * packet that was piped through comes back as a response, in the payload it came
   * in, with the command, address and size and with the sender states it came with.
   */
  lemma PipeThrough(s: MasterState, t: nat, p: TlmPayload, newId: nat, accept: bool, steps: seq<Step>, status: SyncEnum)
    requires Invariant(s) && Startable(s, t, p, newId)
    requires HandleBeginReq(s, t, p, newId, accept).Ok? ==>
               var s1 := HandleBeginReq(s, t, p, newId, accept).value;
               && Schedule(s1, steps)
               && (Run(s1, steps).Ok? ==>
                     Enabled(Run(s1, steps).value, Response(t, status)) && !Run(s1, steps).value.responseInProgress)
    ensures HandleBeginReq(s, t, p, newId, accept).Ok?
    ensures var r := Run(HandleBeginReq(s, t, p, newId, accept).value, steps);
            && r.Ok? && Next(r.value, Response(t, status)).Ok?
            && var s' := Next(r.value, Response(t, status)).value;
            && s'.wire == Answering(r.value.wire, t, status)
            && t in s'.payloads && s'.payloads[t] == p
            && (p.extension.Some? ==>
                  var id := p.extension.value;
                  && id in s.packets && id in s'.packets && s'.packets[id].isResponse
                  && s'.packets[id].senderStates == s.packets[id].senderStates
                  && s'.packets[id].command == s.packets[id].command
                  && s'.packets[id].addr == s.packets[id].addr && s'.packets[id].size == s.packets[id].size)
  {
    BeginOrigin(s, t, p, newId, accept);
    var s1 := HandleBeginReq(s, t, p, newId, accept).value;
    RunOrigin(s1, steps, t);
    EveryMasterRun(s1, steps);
    DeliverCase(Run(s1, steps).value, t, status);
  }
}
