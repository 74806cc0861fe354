/**
 * src/sc_master_port.cc: the port that turns TLM transactions into gem5 packets,
 * as functions on its state, with the branches and assertions of the code.
 */
module MasterPorts {
  import opened Common
  import opened BaseProtocol
  import opened Payloads

  /** What sits on the sender-state stack of a packet: the port's own entry, or one of another gem5 component. */
  datatype SenderState = TlmSenderState(trans: nat) | Foreign(tag: nat)

  datatype Gem5Packet = Gem5Packet(
    command: Command, addr: nat, size: nat, needsResponse: bool, isResponse: bool, senderStates: seq<SenderState>)

  /** The TLM payload of a transaction; extension is the packet of a transaction that came out of gem5. */
  datatype TlmPayload = TlmPayload(
    extension: Option<nat>, command: Command, addr: nat, size: nat, byteEnable: bool, streamingWidth: nat)

  /** The initiator's answer to BEGIN_RESP. */
  datatype SyncEnum = Accepted | Completed | UpdatedToEndResp | OtherStatus

  /** A packet that gem5 has accepted: its id, and the sender states it came with. */
  datatype Flight = Flight(packet: nat, below: seq<SenderState>)

  /**
   * packets are the gem5 packets by id, payloads the TLM payloads by transaction.
   * flights, wire, peerWaits, refusals and retries are bookkeeping: what gem5 is
   * working on, the phases on the socket, and what the sender of responses has been told.
   */
  datatype MasterState = MasterState(
    waitForRetry: bool,
    pendingRequest: Option<nat>,
    pendingPacket: Option<nat>,
    needToSendRetry: bool,
    responseInProgress: bool,
    packets: map<nat, Gem5Packet>,
    payloads: map<nat, TlmPayload>,
    flights: map<nat, Flight>,
    wire: seq<WireEvent>,
    peerWaits: bool,
    refusals: nat,
    retries: nat)

  /** The port before its first transaction, with the packets gem5 has. */
  function NewPort(packets: map<nat, Gem5Packet>): (r: MasterState) {
    MasterState(false, None, None, false, false, packets, map[], map[], [], false, 0, 0)
  }


  function OnWire(s: MasterState, phase: Phase, t: nat): (r: MasterState) {
    s.(wire := s.wire + [WireEvent(phase, t)])
  }

  function GeneratePacket(p: TlmPayload): (r: Outcome<Gem5Packet>) {
    if p.command.IgnoreCommand? then Fatal(Panic)
    else Ok(Gem5Packet(p.command, p.addr, p.size, true, false, []))
  }

  /** The packet for a transaction: the one it carries, or a new one with the given id. */
  function PacketFor(s: MasterState, p: TlmPayload, newId: nat): (r: Outcome<(nat, Gem5Packet)>) {
    match p.extension
    case Some(id) => if id in s.packets then Ok((id, s.packets[id])) else Fatal(NullTransaction)
    case None =>
      var pkt :- GeneratePacket(p);
      Ok((newId, pkt))
  }

  /** gem5 has taken the packet of t, and END_REQ goes out. */
  function SendEndReq(s: MasterState, t: nat, id: nat, below: seq<SenderState>): (r: MasterState) {
    OnWire(s, EndReq, t).(flights := s.flights[t := Flight(id, below)])
  }

  /** handleBeginReq; accept is gem5's answer to sendTimingReq. */
  function HandleBeginReq(s: MasterState, t: nat, p: TlmPayload, newId: nat, accept: bool): (r: Outcome<MasterState>) {
    if s.waitForRetry || s.pendingRequest.Some? || s.pendingPacket.Some? then Fatal(RetryProtocol)
    else
      var (id, pkt) :- PacketFor(s, p, newId);
      var pushed := pkt.(senderStates := pkt.senderStates + [TlmSenderState(t)]);
      var s1 := OnWire(s, BeginReq, t).(payloads := s.payloads[t := p], packets := s.packets[id := pushed]);
      if accept then Ok(SendEndReq(s1, t, id, pkt.senderStates))
      else Ok(s1.(waitForRetry := true, pendingRequest := Some(t), pendingPacket := Some(id)))
  }

  /**
   * nb_transport_fw with BEGIN_REQ: byte enables and bursts are turned down with
   * TLM_COMPLETED, everything else is accepted and comes to handleBeginReq.
   */
  function NbTransportFw(s: MasterState, t: nat, p: TlmPayload, newId: nat, accept: bool): (r: Outcome<(MasterState, SyncEnum)>) {
    if p.byteEnable || p.streamingWidth < p.size then Ok((s, Completed))
    else
      var s1 :- HandleBeginReq(s, t, p, newId, accept);
      Ok((s1, Accepted))
  }

  function RecvReqRetry(s: MasterState, accept: bool): (r: Outcome<MasterState>) {
    if !s.waitForRetry || s.pendingRequest.None? || s.pendingPacket.None? || s.pendingPacket.value !in s.packets
    then Fatal(RetryProtocol)
    else if !accept then Ok(s)
    else
      var states := s.packets[s.pendingPacket.value].senderStates;
      var below := if states == [] then [] else states[..|states| - 1];
      Ok(SendEndReq(s.(waitForRetry := false, pendingPacket := None, pendingRequest := None),
                    s.pendingRequest.value, s.pendingPacket.value, below))
  }

  /** An initiator that completes the transaction at once has gone through END_RESP as well. */
  function SendBeginResp(s: MasterState, t: nat, status: SyncEnum): (r: Outcome<MasterState>) {
    var s1 := OnWire(s, BeginResp, t).(flights := s.flights - {t});
    match status
    case Accepted => Ok(s1.(responseInProgress := true))
    case Completed => Ok(OnWire(s1, EndResp, t).(responseInProgress := false))
    case UpdatedToEndResp => Ok(OnWire(s1, EndResp, t).(responseInProgress := false))
    case OtherStatus => Fatal(Panic)
  }

  /** recvTimingResp: the answer is false when the response is refused. */
  function RecvTimingResp(s: MasterState, id: nat, status: SyncEnum): (r: Outcome<(MasterState, bool)>) {
    if s.responseInProgress then
      if s.needToSendRetry then Fatal(RetryProtocol)
      else Ok((s.(needToSendRetry := true, peerWaits := true, refusals := s.refusals + 1), false))
    else if id !in s.packets || !s.packets[id].isResponse then Fatal(IllegalPhase)
    else
      var states := s.packets[id].senderStates;
      if states == [] || states[|states| - 1].Foreign? then Fatal(NullTransaction)
      else
        var t := states[|states| - 1].trans;
        if t !in s.payloads then Fatal(NullTransaction)
        else
          var popped := s.packets[id].(senderStates := states[..|states| - 1]);
          var packets := if s.payloads[t].extension.Some? then s.packets[id := popped] else s.packets - {id};
          var s1 :- SendBeginResp(s.(packets := packets), t, status);
          Ok((s1, true))
  }

  /** A response that gem5 sends from within sendRetryResp, and the initiator's answer to it. */
  datatype Resent = Resent(trans: nat, packet: nat, status: SyncEnum)

  function ResendAll(s: MasterState, script: seq<Resent>): (r: Outcome<MasterState>)
    decreases |script|
  {
    if script == [] then Ok(s)
    else
      var (s1, _) :- RecvTimingResp(s, script[0].packet, script[0].status);
      ResendAll(s1, script[1..])
  }

  /** handleEndResp: needToSendRetry is cleared only after sendRetryResp has returned. */
  function HandleEndResp(s: MasterState, t: nat, script: seq<Resent>): (r: Outcome<MasterState>) {
    if !s.responseInProgress then Fatal(IllegalPhase)
    else
      var s1 := OnWire(s, EndResp, t).(responseInProgress := false);
      if !s1.needToSendRetry then Ok(s1)
      else
        var s2 :- ResendAll(s1.(peerWaits := false, retries := s1.retries + 1), script);
        Ok(s2.(needToSendRetry := false))
  }
}
