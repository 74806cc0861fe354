/** src/sc_master_port.cc as an object. */
module MasterModule {
  import opened Common
  import opened BaseProtocol
  import opened MasterPorts

  class SCMasterPort {
    var waitForRetry: bool
    var pendingRequest: Option<nat>
    var pendingPacket: Option<nat>
    var needToSendRetry: bool
    var responseInProgress: bool
    // the gem5 packets and the TLM payloads the port has pointers to
    var packets: map<nat, Gem5Packet>
    var payloads: map<nat, TlmPayload>
    // bookkeeping about gem5 and the socket
    ghost var flights: map<nat, Flight>
    ghost var wire: seq<WireEvent>
    ghost var peerWaits: bool
    ghost var refusals: nat
    ghost var retries: nat

    ghost function View(): (r: MasterState)
      reads this
    {
      MasterState(waitForRetry, pendingRequest, pendingPacket, needToSendRetry, responseInProgress, packets, payloads,
                  flights, wire, peerWaits, refusals, retries)
    }

    constructor (packets: map<nat, Gem5Packet>)
      ensures View() == NewPort(packets)
    {
      waitForRetry, needToSendRetry, responseInProgress := false, false, false;
      pendingRequest, pendingPacket := None, None;
      this.packets, payloads := packets, map[];
      flights, wire := map[], [];
      peerWaits, refusals, retries := false, 0, 0;
    }

    /** END_REQ to the initiator; below is what the packet came with. */
    method EndRequest(t: nat, id: nat, ghost below: seq<SenderState>)
      modifies this`flights, this`wire
      ensures View() == SendEndReq(old(View()), t, id, below)
    {
      wire := wire + [WireEvent(EndReq, t)];
      flights := flights[t := Flight(id, below)];
    }

    /** The packet a request travels with: its own, or a new one under the given id. */
    method ChoosePacket(p: TlmPayload, newId: nat) returns (id: nat)
      requires PacketFor(View(), p, newId).Ok?
      modifies this`packets
      ensures id == PacketFor(old(View()), p, newId).value.0
      ensures packets == old(packets)[id := PacketFor(old(View()), p, newId).value.1]
      ensures match p.extension
              case Some(own) => id == own && packets == old(packets)
              case None => id == newId && packets == old(packets)[id := Gem5Packet(p.command, p.addr, p.size, true, false, [])]
    {
      if p.extension.Some? {
        id := p.extension.value;
        assert packets[id := packets[id]] == packets;
      } else {
        assert !p.command.IgnoreCommand?;
        id := newId;
        packets := packets[id := Gem5Packet(p.command, p.addr, p.size, true, false, [])];
      }
    }

    /** handleBeginReq; accept is gem5's answer to sendTimingReq. */
    method BeginRequest(t: nat, p: TlmPayload, newId: nat, accept: bool)
      requires HandleBeginReq(View(), t, p, newId, accept).Ok?
      modifies this
      ensures Ok(View()) == HandleBeginReq(old(View()), t, p, newId, accept)
    {
      assert !waitForRetry && pendingRequest.None? && pendingPacket.None?;
      var id := ChoosePacket(p, newId);
      wire := wire + [WireEvent(BeginReq, t)];
      payloads := payloads[t := p];
      ghost var below := packets[id].senderStates;
      packets := packets[id := packets[id].(senderStates := packets[id].senderStates + [TlmSenderState(t)])];
      assert packets == old(packets)[id := packets[id]];
      if accept {
        EndRequest(t, id, below);
      } else {
        waitForRetry := true;
        pendingRequest := Some(t);
        pendingPacket := Some(id);
      }
    }

    /** nb_transport_fw with BEGIN_REQ: byte enables and bursts are turned down. */
    method TransportRequest(t: nat, p: TlmPayload, newId: nat, accept: bool) returns (status: SyncEnum)
      requires NbTransportFw(View(), t, p, newId, accept).Ok?
      modifies this
      ensures Ok((View(), status)) == NbTransportFw(old(View()), t, p, newId, accept)
      ensures status == (if p.byteEnable || p.streamingWidth < p.size then Completed else Accepted)
    {
      if p.byteEnable {
        return Completed;
      }
      if p.streamingWidth < p.size {
        return Completed;
      }
      BeginRequest(t, p, newId, accept);
      return Accepted;
    }

    /** recvReqRetry; accept is gem5's answer to sendTimingReq. */
    method ReceiveReqRetry(accept: bool)
      requires RecvReqRetry(View(), accept).Ok?
      modifies this
      ensures Ok(View()) == RecvReqRetry(old(View()), accept)
    {
      assert waitForRetry && pendingRequest.Some? && pendingPacket.Some?;
      if accept {
        ghost var states := packets[pendingPacket.value].senderStates;
        var id := pendingPacket.value;
        waitForRetry := false;
        pendingPacket := None;
        EndRequest(pendingRequest.value, id, if states == [] then [] else states[..|states| - 1]);
        pendingRequest := None;
      }
    }

    /** sendBeginResp. */
    method BeginResponse(t: nat, status: SyncEnum)
      requires SendBeginResp(View(), t, status).Ok?
      modifies this`responseInProgress, this`wire, this`flights
      ensures Ok(View()) == SendBeginResp(old(View()), t, status)
    {
      wire := wire + [WireEvent(BeginResp, t)];
      flights := flights - {t};
      if status == Completed || status == UpdatedToEndResp {
        wire := wire + [WireEvent(EndResp, t)];
        responseInProgress := false;
      } else {
        assert status == Accepted;
        responseInProgress := true;
      }
    }

    /** recvTimingResp. */
    method ReceiveTimingResp(id: nat, status: SyncEnum) returns (accepted: bool)
      requires RecvTimingResp(View(), id, status).Ok?
      modifies this
      ensures Ok((View(), accepted)) == RecvTimingResp(old(View()), id, status)
    {
      if responseInProgress {
        assert !needToSendRetry;
        needToSendRetry := true;
        peerWaits, refusals := true, refusals + 1;
        return false;
      }
      assert packets[id].isResponse;
      var states := packets[id].senderStates;
      var top := states[|states| - 1];
      packets := packets[id := packets[id].(senderStates := states[..|states| - 1])];
      assert top.TlmSenderState?;
      if payloads[top.trans].extension.None? {
        packets := packets - {id};
        assert packets == old(packets) - {id};
      }
      BeginResponse(top.trans, status);
      return true;
    }

    /** handleEndResp; the script is what gem5 sends from within sendRetryResp. */
    method EndResponse(t: nat, script: seq<Resent>)
      requires HandleEndResp(View(), t, script).Ok?
      modifies this
      ensures Ok(View()) == HandleEndResp(old(View()), t, script)
    {
      assert responseInProgress;
      wire := wire + [WireEvent(EndResp, t)];
      responseInProgress := false;
      if needToSendRetry {
        SendRetryResp(script);
        needToSendRetry := false;
      }
    }

    /** gem5 is called back and sends the responses of the script. */
    method SendRetryResp(script: seq<Resent>)
      requires ResendAll(View().(peerWaits := false, retries := retries + 1), script).Ok?
      modifies this
      ensures Ok(View()) == ResendAll(old(View()).(peerWaits := false, retries := old(retries) + 1), script)
    {
      peerWaits, retries := false, retries + 1;
      ghost var s := View();
      var i := 0;
      while i < |script|
        invariant i <= |script| && ResendAll(View(), script[i..]) == ResendAll(s, script)
      {
        assert script[i..][0] == script[i] && script[i..][1..] == script[i + 1..];
        var accepted := ReceiveTimingResp(script[i].packet, script[i].status);
        i := i + 1;
      }
    }
  }
}
