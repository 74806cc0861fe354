/** src/sc_slave_port.cc as an object, with the helper, the pool and one router behind each socket. */
module PortModule {
  import opened Common
  import opened Kernel
  import opened BaseProtocol
  import opened Payloads
  import opened BlockingPackets
  import opened TxnRouters
  import opened MemoryManagers
  import opened RouterModule
  import opened SlavePorts
  import opened Runs
  import Routing

  class SCSlavePort {
    var cpuPortMap: Routing.CoreMap
    var cpuVec: seq<string>
    var socketMap: Routing.SocketMap
    const helper: BlockingPacketHelper
    const mm: MemoryManager
    const routers: seq<TxnRouter>
    // bookkeeping about the gem5 peer and the order of END_RESPs
    ghost var peerWaits: bool
    ghost var refusals: nat
    ghost var retries: nat
    ghost var ends: seq<nat>

    constructor (mm: MemoryManager, routers: seq<TxnRouter>)
      ensures this.mm == mm && this.routers == routers && fresh(helper)
      ensures helper.blockingRequestMap == helper.blockingResponseMap == map[] && helper.needToSendRequestRetryMap == map[]
      ensures !peerWaits && refusals == retries == 0 && ends == []
      ensures cpuPortMap == [] && cpuVec == [] && socketMap == []
    {
      this.mm, this.routers := mm, routers;
      helper := new BlockingPacketHelper();
      cpuPortMap, cpuVec, socketMap := [], [], [];
      peerWaits, refusals, retries, ends := false, 0, 0, [];
    }

    /** updateCorePortMap: the simulation control hands over its cores. */
    method UpdateCorePortMap(ports: Routing.CoreMap)
      modifies this`cpuPortMap, this`cpuVec
      ensures cpuPortMap == ports && cpuVec == old(cpuVec) + Routing.Names(ports)
    {
      cpuPortMap := ports;
      var it := 0;
      while it < |cpuPortMap|
        invariant it <= |cpuPortMap| && cpuPortMap == ports
        invariant cpuVec + Routing.Names(ports[it..]) == old(cpuVec) + Routing.Names(ports)
      {
        assert ports[it..][0] == ports[it] && ports[it..][1..] == ports[it + 1..];
        cpuVec := cpuVec + [cpuPortMap[it].name];
        it := it + 1;
      }
    }

    /** initSocketMap. */
    method InitSocketMap(config: seq<Routing.SocketConfig>)
      requires socketMap == []
      modifies this`socketMap
      ensures socketMap == Routing.SocketsOf(config, cpuPortMap, cpuVec)
    {
      if config == [] {
        InitDefaultMap();
      } else {
        var it := 0;
        while it < |config|
          invariant it <= |config|
          invariant Routing.ConfigMap(socketMap, config[it..], cpuPortMap, cpuVec)
                 == Routing.ConfigMap([], config, cpuPortMap, cpuVec)
        {
          assert config[it..][0] == config[it] && config[it..][1..] == config[it + 1..];
          InitSocket(config[it].socket, config[it].cores);
          it := it + 1;
        }
      }
    }

    /** One socket for each core. */
    method InitDefaultMap()
      requires socketMap == []
      modifies this`socketMap
      ensures socketMap == Routing.DefaultFrom(cpuPortMap, 0)
    {
      var count := 0;
      while count < |cpuPortMap|
        invariant count <= |cpuPortMap|
        invariant socketMap + Routing.DefaultFrom(cpuPortMap[count..], count) == Routing.DefaultFrom(cpuPortMap, 0)
      {
        assert cpuPortMap[count..][0] == cpuPortMap[count] && cpuPortMap[count..][1..] == cpuPortMap[count + 1..];
        socketMap := socketMap + [Routing.SocketEntry(count, cpuPortMap[count].ids)];
        count := count + 1;
      }
    }

    /** The ids of the configured cores, as far as the cores exist, go to the socket. */
    method InitSocket(socket: nat, cores: seq<int>)
      modifies this`socketMap
      ensures socketMap == Routing.AddCores(old(socketMap), socket, cores, cpuPortMap, cpuVec)
    {
      var i := 0;
      while i < |cores|
        invariant i <= |cores|
        invariant Routing.AddCores(socketMap, socket, cores[i..], cpuPortMap, cpuVec)
               == Routing.AddCores(old(socketMap), socket, cores, cpuPortMap, cpuVec)
      {
        assert cores[i..][0] == cores[i] && cores[i..][1..] == cores[i + 1..];
        var coreId := cores[i];
        i := i + 1;
        if coreId < 0 || coreId >= |cpuVec| {
          continue;
        }
        socketMap := Routing.AppendAt(socketMap, socket, Routing.IdsOf(cpuPortMap, cpuVec[coreId]));
      }
    }

    /** getSocketId. */
    method GetSocketId(id: Routing.RequestorId) returns (k: nat)
      ensures k == Routing.GetSocketId(socketMap, id)
    {
      var it := 0;
      while it < |socketMap|
        invariant it <= |socketMap|
        invariant Routing.GetSocketId(socketMap[it..], id) == Routing.GetSocketId(socketMap, id)
      {
        assert socketMap[it..][0] == socketMap[it] && socketMap[it..][1..] == socketMap[it + 1..];
        if id in socketMap[it].ids {
          return socketMap[it].socket;
        }
        it := it + 1;
      }
      return 0;
    }

    /** bindToTransactor: the socket map is built, and the helper gets as many sockets as the map has entries. */
    method BindToTransactor(config: seq<Routing.SocketConfig>, ranges: seq<MemRange>, now: Time)
      requires |Routing.SocketsOf(config, cpuPortMap, cpuVec)| == |routers| == |ranges|
      requires socketMap == []
      requires helper.blockingRequestMap == helper.blockingResponseMap == map[] && helper.needToSendRequestRetryMap == map[]
      requires !peerWaits && refusals == retries == 0 && ends == []
      requires mm.View() == EMPTY_POOL
      requires forall i :: 0 <= i < |routers| ==> routers[i].View() == NewLane(ranges[i])
      modifies this`socketMap, helper
      ensures View(now, 0) == Bound(Routing.SocketsOf(config, cpuPortMap, cpuVec), ranges, now)
    {
      InitSocketMap(config);
      helper.InitMaps(|socketMap|);
      assert Lanes() == Bound(socketMap, ranges, now).lanes;
    }

    /** Every socket has a router of its own. */
    ghost predicate Valid() {
      forall i, j :: 0 <= i < j < |routers| ==> routers[i] != routers[j] && routers[i].tsock != routers[j].tsock
    }

    ghost function Lanes(): (r: seq<Lane>)
      reads routers, set r | r in routers :: r.tsock
      ensures |r| == |routers|
    {
      seq(|routers|, i requires 0 <= i < |routers| reads routers, set r | r in routers :: r.tsock => routers[i].View())
    }

    ghost function View(now: Time, tick: Time): (r: PortState)
      reads this, helper, mm, routers, set r | r in routers :: r.tsock
    {
      PortState(now, tick, socketMap, helper.View(), mm.View(), Lanes(), peerWaits, refusals, retries, ends)
    }

    method SocketId(pkt: Packet) returns (k: nat)
      ensures k == SocketOf(View(0, 0), pkt)
      ensures k == if pkt.cluster.Some? then pkt.cluster.value else Routing.GetSocketId(socketMap, pkt.requestor)
    {
      k := GetSocketId(pkt.requestor);
      if pkt.cluster.Some? {
        if pkt.cluster.value != k {
          k := pkt.cluster.value;
        }
      }
    }

    /** recvTimingReq. */
    method ReceiveRequest(pkt: Packet, now: Time, tick: Time) returns (accepted: bool)
      requires Valid() && RecvTimingReq(View(now, tick), pkt).Ok?
      requires helper.View().Valid()
      modifies this, helper, mm, routers, set r | r in routers :: r.tsock
      ensures Ok((View(now, tick), accepted)) == RecvTimingReq(old(View(now, tick)), pkt)
      ensures helper.View().Valid()
    {
      assert tick == now;
      assert !pkt.cacheResponding && (pkt.isRead || pkt.isWrite);
      var k := SocketId(pkt);
      var blocked := helper.IsBlockedPort(k, PacketType.Request);
      if blocked {
        helper.UpdateRetryMap(k, true);
        peerWaits, refusals := true, refusals + 1;
        return false;
      }
      SendBeginReq(pkt, k, now, tick);
      return true;
    }

    /** A payload from the pool is filled in and goes to router k. */
    method SendOnSocket(pkt: Packet, k: nat, now: Time) returns (h: Handle)
      requires Valid() && k < |routers| && Sendable(mm.View(), routers[k].View(), pkt, k, now)
      modifies mm, routers, set r | r in routers :: r.tsock
      ensures (mm.View(), h) == Issue(old(mm.View()), pkt, k, |old(routers[k].View()).log.accepted|)
      ensures Lanes() == old(Lanes())[k := SentLane(old(routers[k].View()), mm.View(), h, pkt, now)]
    {
      var router := routers[k];
      h := IssuePayload(mm, pkt, k, |router.tsock.log.accepted|);
      router.TakeBeginReq(mm, h, now, pkt.payloadDelay, pkt.Stub());
      OneLane(k);
    }

    method SendBeginReq(pkt: Packet, k: nat, now: Time, tick: Time)
      requires Valid() && Begin(View(now, tick), pkt, k).Ok?
      requires helper.View().Valid()
      modifies this, helper, mm, routers, set r | r in routers :: r.tsock
      ensures Ok(View(now, tick)) == Begin(old(View(now, tick)), pkt, k)
      ensures helper.View().Valid()
    {
      var h := SendOnSocket(pkt, k, now);
      helper.UpdateBlockingMap(k, Some(h), PacketType.Request);
    }

    /** Lanes other than that of router k are the same as before. */
    twostate lemma OneLane(k: nat)
      requires Valid() && k < |routers|
      requires forall i :: 0 <= i < |routers| && i != k ==> unchanged(routers[i]) && unchanged(routers[i].tsock)
      ensures Lanes() == old(Lanes())[k := routers[k].View()]
    {
    }

    /** gem5 is called back, in state s, and sends what is in the script until it is refused again. */
    method SendRetryReq(script: seq<Packet>, now: Time, tick: Time, ghost s: PortState)
      requires Valid() && helper.View().Valid()
      requires s == View(now, tick).(peerWaits := false, retries := retries + 1) && RecvAll(s, script).Ok?
      modifies this, helper, mm, routers, set r | r in routers :: r.tsock
      ensures Ok(View(now, tick)) == RecvAll(s, script)
      ensures helper.View().Valid()
    {
      peerWaits, retries := false, retries + 1;
      var i := 0;
      var waiting := false;
      while i < |script| && !waiting
        invariant i <= |script| && waiting == peerWaits
        invariant helper.View().Valid()
        invariant RecvAll(View(now, tick), script[i..]) == RecvAll(s, script)
      {
        RecvAllFirst(View(now, tick), script, i);
        var accepted := ReceiveRequest(script[i], now, tick);
        waiting := !accepted;
        i := i + 1;
      }
    }

    lemma RecvAllFirst(s: PortState, script: seq<Packet>, i: nat)
      requires i < |script| && !s.peerWaits && RecvAll(s, script[i..]).Ok?
      ensures RecvTimingReq(s, script[i]).Ok?
      ensures RecvAll(s, script[i..]) == RecvAll(RecvTimingReq(s, script[i]).value.0, script[i + 1..])
      ensures RecvTimingReq(s, script[i]).value.0.peerWaits == !RecvTimingReq(s, script[i]).value.1
    {
      assert script[i..][0] == script[i] && script[i..][1..] == script[i + 1..];
    }

    lemma UnblockResult(s: PortState, h: Handle, script: seq<Packet>, helper': HelperState, need: bool)
      requires ClearChannel(s.helper, s.pool, h) == Ok((helper', need))
      ensures Unblock(s, h, script)
           == if need then RecvAll(s.(helper := helper', peerWaits := false, retries := s.retries + 1), script)
              else Ok(s.(helper := helper'))
    {
    }

    /** The first half of pec. */
    method FreeRequestChannel(h: Handle, script: seq<Packet>, now: Time, tick: Time)
      requires Valid() && helper.View().Valid() && Unblock(View(now, tick), h, script).Ok?
      modifies this, helper, mm, routers, set r | r in routers :: r.tsock
      ensures Ok(View(now, tick)) == Unblock(old(View(now, tick)), h, script)
      ensures helper.View().Valid()
    {
      var need, after := FreeHelper(h, now, tick);
      assert Unblock(old(View(now, tick)), h, script)
          == if need then RecvAll(after.(peerWaits := false, retries := after.retries + 1), script) else Ok(after) by {
        UnblockResult(old(View(now, tick)), h, script, after.helper, need);
      }
      if need {
        SendRetryReq(script, now, tick, after.(peerWaits := false, retries := after.retries + 1));
      }
    }

    method FreeHelper(h: Handle, now: Time, tick: Time) returns (need: bool, ghost after: PortState)
      requires helper.View().Valid() && ClearChannel(helper.View(), mm.View(), h).Ok?
      modifies helper
      ensures Ok((helper.View(), need)) == ClearChannel(old(helper.View()), mm.View(), h)
      ensures helper.View().Valid()
      ensures View(now, tick) == after == old(View(now, tick)).(helper := helper.View())
    {
      var blocking := helper.IsBlockingTrans(h);
      assert blocking;
      var core := mm.payloads[h].ext.value.core;
      helper.UpdateBlockingMap(core, None, PacketType.Request);
      need := helper.NeedToSendRequestRetry(core);
      if need {
        helper.UpdateRetryMap(core, false);
      }
      after := old(View(now, tick)).(helper := helper.View());
    }

    /** END_RESP to the target, and the port lets go of the payload. */
    method FinishTransaction(k: nat, h: Handle, now: Time, tick: Time)
      requires Valid() && Finish(View(now, tick), k, h).Ok?
      modifies this`ends, mm, routers, set r | r in routers :: r.tsock
      ensures Ok(View(now, tick)) == Finish(old(View(now, tick)), k, h)
    {
      var router := routers[k];
      var pkt := mm.payloads[h].ext.value.packet;
      router.TakeEndResp(mm, h, now, pkt.Stub(), pkt.isResponse);
      mm.ReleasePayload(h);
      ends := ends + [k];
      OneLane(k);
    }

    /** The second half of pec; accept is gem5's answer to sendTimingResp. */
    method RespondToPeer(h: Handle, accept: bool, now: Time, tick: Time)
      requires Valid() && helper.View().Valid() && Respond(View(now, tick), h, accept).Ok?
      modifies this, helper, mm, routers, set r | r in routers :: r.tsock
      ensures Ok(View(now, tick)) == Respond(old(View(now, tick)), h, accept)
    {
      assert tick == now;
      var core := mm.payloads[h].ext.value.core;
      var blocked := helper.GetBlockingTrans(core, PacketType.Response);
      assert blocked.None?;
      mm.MakeResponse(h);
      var pkt := mm.payloads[h].ext.value.packet;
      var needRetry := false;
      if pkt.isResponse {
        needRetry := !accept;
      }
      if needRetry {
        helper.UpdateBlockingMap(core, Some(h), PacketType.Response);
      } else {
        FinishTransaction(core, h, now, tick);
      }
    }

    /** pec: the handler of a PayloadEvent. */
    method HandleEvent(h: Handle, phase: Phase, accept: bool, script: seq<Packet>, now: Time, tick: Time)
      requires Valid() && helper.View().Valid() && Pec(View(now, tick), h, phase, accept, script).Ok?
      modifies this, helper, mm, routers, set r | r in routers :: r.tsock
      ensures Ok(View(now, tick)) == Pec(old(View(now, tick)), h, phase, accept, script)
    {
      var blocking := helper.IsBlockingTrans(h);
      if phase == EndReq || (blocking && phase == BeginResp) {
        FreeRequestChannel(h, script, now, tick);
      }
      if phase == BeginResp {
        RespondToPeer(h, accept, now, tick);
      }
    }

    /** A response that blocked its socket goes to gem5 once more; refused are the sockets whose response gem5 refuses. */
    method ResendResponse(h: Handle, ghost k: nat, refused: set<nat>, now: Time, tick: Time)
      requires Valid() && At(helper.View().response, k) == Some(h) && Resend(View(now, tick), k, k !in refused).Ok?
      requires h < |mm.payloads| && mm.payloads[h].ext.Some? && mm.payloads[h].ext.value.core == k
      modifies this`ends, helper, mm, routers, set r | r in routers :: r.tsock
      ensures Ok(View(now, tick)) == Resend(old(View(now, tick)), k, k !in refused)
    {
      var core := mm.payloads[h].ext.value.core;
      helper.UpdateBlockingMap(core, None, PacketType.Response);
      var needRetry := core in refused;
      assert !needRetry;
      FinishTransaction(core, h, now, tick);
    }

    /** One round of the loop in recvRespRetry, for the response that blocks socket k, which leads to s. */
    method ResendFirst(h: Handle, ghost k: nat, refused: set<nat>, now: Time, tick: Time, ghost s: PortState)
      returns (response: Option<Handle>)
      requires Valid() && At(helper.View().response, k) == Some(h)
      requires Resend(View(now, tick), k, k !in refused) == Ok(s) && s.helper.Valid()
      requires h < |mm.payloads| && mm.payloads[h].ext.Some? && mm.payloads[h].ext.value.core == k
      modifies this`ends, helper, mm, routers, set r | r in routers :: r.tsock
      ensures View(now, tick) == s && response == FirstResponse(s.helper)
    {
      ResendResponse(h, k, refused, now, tick);
      response := helper.GetBlockingResponse();
    }

    /** A round in a loop that is to end in s'. */
    /** The loop has found that response, has left rounds before it, and is to end in s'. */
    ghost predicate Left(response: Option<Handle>, refused: set<nat>, now: Time, tick: Time, left: nat, s': PortState)
      reads this, helper, mm, routers, set r | r in routers :: r.tsock
    {
      Draining(View(now, tick), response, refused, left, s')
    }

    method ResendNext(h: Handle, refused: set<nat>, now: Time, tick: Time, ghost left: nat, ghost s': PortState)
      returns (response: Option<Handle>)
      requires Valid() && Left(Some(h), refused, now, tick, left, s')
      modifies this`ends, helper, mm, routers, set r | r in routers :: r.tsock
      ensures left > 0 && Left(response, refused, now, tick, left - 1, s')
    {
      ghost var k, s := DrainingStep(View(now, tick), h, refused, left, s');
      response := ResendFirst(h, k, refused, now, tick, s);
    }

    /** The loop of recvRespRetry. */
    method ResendAllBlocked(first: Option<Handle>, refused: set<nat>, now: Time, tick: Time, ghost rounds: nat, ghost s': PortState)
      requires Valid() && Left(first, refused, now, tick, rounds, s')
      modifies this`ends, helper, mm, routers, set r | r in routers :: r.tsock
      ensures View(now, tick) == s'
    {
      var response := first;
      ghost var left := rounds;
      while response.Some?
        invariant Left(response, refused, now, tick, left, s')
        decreases left
      {
        response := ResendNext(response.value, refused, now, tick, left, s');
        left := left - 1;
      }
      DrainingEnd(View(now, tick), response, refused, left, s');
    }

    /** recvRespRetry. */
    method ReceiveRespRetry(refused: set<nat>, now: Time, tick: Time)
      requires Valid() && Reachable(View(now, tick)) && RecvRespRetry(View(now, tick), refused).Ok?
      modifies this`ends, helper, mm, routers, set r | r in routers :: r.tsock
      ensures Ok(View(now, tick)) == RecvRespRetry(old(View(now, tick)), refused)
      ensures NoneBlocked(helper.View())
      ensures ends == old(ends) + BlockedFrom(old(helper.View()), 0)
    {
      assert tick == now;
      ghost var s' := DrainingStart(View(now, tick), refused);
      var response := helper.GetBlockingResponse();
      ResendAllBlocked(response, refused, now, tick, |BlockedFrom(helper.View(), 0)|, s');
    }
  }

  /** What Begin needs for a new request on a socket. */
  predicate Sendable(pool: PoolState, l: Lane, pkt: Packet, k: nat, now: Time) {
    && (pool.free != [] ==> pool.free[|pool.free| - 1] < |pool.slots|)
    && var (pool', h) := Issue(pool, pkt, k, |l.log.accepted|);
    TxnRouters.NbTransportFw(l, pool', h, BeginReq, now + pkt.payloadDelay).Ok?
  }

  /** The lane after BEGIN_REQ has gone out. */
  function SentLane(l: Lane, pool: PoolState, h: Handle, pkt: Packet, now: Time): (r: Lane)
    requires TxnRouters.NbTransportFw(l, pool, h, BeginReq, now + pkt.payloadDelay).Ok?
  {
    var l1 := TxnRouters.NbTransportFw(l, pool, h, BeginReq, now + pkt.payloadDelay).value;
    l1.(log := l1.log.(accepted := l1.log.accepted + [pkt.Stub()]))
  }
}
