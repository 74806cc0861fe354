/** The routing tables and the handshake together. */
module WholeSystem {
  import opened Common
  import opened Kernel
  import BaseProtocol
  import opened Payloads
  import opened BlockingPackets
  import opened TxnRouters
  import opened SlavePorts
  import opened Pipes
  import opened Simulation
  import opened Runs
  import opened Handshake
  import opened Routing
  import Requests

  // ---------- the tables do not change ----------

  predicate SameTables(s: PortState, s': PortState) {
    s'.sockets == s.sockets && s'.helper.num == s.helper.num
  }

  lemma RequestTables(s: PortState, pkt: Packet)
    requires RecvTimingReq(s, pkt).Ok?
    ensures SameTables(s, RecvTimingReq(s, pkt).value.0)
  {
  }

  lemma {:induction false} ScriptTables(s: PortState, script: seq<Packet>)
    requires RecvAll(s, script).Ok?
    ensures SameTables(s, RecvAll(s, script).value)
    decreases |script|
  {
    if script != [] && !s.peerWaits {
      RequestTables(s, script[0]);
      ScriptTables(RecvTimingReq(s, script[0]).value.0, script[1..]);
    }
  }

  lemma FinishTables(s: PortState, k: nat, h: Handle)
    ensures Finish(s, k, h).Ok? ==> SameTables(s, Finish(s, k, h).value)
  {
  }

  lemma PecTables(s: PortState, h: Handle, phase: BaseProtocol.Phase, accept: bool, script: seq<Packet>)
    requires Pec(s, h, phase, accept, script).Ok?
    ensures SameTables(s, Pec(s, h, phase, accept, script).value)
  {
    var s1 := s;
    if phase == BaseProtocol.EndReq || (IsBlocking(s.helper, h) && phase == BaseProtocol.BeginResp) {
      UnblockTables(s, h, script);
      s1 := Unblock(s, h, script).value;
    }
    if phase == BaseProtocol.BeginResp {
      RespondTables(s1, h, accept);
    }
  }

  lemma UnblockTables(s: PortState, h: Handle, script: seq<Packet>)
    requires Unblock(s, h, script).Ok?
    ensures SameTables(s, Unblock(s, h, script).value)
  {
    var (helper, need) := ClearChannel(s.helper, s.pool, h).value;
    if need {
      ScriptTables(s.(helper := helper, peerWaits := false, retries := s.retries + 1), script);
    }
  }

  lemma RespondTables(s: PortState, h: Handle, accept: bool)
    requires Respond(s, h, accept).Ok?
    ensures SameTables(s, Respond(s, h, accept).value)
  {
    var ext := s.pool.slots[h].ext.value;
    var pkt := ext.packet.Answered();
    var s1 := s.(pool := s.pool.(slots := s.pool.slots[h := s.pool.slots[h].(ext := Some(ext.(packet := pkt)))]));
    FinishTables(s1, ext.core, h);
  }

  lemma {:induction false} ResendTables(s: PortState, sockets: seq<nat>, refused: set<nat>)
    requires ResendAll(s, sockets, refused).Ok?
    ensures SameTables(s, ResendAll(s, sockets, refused).value)
    decreases |sockets|
  {
    if sockets != [] {
      var k := sockets[0];
      var ext := GetExtension(s.pool, s.helper.response[k].value).value;
      var helper := UpdateBlocking(s.helper, ext.core, None, Response).value;
      FinishTables(s.(helper := helper), ext.core, s.helper.response[k].value);
      ResendTables(Resend(s, k, k !in refused).value, sockets[1..], refused);
    }
  }

  lemma ServiceTables(s: PortState, k: nat, i: nat, accept: bool, script: seq<Packet>)
    requires k < |s.lanes| && i < |s.lanes[k].events| && Service(s, k, i, accept, script).Ok?
    ensures SameTables(s, Service(s, k, i, accept, script).value)
  {
    var events := s.lanes[k].events;
    var popped := SetLane(s, k, s.lanes[k].(events := events[..i] + events[i + 1..]), s.pool);
    PecTables(popped, events[i].h, events[i].phase, accept, script);
  }

  lemma StepTables(s: PortState, step: Step)
    requires Enabled(s, step) && Next(s, step).Ok?
    ensures SameTables(s, Next(s, step).value)
  {
    match step
    case Request(pkt) => RequestTables(s, pkt);
    case Retry(refused) => ResendTables(s, BlockedFrom(s.helper, 0), refused);
    case Peq(k, e) =>
    case Done(k, latency) =>
    case Memory(k) =>
    case Event(k, i, accept, script) => ServiceTables(s, k, i, accept, script);
    case CatchUp =>
    case Tick(to) =>
  }

  lemma {:induction false} RunTables(s: PortState, steps: seq<Step>)
    requires Schedule(s, steps) && Run(s, steps).Ok?
    ensures SameTables(s, Run(s, steps).value)
    decreases |steps|
  {
    if steps != [] {
      StepTables(s, steps[0]);
      RunTables(Next(s, steps[0]).value, steps[1..]);
    }
  }

  // ---------- routing and the index assertions ----------

  /** recvTimingReq fails an index assertion of the helper exactly on a packet that may be sent otherwise, for a socket that is not there. */
  lemma IndexFault(s: PortState, pipes: seq<Pipe>, pkt: Packet)
    requires Refines(s, pipes)
    ensures RecvTimingReq(s, pkt) == Fatal(BadIndex) <==>
              CaughtUp(s) && !pkt.cacheResponding && (pkt.isRead || pkt.isWrite) && SocketOf(s, pkt) >= s.helper.num
  {
    FreeTop(s, pipes);
    var k := SocketOf(s, pkt);
    assert k <= s.helper.num ==> k in s.helper.request && k in s.helper.retry;
  }

  function ReadOf(id: RequestorId): (r: Packet) {
    Packet(0, id, None, 0, 0, true, false, false, false, true, false, 0, 0)
  }

  /** No packet without a cluster id fails an index assertion of the helper. */
  ghost predicate IndicesHold(s: PortState) {
    forall pkt: Packet :: pkt.cluster.None? ==> RecvTimingReq(s, pkt) != Fatal(BadIndex)
  }

  /**
   * Whatever the socket map, and after whatever run of the port bound with it: when
   * gem5 has caught up, the index assertions hold for all packets that the map
   * routes if and only if the map does not reach beyond its own size.
   */
  lemma IndexExact(m: SocketMap, ranges: seq<MemRange>, start: Time, steps: seq<Step>)
    requires Ascending(m) && m != [] && |ranges| == |m|
    requires Schedule(Bound(m, ranges, start), steps)
    ensures var r := Run(Bound(m, ranges, start), steps);
            && r.Ok?
            && (NoneBeyond(m) ==> IndicesHold(r.value))
            && (CaughtUp(r.value) && IndicesHold(r.value) ==> NoneBeyond(m))
  {
    BoundExact(m);
    if NoneBeyond(m) {
      InRange(m, ranges, start, steps);
    } else {
      BoundRefines(m, ranges, start);
      var q, s := EveryRun(Bound(m, ranges, start), seq(|ranges|, _ => EMPTY_PIPE), steps);
      RunTables(Bound(m, ranges, start), steps);
      var id: RequestorId :| GetSocketId(m, id) >= |m|;
      IndexFault(s, q, ReadOf(id));
    }
  }

  lemma InRange(m: SocketMap, ranges: seq<MemRange>, start: Time, steps: seq<Step>)
    requires ranges != [] && |ranges| == |m| && forall id: RequestorId :: GetSocketId(m, id) < |m|
    requires Schedule(Bound(m, ranges, start), steps)
    ensures var r := Run(Bound(m, ranges, start), steps); r.Ok? && Sound(r.value) && IndicesHold(r.value)
  {
    BoundRefines(m, ranges, start);
    var q, s := EveryRun(Bound(m, ranges, start), seq(|ranges|, _ => EMPTY_PIPE), steps);
    RunTables(Bound(m, ranges, start), steps);
    RefinesSound(s, q);
    InRangeState(s, q);
  }

  /**
   * After whatever run of the port bound with a socket map, every packet goes to the
   * socket that its cluster id or the map gives it, and to no other.
   */
  lemma RequestsRouted(m: SocketMap, ranges: seq<MemRange>, start: Time, steps: seq<Step>, pkt: Packet) returns (k: nat)
    requires Ascending(m) && ranges != []
    requires Schedule(Bound(m, ranges, start), steps)
    ensures var r := Run(Bound(m, ranges, start), steps);
            r.Ok? && Requests.Routed(m, pkt, k) && Requests.Answered(r.value, pkt, k)
  {
    BoundRefines(m, ranges, start);
    var q, s := EveryRun(Bound(m, ranges, start), seq(|ranges|, _ => EMPTY_PIPE), steps);
    RunTables(Bound(m, ranges, start), steps);
    k := Requests.RequestExact(s, q, pkt);
  }

  lemma InRangeState(s: PortState, pipes: seq<Pipe>)
    requires Refines(s, pipes) && forall id: RequestorId :: GetSocketId(s.sockets, id) < s.helper.num
    ensures IndicesHold(s)
  {
    forall pkt: Packet | pkt.cluster.None?
      ensures RecvTimingReq(s, pkt) != Fatal(BadIndex)
    {
      IndexFault(s, pipes, pkt);
    }
  }

  /** The cores as the simulation control hands them to the port. */
  function PortCores(cpus: seq<CpuInfo>): (r: CoreMap) {
    InitCores([], cpus)
  }

  /**
   * Without a configuration: for any list of cores the port gets a socket for each
   * core, routes every requestor as the simulation control numbers it, and every
   * run is sound and routes every packet to a socket that is there.
   */
  lemma DefaultSystem(cpus: seq<CpuInfo>, ranges: seq<MemRange>, start: Time, steps: seq<Step>)
    requires cpus != [] && |ranges| == |PortCores(cpus)|
    requires Schedule(Bound(SocketsOf([], PortCores(cpus), Names(PortCores(cpus))), ranges, start), steps)
    ensures var sockets := SocketsOf([], PortCores(cpus), Names(PortCores(cpus)));
            var r := Run(Bound(sockets, ranges, start), steps);
            && |sockets| == |ranges|
            && (forall id: RequestorId :: GetSocketId(sockets, id) == CoreIdFrom(PortCores(cpus), id, 0) < |sockets|)
            && r.Ok? && Sound(r.value) && IndicesHold(r.value)
  {
    var ports := PortCores(cpus);
    InitCoresIds([], cpus, "");
    forall id: RequestorId
      ensures GetSocketId(DefaultFrom(ports, 0), id) == CoreIdFrom(ports, id, 0) < |ports| == |DefaultFrom(ports, 0)|
    {
      RoutingAgrees(ports, id, 0);
    }
    RoutingAgrees(ports, 0, 0);
    InRange(DefaultFrom(ports, 0), ranges, start, steps);
  }

  /** With a configuration that gives each of the sockets 0 to n - 1 an existing core, every run is sound. */
  lemma ConfiguredSystem(config: seq<SocketConfig>, cpus: seq<CpuInfo>, ranges: seq<MemRange>, start: Time, steps: seq<Step>)
    requires FullConfig(config, |PortCores(cpus)|) && |ranges| == |config|
    requires Schedule(Bound(SocketsOf(config, PortCores(cpus), Names(PortCores(cpus))), ranges, start), steps)
    ensures var sockets := SocketsOf(config, PortCores(cpus), Names(PortCores(cpus)));
            var r := Run(Bound(sockets, ranges, start), steps);
            |sockets| == |ranges| && r.Ok? && Sound(r.value) && IndicesHold(r.value)
  {
    var ports, names := PortCores(cpus), Names(PortCores(cpus));
    InitCoresIds([], cpus, "");
    forall id: RequestorId
      ensures GetSocketId(ConfigMap([], config, ports, names), id) < |config| == |ConfigMap([], config, ports, names)|
    {
      ConfiguredRouting(config, ports, id);
    }
    ConfiguredRouting(config, ports, 0);
    InRange(ConfigMap([], config, ports, names), ranges, start, steps);
  }
}
