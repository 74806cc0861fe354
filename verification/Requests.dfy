/** What recvTimingReq does with a packet, in the terms of its caller. */
module Requests {
  import opened Common
  import opened Kernel
  import opened BaseProtocol
  import opened Payloads
  import opened BlockingPackets
  import opened TxnRouters
  import opened SlavePorts
  import opened Pipes
  import opened Simulation
  import opened Routing

  // ---------- the socket of a packet ----------

  /**
   * The socket a packet goes to: the one its cluster id names, if it has one; else the
   * least socket that lists its requestor, or socket 0 if none does.
   */
  ghost predicate Routed(m: SocketMap, pkt: Packet, k: nat) {
    if pkt.cluster.Some? then pkt.cluster == Some(k)
    else if exists j: nat :: pkt.requestor in Lookup(m, j) then
      pkt.requestor in Lookup(m, k) && forall j: nat :: j < k ==> pkt.requestor !in Lookup(m, j)
    else k == 0
  }

  lemma SocketRouted(s: PortState, pkt: Packet)
    requires Ascending(s.sockets)
    ensures Routed(s.sockets, pkt, SocketOf(s, pkt))
  {
    if pkt.cluster.None? {
      var k := SocketOf(s, pkt);
      LeastOwner(s.sockets, pkt.requestor);
      if j: nat :| pkt.requestor in Lookup(s.sockets, j) {
        assert !Unowned(s.sockets, pkt.requestor) && !OwnerBefore(s.sockets, pkt.requestor, k);
      } else {
        assert Unowned(s.sockets, pkt.requestor);
      }
    }
  }

  lemma RoutedOnce(m: SocketMap, pkt: Packet, j: nat, k: nat)
    requires Routed(m, pkt, j) && Routed(m, pkt, k)
    ensures j == k
  {
  }

  // ---------- what a request changes ----------

  /** The address is one of the range, whose upper end is computed on 64 bits. */
  predicate Inside(range: MemRange, addr: nat) {
    range.start <= addr && addr < (range.start + range.size) % 0x1_0000_0000_0000_0000
  }

  /** The payload of the request: the packet with its delays paid, what it asks for, and its socket. */
  predicate Carries(slot: Slot, pkt: Packet, k: nat, serial: nat) {
    && slot.refs == 1 && slot.addr == pkt.addr && slot.size == pkt.size
    && (pkt.isRead ==> slot.command == ReadCommand)
    && (!pkt.isRead && pkt.isWrite && !pkt.isInvalidate ==> slot.command == WriteCommand)
    && slot.ext == Some(Extension(pkt.(payloadDelay := 0, headerDelay := 0), k, serial))
  }

  /** An invalidating write leaves the command of the payload as it was. */
  predicate CommandLeft(pool: PoolState, slot: Slot, pkt: Packet, h: Handle) {
    !pkt.isRead && pkt.isInvalidate ==> slot.command == if h < |pool.slots| then pool.slots[h].command else IgnoreCommand
  }

  /** The payload comes from the end of the free list, or is a new one if the list is empty; no other payload changes. */
  predicate Drawn(pool: PoolState, pool': PoolState, h: Handle) {
    && (if pool.free != [] then h == pool.free[|pool.free| - 1] && pool'.free == pool.free[..|pool.free| - 1]
                                && pool'.allocations == pool.allocations && |pool'.slots| == |pool.slots|
        else h == |pool.slots| && pool'.free == [] && pool'.allocations == pool.allocations + 1
             && |pool'.slots| == |pool.slots| + 1)
    && (forall x :: 0 <= x < |pool.slots| && x != h ==> pool'.slots[x] == pool.slots[x])
  }

  /** The history of the socket with the request at its end. */
  function Accepted(log: Log, pkt: Packet, at: Time): (r: Log) {
    log.(wire := log.wire + [WireEvent(BeginReq, |log.accepted|)], due := log.due + [at],
         accepted := log.accepted + [Ticket(pkt.id, pkt.needsResponse || pkt.isResponse)])
  }

  /** BEGIN_REQ is on its way to socket k, after the payload delay, and its payload h blocks the socket. */
  predicate SentAs(s: PortState, pkt: Packet, k: nat, s': PortState, h: Handle) {
    && k < |s.lanes| == |s'.lanes|
    && s' == s.(lanes := s.lanes[k := s'.lanes[k]], pool := s'.pool, helper := s.helper.(request := s.helper.request[k := Some(h)]))
    && s'.lanes[k] == s.lanes[k].(
         router := s.lanes[k].router.(peq := s.lanes[k].router.peq + multiset{PeqEntry(h, BeginReq, s.now + pkt.payloadDelay)}),
         log := Accepted(s.lanes[k].log, pkt, s.now + pkt.payloadDelay))
    && h < |s'.pool.slots| && Carries(s'.pool.slots[h], pkt, k, |s.lanes[k].log.accepted|) && Drawn(s.pool, s'.pool, h)
    && CommandLeft(s.pool, s'.pool.slots[h], pkt, h)
  }

  ghost predicate Sent(s: PortState, pkt: Packet, k: nat, s': PortState) {
    exists h: Handle :: SentAs(s, pkt, k, s', h)
  }

  /** Nothing but the retry flag of socket k rises. */
  function Refused(s: PortState, k: nat): (r: PortState) {
    s.(helper := s.helper.(retry := s.helper.retry[k := true]), peerWaits := true, refusals := s.refusals + 1)
  }

  /** What gem5 may send to socket k: a read or a write for a socket that is there, within its memory unless it is blocked. */
  predicate Sendable(s: PortState, pkt: Packet, k: nat) {
    && s.curTick == s.now && !pkt.cacheResponding && (pkt.isRead || pkt.isWrite)
    && k < |s.lanes| && (At(s.helper.request, k).Some? || Inside(s.lanes[k].router.range, pkt.addr))
  }

  lemma IssueDrawn(pool: PoolState, pkt: Packet, k: nat, serial: nat)
    requires pool.free != [] ==> pool.free[|pool.free| - 1] < |pool.slots| && pool.slots[pool.free[|pool.free| - 1]].refs == 0
    ensures var (pool', h) := Issue(pool, pkt, k, serial);
            h < |pool'.slots| && Carries(pool'.slots[h], pkt, k, serial) && Drawn(pool, pool', h)
            && CommandLeft(pool, pool'.slots[h], pkt, h)
  {
    IssueMatches(pool, pkt, k, serial);
  }

  /** The lane with BEGIN_REQ under way. */
  lemma ForwardLane(l: Lane, pool: PoolState, h: Handle, at: Time, pkt: Packet)
    requires h < |pool.slots| && pool.slots[h].addr == pkt.addr && Inside(l.router.range, pkt.addr)
    requires pool.slots[h].ext.Some? && pool.slots[h].ext.value.serial == |l.log.accepted|
    ensures var r := NbTransportFw(l, pool, h, BeginReq, at);
            && r.Ok?
            && r.value.(log := r.value.log.(accepted := r.value.log.accepted + [pkt.Stub()]))
            == l.(router := l.router.(peq := l.router.peq + multiset{PeqEntry(h, BeginReq, at)}), log := Accepted(l.log, pkt, at))
  {
  }

  lemma FreeUnused(s: PortState, pipes: seq<Pipe>)
    requires Refines(s, pipes)
    ensures s.pool.free != [] ==>
              var h := s.pool.free[|s.pool.free| - 1]; h < |s.pool.slots| && s.pool.slots[h].refs == 0
  {
  }

  lemma SentBegin(s: PortState, pipes: seq<Pipe>, pkt: Packet, k: nat)
    requires Refines(s, pipes) && k < |s.lanes| && Inside(s.lanes[k].router.range, pkt.addr)
    ensures Begin(s, pkt, k).Ok? && Sent(s, pkt, k, Begin(s, pkt, k).value)
  {
    FreeUnused(s, pipes);
    var serial := |s.lanes[k].log.accepted|;
    var (pool, h) := Issue(s.pool, pkt, k, serial);
    IssueDrawn(s.pool, pkt, k, serial);
    ForwardLane(s.lanes[k], pool, h, s.now + pkt.payloadDelay, pkt);
    BeginFacts(s, pkt, k);
    SentFields(s, pkt, k, Begin(s, pkt, k).value, pool, h);
  }

  lemma SentFields(s: PortState, pkt: Packet, k: nat, s': PortState, pool: PoolState, h: Handle)
    requires k < |s.lanes| && h < |pool.slots| && Carries(pool.slots[h], pkt, k, |s.lanes[k].log.accepted|) && Drawn(s.pool, pool, h)
    requires CommandLeft(s.pool, pool.slots[h], pkt, h)
    requires s' == s.(lanes := s'.lanes, pool := pool, helper := s.helper.(request := s.helper.request[k := Some(h)]))
    requires var l, at := s.lanes[k], s.now + pkt.payloadDelay;
             s'.lanes == s.lanes[k := l.(router := l.router.(peq := l.router.peq + multiset{PeqEntry(h, BeginReq, at)}),
                                         log := Accepted(l.log, pkt, at))]
    ensures Sent(s, pkt, k, s')
  {
    assert SentAs(s, pkt, k, s', h);
  }

  /** The answer to a packet for socket k, and what comes of it. */
  ghost predicate Answered(s: PortState, pkt: Packet, k: nat) {
    && (RecvTimingReq(s, pkt).Ok? <==> Sendable(s, pkt, k))
    && (RecvTimingReq(s, pkt).Ok? ==>
          var (s', accepted) := RecvTimingReq(s, pkt).value;
          && accepted == At(s.helper.request, k).None?
          && if accepted then Sent(s, pkt, k, s') else s' == Refused(s, k))
  }

  /**
   * recvTimingReq in a reachable state, for any packet: it stops the simulation
   * exactly on a packet that may not be sent; else it refuses the packet, and changes
   * nothing but the retry flag of the packet's socket, if the socket is blocked, and
   * if not BEGIN_REQ goes out on that socket alone.
   */
  lemma RequestExact(s: PortState, pipes: seq<Pipe>, pkt: Packet) returns (k: nat)
    requires Refines(s, pipes) && Ascending(s.sockets)
    ensures Routed(s.sockets, pkt, k) && Answered(s, pkt, k)
  {
    k := SocketOf(s, pkt);
    SocketRouted(s, pkt);
    RequestCases(s, pipes, pkt);
    if Sendable(s, pkt, k) {
      assert k in s.helper.request;
      if At(s.helper.request, k).None? {
        SentBegin(s, pipes, pkt, k);
      }
    }
  }
}
