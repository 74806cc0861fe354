/**
 * The invariant of the handshake: the port, its helper, the payload pool, the
 * routers and the event queue together are described by one pipe per socket.
 */
module Simulation {
  import opened Common
  import opened Kernel
  import opened BaseProtocol
  import opened Payloads
  import opened BlockingPackets
  import opened TxnRouters
  import opened SlavePorts
  import opened Pipes
  import Routing

  /** What binding the port establishes and no step changes. */
  ghost predicate Configured(s: PortState) {
    && 0 < s.helper.num == |s.lanes|
    && s.helper.Valid()
    && At(s.helper.request, s.helper.num).None?
    && At(s.helper.response, s.helper.num).None?
  }

  predicate Owns(p: Pipe, h: Handle) {
    (p.HeadTxn() != [] && p.head.t.h == h) || (p.TailTxn() != [] && p.tail.t.h == h)
  }

  /** The number of live transactions. */
  function LiveCount(pipes: seq<Pipe>): (r: nat) {
    if pipes == [] then 0 else LiveCount(pipes[..|pipes| - 1]) + |pipes[|pipes| - 1].Live()|
  }

  predicate InUse(slots: seq<Slot>, pipes: seq<Pipe>, h: Handle)
    requires h < |slots|
  {
    slots[h].ext.Some? && slots[h].ext.value.core < |pipes| && Owns(pipes[slots[h].ext.value.core], h)
  }

  /** The payload is held by a live transaction, or it is in the free list and carries no extension. */
  predicate Accounted(pool: PoolState, pipes: seq<Pipe>, h: Handle)
    requires h < |pool.slots|
  {
    if pool.slots[h].refs > 0 then InUse(pool.slots, pipes, h) else h in pool.free && pool.slots[h].ext.None?
  }

  /** Each payload is either in the free list or held by exactly one live transaction. */
  ghost predicate PoolOk(pool: PoolState, pipes: seq<Pipe>) {
    && pool.allocations == |pool.slots|
    && (forall i :: 0 <= i < |pool.free| ==> pool.free[i] < |pool.slots| && pool.slots[pool.free[i]].refs == 0)
    && (forall i, j :: 0 <= i < j < |pool.free| ==> pool.free[i] != pool.free[j])
    && (forall h :: 0 <= h < |pool.slots| ==> Accounted(pool, pipes, h))
    && LiveCount(pipes) + |pool.free| == |pool.slots| <= 2 * |pipes|
  }

  /** The retry flags, and what gem5 has been told. */
  ghost predicate RetryOk(s: PortState) {
    && (forall k: nat :: Flag(s.helper.retry, k) ==> k < s.helper.num && At(s.helper.request, k).Some?)
    && (forall j: nat, k: nat :: Flag(s.helper.retry, j) && Flag(s.helper.retry, k) ==> j == k)
    && (s.peerWaits <==> exists k: nat :: Flag(s.helper.retry, k))
    && s.refusals == s.retries + if s.peerWaits then 1 else 0
  }

  predicate LaneAt(s: PortState, j: nat, p: Pipe) {
    j < |s.lanes| && LaneOk(s.now, j, At(s.helper.request, j), At(s.helper.response, j), s.lanes[j], s.pool.slots, p)
  }

  ghost predicate LanesOk(s: PortState, pipes: seq<Pipe>) {
    && |pipes| == |s.lanes|
    && forall k :: 0 <= k < |pipes| ==> LaneAt(s, k, pipes[k])
  }

  ghost predicate Refines(s: PortState, pipes: seq<Pipe>) {
    && Configured(s)
    && LanesOk(s, pipes)
    && PoolOk(s.pool, pipes)
    && RetryOk(s)
  }

  // ---------- counting ----------

  lemma {:induction false} LiveCountUpdate(pipes: seq<Pipe>, k: nat, p: Pipe)
    requires k < |pipes|
    ensures LiveCount(pipes[k := p]) + |pipes[k].Live()| == LiveCount(pipes) + |p.Live()|
  {
    var n := |pipes| - 1;
    if k == n {
      assert pipes[k := p][..n] == pipes[..n];
    } else {
      assert pipes[k := p][..n] == pipes[..n][k := p];
      LiveCountUpdate(pipes[..n], k, p);
    }
  }

  /** At most two live transactions on each socket. */
  lemma {:induction false} LiveCountBound(pipes: seq<Pipe>)
    ensures LiveCount(pipes) <= 2 * |pipes|
  {
    if pipes != [] {
      LiveCountBound(pipes[..|pipes| - 1]);
    }
  }

  // ---------- the pool ----------

  /** The payload h stays with its transaction; only its count, which stays positive, and its packet change. */
  lemma PoolKept(pool: PoolState, pool': PoolState, pipes: seq<Pipe>, k: nat, p: Pipe, h: Handle)
    requires PoolOk(pool, pipes) && k < |pipes| && h < |pool.slots|
    requires pool.slots[h].refs > 0 && InUse(pool.slots, pipes, h) && pool.slots[h].ext.value.core == k
    requires forall x :: Owns(pipes[k], x) <==> Owns(p, x)
    requires |p.Live()| == |pipes[k].Live()|
    requires pool'.free == pool.free && pool'.allocations == pool.allocations && |pool'.slots| == |pool.slots|
    requires forall x :: 0 <= x < |pool.slots| && x != h ==> pool'.slots[x] == pool.slots[x]
    requires pool'.slots[h].refs > 0 && pool'.slots[h].ext.Some? && pool'.slots[h].ext.value.core == k
    ensures PoolOk(pool', pipes[k := p])
  {
    LiveCountUpdate(pipes, k, p);
    var pipes' := pipes[k := p];
    forall x | 0 <= x < |pool'.slots|
      ensures Accounted(pool', pipes', x)
    {
      assert Accounted(pool, pipes, x);
    }
  }

  /** The transactions of socket k stay the same. */
  lemma PoolSameOwners(pool: PoolState, pipes: seq<Pipe>, k: nat, p: Pipe)
    requires PoolOk(pool, pipes) && k < |pipes|
    requires forall x :: Owns(pipes[k], x) <==> Owns(p, x)
    requires |p.Live()| == |pipes[k].Live()|
    ensures PoolOk(pool, pipes[k := p])
  {
    LiveCountUpdate(pipes, k, p);
    var pipes' := pipes[k := p];
    forall x | 0 <= x < |pool.slots|
      ensures Accounted(pool, pipes', x)
    {
      assert Accounted(pool, pipes, x);
    }
  }

  /** The last reference to h goes: its transaction is no longer live. */
  lemma PoolReleased(pool: PoolState, pipes: seq<Pipe>, k: nat, p: Pipe, h: Handle)
    requires PoolOk(pool, pipes) && k < |pipes| && h < |pool.slots|
    requires pool.slots[h].refs == 1 && Owns(pipes[k], h)
    requires forall x :: Owns(pipes[k], x) && x != h ==> Owns(p, x)
    requires |p.Live()| + 1 == |pipes[k].Live()|
    ensures PoolOk(Release(pool, h).value, pipes[k := p])
  {
    LiveCountUpdate(pipes, k, p);
    var pool' := Release(pool, h).value;
    var pipes' := pipes[k := p];
    forall x | 0 <= x < |pool'.slots|
      ensures Accounted(pool', pipes', x)
    {
      assert Accounted(pool, pipes, x);
    }
  }

  /** Taking a payload out of the free list, or making a new one, leaves a free list of the same kind. */
  lemma FreeAfterAllocate(pool: PoolState, pool': PoolState, slot: Slot)
    requires pool.allocations == |pool.slots|
    requires forall i :: 0 <= i < |pool.free| ==> pool.free[i] < |pool.slots| && pool.slots[pool.free[i]].refs == 0
    requires forall i, j :: 0 <= i < j < |pool.free| ==> pool.free[i] != pool.free[j]
    requires var (p0, h) := Allocate(pool); pool' == p0.(slots := p0.slots[h := slot])
    ensures pool'.allocations == |pool'.slots|
    ensures forall i :: 0 <= i < |pool'.free| ==> pool'.free[i] < |pool'.slots| && pool'.slots[pool'.free[i]].refs == 0
    ensures forall i, j :: 0 <= i < j < |pool'.free| ==> pool'.free[i] != pool'.free[j]
    ensures |pool'.slots| == |pool'.free| + |pool.slots| - |pool.free| + 1
    ensures forall x :: 0 <= x < |pool'.slots| && x != Allocate(pool).1 ==>
              x < |pool.slots| && pool'.slots[x] == pool.slots[x] && (x in pool.free ==> x in pool'.free)
    ensures Allocate(pool).1 < |pool'.slots| && pool'.slots[Allocate(pool).1] == slot
  {
    var h := Allocate(pool).1;
    if pool.free != [] {
      assert pool.free == pool'.free + [h];
    }
  }

  /** A fresh or recycled payload h is given to a new transaction of socket k. */
  lemma PoolAllocated(pool: PoolState, pool': PoolState, pipes: seq<Pipe>, k: nat, p: Pipe, slot: Slot)
    requires PoolOk(pool, pipes) && k < |pipes|
    requires var (p0, h) := Allocate(pool);
             pool' == p0.(slots := p0.slots[h := slot]) && Owns(p, h)
    requires slot.refs > 0 && slot.ext.Some? && slot.ext.value.core == k
    requires forall x :: Owns(pipes[k], x) ==> Owns(p, x)
    requires |p.Live()| == |pipes[k].Live()| + 1
    ensures PoolOk(pool', pipes[k := p])
  {
    LiveCountUpdate(pipes, k, p);
    LiveCountBound(pipes[k := p]);
    FreeAfterAllocate(pool, pool', slot);
    var pipes' := pipes[k := p];
    forall x | 0 <= x < |pool'.slots|
      ensures Accounted(pool', pipes', x)
    {
      AllocatedUse(pool, pool', pipes, k, p, x);
    }
  }

  lemma AllocatedUse(pool: PoolState, pool': PoolState, pipes: seq<Pipe>, k: nat, p: Pipe, x: Handle)
    requires k < |pipes| && x < |pool'.slots|
    requires forall y :: Owns(pipes[k], y) ==> Owns(p, y)
    requires if x == Allocate(pool).1
             then Owns(p, x) && pool'.slots[x].refs > 0 && pool'.slots[x].ext.Some? && pool'.slots[x].ext.value.core == k
             else x < |pool.slots| && pool'.slots[x] == pool.slots[x] && (x in pool.free ==> x in pool'.free)
                  && Accounted(pool, pipes, x)
    ensures Accounted(pool', pipes[k := p], x)
  {
  }

  // ---------- from one lane to the whole ----------

  /** Outside socket k and the payload h, nothing has changed. */
  ghost predicate SameElsewhere(s: PortState, s': PortState, k: nat, h: Handle) {
    && |s'.lanes| == |s.lanes| && s'.now == s.now
    && (forall j :: 0 <= j < |s.lanes| && j != k ==> SameSocket(s, s', j))
    && |s.pool.slots| <= |s'.pool.slots|
    && (forall x :: 0 <= x < |s.pool.slots| && x != h ==> s'.pool.slots[x] == s.pool.slots[x])
    && (h < |s.pool.slots| ==> s.pool.slots[h].refs == 0 || (s.pool.slots[h].ext.Some? && s.pool.slots[h].ext.value.core == k))
  }

  predicate SameSocket(s: PortState, s': PortState, j: nat) {
    && j < |s.lanes| && j < |s'.lanes| && s'.lanes[j] == s.lanes[j]
    && At(s'.helper.request, j) == At(s.helper.request, j)
    && At(s'.helper.response, j) == At(s.helper.response, j)
  }

  lemma LaneElsewhere(s: PortState, s': PortState, k: nat, h: Handle, j: nat, p: Pipe)
    requires SameElsewhere(s, s', k, h)
    requires j < |s.lanes| && j != k && LaneAt(s, j, p)
    ensures LaneAt(s', j, p)
  {
    assert SameSocket(s, s', j);
    LaneFrame(s.now, j, At(s.helper.request, j), At(s.helper.response, j), s.lanes[j], s.pool.slots, s'.pool.slots, p);
  }

  lemma LanesUpdate(s: PortState, pipes: seq<Pipe>, s': PortState, k: nat, h: Handle, p: Pipe)
    requires LanesOk(s, pipes) && k < |s.lanes|
    requires SameElsewhere(s, s', k, h)
    requires LaneAt(s', k, p)
    ensures LanesOk(s', pipes[k := p])
  {
    var q := pipes[k := p];
    forall j | 0 <= j < |q|
      ensures LaneAt(s', j, q[j])
    {
      if j != k {
        LaneElsewhere(s, s', k, h, j, pipes[j]);
      }
    }
  }

  // ---------- the router's steps ----------

  /** Router k has made a step: only its lane and the pool can differ. */
  predicate OnlyLane(s: PortState, s': PortState, k: nat) {
    && k < |s.lanes| && k < |s'.lanes|
    && s' == s.(lanes := s.lanes[k := s'.lanes[k]], pool := s'.pool, ends := s'.ends)
  }

  lemma TargetStep(s: PortState, pipes: seq<Pipe>, s': PortState, k: nat, h: Handle, p: Pipe)
    requires Refines(s, pipes) && OnlyLane(s, s', k)
    requires SameElsewhere(s, s', k, h)
    requires LaneAt(s', k, p)
    requires PoolOk(s'.pool, pipes[k := p])
    ensures Refines(s', pipes[k := p])
  {
    LanesUpdate(s, pipes, s', k, h, p);
  }

  lemma PeqEntries(s: PortState, k: nat, e: PeqEntry, q: Pipe)
    requires LaneAt(s, k, q) && e in s.lanes[k].router.peq
    ensures || (q.tail.Offered? && e == PeqEntry(q.tail.t.h, BeginReq, q.tail.at))
            || (q.head.Closing? && e == PeqEntry(q.head.h, EndResp, q.head.at))
  {
    assert e in q.Peq();
  }

  lemma HeldByTail(s: PortState, pipes: seq<Pipe>, k: nat)
    requires k < |pipes| && LaneAt(s, k, pipes[k]) && !pipes[k].tail.Free?
    ensures var h := pipes[k].tail.t.h;
            && h < |s.pool.slots| && s.pool.slots[h].refs > 0 && InUse(s.pool.slots, pipes, h)
            && s.pool.slots[h].ext.value.core == k
  {
  }

  lemma HeldByHead(s: PortState, pipes: seq<Pipe>, k: nat)
    requires k < |pipes| && LaneAt(s, k, pipes[k]) && pipes[k].HeadTxn() != []
    ensures var h := pipes[k].head.t.h;
            && h < |s.pool.slots| && s.pool.slots[h].refs == pipes[k].HeadRefs() && InUse(s.pool.slots, pipes, h)
            && s.pool.slots[h].ext.value.core == k
            && (!pipes[k].tail.Free? ==> pipes[k].tail.t.h != h)
  {
  }

  /** The pipe after BEGIN_REQ has been handled. */
  function Began(q: Pipe, now: Time): (r: Pipe)
    requires q.tail.Offered?
  {
    if q.head.Idle? then Taken(q, now) else Pipe(q.head, Parked(q.tail.t))
  }

  lemma BeginReqLane(s: PortState, k: nat, e: PeqEntry, q: Pipe)
    requires LaneAt(s, k, q)
    requires q.tail.Offered? && e == PeqEntry(q.tail.t.h, BeginReq, q.tail.at)
    ensures var r := RouterCallback(s, k, e);
            && r.Ok? && OnlyLane(s, r.value, k)
            && r.value.pool == Acquire(s.pool, e.h).value
            && LaneAt(r.value, k, Began(q, s.now))
  {
    BeginReqKeeps(s.now, k, At(s.helper.request, k), At(s.helper.response, k), s.lanes[k], s.pool, q);
  }

  lemma BeginReqStep(s: PortState, pipes: seq<Pipe>, s': PortState, k: nat, h: Handle)
    requires Refines(s, pipes) && OnlyLane(s, s', k) && pipes[k].tail.Offered? && h == pipes[k].tail.t.h
    requires h < |s.pool.slots| && s'.pool == Acquire(s.pool, h).value
    requires LaneAt(s', k, Began(pipes[k], s.now))
    ensures Refines(s', pipes[k := Began(pipes[k], s.now)])
  {
    HeldByTail(s, pipes, k);
    PoolKept(s.pool, s'.pool, pipes, k, Began(pipes[k], s.now), h);
    TargetStep(s, pipes, s', k, h, Began(pipes[k], s.now));
  }

  /** The pipe after END_RESP has been handled. */
  function Closed(q: Pipe, now: Time): (r: Pipe) {
    if q.tail.Parked? then Taken(q, now) else Pipe(Idle, q.tail)
  }

  lemma EndRespLane(s: PortState, k: nat, e: PeqEntry, q: Pipe)
    requires LaneAt(s, k, q)
    requires q.head.Closing? && e == PeqEntry(q.head.h, EndResp, q.head.at)
    ensures var r := RouterCallback(s, k, e);
            && r.Ok? && OnlyLane(s, r.value, k)
            && r.value.pool == s.pool
            && LaneAt(r.value, k, Closed(q, s.now))
  {
    EndRespKeeps(s.now, k, At(s.helper.request, k), At(s.helper.response, k), s.lanes[k], s.pool, q);
  }

  /** A step of router k that neither adds nor drops a transaction, and leaves the pool alone. */
  lemma SamePoolStep(s: PortState, pipes: seq<Pipe>, s': PortState, k: nat, p: Pipe)
    requires Refines(s, pipes) && OnlyLane(s, s', k) && s'.pool == s.pool
    requires forall x :: Owns(pipes[k], x) <==> Owns(p, x)
    requires |p.Live()| == |pipes[k].Live()|
    requires LaneAt(s', k, p)
    ensures Refines(s', pipes[k := p])
  {
    PoolSameOwners(s.pool, pipes, k, p);
    TargetStep(s, pipes, s', k, |s.pool.slots|, p);
  }

  lemma PeqStep(s: PortState, pipes: seq<Pipe>, k: nat, e: PeqEntry) returns (p: Pipe)
    requires Refines(s, pipes) && k < |s.lanes| && e in s.lanes[k].router.peq
    ensures RouterCallback(s, k, e).Ok? && Refines(RouterCallback(s, k, e).value, pipes[k := p])
    ensures if e.phase == BeginReq then pipes[k].tail.Offered? && e == PeqEntry(pipes[k].tail.t.h, BeginReq, pipes[k].tail.at)
                                         && p == Began(pipes[k], s.now)
            else pipes[k].head.Closing? && pipes[k].head.at == e.at && p == Closed(pipes[k], s.now)
    ensures Rank(p) < Rank(pipes[k])
  {
    PeqEntries(s, k, e, pipes[k]);
    if e.phase == BeginReq {
      BeginReqLane(s, k, e, pipes[k]);
      p := Began(pipes[k], s.now);
      BeginReqStep(s, pipes, RouterCallback(s, k, e).value, k, e.h);
    } else {
      EndRespLane(s, k, e, pipes[k]);
      p := Closed(pipes[k], s.now);
      SamePoolStep(s, pipes, RouterCallback(s, k, e).value, k, p);
    }
  }

  lemma TargetDoneLane(s: PortState, k: nat, latency: Time, q: Pipe)
    requires LaneAt(s, k, q) && s.lanes[k].router.targetDone == Some(s.now)
    ensures q.head.Serving?
    ensures var r := TargetDone(s, k, latency);
            && r.Ok? && OnlyLane(s, r.value, k)
            && r.value.pool == s.pool
            && LaneAt(r.value, k, Pipe(Executing(q.head.t, s.now + latency), q.tail))
  {
    TargetDoneKeeps(s.now, latency, k, At(s.helper.request, k), At(s.helper.response, k), s.lanes[k], s.pool, q);
  }

  lemma TargetDoneStep(s: PortState, pipes: seq<Pipe>, k: nat, latency: Time) returns (p: Pipe)
    requires Refines(s, pipes) && k < |s.lanes| && s.lanes[k].router.targetDone == Some(s.now)
    ensures TargetDone(s, k, latency).Ok? && Refines(TargetDone(s, k, latency).value, pipes[k := p])
    ensures pipes[k].head.Serving? && p == Pipe(Executing(pipes[k].head.t, s.now + latency), pipes[k].tail)
    ensures Rank(p) < Rank(pipes[k])
  {
    TargetDoneLane(s, k, latency, pipes[k]);
    p := Pipe(Executing(pipes[k].head.t, s.now + latency), pipes[k].tail);
    SamePoolStep(s, pipes, TargetDone(s, k, latency).value, k, p);
  }

  lemma MemoryDoneLane(s: PortState, k: nat, q: Pipe)
    requires LaneAt(s, k, q) && s.lanes[k].router.thread == InMemory(s.now)
    ensures q.head.Executing?
    ensures var r := MemoryDone(s, k);
            && r.Ok? && OnlyLane(s, r.value, k)
            && Release(s.pool, q.head.t.h).Ok?
            && r.value.pool == Release(s.pool, q.head.t.h).value
            && LaneAt(r.value, k, Pipe(Answering(q.head.t, s.now + BEGIN_RESP_DELAY), q.tail))
  {
    MemoryDoneKeeps(s.now, k, At(s.helper.request, k), At(s.helper.response, k), s.lanes[k], s.pool, q);
  }

  lemma RespondingStep(s: PortState, pipes: seq<Pipe>, s': PortState, k: nat, p: Pipe)
    requires Refines(s, pipes) && OnlyLane(s, s', k)
    requires pipes[k].head.Executing? && p.head.Answering? && p.head.t == pipes[k].head.t && p.tail == pipes[k].tail
    requires Release(s.pool, p.head.t.h) == Ok(s'.pool)
    requires LaneAt(s', k, p)
    ensures Refines(s', pipes[k := p])
  {
    HeldByHead(s, pipes, k);
    PoolKept(s.pool, s'.pool, pipes, k, p, p.head.t.h);
    TargetStep(s, pipes, s', k, p.head.t.h, p);
  }

  lemma MemoryDoneStep(s: PortState, pipes: seq<Pipe>, k: nat) returns (p: Pipe)
    requires Refines(s, pipes) && k < |s.lanes| && s.lanes[k].router.thread == InMemory(s.now)
    ensures MemoryDone(s, k).Ok? && Refines(MemoryDone(s, k).value, pipes[k := p])
    ensures pipes[k].head.Executing? && p == Pipe(Answering(pipes[k].head.t, s.now + BEGIN_RESP_DELAY), pipes[k].tail)
    ensures Rank(p) < Rank(pipes[k])
  {
    MemoryDoneLane(s, k, pipes[k]);
    p := Pipe(Answering(pipes[k].head.t, s.now + BEGIN_RESP_DELAY), pipes[k].tail);
    RespondingStep(s, pipes, MemoryDone(s, k).value, k, p);
  }

  // ---------- requests from gem5 ----------

  /** A change of socket k, of its entries in the maps and of the payload h. */
  lemma PortStep(s: PortState, pipes: seq<Pipe>, s': PortState, k: nat, h: Handle, p: Pipe)
    requires Refines(s, pipes) && Configured(s') && k < |s.lanes|
    requires SameElsewhere(s, s', k, h)
    requires LaneAt(s', k, p)
    requires PoolOk(s'.pool, pipes[k := p])
    requires RetryOk(s')
    ensures Refines(s', pipes[k := p])
  {
    LanesUpdate(s, pipes, s', k, h, p);
  }

  lemma FreeTop(s: PortState, pipes: seq<Pipe>)
    requires Refines(s, pipes)
    ensures s.pool.free != [] ==> s.pool.free[|s.pool.free| - 1] < |s.pool.slots|
  {
  }

  /** The payload of a new request was not in use. */
  lemma FreshPayload(s: PortState, pipes: seq<Pipe>, pkt: Packet, core: nat, serial: nat)
    requires Refines(s, pipes)
    ensures s.pool.free != [] ==> s.pool.free[|s.pool.free| - 1] < |s.pool.slots|
    ensures var (pool, h) := Issue(s.pool, pkt, core, serial);
            && (h >= |s.pool.slots| || s.pool.slots[h].refs == 0)
            && pool.slots[h].refs == 1
  {
  }

  /** The lane after BEGIN_REQ of payload h. */
  function BegunLane(l: Lane, pool: PoolState, h: Handle, pkt: Packet, at: Time): (r: Lane) {
    var fw := NbTransportFw(l, pool, h, BeginReq, at);
    if fw.Fatal? then l else fw.value.(log := fw.value.log.(accepted := fw.value.log.accepted + [pkt.Stub()]))
  }

  /** What Begin changes, field by field. */
  lemma BeginFacts(s: PortState, pkt: Packet, k: nat)
    requires Configured(s) && k < |s.lanes| && ToMem(s.lanes[k].router.range, pkt.addr)
    requires s.pool.free != [] ==> s.pool.free[|s.pool.free| - 1] < |s.pool.slots|
    ensures var (pool, h) := Issue(s.pool, pkt, k, |s.lanes[k].log.accepted|);
            var fw := NbTransportFw(s.lanes[k], pool, h, BeginReq, s.now + pkt.payloadDelay);
            var r := Begin(s, pkt, k);
            && fw.Ok? && r.Ok?
            && r.value == s.(lanes := r.value.lanes, pool := pool, helper := s.helper.(request := r.value.helper.request))
            && r.value.lanes == s.lanes[k := BegunLane(s.lanes[k], pool, h, pkt, s.now + pkt.payloadDelay)]
            && r.value.helper.request == s.helper.request[k := Some(h)]
  {
  }

  lemma BeginLane(s: PortState, p: Pipe, pkt: Packet, k: nat, s': PortState, t: Txn, at: Time)
    requires k < |s.lanes| && LaneAt(s, k, p) && At(s.helper.request, k).None? && s.now <= at
    requires |s.pool.slots| <= |s'.pool.slots|
    requires forall h :: 0 <= h < |s.pool.slots| && h != t.h ==> s'.pool.slots[h] == s.pool.slots[h]
    requires t.h >= |s.pool.slots| || s.pool.slots[t.h].refs == 0
    requires Holds(s'.pool.slots, s.lanes[k].router.range, k, t, 1, |s.lanes[k].log.accepted|) && t.pkt == pkt.Paid()
    requires s'.lanes == s.lanes[k := BegunLane(s.lanes[k], s'.pool, t.h, pkt, at)] && s'.now == s.now
    requires At(s'.helper.request, k) == Some(t.h) && s'.helper.response == s.helper.response
    ensures p.tail.Free? && !(p.head.Serving? && p.head.endReqAt.Some?)
    ensures LaneAt(s', k, Accepting(p, t, at))
  {
    AcceptKeeps(s.now, k, At(s.helper.response, k), s.lanes[k], s.pool.slots, p, s'.pool, t, at);
    assert s'.lanes[k] == BegunLane(s.lanes[k], s'.pool, t.h, pkt, at);
  }

  lemma IssueHolds(pool: PoolState, range: MemRange, pkt: Packet, k: nat, serial: nat, t: Txn)
    requires ToMem(range, pkt.addr) && (pool.free != [] ==> pool.free[|pool.free| - 1] < |pool.slots|)
    requires t == Txn(Issue(pool, pkt, k, serial).1, pkt.Paid()) && Issue(pool, pkt, k, serial).0.slots[t.h].refs == 1
    ensures Holds(Issue(pool, pkt, k, serial).0.slots, range, k, t, 1, serial)
  {
    IssueMatches(pool, pkt, k, serial);
  }

  /** The same in terms of the new state and of the transaction t that begins. */
  lemma BegunFields(s: PortState, pkt: Packet, k: nat, s': PortState, t: Txn)
    requires Configured(s) && k < |s.lanes| && ToMem(s.lanes[k].router.range, pkt.addr) && Begin(s, pkt, k) == Ok(s')
    requires s.pool.free != [] ==> s.pool.free[|s.pool.free| - 1] < |s.pool.slots|
    requires t == Txn(Issue(s.pool, pkt, k, |s.lanes[k].log.accepted|).1, pkt.Paid())
    requires t.h < |s'.pool.slots| && s'.pool.slots[t.h].refs == 1
    ensures s'.lanes == s.lanes[k := BegunLane(s.lanes[k], s'.pool, t.h, pkt, s.now + pkt.payloadDelay)] && s'.now == s.now
    ensures At(s'.helper.request, k) == Some(t.h) && s'.helper.response == s.helper.response
    ensures Holds(s'.pool.slots, s.lanes[k].router.range, k, t, 1, |s.lanes[k].log.accepted|)
    ensures |s.pool.slots| <= |s'.pool.slots| && forall h :: 0 <= h < |s.pool.slots| && h != t.h ==> s'.pool.slots[h] == s.pool.slots[h]
  {
    BeginFacts(s, pkt, k);
    IssueHolds(s.pool, s.lanes[k].router.range, pkt, k, |s.lanes[k].log.accepted|, t);
  }

  lemma BeginOnLane(s: PortState, q: Pipe, pkt: Packet, k: nat, s': PortState, t: Txn, at: Time, p: Pipe)
    requires Configured(s) && k < |s.lanes| && LaneAt(s, k, q) && At(s.helper.request, k).None?
    requires ToMem(s.lanes[k].router.range, pkt.addr)
    requires Begin(s, pkt, k) == Ok(s') && at == s.now + pkt.payloadDelay && p == Accepting(q, t, at)
    requires s.pool.free != [] ==> s.pool.free[|s.pool.free| - 1] < |s.pool.slots|
    requires t == Txn(Issue(s.pool, pkt, k, |s.lanes[k].log.accepted|).1, pkt.Paid())
    requires t.h >= |s.pool.slots| || s.pool.slots[t.h].refs == 0
    requires t.h < |s'.pool.slots| && s'.pool.slots[t.h].refs == 1
    ensures q.tail.Free? && LaneAt(s', k, p)
  {
    BegunFields(s, pkt, k, s', t);
    BeginLane(s, q, pkt, k, s', t, at);
  }

  lemma BeginStep(s: PortState, pipes: seq<Pipe>, pkt: Packet, k: nat, s': PortState) returns (p: Pipe)
    requires Refines(s, pipes) && k < |s.lanes| && At(s.helper.request, k).None?
    requires ToMem(s.lanes[k].router.range, pkt.addr)
    requires Begin(s, pkt, k) == Ok(s')
    ensures Refines(s', pipes[k := p])
    ensures p.tail.Offered? && p == Accepting(pipes[k], p.tail.t, s.now + pkt.payloadDelay) && p.tail.t.pkt == pkt.Paid()
  {
    p := BeginLanePool(s, pipes, pkt, k, s');
    BeginWhole(s, pipes, k, s', p);
  }

  /** Socket k has become s'.lanes[k], described by p, for a new request; nothing else has changed but the pool. */
  ghost predicate Begun(s: PortState, pipes: seq<Pipe>, k: nat, s': PortState, p: Pipe) {
    exists h: Handle ::
      && At(s'.helper.request, k) == Some(h)
      && k < |s.lanes| == |s'.lanes| == |pipes| && LaneAt(s', k, p) && PoolOk(s'.pool, pipes[k := p])
      && s'.lanes == s.lanes[k := s'.lanes[k]] && s'.helper == s.helper.(request := s.helper.request[k := Some(h)])
      && s' == s.(lanes := s'.lanes, pool := s'.pool, helper := s'.helper)
      && SameSlots(s.pool.slots, s'.pool.slots, h)
  }

  predicate SameSlots(slots: seq<Slot>, slots': seq<Slot>, h: Handle) {
    && |slots| <= |slots'| && (h >= |slots| || slots[h].refs == 0)
    && forall x :: 0 <= x < |slots| && x != h ==> slots'[x] == slots[x]
  }

  lemma BeginLanePool(s: PortState, pipes: seq<Pipe>, pkt: Packet, k: nat, s': PortState) returns (p: Pipe)
    requires Refines(s, pipes) && k < |s.lanes| && At(s.helper.request, k).None?
    requires ToMem(s.lanes[k].router.range, pkt.addr)
    requires Begin(s, pkt, k) == Ok(s')
    ensures Begun(s, pipes, k, s', p)
    ensures p.tail.Offered? && p == Accepting(pipes[k], p.tail.t, s.now + pkt.payloadDelay) && p.tail.t.pkt == pkt.Paid()
  {
    var serial, at := |s.lanes[k].log.accepted|, s.now + pkt.payloadDelay;
    FreshPayload(s, pipes, pkt, k, serial);
    BeginFacts(s, pkt, k);
    var t := Txn(Issue(s.pool, pkt, k, serial).1, pkt.Paid());
    p := Accepting(pipes[k], t, at);
    BeginOnLane(s, pipes[k], pkt, k, s', t, at, p);
    BeginPool(s.pool, s'.pool, pipes, pkt, k, serial, t, p, at);
  }

  lemma BeginWhole(s: PortState, pipes: seq<Pipe>, k: nat, s': PortState, p: Pipe)
    requires Refines(s, pipes) && k < |s.lanes| && Begun(s, pipes, k, s', p)
    ensures Refines(s', pipes[k := p])
  {
    var h: Handle :| At(s'.helper.request, k) == Some(h) && SameSlots(s.pool.slots, s'.pool.slots, h)
      && s'.helper == s.helper.(request := s.helper.request[k := Some(h)]);
    BeginConfig(s, s', k, h);
    BeginElsewhere(s, s', k, h);
    BeginRetry(s, s', k, h);
    PortStep(s, pipes, s', k, h, p);
  }

  lemma BeginRetry(s: PortState, s': PortState, k: nat, h: Handle)
    requires RetryOk(s)
    requires s'.helper == s.helper.(request := s.helper.request[k := Some(h)])
    requires s'.peerWaits == s.peerWaits && s'.refusals == s.refusals && s'.retries == s.retries
    ensures RetryOk(s')
  {
    RetrySame(s, s');
  }

  lemma BeginConfig(s: PortState, s': PortState, k: nat, h: Handle)
    requires Configured(s) && k < |s.lanes| == |s'.lanes| && s'.sockets == s.sockets
    requires s'.helper == s.helper.(request := s.helper.request[k := Some(h)])
    ensures Configured(s')
  {
    assert k in s.helper.request;
  }

  lemma BeginElsewhere(s: PortState, s': PortState, k: nat, h: Handle)
    requires k < |s.lanes| == |s'.lanes| && s'.now == s.now && s'.lanes == s.lanes[k := s'.lanes[k]]
    requires s'.helper == s.helper.(request := s.helper.request[k := Some(h)])
    requires |s.pool.slots| <= |s'.pool.slots|
    requires forall x :: 0 <= x < |s.pool.slots| && x != h ==> s'.pool.slots[x] == s.pool.slots[x]
    requires h >= |s.pool.slots| || s.pool.slots[h].refs == 0
    ensures SameElsewhere(s, s', k, h)
  {
  }

  lemma BeginPool(pool: PoolState, pool': PoolState, pipes: seq<Pipe>, pkt: Packet, k: nat, serial: nat, t: Txn, p: Pipe, at: Time)
    requires PoolOk(pool, pipes) && k < |pipes|
    requires pipes[k].tail.Free? && p == Accepting(pipes[k], t, at)
    requires pool.free != [] ==> pool.free[|pool.free| - 1] < |pool.slots|
    requires (pool', t.h) == Issue(pool, pkt, k, serial)
    ensures PoolOk(pool', pipes[k := p])
  {
    PoolAllocated(pool, pool', pipes, k, p, pool'.slots[t.h]);
  }

  /** The retry flags are not touched, and no request channel is freed. */
  lemma RetrySame(s: PortState, s': PortState)
    requires RetryOk(s)
    requires s'.helper.num == s.helper.num && s'.helper.retry == s.helper.retry
    requires s'.peerWaits == s.peerWaits && s'.refusals == s.refusals && s'.retries == s.retries
    requires forall k: nat :: At(s.helper.request, k).Some? ==> At(s'.helper.request, k).Some?
    ensures RetryOk(s')
  {
  }

  /** What gem5 may send, and when: caught up, a plain read or write for an existing socket, inside the memory unless it is refused. */
  predicate Acceptable(s: PortState, pkt: Packet) {
    && CaughtUp(s)
    && !pkt.cacheResponding && (pkt.isRead || pkt.isWrite)
    && var k := SocketOf(s, pkt);
       && k < s.helper.num && k < |s.lanes| && k in s.helper.request
       && (At(s.helper.request, k).Some? || ToMem(s.lanes[k].router.range, pkt.addr))
  }

  /** The state after a refusal. */
  function Refuse(s: PortState, k: nat): (r: PortState) {
    s.(helper := s.helper.(retry := s.helper.retry[k := true]), peerWaits := true, refusals := s.refusals + 1)
  }

  lemma RefuseStep(s: PortState, pipes: seq<Pipe>, k: nat)
    requires Refines(s, pipes) && k < |s.lanes| && !s.peerWaits && At(s.helper.request, k).Some?
    ensures Refines(Refuse(s, k), pipes)
  {
    var s' := Refuse(s, k);
    SamePorts(s, s', pipes);
    RetrySet(s, s', k);
    assert s'.helper.retry.Keys == s.helper.retry.Keys;
  }

  /** The first refusal raises the flag of its socket. */
  lemma RetrySet(s: PortState, s': PortState, k: nat)
    requires RetryOk(s) && !s.peerWaits && k < s.helper.num && At(s.helper.request, k).Some?
    requires s' == s.(helper := s'.helper, peerWaits := true, refusals := s.refusals + 1)
    requires s'.helper == s.helper.(retry := s.helper.retry[k := true])
    ensures RetryOk(s')
  {
    forall j: nat
      ensures Flag(s'.helper.retry, j) <==> j == k
    {
      assert !Flag(s.helper.retry, j);
    }
    assert Flag(s'.helper.retry, k);
  }

  /** The lanes do not depend on the retry flags. */
  lemma SamePorts(s: PortState, s': PortState, pipes: seq<Pipe>)
    requires LanesOk(s, pipes)
    requires s'.now == s.now && s'.lanes == s.lanes && s'.pool == s.pool
    requires s'.helper.request == s.helper.request && s'.helper.response == s.helper.response
    ensures LanesOk(s', pipes)
  {
    forall j | 0 <= j < |pipes|
      ensures LaneAt(s', j, pipes[j])
    {
      assert LaneAt(s, j, pipes[j]);
    }
  }

  /** recvTimingReq stops the simulation exactly on packets it must not be sent. */
  lemma RequestCases(s: PortState, pipes: seq<Pipe>, pkt: Packet)
    requires Refines(s, pipes)
    ensures RecvTimingReq(s, pkt).Ok? <==> Acceptable(s, pkt)
    ensures Acceptable(s, pkt) ==>
              var k := SocketOf(s, pkt);
              if At(s.helper.request, k).Some? then RecvTimingReq(s, pkt) == Ok((Refuse(s, k), false))
              else Begin(s, pkt, k).Ok? && RecvTimingReq(s, pkt) == Ok((Begin(s, pkt, k).value, true))
  {
    var k := SocketOf(s, pkt);
    FreeTop(s, pipes);
    if Acceptable(s, pkt) && At(s.helper.request, k).None? {
      BeginFacts(s, pkt, k);
    }
  }

  /** recvTimingReq keeps the invariant. */
  lemma RequestStep(s: PortState, pipes: seq<Pipe>, pkt: Packet, s': PortState) returns (q: seq<Pipe>)
    requires Refines(s, pipes) && !s.peerWaits && Acceptable(s, pkt)
    requires RecvTimingReq(s, pkt).Ok? && RecvTimingReq(s, pkt).value.0 == s'
    ensures Refines(s', q)
  {
    var k := SocketOf(s, pkt);
    RequestCases(s, pipes, pkt);
    if At(s.helper.request, k).Some? {
      RefuseStep(s, pipes, k);
      q := pipes;
    } else {
      var p := BeginStep(s, pipes, pkt, k, s');
      q := pipes[k := p];
    }
  }

  // ---------- the handler of the port's events ----------

  /** Socket k with the given events, blocked request and blocked response is described by q. */
  predicate LaneWith(s: PortState, k: nat, req: Option<Handle>, resp: Option<Handle>, events: seq<PayloadEvent>, q: Pipe) {
    k < |s.lanes| && LaneOk(s.now, k, req, resp, s.lanes[k].(events := events), s.pool.slots, q)
  }

  /** The whole-map scan of isBlockingTrans finds a payload exactly at the key of its own socket. */
  lemma ScanAgrees(s: PortState, pipes: seq<Pipe>, h: Handle)
    requires Refines(s, pipes)
    ensures IsBlocking(s.helper, h) <==>
              h < |s.pool.slots| && s.pool.slots[h].ext.Some? && At(s.helper.request, s.pool.slots[h].ext.value.core) == Some(h)
  {
    if IsBlocking(s.helper, h) {
      var k: nat :| k in s.helper.request && s.helper.request[k] == Some(h);
      assert k <= s.helper.num && At(s.helper.request, k) == Some(h);
      BlockerHeld(s, k, pipes[k]);
    }
  }

  lemma BlockerHeld(s: PortState, k: nat, q: Pipe)
    requires LaneAt(s, k, q) && At(s.helper.request, k).Some?
    ensures var h := At(s.helper.request, k).value;
            h < |s.pool.slots| && s.pool.slots[h].ext.Some? && s.pool.slots[h].ext.value.core == k
  {
  }
}
