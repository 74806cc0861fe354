/**
 * The abstract view of one socket: at most two live transactions, one that the
 * target has taken (head) and one that still occupies the request channel (tail).
 * Every field of the helper, of the router and of the event queue that belongs to
 * the socket is a function of this view.
 */
module Pipes {
  import opened Common
  import opened Kernel
  import opened BaseProtocol
  import opened Payloads
  import opened TxnRouters

  /** A live transaction: its payload, and the gem5 packet the payload carries. */
  datatype Txn = Txn(h: Handle, pkt: Packet)

  datatype Head =
    | Idle
    | Serving(t: Txn, endReqAt: Option<Time>, doneAt: Time)  // END_REQ under way or delivered, target busy
    | Executing(t: Txn, until: Time)                         // inside the memory
    | Answering(t: Txn, at: Time)                            // BEGIN_RESP under way
    | Refused(t: Txn)                                        // gem5 owes a retry
    | Closing(h: Handle, at: Time)                           // END_RESP under way, payload already released

  datatype Tail =
    | Free
    | Offered(t: Txn, at: Time)  // BEGIN_REQ under way
    | Parked(t: Txn)             // the target is busy with the head

  datatype Pipe = Pipe(head: Head, tail: Tail) {
    function HeadTxn(): (r: seq<Txn>) {
      if head.Idle? || head.Closing? then [] else [head.t]
    }

    function TailTxn(): (r: seq<Txn>) {
      if tail.Free? then [] else [tail.t]
    }

    function Live(): (r: seq<Txn>) {
      HeadTxn() + TailTxn()
    }

    predicate Executed() {
      head.Executing? || head.Answering? || head.Refused?
    }

    predicate Shape(now: Time) {
      && (tail.Parked? ==> !head.Idle?)
      && (tail.Offered? ==> now <= tail.at)
      && (head.Serving? ==> now <= head.doneAt)
      && (head.Serving? && head.endReqAt.Some? ==>
            tail.Free? && now <= head.endReqAt.value && head.endReqAt.value + TARGET_LATENCY == head.doneAt)
      && (head.Executing? ==> now <= head.until)
      && (head.Answering? ==> now <= head.at)
      && (head.Refused? ==> head.t.pkt.isResponse && !head.t.pkt.needsResponse)
      && (head.Closing? ==> now <= head.at)
    }

    /** The payload that blocks the request channel of the port. */
    function Blocker(): (r: Option<Handle>) {
      if !tail.Free? then Some(tail.t.h)
      else if head.Serving? && head.endReqAt.Some? then Some(head.t.h)
      else None
    }

    function Blocked(): (r: Option<Handle>) {
      if head.Refused? then Some(head.t.h) else None
    }

    function Peq(): (r: multiset<PeqEntry>) {
      (if tail.Offered? then multiset{PeqEntry(tail.t.h, BeginReq, tail.at)} else multiset{})
      + (if head.Closing? then multiset{PeqEntry(head.h, EndResp, head.at)} else multiset{})
    }

    function Router(range: MemRange): (r: RouterState) {
      RouterState(
        range,
        Peq(),
        if head.Idle? then None else if head.Closing? then Some(head.h) else Some(head.t.h),
        head.Answering? || head.Refused? || head.Closing?,
        None,
        if tail.Parked? then Some(tail.t.h) else None,
        if head.Serving? then Some(head.doneAt) else None,
        if head.Executing? then InMemory(head.until) else Listening)
    }

    function Events(): (r: seq<PayloadEvent>) {
      if head.Serving? && head.endReqAt.Some? then [PayloadEvent(head.t.h, EndReq, head.endReqAt.value)]
      else if head.Answering? then [PayloadEvent(head.t.h, BeginResp, head.at)]
      else []
    }

    /** One reference of the port, and one of the router from BEGIN_REQ handling to the end of send_response. */
    function HeadRefs(): (r: nat) {
      if head.Serving? || head.Executing? then 2 else 1
    }

    function TailRefs(): (r: nat) {
      if tail.Parked? then 2 else 1
    }

    /** What the base protocol monitor must have seen, with m transactions begun and n ended. */
    function Channels(n: nat, m: nat): (r: Channels) {
      BaseProtocol.Channels(
        if tail.Free? || m == 0 then None else Some(m - 1),
        if head.Answering? || head.Refused? then Some(n) else None,
        if head.Serving? || head.Executing? then {n} else {},
        Below(m))
    }
  }

  const EMPTY_PIPE := Pipe(Idle, Free)

  /** The phases a socket still has to go through; a refusal by gem5 counts as one. */
  function Rank(p: Pipe): (r: nat) {
    (match p.head
     case Idle => 0
     case Closing(_, _) => 1
     case Refused(_) => 2
     case Answering(_, _) => 3
     case Executing(_, _) => 4
     case Serving(_, endReqAt, _) => if endReqAt.Some? then 6 else 5)
    + (match p.tail
       case Free => 0
       case Parked(_) => 7
       case Offered(_, _) => 8)
  }

  function Stubs(ts: seq<Txn>): (r: seq<Ticket>)
    ensures |r| == |ts|
  {
    seq(|ts|, i requires 0 <= i < |ts| => ts[i].pkt.Stub())
  }

  /** The packets that gem5 must have got a response for, in order. */
  function Responses(ts: seq<Ticket>): (r: seq<Ticket>) {
    if ts == [] then []
    else Responses(ts[..|ts| - 1]) + (if ts[|ts| - 1].responds then [ts[|ts| - 1]] else [])
  }

  predicate LogOk(log: Log, p: Pipe) {
    && log.accepted == log.ended + Stubs(p.Live())
    && log.executed == log.ended + (if p.Executed() then Stubs(p.HeadTxn()) else [])
    && log.answered == Responses(log.ended)
    && Monitor(log.wire) == Some(p.Channels(|log.ended|, |log.accepted|))
  }

  predicate Holds(slots: seq<Slot>, range: MemRange, k: nat, t: Txn, refs: nat, serial: nat) {
    && t.h < |slots|
    && slots[t.h].refs == refs
    && slots[t.h].ext == Some(Extension(t.pkt, k, serial)) && Matches(slots[t.h], t.pkt)
    && ToMem(range, slots[t.h].addr)
  }

  predicate HoldsAll(slots: seq<Slot>, range: MemRange, k: nat, p: Pipe, ended: nat) {
    && (p.HeadTxn() != [] ==> Holds(slots, range, k, p.head.t, p.HeadRefs(), ended))
    && (p.TailTxn() != [] ==> Holds(slots, range, k, p.tail.t, p.TailRefs(), ended + |p.HeadTxn()|))
  }

  /** Socket k is in the state that p describes. */
  predicate LaneOk(now: Time, k: nat, req: Option<Handle>, resp: Option<Handle>, l: Lane, slots: seq<Slot>, p: Pipe) {
    && p.Shape(now)
    && req == p.Blocker()
    && resp == p.Blocked()
    && l.router == p.Router(l.router.range)
    && l.events == p.Events()
    && LogOk(l.log, p)
    && HoldsAll(slots, l.router.range, k, p, |l.log.ended|)
  }

  // ---------- the router's steps, on one lane ----------

  /** The pipe after the target takes its tail. */
  function Taken(p: Pipe, now: Time): (r: Pipe)
    requires !p.tail.Free?
  {
    Pipe(Serving(p.tail.t, Some(now + END_REQ_DELAY), now + END_REQ_DELAY + TARGET_LATENCY), Free)
  }

  lemma TakenLog(log: Log, p: Pipe, now: Time)
    requires LogOk(log, p) && p.HeadTxn() == [] && !p.tail.Free?
    ensures |log.accepted| == |log.ended| + 1
    ensures LogOk(log.(wire := log.wire + [WireEvent(EndReq, |log.ended|)]), Taken(p, now))
  {
    MonitorAppend(log.wire, WireEvent(EndReq, |log.ended|));
    assert p.Live() == [p.tail.t] == Taken(p, now).Live();
    var n := |log.ended|;
    assert p.Channels(n, n + 1).served + {n} == {n};
  }

  lemma SendEndReqKeeps(now: Time, k: nat, l: Lane, pool: PoolState, p: Pipe)
    requires p.HeadTxn() == [] && !p.tail.Free?
    requires l.router == Pipe(Idle, Free).Router(l.router.range) && l.events == []
    requires LogOk(l.log, p)
    requires Holds(pool.slots, l.router.range, k, p.tail.t, 2, |l.log.ended|)
    ensures var r := SendEndReq(l, pool, now, p.tail.t.h);
            && r.Ok?
            && r.value.router.range == l.router.range
            && r.value.events == [PayloadEvent(p.tail.t.h, EndReq, now + 10_000)]
            && r.value.router.targetDone == Some(now + 25_000)
            && LaneOk(now, k, Some(p.tail.t.h), None, r.value, pool.slots, Taken(p, now))
  {
    TakenLog(l.log, p, now);
    assert Taken(p, now).Peq() == multiset{};
  }

  lemma TakeKeeps(now: Time, k: nat, req: Option<Handle>, resp: Option<Handle>, l: Lane, pool: PoolState, p: Pipe)
    requires LaneOk(now, k, req, resp, l, pool.slots, p)
    requires p.tail.Offered? && p.head.Idle?
    ensures var r := PeqCallback(l, pool, now, PeqEntry(p.tail.t.h, BeginReq, p.tail.at));
            && r.Ok?
            && r.value.1 == Acquire(pool, p.tail.t.h).value
            && r.value.0.router.range == l.router.range
            && LaneOk(now, k, req, resp, r.value.0, r.value.1.slots, Taken(p, now))
  {
    var e := PeqEntry(p.tail.t.h, BeginReq, p.tail.at);
    var l1 := l.(router := l.router.(peq := l.router.peq - multiset{e}));
    assert l1.router.peq == multiset{};
    SendEndReqKeeps(now, k, l1, Acquire(pool, p.tail.t.h).value, p);
  }

  lemma ParkKeeps(now: Time, k: nat, req: Option<Handle>, resp: Option<Handle>, l: Lane, pool: PoolState, p: Pipe)
    requires LaneOk(now, k, req, resp, l, pool.slots, p)
    requires p.tail.Offered? && !p.head.Idle?
    ensures var r := PeqCallback(l, pool, now, PeqEntry(p.tail.t.h, BeginReq, p.tail.at));
            && r.Ok?
            && r.value.1 == Acquire(pool, p.tail.t.h).value
            && r.value.0.router.range == l.router.range
            && LaneOk(now, k, req, resp, r.value.0, r.value.1.slots, Pipe(p.head, Parked(p.tail.t)))
  {
    var e := PeqEntry(p.tail.t.h, BeginReq, p.tail.at);
    var p' := Pipe(p.head, Parked(p.tail.t));
    assert l.router.peq - multiset{e} == p'.Peq();
    assert p'.Live() == p.Live();
  }

  lemma BeginReqKeeps(now: Time, k: nat, req: Option<Handle>, resp: Option<Handle>, l: Lane, pool: PoolState, p: Pipe)
    requires LaneOk(now, k, req, resp, l, pool.slots, p)
    requires p.tail.Offered?
    ensures var e := PeqEntry(p.tail.t.h, BeginReq, p.tail.at);
            var p' := if p.head.Idle? then Taken(p, now) else Pipe(p.head, Parked(p.tail.t));
            var r := PeqCallback(l, pool, now, e);
            && r.Ok?
            && r.value.1 == Acquire(pool, p.tail.t.h).value
            && r.value.0.router.range == l.router.range
            && LaneOk(now, k, req, resp, r.value.0, r.value.1.slots, p')
  {
    if p.head.Idle? {
      TakeKeeps(now, k, req, resp, l, pool, p);
    } else {
      ParkKeeps(now, k, req, resp, l, pool, p);
    }
  }

  lemma EndRespKeeps(now: Time, k: nat, req: Option<Handle>, resp: Option<Handle>, l: Lane, pool: PoolState, p: Pipe)
    requires LaneOk(now, k, req, resp, l, pool.slots, p)
    requires p.head.Closing?
    ensures var e := PeqEntry(p.head.h, EndResp, p.head.at);
            var p' := if p.tail.Parked? then Taken(p, now) else Pipe(Idle, p.tail);
            var r := PeqCallback(l, pool, now, e);
            && r.Ok?
            && r.value.1 == pool
            && r.value.0.router.range == l.router.range
            && LaneOk(now, k, req, resp, r.value.0, pool.slots, p')
  {
    var e := PeqEntry(p.head.h, EndResp, p.head.at);
    var l1 := l.(router := l.router.(peq := l.router.peq - multiset{e}, inProgress := None, responding := false));
    assert l1.router.peq == Pipe(Idle, p.tail).Peq();
    if p.tail.Parked? {
      SendEndReqKeeps(now, k, l1.(router := l1.router.(endReqPending := None)), pool, p);
    }
  }

  lemma TargetDoneKeeps(now: Time, latency: Time, k: nat, req: Option<Handle>, resp: Option<Handle>, l: Lane, pool: PoolState, p: Pipe)
    requires LaneOk(now, k, req, resp, l, pool.slots, p)
    requires l.router.targetDone == Some(now)
    ensures var r := OnTargetDone(l, pool, now, latency);
            && p.head.Serving?
            && r.Ok?
            && r.value.router.range == l.router.range
            && LaneOk(now, k, req, resp, r.value, pool.slots, Pipe(Executing(p.head.t, now + latency), p.tail))
  {
    var p' := Pipe(Executing(p.head.t, now + latency), p.tail);
    assert p'.Live() == p.Live();
  }

  /** BEGIN_RESP of the head goes out. */
  lemma AnsweringLog(log: Log, p: Pipe, now: Time)
    requires LogOk(log, p) && p.head.Executing?
    ensures LogOk(log.(wire := log.wire + [WireEvent(BeginResp, |log.ended|)]), Pipe(Answering(p.head.t, now + BEGIN_RESP_DELAY), p.tail))
  {
    var n := |log.ended|;
    var p' := Pipe(Answering(p.head.t, now + BEGIN_RESP_DELAY), p.tail);
    MonitorAppend(log.wire, WireEvent(BeginResp, n));
    assert p'.Live() == p.Live();
    assert p.Channels(n, |log.accepted|).served - {n} == {};
  }

  lemma AnsweringHolds(pool: PoolState, range: MemRange, k: nat, p: Pipe, at: Time, ended: nat)
    requires HoldsAll(pool.slots, range, k, p, ended) && p.head.Executing?
    requires p.tail.Free? || p.tail.t.h != p.head.t.h
    ensures Release(pool, p.head.t.h).Ok?
    ensures HoldsAll(Release(pool, p.head.t.h).value.slots, range, k, Pipe(Answering(p.head.t, at), p.tail), ended)
  {
  }

  lemma MemoryDoneKeeps(now: Time, k: nat, req: Option<Handle>, resp: Option<Handle>, l: Lane, pool: PoolState, p: Pipe)
    requires LaneOk(now, k, req, resp, l, pool.slots, p)
    requires l.router.thread == InMemory(now)
    requires p.tail.Free? || p.tail.t.h != p.head.t.h
    ensures p.head.Executing?
    ensures var r := OnMemoryDone(l, pool, now);
            && r.Ok?
            && r.value.1 == Release(pool, p.head.t.h).value
            && r.value.0.router.range == l.router.range
            && LaneOk(now, k, req, resp, r.value.0, r.value.1.slots, Pipe(Answering(p.head.t, now + BEGIN_RESP_DELAY), p.tail))
  {
    AnsweringLog(l.log, p, now);
    AnsweringHolds(pool, l.router.range, k, p, now + BEGIN_RESP_DELAY, |l.log.ended|);
  }

  // ---------- the port's steps, on one lane ----------

  /** The pipe after the port sends BEGIN_REQ for t. */
  function Accepting(p: Pipe, t: Txn, at: Time): (r: Pipe) {
    Pipe(p.head, Offered(t, at))
  }

  lemma AcceptLog(log: Log, p: Pipe, t: Txn, at: Time)
    requires LogOk(log, p) && p.tail.Free?
    ensures LogOk(log.(wire := log.wire + [WireEvent(BeginReq, |log.accepted|)], accepted := log.accepted + [t.pkt.Stub()]),
                  Accepting(p, t, at))
  {
    MonitorAppend(log.wire, WireEvent(BeginReq, |log.accepted|));
    var p' := Accepting(p, t, at);
    assert p'.Live() == p.Live() + [t];
    assert Stubs(p'.Live()) == Stubs(p.Live()) + [t.pkt.Stub()];
    assert Below(|log.accepted|) + {|log.accepted|} == Below(|log.accepted| + 1);
  }

  lemma AcceptHolds(slots: seq<Slot>, slots': seq<Slot>, range: MemRange, k: nat, p: Pipe, t: Txn, at: Time, ended: nat)
    requires HoldsAll(slots, range, k, p, ended) && p.tail.Free?
    requires |slots| <= |slots'| && forall h :: 0 <= h < |slots| && h != t.h ==> slots'[h] == slots[h]
    requires t.h >= |slots| || slots[t.h].refs == 0
    requires Holds(slots', range, k, t, 1, ended + |p.HeadTxn()|)
    ensures HoldsAll(slots', range, k, Accepting(p, t, at), ended)
  {
  }

  lemma LiveLength(log: Log, p: Pipe)
    requires LogOk(log, p) && p.tail.Free?
    ensures |log.accepted| == |log.ended| + |p.HeadTxn()|
  {
    assert p.Live() == p.HeadTxn();
  }

  lemma AcceptKeeps(now: Time, k: nat, resp: Option<Handle>, l: Lane, slots: seq<Slot>, p: Pipe, pool: PoolState, t: Txn, at: Time)
    requires LaneOk(now, k, None, resp, l, slots, p) && now <= at
    requires |slots| <= |pool.slots| && forall h :: 0 <= h < |slots| && h != t.h ==> pool.slots[h] == slots[h]
    requires t.h >= |slots| || slots[t.h].refs == 0
    requires Holds(pool.slots, l.router.range, k, t, 1, |l.log.accepted|)
    ensures var r := NbTransportFw(l, pool, t.h, BeginReq, at);
            && r.Ok?
            && r.value.router.range == l.router.range
            && LaneOk(now, k, Some(t.h), resp, r.value.(log := r.value.log.(accepted := r.value.log.accepted + [t.pkt.Stub()])),
                      pool.slots, Accepting(p, t, at))
  {
    AcceptLog(l.log, p, t, at);
    LiveLength(l.log, p);
    AcceptHolds(slots, pool.slots, l.router.range, k, p, t, at, |l.log.ended|);
    assert p.Peq() + multiset{PeqEntry(t.h, BeginReq, at)} == Accepting(p, t, at).Peq();
  }

  /** The pipe after END_RESP has been sent for its head. */
  function Ended(p: Pipe, now: Time): (r: Pipe)
    requires p.HeadTxn() != []
  {
    Pipe(Closing(p.head.t.h, now), p.tail)
  }

  lemma HeadStubs(p: Pipe)
    requires p.head.Answering? || p.head.Refused?
    ensures var stub := p.head.t.pkt.Stub();
            Stubs(p.Live()) == [stub] + Stubs(p.TailTxn()) && Stubs(p.HeadTxn()) == [stub]
  {
  }

  lemma FinishLog(log: Log, p: Pipe, now: Time)
    requires LogOk(log, p) && (p.head.Answering? || p.head.Refused?)
    ensures var stub := p.head.t.pkt.Stub();
            var log' := log.(wire := log.wire + [WireEvent(EndResp, |log.ended|)],
                             ended := log.ended + [stub],
                             answered := if stub.responds then log.answered + [stub] else log.answered);
            LogOk(log', Ended(p, now))
  {
    var stub := p.head.t.pkt.Stub();
    MonitorAppend(log.wire, WireEvent(EndResp, |log.ended|));
    assert (log.ended + [stub])[..|log.ended|] == log.ended;
    HeadStubs(p);
    assert Ended(p, now).Live() == p.TailTxn();
  }

  lemma FinishHolds(pool: PoolState, range: MemRange, k: nat, p: Pipe, now: Time, ended: nat)
    requires HoldsAll(pool.slots, range, k, p, ended) && (p.head.Answering? || p.head.Refused?)
    requires p.tail.Free? || p.tail.t.h != p.head.t.h
    ensures Release(pool, p.head.t.h).Ok?
    ensures HoldsAll(Release(pool, p.head.t.h).value.slots, range, k, Ended(p, now), ended + 1)
  {
  }

  /** END_RESP and the last release, for a head whose BEGIN_RESP has been delivered. */
  lemma FinishKeeps(now: Time, k: nat, req: Option<Handle>, l: Lane, slots: seq<Slot>, p: Pipe, pool: PoolState)
    requires LaneOk(now, k, req, p.Blocked(), l.(events := p.Events()), slots, p) && l.events == []
    requires p.head.Answering? || p.head.Refused?
    requires !p.head.t.pkt.needsResponse
    requires pool.slots == slots
    ensures var h := p.head.t.h;
            var lane := NbTransportFw(l, pool, h, EndResp, now);
            var r := Release(pool, h);
            && lane.Ok? && r.Ok?
            && lane.value.router.range == l.router.range
            && lane.value.log.ended == l.log.ended && lane.value.log.answered == l.log.answered
            && var stub := p.head.t.pkt.Stub();
            && LaneOk(now, k, req, None,
                      lane.value.(log := lane.value.log.(
                        ended := l.log.ended + [stub],
                        answered := if stub.responds then l.log.answered + [stub] else l.log.answered)),
                      r.value.slots, Ended(p, now))
  {
    FinishLog(l.log, p, now);
    FinishHolds(pool, l.router.range, k, p, now, |l.log.ended|);
    assert p.Peq() + multiset{PeqEntry(p.head.t.h, EndResp, now)} == Ended(p, now).Peq();
  }

  /** The pipe after the packet of its head has been made a response. */
  function Converted(p: Pipe): (r: Pipe)
    requires p.head.Answering?
  {
    Pipe(p.head.(t := p.head.t.(pkt := p.head.t.pkt.Answered())), p.tail)
  }

  lemma SameStubsLog(log: Log, p: Pipe, q: Pipe)
    requires LogOk(log, p) && p.head.Answering? && (q.head.Answering? || q.head.Refused?) && q.tail == p.tail
    requires q.head.t.pkt.Stub() == p.head.t.pkt.Stub()
    ensures LogOk(log, q)
  {
    assert p.Live() == [p.head.t] + p.TailTxn() && q.Live() == [q.head.t] + q.TailTxn();
    assert Stubs(q.Live()) == Stubs(p.Live());
    assert Stubs(q.HeadTxn()) == Stubs(p.HeadTxn());
  }

  lemma ConvertedKeeps(now: Time, k: nat, req: Option<Handle>, l: Lane, slots: seq<Slot>, p: Pipe, slots': seq<Slot>)
    requires LaneOk(now, k, req, None, l, slots, p) && p.head.Answering?
    requires |slots'| == |slots| && forall h :: 0 <= h < |slots| && h != p.head.t.h ==> slots'[h] == slots[h]
    requires var h := p.head.t.h;
             h < |slots'| && slots[h].ext.Some? &&
             slots'[h] == slots[h].(ext := Some(slots[h].ext.value.(packet := p.head.t.pkt.Answered())))
    ensures LaneOk(now, k, req, None, l, slots', Converted(p))
  {
    SameStubsLog(l.log, p, Converted(p));
  }

  /** The pipe after gem5 has refused the response of its head. */
  function Waiting(p: Pipe): (r: Pipe)
    requires p.head.Answering?
  {
    Pipe(Refused(p.head.t), p.tail)
  }

  lemma WaitingKeeps(now: Time, k: nat, req: Option<Handle>, l: Lane, slots: seq<Slot>, p: Pipe)
    requires LaneOk(now, k, req, None, l, slots, p) && p.head.Answering?
    requires p.head.t.pkt.isResponse && !p.head.t.pkt.needsResponse
    ensures LaneOk(now, k, req, Some(p.head.t.h), l.(events := []), slots, Waiting(p))
  {
    SameStubsLog(l.log, p, Waiting(p));
  }

  /** A socket is not disturbed by changes to payloads it does not hold. */
  lemma LaneFrame(now: Time, k: nat, req: Option<Handle>, resp: Option<Handle>, l: Lane, slots: seq<Slot>, slots': seq<Slot>, p: Pipe)
    requires LaneOk(now, k, req, resp, l, slots, p)
    requires |slots| <= |slots'|
    requires forall h :: 0 <= h < |slots| && slots[h].refs > 0 && slots[h].ext.Some? && slots[h].ext.value.core == k ==> slots'[h] == slots[h]
    ensures LaneOk(now, k, req, resp, l, slots', p)
  {
  }
}
