/** What every run of the handshake guarantees. */
module Handshake {
  import opened Common
  import opened Kernel
  import opened BaseProtocol
  import opened Payloads
  import opened BlockingPackets
  import opened TxnRouters
  import opened SlavePorts
  import opened Pipes
  import opened Simulation
  import opened Runs
  import Routing

  // ---------- order ----------

  /**
   * The socket is a FIFO server with room for two: memory sees the accepted
   * requests in order of acceptance, END_RESP follows in the same order, and gem5
   * has got a response for exactly the finished packets that need one.
   */
  predicate InOrder(log: Log) {
    && log.ended <= log.executed <= log.accepted
    && |log.accepted| <= |log.ended| + 2
    && |log.executed| <= |log.ended| + 1
    && log.answered == Responses(log.ended)
  }

  lemma FifoServer(s: PortState, pipes: seq<Pipe>, k: nat)
    requires Refines(s, pipes) && k < |s.lanes|
    ensures InOrder(s.lanes[k].log)
  {
    assert LaneAt(s, k, pipes[k]);
    LogInOrder(s.lanes[k].log, pipes[k]);
  }

  lemma LogInOrder(log: Log, p: Pipe)
    requires LogOk(log, p)
    ensures InOrder(log)
    ensures |log.accepted| == |log.ended| + |p.Live()|
  {
    var n := |log.ended|;
    assert p.Live() == p.HeadTxn() + p.TailTxn();
    assert log.accepted[..n] == log.ended;
    if p.Executed() {
      assert log.executed[..n] == log.ended;
      assert Stubs(p.HeadTxn()) == [p.head.t.pkt.Stub()] == [Stubs(p.Live())[0]];
      assert log.accepted[n] == Stubs(p.Live())[0];
      assert log.accepted[..n + 1] == log.executed;
    } else {
      assert log.executed == log.ended;
    }
  }

  // ---------- the router and the wire ----------

  /**
   * The target never holds back a response, is through with memory when it
   * responds, and gets no BEGIN_REQ while it still has an END_REQ to send.
   */
  predicate RouterSound(r: RouterState) {
    && r.nextResponse.None?
    && (r.responding ==> r.inProgress.Some? && r.targetDone.None? && r.thread.Listening?)
    && (r.targetDone.Some? ==> r.inProgress.Some? && r.thread.Listening?)
    && (r.endReqPending.Some? ==> r.inProgress.Some? && forall e :: e in r.peq ==> e.phase != BeginReq)
  }

  lemma RouterInvariant(s: PortState, pipes: seq<Pipe>, k: nat)
    requires Refines(s, pipes) && k < |s.lanes|
    ensures RouterSound(s.lanes[k].router)
    ensures Legal(s.lanes[k].log.wire)
  {
    assert LaneAt(s, k, pipes[k]);
  }

  /** At most one event of a socket is queued, for a payload in use that belongs to the socket. */
  predicate EventsSound(s: PortState, k: nat) {
    k < |s.lanes| && |s.lanes[k].events| <= 1
    && forall i :: 0 <= i < |s.lanes[k].events| ==>
         var h := s.lanes[k].events[i].h;
         && h < |s.pool.slots| && s.pool.slots[h].refs > 0 && h !in s.pool.free
         && s.pool.slots[h].ext.Some? && s.pool.slots[h].ext.value.core == k
  }

  lemma EventPayloads(s: PortState, pipes: seq<Pipe>, k: nat)
    requires Refines(s, pipes) && k < |s.lanes|
    ensures EventsSound(s, k)
  {
    assert LaneAt(s, k, pipes[k]);
  }

  // ---------- the pool ----------

  /** The router has acquired h and not yet released it. */
  predicate HeldByRouter(r: RouterState, h: Handle) {
    r.endReqPending == Some(h) || (r.inProgress == Some(h) && !r.responding)
  }

  /**
   * A payload in use says what its packet says, and its count is one for the port
   * and one while the router holds it; any other is in the free list.
   */
  predicate PayloadSound(s: PortState, h: Handle)
    requires h < |s.pool.slots|
  {
    if s.pool.slots[h].refs == 0 then h in s.pool.free && s.pool.slots[h].ext.None?
    else
      && h !in s.pool.free
      && s.pool.slots[h].ext.Some? && s.pool.slots[h].ext.value.core < |s.lanes|
      && Matches(s.pool.slots[h], s.pool.slots[h].ext.value.packet)
      && s.pool.slots[h].refs == 1 + if HeldByRouter(s.lanes[s.pool.slots[h].ext.value.core].router, h) then 1 else 0
  }

  lemma CountOfLive(s: PortState, k: nat, q: Pipe, h: Handle)
    requires LaneAt(s, k, q) && Owns(q, h)
    ensures h < |s.pool.slots| && s.pool.slots[h].ext.Some? && Matches(s.pool.slots[h], s.pool.slots[h].ext.value.packet)
    ensures s.pool.slots[h].refs == 1 + if HeldByRouter(s.lanes[k].router, h) then 1 else 0
  {
  }

  lemma ReferenceCounts(s: PortState, pipes: seq<Pipe>, h: Handle)
    requires Refines(s, pipes) && h < |s.pool.slots|
    ensures PayloadSound(s, h)
  {
    assert Accounted(s.pool, pipes, h);
    if s.pool.slots[h].refs > 0 {
      assert InUse(s.pool.slots, pipes, h);
      var k := s.pool.slots[h].ext.value.core;
      assert LaneAt(s, k, pipes[k]);
      CountOfLive(s, k, pipes[k], h);
    }
  }

  lemma PoolBound(s: PortState, pipes: seq<Pipe>)
    requires Refines(s, pipes)
    ensures s.pool.allocations == |s.pool.slots| <= 2 * |s.lanes|
  {
  }

  // ---------- the maps ----------

  /** Entries of the blocking maps are payloads in use that belong to the socket of their key. */
  predicate EntrySound(s: PortState, k: nat, entry: Option<Handle>) {
    entry.Some? ==>
      && k < s.helper.num
      && entry.value < |s.pool.slots| && s.pool.slots[entry.value].refs > 0
      && s.pool.slots[entry.value].ext.Some? && s.pool.slots[entry.value].ext.value.core == k
  }

  predicate EntriesSound(s: PortState, k: nat) {
    && EntrySound(s, k, At(s.helper.request, k)) && EntrySound(s, k, At(s.helper.response, k))
    && (At(s.helper.request, k).Some? ==> At(s.helper.request, k) != At(s.helper.response, k))
  }

  lemma LaneEntries(s: PortState, k: nat, q: Pipe)
    requires LaneAt(s, k, q) && k < s.helper.num
    requires !q.tail.Free? && q.HeadTxn() != [] ==> q.tail.t.h != q.head.t.h
    ensures EntriesSound(s, k)
  {
  }

  lemma MapEntries(s: PortState, pipes: seq<Pipe>, k: nat)
    requires Refines(s, pipes)
    ensures EntrySound(s, k, At(s.helper.request, k)) && EntrySound(s, k, At(s.helper.response, k))
    ensures At(s.helper.request, k).Some? ==> At(s.helper.request, k) != At(s.helper.response, k)
  {
    if At(s.helper.request, k).Some? || At(s.helper.response, k).Some? {
      assert k <= s.helper.num;
      if pipes[k].HeadTxn() != [] {
        HeldByHead(s, pipes, k);
      }
      LaneEntries(s, k, pipes[k]);
    }
  }

  // ---------- progress ----------

  /** The next moment something happens on the socket by itself. */
  function Due(q: Pipe): (r: Option<Time>) {
    var tail := if q.tail.Offered? then Some(q.tail.at) else None;
    match q.head
    case Idle => tail
    case Serving(_, endReqAt, doneAt) => Some(Notify(tail, if endReqAt.Some? then endReqAt.value else doneAt).value)
    case Executing(_, until) => Notify(tail, until)
    case Answering(_, at) => Notify(tail, at)
    case Refused(_) => tail
    case Closing(_, at) => Notify(tail, at)
  }

  lemma DueBounds(s: PortState, k: nat, q: Pipe, t: Time)
    requires LaneAt(s, k, q)
    ensures Due(q).Some? ==> s.now <= Due(q).value
    ensures DueFrom(s.lanes[k], t) <==> (Due(q).Some? ==> t <= Due(q).value)
  {
    assert q.tail.Offered? ==> PeqEntry(q.tail.t.h, BeginReq, q.tail.at) in s.lanes[k].router.peq;
    assert q.head.Closing? ==> PeqEntry(q.head.h, EndResp, q.head.at) in s.lanes[k].router.peq;
    assert q.Events() != [] ==> s.lanes[k].events[0] == q.Events()[0];
  }

  /** What is due on the socket now can happen. */
  lemma DueEnabled(s: PortState, k: nat, q: Pipe) returns (step: Step)
    requires LaneAt(s, k, q) && Due(q) == Some(s.now) && CaughtUp(s)
    ensures Internal(step) && Enabled(s, step) && (step.Event? ==> step.script == [])
  {
    if q.tail.Offered? && q.tail.at == s.now {
      step := Peq(k, PeqEntry(q.tail.t.h, BeginReq, q.tail.at));
    } else if q.head.Closing? {
      step := Peq(k, PeqEntry(q.head.h, EndResp, q.head.at));
    } else if q.head.Executing? {
      step := Memory(k);
    } else if q.head.Answering? || q.head.endReqAt.Some? {
      step := Event(k, 0, true, []);
      assert s.lanes[k].events[0] == q.Events()[0];
    } else {
      step := Done(k, 0);
    }
  }

  /** The socket on which something is due first. */
  function First(pipes: seq<Pipe>): (r: Option<nat>)
    ensures r.Some? ==> r.value < |pipes| && Due(pipes[r.value]).Some?
    ensures forall k :: 0 <= k < |pipes| && Due(pipes[k]).Some? ==>
              r.Some? && Due(pipes[r.value]).value <= Due(pipes[k]).value
  {
    if pipes == [] then None
    else
      var n := |pipes| - 1;
      var before := First(pipes[..n]);
      if Due(pipes[n]).Some? && (before.None? || Due(pipes[n]).value < Due(pipes[before.value]).value) then Some(n)
      else before
  }

  /**
   * Something can still happen without gem5 sending a new request: now, once time
   * has moved on and gem5 has caught up, or when gem5 asks for a blocked response.
   */
  ghost predicate CanMove(s: PortState) {
    || (exists step :: Internal(step) && Enabled(Caught(s), step))
    || (exists to, step :: Enabled(s, Tick(to)) && Internal(step) && Enabled(Caught(s.(now := to)), step))
    || (exists k: nat :: At(s.helper.response, k).Some?)
  }

  predicate Finished(l: Lane) {
    l.log.ended == l.log.accepted && !l.router.responding
  }

  lemma FinishedIdle(s: PortState, k: nat, q: Pipe)
    requires LaneAt(s, k, q)
    ensures Finished(s.lanes[k]) <==> q == EMPTY_PIPE
  {
    LogInOrder(s.lanes[k].log, q);
    assert q.Live() == q.HeadTxn() + q.TailTxn();
  }

  lemma Unfinished(s: PortState, pipes: seq<Pipe>, k: nat)
    requires Refines(s, pipes) && k < |s.lanes| && !Finished(s.lanes[k])
    ensures CanMove(s)
  {
    FinishedIdle(s, k, pipes[k]);
    if pipes[k].head.Refused? {
      assert LaneAt(s, k, pipes[k]);
      assert At(s.helper.response, k).Some?;
    } else {
      assert Due(pipes[k]).Some?;
      var to, step := DueMoves(s, pipes);
      assert to == s.now ==> s.(now := to) == s;
    }
  }

  /** What is due first can happen: now, or when time has moved on to it. */
  lemma DueMoves(s: PortState, pipes: seq<Pipe>) returns (to: Time, step: Step)
    requires Refines(s, pipes) && First(pipes).Some?
    ensures to == s.now || Enabled(s, Tick(to))
    ensures Internal(step) && Enabled(Caught(s.(now := to)), step) && (step.Event? ==> step.script == [])
    ensures Refines(s.(now := to), pipes) && Refines(Caught(s.(now := to)), pipes)
  {
    var k := First(pipes).value;
    to := Due(pipes[k]).value;
    DueBounds(s, k, pipes[k], to);
    if to == s.now {
      assert s.(now := to) == s;
    } else {
      forall j | 0 <= j < |s.lanes|
        ensures DueFrom(s.lanes[j], to)
      {
        DueBounds(s, j, pipes[j], to);
      }
      assert Enabled(s, Tick(to));
      TickStep(s, pipes, to);
    }
    CaughtStep(s.(now := to), pipes);
    step := DueEnabled(Caught(s.(now := to)), k, pipes[k]);
  }

  lemma NothingLeft(s: PortState, pipes: seq<Pipe>, step: Step)
    requires Refines(s, pipes) && forall k :: 0 <= k < |s.lanes| ==> Finished(s.lanes[k])
    requires Internal(step)
    ensures !Enabled(s, step)
  {
    if Enabled(s, step) {
      assert LaneAt(s, step.k, pipes[step.k]);
      FinishedIdle(s, step.k, pipes[step.k]);
    }
  }

  /** The handshake comes to rest exactly when every accepted request has been finished. */
  lemma DeadlockFree(s: PortState, pipes: seq<Pipe>)
    requires Refines(s, pipes)
    ensures CanMove(s) <==> exists k :: 0 <= k < |s.lanes| && !Finished(s.lanes[k])
  {
    if k :| 0 <= k < |s.lanes| && !Finished(s.lanes[k]) {
      Unfinished(s, pipes, k);
    } else {
      forall step | Internal(step)
        ensures !Enabled(Caught(s), step)
      {
        CaughtStep(s, pipes);
        NothingLeft(Caught(s), pipes, step);
      }
      forall to, step | Enabled(s, Tick(to)) && Internal(step)
        ensures !Enabled(Caught(s.(now := to)), step)
      {
        TickStep(s, pipes, to);
        CaughtStep(s.(now := to), pipes);
        NothingLeft(Caught(s.(now := to)), pipes, step);
      }
      forall k: nat
        ensures At(s.helper.response, k).None?
      {
        if At(s.helper.response, k).Some? {
          NotSpare(s, k);
          assert LaneAt(s, k, pipes[k]);
          FinishedIdle(s, k, pipes[k]);
        }
      }
    }
  }

  // ---------- whole runs ----------

  /** What holds in every reachable state. */
  ghost predicate Sound(s: PortState) {
    && (forall k :: 0 <= k < |s.lanes| ==>
          InOrder(s.lanes[k].log) && Legal(s.lanes[k].log.wire) && RouterSound(s.lanes[k].router) && EventsSound(s, k))
    && (forall h :: 0 <= h < |s.pool.slots| ==> PayloadSound(s, h))
    && s.pool.allocations == |s.pool.slots| <= 2 * |s.lanes|
    && (forall k: nat :: EntrySound(s, k, At(s.helper.request, k)) && EntrySound(s, k, At(s.helper.response, k)))
    && RetryOk(s)
    && (CanMove(s) <==> exists k :: 0 <= k < |s.lanes| && !Finished(s.lanes[k]))
  }

  lemma RefinesSound(s: PortState, pipes: seq<Pipe>)
    requires Refines(s, pipes)
    ensures Sound(s)
  {
    forall k | 0 <= k < |s.lanes|
      ensures InOrder(s.lanes[k].log) && Legal(s.lanes[k].log.wire) && RouterSound(s.lanes[k].router) && EventsSound(s, k)
    {
      FifoServer(s, pipes, k);
      RouterInvariant(s, pipes, k);
      EventPayloads(s, pipes, k);
    }
    forall h | 0 <= h < |s.pool.slots|
      ensures PayloadSound(s, h)
    {
      ReferenceCounts(s, pipes, h);
    }
    PoolBound(s, pipes);
    forall k: nat
      ensures EntrySound(s, k, At(s.helper.request, k)) && EntrySound(s, k, At(s.helper.response, k))
    {
      MapEntries(s, pipes, k);
    }
    DeadlockFree(s, pipes);
  }

  /**
   * From the bound port on, whatever gem5, the memories and the scheduler do: no
   * assertion fails and nothing is fatal, every state on the way is sound, and the
   * code takes at most eight internal steps for each request it has accepted.
   */
  lemma EveryRunIsSound(sockets: Routing.SocketMap, ranges: seq<MemRange>, start: Time, steps: seq<Step>)
    requires ranges != []
    requires Schedule(Bound(sockets, ranges, start), steps)
    ensures var r := Run(Bound(sockets, ranges, start), steps);
            && r.Ok? && Sound(r.value)
            && InternalSteps(steps) <= 8 * TotalAccepted(r.value.lanes)
  {
    BoundRefines(sockets, ranges, start);
    var q, s' := EveryRun(Bound(sockets, ranges, start), seq(|ranges|, _ => EMPTY_PIPE), steps);
    RefinesSound(s', q);
  }

  /** When every request has been finished, every payload is back in the pool and every response has been given. */
  lemma NothingLeaks(s: PortState, pipes: seq<Pipe>)
    requires Refines(s, pipes) && forall k :: 0 <= k < |s.lanes| ==> Finished(s.lanes[k])
    ensures |s.pool.free| == s.pool.allocations
    ensures forall k :: 0 <= k < |s.lanes| ==>
              var log := s.lanes[k].log;
              log.executed == log.accepted && log.answered == Responses(log.accepted)
  {
    forall k | 0 <= k < |pipes|
      ensures pipes[k] == EMPTY_PIPE
      ensures InOrder(s.lanes[k].log)
    {
      FinishedIdle(s, k, pipes[k]);
      FifoServer(s, pipes, k);
    }
    NoLive(pipes);
  }

  lemma {:induction false} NoLive(pipes: seq<Pipe>)
    requires forall k :: 0 <= k < |pipes| ==> pipes[k] == EMPTY_PIPE
    ensures LiveCount(pipes) == 0
  {
    if pipes != [] {
      NoLive(pipes[..|pipes| - 1]);
    }
  }
}
