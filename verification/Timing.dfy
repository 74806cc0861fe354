/** When the phases of a transaction take effect, over whole runs. */
module Timing {
  import opened Common
  import opened Kernel
  import opened BaseProtocol
  import opened Payloads
  import opened BlockingPackets
  import opened TxnRouters
  import opened SlavePorts
  import opened Pipes
  import opened Simulation
  import opened PortSteps
  import opened Runs
  import Routing

  // ---------- the ticks of a socket ----------

  /** For each phase the ticks at which it takes effect, transaction by transaction. */
  datatype Clock = Clock(beginReq: seq<Time>, endReq: seq<Time>, beginResp: seq<Time>, endResp: seq<Time>)

  function Add(c: Clock, phase: Phase, at: Time): (r: Clock) {
    match phase
    case BeginReq => c.(beginReq := c.beginReq + [at])
    case EndReq => c.(endReq := c.endReq + [at])
    case BeginResp => c.(beginResp := c.beginResp + [at])
    case EndResp => c.(endResp := c.endResp + [at])
  }

  function ClockOf(wire: seq<WireEvent>, due: seq<Time>): (r: Clock) {
    if wire == [] || |due| != |wire| then Clock([], [], [], [])
    else
      var n := |wire| - 1;
      Add(ClockOf(wire[..n], due[..n]), wire[n].phase, due[n])
  }

  /** The target is free for transaction i, and its request is there. */
  function TakenAt(c: Clock, i: nat): (r: Time)
    requires i < |c.beginReq| && i <= |c.endResp|
  {
    if i > 0 && c.endResp[i - 1] > c.beginReq[i] then c.endResp[i - 1] else c.beginReq[i]
  }

  /**
   * END_REQ takes effect 10 ns after the target has taken the transaction, BEGIN_RESP
   * at least 15 ns for the target and 10 ns for itself later, and END_RESP not before it.
   */
  predicate Spaced(c: Clock) {
    && |c.endResp| <= |c.beginResp| <= |c.endReq| <= |c.beginReq| && |c.endReq| <= |c.endResp| + 1
    && (forall i :: 0 <= i < |c.endReq| ==> c.endReq[i] == TakenAt(c, i) + 10_000)
    && (forall i :: 0 <= i < |c.beginResp| ==> c.beginResp[i] >= c.endReq[i] + 25_000)
    && (forall i :: 0 <= i < |c.endResp| ==> c.endResp[i] >= c.beginResp[i])
  }

  /** The ticks that the pipe still waits for are the last ones of the clock; n transactions have ended. */
  predicate Tracks(c: Clock, p: Pipe, now: Time, n: nat) {
    && |c.beginReq| == n + |p.HeadTxn()| + |p.TailTxn()| && |c.endReq| == n + |p.HeadTxn()| && |c.endResp| == n
    && |c.beginResp| == n + (if p.head.Answering? || p.head.Refused? then 1 else 0)
    && (match p.head
        case Idle => n > 0 ==> c.endResp[n - 1] <= now
        case Serving(_, endReqAt, doneAt) =>
          c.endReq[n] + 15_000 == doneAt && (endReqAt.Some? ==> endReqAt.value == c.endReq[n])
        case Executing(_, until) => c.endReq[n] + 15_000 <= until
        case Answering(_, at) => c.beginResp[n] == at
        case Refused(_) => c.beginResp[n] <= now
        case Closing(_, at) => n > 0 && c.endResp[n - 1] == at)
    && (match p.tail
        case Free => true
        case Offered(_, at) => c.beginReq[|c.beginReq| - 1] == at
        case Parked(_) => c.beginReq[|c.beginReq| - 1] <= now)
  }

  predicate Clocked(c: Clock, p: Pipe, now: Time, n: nat) {
    Spaced(c) && Tracks(c, p, now, n)
  }

  // ---------- each phase ----------

  /** What has been taken so far does not depend on the ticks to come. */
  lemma TakenSame(c: Clock, c': Clock, n: nat)
    requires c.beginReq <= c'.beginReq && c.endResp <= c'.endResp && n <= |c.beginReq| && n <= |c.endResp| + 1
    ensures forall i :: 0 <= i < n ==> TakenAt(c', i) == TakenAt(c, i)
  {
  }

  lemma AcceptClock(c: Clock, p: Pipe, now: Time, n: nat, t: Txn, at: Time)
    requires Clocked(c, p, now, n) && p.tail.Free?
    ensures Clocked(Add(c, BeginReq, at), Accepting(p, t, at), now, n)
  {
    var c' := Add(c, BeginReq, at);
    TakenSame(c, c', |c.endReq|);
  }

  lemma TakeSpaced(c: Clock, at: Time)
    requires Spaced(c) && |c.endReq| == |c.endResp| < |c.beginReq| && at == TakenAt(c, |c.endResp|)
    ensures Spaced(Add(c, EndReq, at + 10_000))
  {
    TakenSame(c, Add(c, EndReq, at + 10_000), |c.endReq| + 1);
  }

  /** The target takes the tail now: it has been waiting for the request, or for the end of the transaction before. */
  lemma TakeClock(c: Clock, p: Pipe, now: Time, n: nat)
    requires Clocked(c, p, now, n)
    requires (p.head.Idle? && p.tail.Offered? && p.tail.at == now) || (p.head.Closing? && p.head.at == now && p.tail.Parked?)
    ensures Clocked(Add(c, EndReq, now + 10_000), Taken(p, now), now, n)
  {
    assert TakenAt(c, n) == now;
    TakeSpaced(c, now);
  }

  lemma AnswerSpaced(c: Clock, at: Time)
    requires Spaced(c) && |c.beginResp| == |c.endResp| < |c.endReq| && at >= c.endReq[|c.endResp|] + 25_000
    ensures Spaced(Add(c, BeginResp, at))
  {
    TakenSame(c, Add(c, BeginResp, at), |c.endReq|);
  }

  lemma AnswerClock(c: Clock, p: Pipe, now: Time, n: nat)
    requires Clocked(c, p, now, n) && p.head.Executing? && p.head.until == now
    ensures Clocked(Add(c, BeginResp, now + 10_000), Pipe(Answering(p.head.t, now + 10_000), p.tail), now, n)
  {
    assert c.endReq[n] + 15_000 <= now && |c.endResp| == n;
    AnswerSpaced(c, now + 10_000);
  }

  lemma EndSpaced(c: Clock, at: Time)
    requires Spaced(c) && |c.beginResp| == |c.endResp| + 1 && at >= c.beginResp[|c.endResp|]
    ensures Spaced(Add(c, EndResp, at))
  {
    TakenSame(c, Add(c, EndResp, at), |c.endReq|);
  }

  lemma EndClock(c: Clock, p: Pipe, now: Time, n: nat)
    requires Clocked(c, p, now, n) && ((p.head.Answering? && p.head.at == now) || p.head.Refused?)
    ensures Clocked(Add(c, EndResp, now), Ended(p, now), now, n + 1)
  {
    EndSpaced(c, now);
  }

  /** Nothing is sent: the target parks or closes a transaction, starts executing, or END_REQ or BEGIN_RESP arrives. */
  lemma QuietClock(c: Clock, p: Pipe, now: Time, n: nat, latency: Time)
    requires Clocked(c, p, now, n)
    ensures p.tail.Offered? && p.tail.at == now && !p.head.Idle? ==> Clocked(c, Pipe(p.head, Parked(p.tail.t)), now, n)
    ensures p.head.Closing? && p.head.at == now && !p.tail.Parked? ==> Clocked(c, Pipe(Idle, p.tail), now, n)
    ensures p.head.Serving? && p.head.doneAt == now ==> Clocked(c, Pipe(Executing(p.head.t, now + latency), p.tail), now, n)
    ensures p.head.Serving? ==> Clocked(c, FreedPipe(p), now, n)
    ensures p.head.Answering? ==> Clocked(c, Converted(p), now, n)
    ensures p.head.Answering? && p.head.at == now ==> Clocked(c, Waiting(p), now, n)
  {
  }

  lemma LaterClock(c: Clock, p: Pipe, now: Time, to: Time, n: nat)
    requires Clocked(c, p, now, n) && now <= to
    ensures Clocked(c, p, to, n)
  {
  }

  // ---------- each step, on one socket ----------

  predicate LogClocked(log: Log, p: Pipe, now: Time) {
    |log.due| == |log.wire| && Clocked(ClockOf(log.wire, log.due), p, now, |log.ended|)
  }

  ghost predicate LaneClocked(l: Lane, p: Pipe, now: Time) {
    exists n: nat :: n == |l.log.ended| && LogClockedAt(l.log, p, now, n)
  }

  predicate LogClockedAt(log: Log, p: Pipe, now: Time, n: nat) {
    n == |log.ended| && LogClocked(log, p, now)
  }

  lemma Wrap(l: Lane, p: Pipe, now: Time)
    requires LogClocked(l.log, p, now)
    ensures LaneClocked(l, p, now)
  {
    assert LogClockedAt(l.log, p, now, |l.log.ended|);
  }

  /** The lane has made one more call, which takes effect at that tick. */
  predicate Stamped(log: Log, log': Log, phase: Phase, at: Time) {
    && |log.due| == |log.wire| && |log'.wire| == |log.wire| + 1 && log'.due == log.due + [at]
    && log'.wire == log.wire + [WireEvent(phase, log'.wire[|log.wire|].txn)]
  }

  lemma StampedClock(log: Log, log': Log, phase: Phase, at: Time)
    requires Stamped(log, log', phase, at)
    ensures |log'.due| == |log'.wire| && ClockOf(log'.wire, log'.due) == Add(ClockOf(log.wire, log.due), phase, at)
  {
    assert log'.wire[..|log.wire|] == log.wire && log'.due[..|log.wire|] == log.due;
  }

  /** What a stamp and the end of a transaction, if it is END_RESP, do to the history. */
  predicate Follows(log: Log, log': Log, phase: Phase, at: Time) {
    Stamped(log, log', phase, at) && |log'.ended| == |log.ended| + if phase == EndResp then 1 else 0
  }

  lemma AcceptLogged(log: Log, log': Log, p: Pipe, now: Time, t: Txn, at: Time)
    requires LogClocked(log, p, now) && p.tail.Free? && Follows(log, log', BeginReq, at)
    ensures LogClocked(log', Accepting(p, t, at), now)
  {
    StampedClock(log, log', BeginReq, at);
    AcceptClock(ClockOf(log.wire, log.due), p, now, |log.ended|, t, at);
  }

  lemma TakeLogged(log: Log, log': Log, p: Pipe, now: Time)
    requires LogClocked(log, p, now) && Follows(log, log', EndReq, now + 10_000)
    requires (p.head.Idle? && p.tail.Offered? && p.tail.at == now) || (p.head.Closing? && p.head.at == now && p.tail.Parked?)
    ensures LogClocked(log', Taken(p, now), now)
  {
    StampedClock(log, log', EndReq, now + 10_000);
    TakeClock(ClockOf(log.wire, log.due), p, now, |log.ended|);
  }

  lemma AnswerLogged(log: Log, log': Log, p: Pipe, now: Time)
    requires LogClocked(log, p, now) && p.head.Executing? && p.head.until == now && Follows(log, log', BeginResp, now + 10_000)
    ensures LogClocked(log', Pipe(Answering(p.head.t, now + 10_000), p.tail), now)
  {
    StampedClock(log, log', BeginResp, now + 10_000);
    AnswerClock(ClockOf(log.wire, log.due), p, now, |log.ended|);
  }

  lemma EndLogged(log: Log, log': Log, p: Pipe, now: Time)
    requires LogClocked(log, p, now) && Follows(log, log', EndResp, now)
    requires (p.head.Answering? && p.head.at == now) || p.head.Refused?
    ensures LogClocked(log', Ended(p, now), now)
  {
    StampedClock(log, log', EndResp, now);
    EndClock(ClockOf(log.wire, log.due), p, now, |log.ended|);
  }

  lemma QuietLogged(log: Log, log': Log, p: Pipe, now: Time, latency: Time)
    requires LogClocked(log, p, now) && log'.wire == log.wire && log'.due == log.due && log'.ended == log.ended
    ensures p.tail.Offered? && p.tail.at == now && !p.head.Idle? ==> LogClocked(log', Pipe(p.head, Parked(p.tail.t)), now)
    ensures p.head.Closing? && p.head.at == now && !p.tail.Parked? ==> LogClocked(log', Pipe(Idle, p.tail), now)
    ensures p.head.Serving? && p.head.doneAt == now ==> LogClocked(log', Pipe(Executing(p.head.t, now + latency), p.tail), now)
    ensures p.head.Serving? ==> LogClocked(log', FreedPipe(p), now)
    ensures p.head.Answering? ==> LogClocked(log', Converted(p), now)
    ensures p.head.Answering? && p.head.at == now ==> LogClocked(log', Waiting(p), now)
  {
    QuietClock(ClockOf(log.wire, log.due), p, now, |log.ended|, latency);
  }

  /** send_end_req: END_REQ takes effect after 10 ns. */
  lemma TakeStamp(l: Lane, pool: PoolState, now: Time, h: Handle)
    requires |l.log.due| == |l.log.wire| && SendEndReq(l, pool, now, h).Ok?
    ensures Follows(l.log, SendEndReq(l, pool, now, h).value.log, EndReq, now + 10_000)
  {
  }

  /** peq_cb on BEGIN_REQ. */
  lemma BeginReqClock(l: Lane, pool: PoolState, now: Time, e: PeqEntry, q: Pipe, l': Lane, p: Pipe)
    requires LaneClocked(l, q, now) && l.router == q.Router(l.router.range)
    requires PeqCallback(l, pool, now, e).Ok? && PeqCallback(l, pool, now, e).value.0 == l'
    requires e.phase == BeginReq && q.tail.Offered? && q.tail.at == now && p == Began(q, now)
    ensures LaneClocked(l', p, now)
  {
    var l1 := l.(router := l.router.(peq := l.router.peq - multiset{e}));
    if q.head.Idle? {
      TakeStamp(l1, Acquire(pool, e.h).value, now, e.h);
      TakeLogged(l.log, l'.log, q, now);
    } else {
      QuietLogged(l.log, l'.log, q, now, 0);
    }
    Wrap(l', p, now);
  }

  /** peq_cb on END_RESP. */
  lemma EndRespClock(l: Lane, pool: PoolState, now: Time, e: PeqEntry, q: Pipe, l': Lane, p: Pipe)
    requires LaneClocked(l, q, now) && l.router == q.Router(l.router.range)
    requires PeqCallback(l, pool, now, e).Ok? && PeqCallback(l, pool, now, e).value.0 == l'
    requires e.phase == EndResp && q.head.Closing? && q.head.at == now && p == Closed(q, now)
    ensures LaneClocked(l', p, now)
  {
    var l1 := l.(router := l.router.(peq := l.router.peq - multiset{e}, inProgress := None, responding := false));
    if q.tail.Parked? {
      TakeStamp(l1, pool, now, q.tail.t.h);
      TakeLogged(l.log, l'.log, q, now);
    } else {
      QuietLogged(l.log, l'.log, q, now, 0);
    }
    Wrap(l', p, now);
  }

  ghost predicate DoneMoves(l: Lane, pool: PoolState, now: Time, latency: Time, q: Pipe, l': Lane, p: Pipe) {
    exists n: nat :: n == |l.log.wire| && DoneMovesAt(l, pool, now, latency, q, l', p, n)
  }

  predicate DoneMovesAt(l: Lane, pool: PoolState, now: Time, latency: Time, q: Pipe, l': Lane, p: Pipe, n: nat) {
    && n == |l.log.wire| && l.router == q.Router(l.router.range) && l.router.targetDone == Some(now)
    && OnTargetDone(l, pool, now, latency) == Ok(l')
    && q.head.Serving? && p == Pipe(Executing(q.head.t, now + latency), q.tail)
  }

  /** target_done_event. */
  lemma DoneClock(l: Lane, pool: PoolState, now: Time, latency: Time, q: Pipe, l': Lane, p: Pipe)
    requires LaneClocked(l, q, now) && DoneMoves(l, pool, now, latency, q, l', p)
    ensures LaneClocked(l', p, now)
  {
    QuietLogged(l.log, l'.log, q, now, latency);
    Wrap(l', p, now);
  }

  ghost predicate MemoryMoves(l: Lane, pool: PoolState, now: Time, q: Pipe, l': Lane, p: Pipe) {
    exists n: nat :: n == |l.log.wire| && MemoryMovesAt(l, pool, now, q, l', p, n)
  }

  predicate MemoryMovesAt(l: Lane, pool: PoolState, now: Time, q: Pipe, l': Lane, p: Pipe, n: nat) {
    && n == |l.log.wire| && l.router == q.Router(l.router.range) && l.router.thread == InMemory(now)
    && OnMemoryDone(l, pool, now).Ok? && OnMemoryDone(l, pool, now).value.0 == l'
    && q.head.Executing? && p == Pipe(Answering(q.head.t, now + 10_000), q.tail)
  }

  /** The memory returns, and BEGIN_RESP takes effect after 10 ns. */
  lemma MemoryClock(l: Lane, pool: PoolState, now: Time, q: Pipe, l': Lane, p: Pipe)
    requires LaneClocked(l, q, now) && MemoryMoves(l, pool, now, q, l', p)
    ensures LaneClocked(l', p, now)
  {
    AnswerLogged(l.log, l'.log, q, now);
    Wrap(l', p, now);
  }

  // ---------- each step ----------

  ghost predicate AllClocked(s: PortState, pipes: seq<Pipe>) {
    |pipes| == |s.lanes| && forall k :: 0 <= k < |s.lanes| ==> LaneClocked(s.lanes[k], pipes[k], s.now)
  }

  /** The pipes describe the state. */
  ghost predicate Described(s: PortState, pipes: seq<Pipe>) {
    exists n: nat :: n == |pipes| && DescribedBy(s, pipes, n)
  }

  ghost predicate DescribedBy(s: PortState, pipes: seq<Pipe>, n: nat) {
    n == |pipes| && Refines(s, pipes)
  }

  lemma Open(s: PortState, pipes: seq<Pipe>)
    requires Described(s, pipes)
    ensures Refines(s, pipes)
  {
  }

  lemma Close(s: PortState, pipes: seq<Pipe>)
    requires Refines(s, pipes)
    ensures Described(s, pipes)
  {
    assert DescribedBy(s, pipes, |pipes|);
  }

  /** Only socket k has changed, within one tick. */
  predicate Moves(s: PortState, s': PortState, k: nat) {
    k < |s.lanes| == |s'.lanes| && s'.now == s.now && s'.lanes == s.lanes[k := s'.lanes[k]]
  }

  lemma OneClocked(s: PortState, pipes: seq<Pipe>, s': PortState, k: nat, p: Pipe)
    requires AllClocked(s, pipes) && Moves(s, s', k) && LaneClocked(s'.lanes[k], p, s.now)
    ensures AllClocked(s', pipes[k := p])
  {
  }

  lemma OneClock(s: PortState, pipes: seq<Pipe>, k: nat)
    requires AllClocked(s, pipes) && k < |s.lanes|
    ensures LogClocked(s.lanes[k].log, pipes[k], s.now)
  {
    assert LaneClocked(s.lanes[k], pipes[k], s.now);
  }

  lemma PeqFacts(s: PortState, pipes: seq<Pipe>, k: nat, e: PeqEntry) returns (p: Pipe, s': PortState)
    requires Described(s, pipes) && Enabled(s, Peq(k, e))
    ensures Next(s, Peq(k, e)) == Ok(s') && Described(s', pipes[k := p]) && Moves(s, s', k)
    ensures var r := PeqCallback(s.lanes[k], s.pool, s.now, e); r.Ok? && r.value.0 == s'.lanes[k]
    ensures s.lanes[k].router == pipes[k].Router(s.lanes[k].router.range)
    ensures if e.phase == BeginReq then pipes[k].tail.Offered? && pipes[k].tail.t.h == e.h && pipes[k].tail.at == s.now
                                         && p == Began(pipes[k], s.now)
            else e.phase == EndResp && pipes[k].head.Closing? && pipes[k].head.at == s.now && p == Closed(pipes[k], s.now)
  {
    Open(s, pipes);
    p := PeqStep(s, pipes, k, e);
    assert LaneAt(s, k, pipes[k]);
    s' := RouterCallback(s, k, e).value;
    Close(s', pipes[k := p]);
  }

  lemma PeqClocked(s: PortState, pipes: seq<Pipe>, k: nat, e: PeqEntry) returns (q: seq<Pipe>, s': PortState)
    requires Described(s, pipes) && AllClocked(s, pipes) && Enabled(s, Peq(k, e))
    ensures Next(s, Peq(k, e)) == Ok(s') && Described(s', q) && AllClocked(s', q)
  {
    var p;
    p, s' := PeqFacts(s, pipes, k, e);
    if e.phase == BeginReq {
      BeginReqClock(s.lanes[k], s.pool, s.now, e, pipes[k], s'.lanes[k], p);
    } else {
      EndRespClock(s.lanes[k], s.pool, s.now, e, pipes[k], s'.lanes[k], p);
    }
    q := pipes[k := p];
    OneClocked(s, pipes, s', k, p);
  }

  lemma DoneFacts(s: PortState, pipes: seq<Pipe>, k: nat, latency: Time) returns (p: Pipe, s': PortState)
    requires Described(s, pipes) && Enabled(s, Done(k, latency))
    ensures Next(s, Done(k, latency)) == Ok(s') && Described(s', pipes[k := p]) && Moves(s, s', k)
    ensures k < |pipes| && DoneMoves(s.lanes[k], s.pool, s.now, latency, pipes[k], s'.lanes[k], p)
  {
    Open(s, pipes);
    p := TargetDoneStep(s, pipes, k, latency);
    assert LaneAt(s, k, pipes[k]);
    s' := TargetDone(s, k, latency).value;
    Close(s', pipes[k := p]);
    assert DoneMovesAt(s.lanes[k], s.pool, s.now, latency, pipes[k], s'.lanes[k], p, |s.lanes[k].log.wire|);
  }

  lemma DoneClocked(s: PortState, pipes: seq<Pipe>, k: nat, latency: Time) returns (q: seq<Pipe>, s': PortState)
    requires Described(s, pipes) && AllClocked(s, pipes) && Enabled(s, Done(k, latency))
    ensures Next(s, Done(k, latency)) == Ok(s') && Described(s', q) && AllClocked(s', q)
  {
    var p;
    p, s' := DoneFacts(s, pipes, k, latency);
    DoneClock(s.lanes[k], s.pool, s.now, latency, pipes[k], s'.lanes[k], p);
    q := pipes[k := p];
    OneClocked(s, pipes, s', k, p);
  }

  lemma MemoryFacts(s: PortState, pipes: seq<Pipe>, k: nat) returns (p: Pipe, s': PortState)
    requires Described(s, pipes) && Enabled(s, Memory(k))
    ensures Next(s, Memory(k)) == Ok(s') && Described(s', pipes[k := p]) && Moves(s, s', k)
    ensures k < |pipes| && MemoryMoves(s.lanes[k], s.pool, s.now, pipes[k], s'.lanes[k], p)
  {
    Open(s, pipes);
    p := MemoryDoneStep(s, pipes, k);
    assert LaneAt(s, k, pipes[k]);
    s' := MemoryDone(s, k).value;
    Close(s', pipes[k := p]);
    assert MemoryMovesAt(s.lanes[k], s.pool, s.now, pipes[k], s'.lanes[k], p, |s.lanes[k].log.wire|);
  }

  lemma MemoryClocked(s: PortState, pipes: seq<Pipe>, k: nat) returns (q: seq<Pipe>, s': PortState)
    requires Described(s, pipes) && AllClocked(s, pipes) && Enabled(s, Memory(k))
    ensures Next(s, Memory(k)) == Ok(s') && Described(s', q) && AllClocked(s', q)
  {
    var p;
    p, s' := MemoryFacts(s, pipes, k);
    MemoryClock(s.lanes[k], s.pool, s.now, pipes[k], s'.lanes[k], p);
    q := pipes[k := p];
    OneClocked(s, pipes, s', k, p);
  }

  lemma BeginStamp(s: PortState, pkt: Packet, k: nat)
    requires Begin(s, pkt, k).Ok? && k < |s.lanes| && |s.lanes[k].log.due| == |s.lanes[k].log.wire|
    ensures var s' := Begin(s, pkt, k).value;
            Moves(s, s', k) && Follows(s.lanes[k].log, s'.lanes[k].log, BeginReq, s.now + pkt.payloadDelay)
  {
  }

  lemma BeginFree(s: PortState, pipes: seq<Pipe>, pkt: Packet, k: nat, s': PortState) returns (p: Pipe)
    requires Described(s, pipes) && k < |s.lanes| && At(s.helper.request, k).None?
    requires ToMem(s.lanes[k].router.range, pkt.addr) && Begin(s, pkt, k) == Ok(s')
    ensures Described(s', pipes[k := p]) && k < |pipes| && pipes[k].tail.Free? && p.tail.Offered?
    ensures p == Accepting(pipes[k], p.tail.t, s.now + pkt.payloadDelay)
  {
    Open(s, pipes);
    p := BeginStep(s, pipes, pkt, k, s');
    FreeTail(s, k, pipes[k]);
    Close(s', pipes[k := p]);
  }

  lemma BeginClocked(s: PortState, pipes: seq<Pipe>, pkt: Packet, k: nat, s': PortState, p: Pipe)
    requires AllClocked(s, pipes) && k < |s.lanes| && Begin(s, pkt, k) == Ok(s')
    requires pipes[k].tail.Free? && p.tail.Offered? && p == Accepting(pipes[k], p.tail.t, s.now + pkt.payloadDelay)
    ensures AllClocked(s', pipes[k := p])
  {
    OneClock(s, pipes, k);
    BeginStamp(s, pkt, k);
    AcceptLogged(s.lanes[k].log, s'.lanes[k].log, pipes[k], s.now, p.tail.t, s.now + pkt.payloadDelay);
    Wrap(s'.lanes[k], p, s.now);
    OneClocked(s, pipes, s', k, p);
  }

  /** recvTimingReq. */
  lemma RequestClocked(s: PortState, pipes: seq<Pipe>, pkt: Packet) returns (q: seq<Pipe>, s': PortState)
    requires Described(s, pipes) && AllClocked(s, pipes) && !s.peerWaits && Acceptable(s, pkt)
    ensures RecvTimingReq(s, pkt).Ok? && RecvTimingReq(s, pkt).value.0 == s' && Described(s', q) && AllClocked(s', q)
  {
    Open(s, pipes);
    RequestCases(s, pipes, pkt);
    var k := SocketOf(s, pkt);
    s' := RecvTimingReq(s, pkt).value.0;
    if At(s.helper.request, k).Some? {
      RefuseStep(s, pipes, k);
      q := pipes;
      Close(s', q);
    } else {
      var p := BeginFree(s, pipes, pkt, k, s');
      BeginClocked(s, pipes, pkt, k, s', p);
      q := pipes[k := p];
    }
  }

  lemma {:induction false} RecvAllClocked(s: PortState, pipes: seq<Pipe>, script: seq<Packet>) returns (q: seq<Pipe>, s': PortState)
    requires Described(s, pipes) && AllClocked(s, pipes) && ScriptOk(s, script)
    ensures RecvAll(s, script) == Ok(s') && Described(s', q) && AllClocked(s', q)
    decreases |script|
  {
    q, s' := pipes, s;
    if script != [] && !s.peerWaits {
      q, s' := RequestClocked(s, pipes, script[0]);
      q, s' := RecvAllClocked(s', q, script[1..]);
    }
  }

  /** pec on END_REQ. */
  lemma EndReqClocked(s: PortState, pipes: seq<Pipe>, k: nat, accept: bool, script: seq<Packet>) returns (q: seq<Pipe>, s': PortState)
    requires Described(s, pipes) && AllClocked(s, pipes) && k < |s.lanes| && ScriptOk(Freed(s, k), script)
    requires pipes[k].head.Serving? && pipes[k].head.endReqAt.Some?
    ensures |s.lanes[k].events| == 1
    ensures Service(s, k, 0, accept, script) == Ok(s') && Described(s', q) && AllClocked(s', q)
  {
    Open(s, pipes);
    EndReqCase(s, pipes, k, accept, script);
    FreedStep(s, pipes, k);
    OneClock(s, pipes, k);
    QuietLogged(s.lanes[k].log, s.lanes[k].log, pipes[k], s.now, 0);
    q, s' := pipes[k := FreedPipe(pipes[k])], Freed(s, k);
    Close(s', q);
    Wrap(s'.lanes[k], FreedPipe(pipes[k]), s.now);
    OneClocked(s, pipes, s', k, FreedPipe(pipes[k]));
    if Flag(s.helper.retry, k) {
      q, s' := RecvAllClocked(s', q, script);
    }
  }

  lemma FinishStamp(s: PortState, k: nat, h: Handle)
    requires Finish(s, k, h).Ok? && k < |s.lanes| && |s.lanes[k].log.due| == |s.lanes[k].log.wire|
    ensures var s' := Finish(s, k, h).value;
            Moves(s, s', k) && Follows(s.lanes[k].log, s'.lanes[k].log, EndResp, s.now)
  {
  }

  /** END_RESP, from the same history and with the pipe the history is clocked by. */
  lemma FinishClocked(s: PortState, pipes: seq<Pipe>, s1: PortState, s': PortState, k: nat, h: Handle, q: Pipe)
    requires AllClocked(s, pipes) && k < |s.lanes| == |s1.lanes| && s1.now == s.now
    requires s1.lanes == s.lanes[k := s1.lanes[k]] && s1.lanes[k].log == s.lanes[k].log
    requires Finish(s1, k, h) == Ok(s')
    requires LogClocked(s.lanes[k].log, q, s.now)
    requires (q.head.Answering? && q.head.at == s.now) || q.head.Refused?
    ensures AllClocked(s', pipes[k := Ended(q, s.now)])
  {
    FinishStamp(s1, k, h);
    EndLogged(s.lanes[k].log, s'.lanes[k].log, q, s.now);
    Wrap(s'.lanes[k], Ended(q, s.now), s.now);
    OneClocked(s, pipes, s', k, Ended(q, s.now));
  }

  /** pec on BEGIN_RESP. */
  lemma BeginRespClocked(s: PortState, pipes: seq<Pipe>, k: nat, accept: bool, script: seq<Packet>) returns (q: seq<Pipe>, s': PortState)
    requires Described(s, pipes) && AllClocked(s, pipes) && CaughtUp(s) && k < |s.lanes|
    requires pipes[k].head.Answering? && pipes[k].head.at == s.now
    ensures |s.lanes[k].events| == 1
    ensures Service(s, k, 0, accept, script) == Ok(s') && Described(s', q) && AllClocked(s', q)
  {
    Open(s, pipes);
    var converted := Converted(pipes[k]);
    var h := pipes[k].head.t.h;
    OneClock(s, pipes, k);
    QuietLogged(s.lanes[k].log, s.lanes[k].log, pipes[k], s.now, 0);
    BeginRespCase(s, pipes, k, accept, script);
    var s1 := Converting(s, k, h, pipes[k].head.t.pkt.Answered());
    if pipes[k].head.t.pkt.Answered().isResponse && !accept {
      s' := RefusedByPeer(s, pipes, k, accept, script);
      q := pipes[k := Waiting(converted)];
      QuietLogged(s.lanes[k].log, s.lanes[k].log, converted, s.now, 0);
      Wrap(s'.lanes[k], Waiting(converted), s.now);
      OneClocked(s, pipes, s', k, Waiting(converted));
    } else {
      s' := AcceptedByPeer(s, pipes, k, accept, script);
      q := pipes[k := Ended(converted, s.now)];
      FinishClocked(s, pipes, s1, s', k, h, converted);
    }
    Close(s', q);
  }

  lemma EventClocked(s: PortState, pipes: seq<Pipe>, k: nat, i: nat, accept: bool, script: seq<Packet>) returns (q: seq<Pipe>, s': PortState)
    requires Described(s, pipes) && AllClocked(s, pipes) && Enabled(s, Event(k, i, accept, script))
    ensures Next(s, Event(k, i, accept, script)) == Ok(s') && Described(s', q) && AllClocked(s', q)
  {
    Open(s, pipes);
    EventPhase(s, k, i, pipes[k]);
    if s.lanes[k].events[i].phase == EndReq {
      q, s' := EndReqClocked(s, pipes, k, accept, script);
    } else {
      AnsweringLane(s, k, pipes[k]);
      q, s' := BeginRespClocked(s, pipes, k, accept, script);
    }
  }

  /** A round of recvRespRetry. */
  lemma ResendClocked(s: PortState, pipes: seq<Pipe>, k: nat) returns (q: seq<Pipe>, s1: PortState)
    requires Described(s, pipes) && AllClocked(s, pipes) && k < s.helper.num && At(s.helper.response, k).Some?
    ensures Resend(s, k, true) == Ok(s1) && Described(s1, q) && AllClocked(s1, q) && s1.helper == Unblocked(s.helper, k)
  {
    Open(s, pipes);
    var p := ResendStep(s, pipes, k, true);
    RefusedLane(s, k, pipes[k]);
    ResendCase(s, k, true, pipes[k].head.t.h);
    q, s1 := pipes[k := p], Resend(s, k, true).value;
    OneClock(s, pipes, k);
    FinishAccepts(Cleared(s, k), k, pipes[k].head.t.h);
    FinishClocked(s, pipes, Cleared(s, k), s1, k, pipes[k].head.t.h, pipes[k]);
    Close(s1, q);
  }

  lemma {:induction false} ResendAllClocked(s: PortState, pipes: seq<Pipe>, sockets: seq<nat>, refused: set<nat>)
    returns (q: seq<Pipe>, s': PortState)
    requires Described(s, pipes) && AllClocked(s, pipes) && Clears(s.helper, sockets)
    requires forall i :: 0 <= i < |sockets| ==> sockets[i] !in refused
    ensures ResendAll(s, sockets, refused) == Ok(s') && Described(s', q) && AllClocked(s', q)
    decreases |sockets|
  {
    q, s' := pipes, s;
    if sockets != [] {
      Open(s, pipes);
      NotSpare(s, sockets[0]);
      q, s' := ResendClocked(s, pipes, sockets[0]);
      q, s' := ResendAllClocked(s', q, sockets[1..], refused);
    }
  }

  lemma RetryClocked(s: PortState, pipes: seq<Pipe>, refused: set<nat>) returns (q: seq<Pipe>, s': PortState)
    requires Described(s, pipes) && AllClocked(s, pipes) && Enabled(s, Retry(refused))
    ensures Next(s, Retry(refused)) == Ok(s') && Described(s', q) && AllClocked(s', q)
  {
    Open(s, pipes);
    forall i | 0 <= i < |BlockedFrom(s.helper, 0)|
      ensures BlockedFrom(s.helper, 0)[i] !in refused
    {
      BlockedFromBlocked(s.helper, 0, BlockedFrom(s.helper, 0)[i]);
    }
    BlockedFromClears(s.helper, 0);
    q, s' := ResendAllClocked(s, pipes, BlockedFrom(s.helper, 0), refused);
  }

  lemma TickClocked(s: PortState, pipes: seq<Pipe>, to: Time)
    requires AllClocked(s, pipes) && s.now <= to
    ensures AllClocked(s.(now := to), pipes)
  {
    forall k | 0 <= k < |s.lanes|
      ensures LaneClocked(s.lanes[k], pipes[k], to)
    {
      OneClock(s, pipes, k);
      LaterClock(ClockOf(s.lanes[k].log.wire, s.lanes[k].log.due), pipes[k], s.now, to, |s.lanes[k].log.ended|);
      Wrap(s.lanes[k], pipes[k], to);
    }
  }

  lemma StepClocked(s: PortState, pipes: seq<Pipe>, step: Step) returns (q: seq<Pipe>, s': PortState)
    requires Described(s, pipes) && AllClocked(s, pipes) && Enabled(s, step)
    ensures Next(s, step) == Ok(s') && Described(s', q) && AllClocked(s', q)
  {
    match step
    case Request(pkt) => q, s' := RequestClocked(s, pipes, pkt);
    case Retry(refused) => q, s' := RetryClocked(s, pipes, refused);
    case Peq(k, e) => q, s' := PeqClocked(s, pipes, k, e);
    case Done(k, latency) => q, s' := DoneClocked(s, pipes, k, latency);
    case Memory(k) => q, s' := MemoryClocked(s, pipes, k);
    case Event(k, i, accept, script) => q, s' := EventClocked(s, pipes, k, i, accept, script);
    case CatchUp =>
      Open(s, pipes);
      CaughtStep(s, pipes);
      q, s' := pipes, Caught(s);
      Close(s', q);
    case Tick(to) =>
      Open(s, pipes);
      TickStep(s, pipes, to);
      TickClocked(s, pipes, to);
      q, s' := pipes, s.(now := to);
      Close(s', q);
  }

  // ---------- the delays of the router ----------

  /** The router and the events of the lane are the ones of the pipe. */
  predicate Fits(l: Lane, q: Pipe) {
    l.router == q.Router(l.router.range) && l.events == q.Events()
  }

  /** END_REQ is raised 10 ns ahead and target-done 25 ns ahead for the payload that the router takes, if it takes one. */
  predicate TakesAfter(l: Lane, l': Lane, taken: Option<Handle>, now: Time) {
    if taken.None? then l'.events == l.events && l'.router.targetDone == l.router.targetDone
    else
      && l'.router.inProgress == taken && l'.router.targetDone == Some(now + 25_000)
      && l'.events == [PayloadEvent(taken.value, EndReq, now + 10_000)]
  }

  lemma BeginReqDelays(l: Lane, q: Pipe, l': Lane, p: Pipe, now: Time, h: Handle)
    requires Fits(l, q) && Fits(l', p) && q.tail.Offered? && q.tail.t.h == h && p == Began(q, now)
    ensures TakesAfter(l, l', if l.router.inProgress.None? then Some(h) else None, now)
  {
  }

  lemma EndRespDelays(l: Lane, q: Pipe, l': Lane, p: Pipe, now: Time)
    requires Fits(l, q) && Fits(l', p) && q.head.Closing? && p == Closed(q, now)
    ensures TakesAfter(l, l', l.router.endReqPending, now)
  {
  }

  lemma LaneFits(s: PortState, k: nat, q: Pipe)
    requires LaneAt(s, k, q)
    ensures Fits(s.lanes[k], q)
  {
  }

  /** peq_cb: the router takes the transaction of BEGIN_REQ if it is idle, and on END_RESP the one it owes END_REQ. */
  lemma TakeDelays(s: PortState, pipes: seq<Pipe>, k: nat, e: PeqEntry) returns (s': PortState, taken: Option<Handle>)
    requires Refines(s, pipes) && Enabled(s, Peq(k, e))
    ensures Next(s, Peq(k, e)) == Ok(s') && |s'.lanes| == |s.lanes|
    ensures e.phase == EndResp ==> taken == s.lanes[k].router.endReqPending
    ensures e.phase != EndResp ==> taken == if s.lanes[k].router.inProgress.None? then Some(e.h) else None
    ensures TakesAfter(s.lanes[k], s'.lanes[k], taken, s.now)
  {
    Close(s, pipes);
    var p;
    p, s' := PeqFacts(s, pipes, k, e);
    Open(s', pipes[k := p]);
    LaneFits(s, k, pipes[k]);
    LaneFits(s', k, pipes[k := p][k]);
    if e.phase == BeginReq {
      taken := if s.lanes[k].router.inProgress.None? then Some(e.h) else None;
      BeginReqDelays(s.lanes[k], pipes[k], s'.lanes[k], p, s.now, e.h);
    } else {
      taken := s.lanes[k].router.endReqPending;
      EndRespDelays(s.lanes[k], pipes[k], s'.lanes[k], p, s.now);
    }
  }

  /** The memory returns: BEGIN_RESP is raised 10 ns ahead for the transaction in progress. */
  lemma AnswerDelay(s: PortState, pipes: seq<Pipe>, k: nat) returns (s': PortState)
    requires Refines(s, pipes) && Enabled(s, Memory(k))
    ensures Next(s, Memory(k)) == Ok(s') && |s'.lanes| == |s.lanes|
    ensures var h := s.lanes[k].router.inProgress;
            h.Some? && s'.lanes[k].events == [PayloadEvent(h.value, BeginResp, s.now + 10_000)]
  {
    var p := MemoryDoneStep(s, pipes, k);
    s' := MemoryDone(s, k).value;
    LaneFits(s, k, pipes[k]);
    LaneFits(s', k, pipes[k := p][k]);
  }

  // ---------- runs ----------

  lemma {:induction false} RunClocked(s: PortState, pipes: seq<Pipe>, steps: seq<Step>) returns (q: seq<Pipe>, s': PortState)
    requires Described(s, pipes) && AllClocked(s, pipes) && Schedule(s, steps)
    ensures Run(s, steps) == Ok(s') && Described(s', q) && AllClocked(s', q)
    decreases |steps|
  {
    q, s' := pipes, s;
    if steps != [] {
      q, s' := StepClocked(s, pipes, steps[0]);
      q, s' := RunClocked(s', q, steps[1..]);
    }
  }

  lemma BoundClocked(sockets: Routing.SocketMap, ranges: seq<MemRange>, now: Time)
    ensures AllClocked(Bound(sockets, ranges, now), seq(|ranges|, _ => EMPTY_PIPE))
  {
    var s := Bound(sockets, ranges, now);
    forall k | 0 <= k < |s.lanes|
      ensures LaneClocked(s.lanes[k], EMPTY_PIPE, now)
    {
      Wrap(s.lanes[k], EMPTY_PIPE, now);
    }
  }

  /** The ticks of a socket, in a state of the port. */
  function SocketClock(s: PortState, k: nat): (r: Clock)
    requires k < |s.lanes|
  {
    ClockOf(s.lanes[k].log.wire, s.lanes[k].log.due)
  }

  /** How long the i-th transaction of a socket takes: after the target has taken it, 10 ns to END_REQ and at least 35 ns to BEGIN_RESP. */
  predicate Delays(c: Clock, i: nat) {
    && (i < |c.endReq| ==> i < |c.beginReq| && i <= |c.endResp| && c.endReq[i] == TakenAt(c, i) + 10_000)
    && (i < |c.beginResp| ==> i < |c.endReq| && i <= |c.endResp| && c.beginResp[i] >= TakenAt(c, i) + 35_000)
    && (i < |c.endResp| ==> i < |c.beginResp| && c.endResp[i] >= c.beginResp[i])
  }

  lemma ClockedDelays(c: Clock, p: Pipe, now: Time, n: nat, i: nat)
    requires Clocked(c, p, now, n)
    ensures Delays(c, i)
  {
  }

  /**
   * Over every run, on every socket and for every transaction: END_REQ takes effect
   * exactly 10 ns after the later of its BEGIN_REQ and the END_RESP of the
   * transaction before, BEGIN_RESP no earlier than 35 ns after that, and END_RESP not
   * before it.
   */
  lemma TransactionTimes(sockets: Routing.SocketMap, ranges: seq<MemRange>, start: Time, steps: seq<Step>, k: nat, i: nat)
    requires ranges != [] && Schedule(Bound(sockets, ranges, start), steps)
    ensures var r := Run(Bound(sockets, ranges, start), steps);
            r.Ok? && (k < |r.value.lanes| ==> Delays(SocketClock(r.value, k), i))
  {
    BoundRefines(sockets, ranges, start);
    BoundClocked(sockets, ranges, start);
    Close(Bound(sockets, ranges, start), seq(|ranges|, _ => EMPTY_PIPE));
    var q, s := RunClocked(Bound(sockets, ranges, start), seq(|ranges|, _ => EMPTY_PIPE), steps);
    if k < |s.lanes| {
      OneClock(s, q, k);
      ClockedDelays(SocketClock(s, k), q[k], s.now, |s.lanes[k].log.ended|, i);
    }
  }
}
