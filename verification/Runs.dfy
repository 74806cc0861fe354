/**
 * Whole runs of the handshake: gem5, the port, its helper, the payload pool, the
 * routers and their memories, in any interleaving that respects time.
 */
module Runs {
  import opened Common
  import opened Kernel
  import opened BaseProtocol
  import opened Payloads
  import opened BlockingPackets
  import opened TxnRouters
  import opened SlavePorts
  import opened Pipes
  import opened Simulation
  import opened PortSteps
  import Routing

  datatype Step =
    | Request(pkt: Packet)                                        // gem5 calls recvTimingReq
    | Retry(refused: set<nat>)                                    // gem5 calls recvRespRetry, refusing some sockets again
    | Peq(k: nat, e: PeqEntry)                                    // peq_cb of router k
    | Done(k: nat, latency: Time)                                 // target_done_event of router k
    | Memory(k: nat)                                              // the memory of router k returns
    | Event(k: nat, i: nat, accept: bool, script: seq<Packet>)    // gem5 services a PayloadEvent
    | CatchUp                                                     // gem5 catches up with SystemC time
    | Tick(to: Time)                                              // time moves on

  predicate DueFrom(l: Lane, t: Time) {
    && (forall e :: e in l.router.peq ==> t <= e.at)
    && (forall i :: 0 <= i < |l.events| ==> t <= l.events[i].at)
    && (l.router.targetDone.Some? ==> t <= l.router.targetDone.value)
    && (l.router.thread.InMemory? ==> t <= l.router.thread.until)
  }

  /**
   * When a step can happen. gem5 acts when it has caught up with SystemC time; it
   * sends nothing while it has been refused, only acceptable packets, and takes
   * every response it has asked for; time does not pass anything that is due.
   */
  predicate Enabled(s: PortState, step: Step) {
    match step
    case Request(pkt) => !s.peerWaits && Acceptable(s, pkt)
    case Retry(refused) => CaughtUp(s) && forall k :: k in refused ==> At(s.helper.response, k).None?
    case Peq(k, e) => k < |s.lanes| && e in s.lanes[k].router.peq && e.at == s.now
    case Done(k, _) => k < |s.lanes| && s.lanes[k].router.targetDone == Some(s.now)
    case Memory(k) => k < |s.lanes| && s.lanes[k].router.thread == InMemory(s.now)
    case Event(k, i, _, script) =>
      && CaughtUp(s) && k < |s.lanes| && i < |s.lanes[k].events| && s.lanes[k].events[i].at == s.now
      && (s.lanes[k].events[i].phase == EndReq ==> ScriptOk(Freed(s, k), script))
    case CatchUp => true
    case Tick(to) => s.now < to && forall k :: 0 <= k < |s.lanes| ==> DueFrom(s.lanes[k], to)
  }

  function Next(s: PortState, step: Step): (r: Outcome<PortState>)
    requires Enabled(s, step)
  {
    match step
    case Request(pkt) => var (s', _) :- RecvTimingReq(s, pkt); Ok(s')
    case Retry(refused) => RecvRespRetry(s, refused)
    case Peq(k, e) => RouterCallback(s, k, e)
    case Done(k, latency) => TargetDone(s, k, latency)
    case Memory(k) => MemoryDone(s, k)
    case Event(k, i, accept, script) => Service(s, k, i, accept, script)
    case CatchUp => Ok(Caught(s))
    case Tick(to) => Ok(s.(now := to))
  }

  function Caught(s: PortState): (r: PortState) {
    s.(curTick := s.now)
  }

  // ---------- potential ----------

  function TotalAccepted(lanes: seq<Lane>): (r: nat) {
    if lanes == [] then 0 else TotalAccepted(lanes[..|lanes| - 1]) + |lanes[|lanes| - 1].log.accepted|
  }

  function RankSum(pipes: seq<Pipe>): (r: nat) {
    if pipes == [] then 0 else RankSum(pipes[..|pipes| - 1]) + Rank(pipes[|pipes| - 1])
  }

  /** An accepted request has eight phases before it; the potential counts the phases that are over. */
  function Potential(s: PortState, pipes: seq<Pipe>): (r: int) {
    8 * TotalAccepted(s.lanes) - RankSum(pipes)
  }

  lemma {:induction false} TotalAcceptedUpdate(lanes: seq<Lane>, k: nat, l: Lane)
    requires k < |lanes|
    ensures TotalAccepted(lanes[k := l]) + |lanes[k].log.accepted| == TotalAccepted(lanes) + |l.log.accepted|
  {
    var n := |lanes| - 1;
    if k == n {
      assert lanes[k := l][..n] == lanes[..n];
    } else {
      assert lanes[k := l][..n] == lanes[..n][k := l];
      TotalAcceptedUpdate(lanes[..n], k, l);
    }
  }

  lemma {:induction false} RankSumUpdate(pipes: seq<Pipe>, k: nat, p: Pipe)
    requires k < |pipes|
    ensures RankSum(pipes[k := p]) + Rank(pipes[k]) == RankSum(pipes) + Rank(p)
  {
    var n := |pipes| - 1;
    if k == n {
      assert pipes[k := p][..n] == pipes[..n];
    } else {
      assert pipes[k := p][..n] == pipes[..n][k := p];
      RankSumUpdate(pipes[..n], k, p);
    }
  }

  lemma PotentialUpdate(s: PortState, pipes: seq<Pipe>, s': PortState, k: nat, p: Pipe)
    requires k < |s.lanes| == |pipes| && |s'.lanes| == |s.lanes| && s'.lanes == s.lanes[k := s'.lanes[k]]
    ensures Potential(s', pipes[k := p]) - Potential(s, pipes)
         == 8 * (|s'.lanes[k].log.accepted| - |s.lanes[k].log.accepted|) - (Rank(p) - Rank(pipes[k]))
  {
    TotalAcceptedUpdate(s.lanes, k, s'.lanes[k]);
    RankSumUpdate(pipes, k, p);
  }

  // ---------- every step ----------

  lemma TickStep(s: PortState, pipes: seq<Pipe>, to: Time)
    requires Refines(s, pipes) && Enabled(s, Tick(to))
    ensures Refines(s.(now := to), pipes)
  {
    var s' := s.(now := to);
    forall k | 0 <= k < |pipes|
      ensures LaneAt(s', k, pipes[k])
    {
      TickLane(s, k, pipes[k], to);
    }
  }

  lemma TickLane(s: PortState, k: nat, q: Pipe, to: Time)
    requires LaneAt(s, k, q) && s.now < to && DueFrom(s.lanes[k], to)
    ensures LaneAt(s.(now := to), k, q)
  {
    assert q.tail.Offered? ==> PeqEntry(q.tail.t.h, BeginReq, q.tail.at) in q.Peq();
    assert q.head.Closing? ==> PeqEntry(q.head.h, EndResp, q.head.at) in q.Peq();
    assert q.Events() != [] ==> s.lanes[k].events[0] == q.Events()[0];
  }

  lemma CaughtStep(s: PortState, pipes: seq<Pipe>)
    requires Refines(s, pipes)
    ensures Refines(Caught(s), pipes)
  {
    SamePorts(s, Caught(s), pipes);
  }

  /** A step of one router accepts nothing. */
  predicate AcceptsNothing(s: PortState, s': PortState, k: nat) {
    && k < |s.lanes| == |s'.lanes| && s'.lanes == s.lanes[k := s'.lanes[k]]
    && s'.lanes[k].log.accepted == s.lanes[k].log.accepted
  }

  lemma RoutersAcceptNothing(s: PortState, k: nat, e: PeqEntry, latency: Time)
    requires k < |s.lanes|
    ensures RouterCallback(s, k, e).Ok? ==> AcceptsNothing(s, RouterCallback(s, k, e).value, k)
    ensures TargetDone(s, k, latency).Ok? ==> AcceptsNothing(s, TargetDone(s, k, latency).value, k)
    ensures MemoryDone(s, k).Ok? ==> AcceptsNothing(s, MemoryDone(s, k).value, k)
  {
  }

  lemma RankGain(s: PortState, pipes: seq<Pipe>, s': PortState, k: nat, p: Pipe)
    requires AcceptsNothing(s, s', k) && |pipes| == |s.lanes| && Rank(p) < Rank(pipes[k])
    ensures Potential(s', pipes[k := p]) > Potential(s, pipes)
  {
    PotentialUpdate(s, pipes, s', k, p);
  }

  lemma PeqPotential(s: PortState, pipes: seq<Pipe>, k: nat, e: PeqEntry) returns (q: seq<Pipe>, s': PortState)
    requires Refines(s, pipes) && Enabled(s, Peq(k, e))
    ensures Next(s, Peq(k, e)) == Ok(s') && Refines(s', q) && Potential(s', q) > Potential(s, pipes)
  {
    var p := PeqStep(s, pipes, k, e);
    q, s' := pipes[k := p], RouterCallback(s, k, e).value;
    RoutersAcceptNothing(s, k, e, 0);
    RankGain(s, pipes, s', k, p);
  }

  lemma DonePotential(s: PortState, pipes: seq<Pipe>, k: nat, latency: Time) returns (q: seq<Pipe>, s': PortState)
    requires Refines(s, pipes) && Enabled(s, Done(k, latency))
    ensures Next(s, Done(k, latency)) == Ok(s') && Refines(s', q) && Potential(s', q) > Potential(s, pipes)
  {
    var p := TargetDoneStep(s, pipes, k, latency);
    q, s' := pipes[k := p], TargetDone(s, k, latency).value;
    RoutersAcceptNothing(s, k, PeqEntry(0, EndReq, 0), latency);
    RankGain(s, pipes, s', k, p);
  }

  lemma MemoryPotential(s: PortState, pipes: seq<Pipe>, k: nat) returns (q: seq<Pipe>, s': PortState)
    requires Refines(s, pipes) && Enabled(s, Memory(k))
    ensures Next(s, Memory(k)) == Ok(s') && Refines(s', q) && Potential(s', q) > Potential(s, pipes)
  {
    var p := MemoryDoneStep(s, pipes, k);
    q, s' := pipes[k := p], MemoryDone(s, k).value;
    RoutersAcceptNothing(s, k, PeqEntry(0, EndReq, 0), 0);
    RankGain(s, pipes, s', k, p);
  }

  /** recvTimingReq leaves the potential alone: what it accepts has all its phases before it. */
  lemma RequestPotential(s: PortState, pipes: seq<Pipe>, pkt: Packet) returns (q: seq<Pipe>, s': PortState)
    requires Refines(s, pipes) && !s.peerWaits && Acceptable(s, pkt)
    ensures RecvTimingReq(s, pkt).Ok? && RecvTimingReq(s, pkt).value.0 == s'
    ensures Refines(s', q) && Potential(s', q) == Potential(s, pipes)
  {
    RequestCases(s, pipes, pkt);
    var k := SocketOf(s, pkt);
    s' := RecvTimingReq(s, pkt).value.0;
    if At(s.helper.request, k).Some? {
      RefuseStep(s, pipes, k);
      q := pipes;
    } else {
      var p := BeginStep(s, pipes, pkt, k, s');
      q := pipes[k := p];
      BeginPotential(s, pipes, pkt, k, s', p);
    }
  }

  lemma BeginPotential(s: PortState, pipes: seq<Pipe>, pkt: Packet, k: nat, s': PortState, p: Pipe)
    requires Refines(s, pipes) && k < |s.lanes| && At(s.helper.request, k).None?
    requires Begin(s, pkt, k) == Ok(s') && p.tail.Offered? && p.head == pipes[k].head
    ensures Potential(s', pipes[k := p]) == Potential(s, pipes)
  {
    FreeTail(s, k, pipes[k]);
    BeginAccepts(s, pkt, k);
    PotentialUpdate(s, pipes, s', k, p);
  }

  lemma FreeTail(s: PortState, k: nat, q: Pipe)
    requires LaneAt(s, k, q) && At(s.helper.request, k).None?
    ensures q.tail.Free?
  {
  }

  lemma BeginAccepts(s: PortState, pkt: Packet, k: nat)
    requires Begin(s, pkt, k).Ok?
    ensures var s' := Begin(s, pkt, k).value;
            && k < |s.lanes| == |s'.lanes| && s'.lanes == s.lanes[k := s'.lanes[k]]
            && s'.lanes[k].log.accepted == s.lanes[k].log.accepted + [pkt.Stub()]
  {
  }

  lemma {:induction false} RecvAllPotential(s: PortState, pipes: seq<Pipe>, script: seq<Packet>) returns (q: seq<Pipe>, s': PortState)
    requires Refines(s, pipes) && ScriptOk(s, script)
    ensures RecvAll(s, script) == Ok(s') && Refines(s', q) && Potential(s', q) == Potential(s, pipes)
    decreases |script|
  {
    q, s' := pipes, s;
    if script != [] && !s.peerWaits {
      q, s' := RequestPotential(s, pipes, script[0]);
      q, s' := RecvAllPotential(s', q, script[1..]);
    }
  }

  lemma FreedPotential(s: PortState, pipes: seq<Pipe>, k: nat)
    requires Refines(s, pipes) && k < |s.lanes|
    requires pipes[k].head.Serving? && pipes[k].head.endReqAt.Some?
    ensures Potential(Freed(s, k), pipes[k := FreedPipe(pipes[k])]) > Potential(s, pipes)
  {
    FreedFacts(s, k);
    RankGain(s, pipes, Freed(s, k), k, FreedPipe(pipes[k]));
  }

  lemma EndReqPotential(s: PortState, pipes: seq<Pipe>, k: nat, accept: bool, script: seq<Packet>) returns (q: seq<Pipe>, s': PortState)
    requires Refines(s, pipes) && k < |s.lanes| && ScriptOk(Freed(s, k), script)
    requires pipes[k].head.Serving? && pipes[k].head.endReqAt.Some?
    ensures |s.lanes[k].events| == 1
    ensures Service(s, k, 0, accept, script) == Ok(s') && Refines(s', q) && Potential(s', q) > Potential(s, pipes)
  {
    EndReqCase(s, pipes, k, accept, script);
    FreedStep(s, pipes, k);
    FreedPotential(s, pipes, k);
    q, s' := pipes[k := FreedPipe(pipes[k])], Freed(s, k);
    if Flag(s.helper.retry, k) {
      q, s' := RecvAllPotential(s', q, script);
    }
  }

  lemma RespondAccepts(s: PortState, pipes: seq<Pipe>, k: nat, accept: bool, script: seq<Packet>)
    requires CaughtUp(s)
    requires Refines(s, pipes) && k < |s.lanes| && pipes[k].head.Answering? && |s.lanes[k].events| == 1
    requires Service(s, k, 0, accept, script).Ok?
    ensures AcceptsNothing(s, Service(s, k, 0, accept, script).value, k)
  {
    BeginRespCase(s, pipes, k, accept, script);
    var h, pkt := pipes[k].head.t.h, pipes[k].head.t.pkt.Answered();
    FinishAccepts(Converting(s, k, h, pkt), k, h);
  }

  lemma FinishAccepts(s: PortState, k: nat, h: Handle)
    ensures Finish(s, k, h).Ok? ==>
              var s' := Finish(s, k, h).value;
              && AcceptsNothing(s, s', k)
              && s' == s.(lanes := s'.lanes, pool := s'.pool, ends := s.ends + [k])
  {
  }

  lemma RespondPotential(s: PortState, pipes: seq<Pipe>, k: nat, accept: bool, script: seq<Packet>) returns (q: seq<Pipe>, s': PortState)
    requires CaughtUp(s)
    requires Refines(s, pipes) && k < |s.lanes| && pipes[k].head.Answering?
    ensures |s.lanes[k].events| == 1
    ensures Service(s, k, 0, accept, script) == Ok(s') && Refines(s', q) && Potential(s', q) > Potential(s, pipes)
  {
    var p;
    p, s' := BeginRespStep(s, pipes, k, accept, script);
    q := pipes[k := p];
    RespondAccepts(s, pipes, k, accept, script);
    RankGain(s, pipes, s', k, p);
  }

  lemma EventPhase(s: PortState, k: nat, i: nat, q: Pipe)
    requires LaneAt(s, k, q) && i < |s.lanes[k].events|
    ensures i == 0
    ensures s.lanes[k].events[i].phase == EndReq ==> q.head.Serving? && q.head.endReqAt.Some?
    ensures s.lanes[k].events[i].phase != EndReq ==> q.head.Answering?
  {
  }

  lemma EventPotential(s: PortState, pipes: seq<Pipe>, k: nat, i: nat, accept: bool, script: seq<Packet>) returns (q: seq<Pipe>, s': PortState)
    requires Refines(s, pipes) && Enabled(s, Event(k, i, accept, script))
    ensures Next(s, Event(k, i, accept, script)) == Ok(s') && Refines(s', q) && Potential(s', q) > Potential(s, pipes)
  {
    EventPhase(s, k, i, pipes[k]);
    if s.lanes[k].events[i].phase == EndReq {
      q, s' := EndReqPotential(s, pipes, k, accept, script);
    } else {
      q, s' := RespondPotential(s, pipes, k, accept, script);
    }
  }

  // ---------- recvRespRetry ----------

  lemma EndedRank(q: Pipe, now: Time)
    requires q.head.Refused?
    ensures Rank(Ended(q, now)) < Rank(q)
  {
  }

  lemma ResendPotential(s: PortState, pipes: seq<Pipe>, k: nat) returns (q: seq<Pipe>, s': PortState)
    requires Refines(s, pipes) && k < s.helper.num && At(s.helper.response, k).Some?
    ensures Resend(s, k, true) == Ok(s') && Refines(s', q) && Potential(s', q) > Potential(s, pipes)
    ensures s'.helper == Unblocked(s.helper, k) && s'.ends == s.ends + [k] && s'.now == s.now
    ensures AcceptsNothing(s, s', k)
  {
    var p := ResendStep(s, pipes, k, true);
    q, s' := pipes[k := p], Resend(s, k, true).value;
    EndedRank(pipes[k], s.now);
    RefusedLane(s, k, pipes[k]);
    ResendCase(s, k, true, pipes[k].head.t.h);
    FinishAccepts(Cleared(s, k), k, pipes[k].head.t.h);
    RankGain(s, pipes, s', k, p);
  }

  function Unblocked(h: HelperState, k: nat): (r: HelperState) {
    h.(response := h.response[k := None])
  }

  /** Clearing the response entries of these sockets one by one, each of them blocked, leaves none. */
  ghost predicate Clears(h: HelperState, sockets: seq<nat>)
    decreases |sockets|
  {
    if sockets == [] then NoneBlocked(h)
    else At(h.response, sockets[0]).Some? && Clears(Unblocked(h, sockets[0]), sockets[1..])
  }

  ghost predicate NoneBlocked(h: HelperState) {
    forall k: nat :: At(h.response, k).None?
  }

  lemma {:induction false} BlockedFromSame(h: HelperState, h': HelperState, k: nat)
    requires h'.num == h.num && forall j: nat :: k <= j ==> At(h'.response, j) == At(h.response, j)
    ensures BlockedFrom(h', k) == BlockedFrom(h, k)
    decreases h.num + 1 - k
  {
    if k <= h.num {
      BlockedFromSame(h, h', k + 1);
    }
  }

  lemma {:induction false} BlockedFromClears(h: HelperState, k: nat)
    requires forall j: nat :: j < k || j > h.num ==> At(h.response, j).None?
    ensures Clears(h, BlockedFrom(h, k))
    decreases h.num + 1 - k
  {
    if k <= h.num {
      var rest := BlockedFrom(h, k + 1);
      if At(h.response, k).Some? {
        var h' := Unblocked(h, k);
        forall j: nat
          ensures At(h'.response, j) == if j == k then None else At(h.response, j)
        {
        }
        assert Unblocked(h, ([k] + rest)[0]) == h';
        BlockedFromSame(h, h', k + 1);
        BlockedFromClears(h', k + 1);
        assert ([k] + rest)[1..] == rest;
      } else {
        BlockedFromClears(h, k + 1);
        assert BlockedFrom(h, k) == rest;
      }
    }
  }

  /** One round, for the first of the sockets. */
  lemma ResendOne(s: PortState, pipes: seq<Pipe>, sockets: seq<nat>, refused: set<nat>) returns (q: seq<Pipe>, s1: PortState)
    requires Refines(s, pipes) && sockets != [] && Clears(s.helper, sockets) && sockets[0] !in refused
    ensures ResendAll(s, sockets, refused) == ResendAll(s1, sockets[1..], refused)
    ensures Refines(s1, q) && Potential(s1, q) > Potential(s, pipes)
    ensures s1.ends == s.ends + [sockets[0]] && Clears(s1.helper, sockets[1..])
    ensures AcceptsNothing(s, s1, sockets[0])
  {
    NotSpare(s, sockets[0]);
    q, s1 := ResendPotential(s, pipes, sockets[0]);
  }

  /** Rounds of recvRespRetry with a peer that accepts. */
  lemma {:induction false} ResendAllPotential(s: PortState, pipes: seq<Pipe>, sockets: seq<nat>, refused: set<nat>)
    returns (q: seq<Pipe>, s': PortState)
    requires Refines(s, pipes) && Clears(s.helper, sockets)
    requires forall i :: 0 <= i < |sockets| ==> sockets[i] !in refused
    ensures ResendAll(s, sockets, refused) == Ok(s') && Refines(s', q)
    ensures Potential(s', q) >= Potential(s, pipes) + |sockets| && NoneBlocked(s'.helper)
    decreases |sockets|
  {
    if sockets == [] {
      q, s' := pipes, s;
    } else {
      q, s' := ResendOne(s, pipes, sockets, refused);
      q, s' := ResendAllPotential(s', q, sockets[1..], refused);
    }
  }

  lemma {:induction false} ResendAllOrder(s: PortState, pipes: seq<Pipe>, sockets: seq<nat>, refused: set<nat>, s': PortState)
    requires Refines(s, pipes) && Clears(s.helper, sockets)
    requires forall i :: 0 <= i < |sockets| ==> sockets[i] !in refused
    requires ResendAll(s, sockets, refused) == Ok(s')
    ensures s'.ends == s.ends + sockets
    decreases |sockets|
  {
    if sockets != [] {
      var q, s1 := ResendOne(s, pipes, sockets, refused);
      ResendAllOrder(s1, q, sockets[1..], refused, s');
      Rejoin(s.ends, sockets);
    }
  }

  lemma Rejoin(a: seq<nat>, b: seq<nat>)
    requires b != []
    ensures a + [b[0]] + b[1..] == a + b
  {
  }

  lemma NotSpare(s: PortState, k: nat)
    requires Configured(s) && At(s.helper.response, k).Some?
    ensures k < s.helper.num
  {
  }

  lemma {:induction false} BlockedFromBlocked(h: HelperState, k: nat, j: nat)
    requires j in BlockedFrom(h, k)
    ensures At(h.response, j).Some?
    decreases h.num + 1 - k
  {
    if !(k <= h.num && At(h.response, k).Some? && j == k) {
      BlockedFromBlocked(h, k + 1, j);
    }
  }

  /**
   * recvRespRetry: every response entry ends up null, and END_RESP has gone out
   * once for each blocked socket, in ascending order.
   */
  lemma RetryPotential(s: PortState, pipes: seq<Pipe>, refused: set<nat>) returns (q: seq<Pipe>, s': PortState)
    requires Refines(s, pipes) && Enabled(s, Retry(refused))
    ensures RecvRespRetry(s, refused) == Ok(s') && Refines(s', q)
    ensures Potential(s', q) >= Potential(s, pipes) + |BlockedFrom(s.helper, 0)|
    ensures s'.ends == s.ends + BlockedFrom(s.helper, 0) && NoneBlocked(s'.helper)
  {
    forall i | 0 <= i < |BlockedFrom(s.helper, 0)|
      ensures BlockedFrom(s.helper, 0)[i] !in refused
    {
      BlockedFromBlocked(s.helper, 0, BlockedFrom(s.helper, 0)[i]);
    }
    BlockedFromClears(s.helper, 0);
    q, s' := ResendAllPotential(s, pipes, BlockedFrom(s.helper, 0), refused);
    ResendAllOrder(s, pipes, BlockedFrom(s.helper, 0), refused, s');
  }

  lemma {:induction false} BlockedListed(h: HelperState, k: nat, j: nat)
    requires At(h.response, j).Some? && k <= j <= h.num
    ensures j in BlockedFrom(h, k)
    decreases h.num + 1 - k
  {
    if k < j {
      BlockedListed(h, k + 1, j);
    }
  }

  lemma RefusedAgain(s: PortState, pipes: seq<Pipe>, k: nat)
    requires Refines(s, pipes) && At(s.helper.response, k).Some?
    ensures Resend(s, k, false) == Fatal(ResponseRefused)
  {
    NotSpare(s, k);
    RefusedLane(s, k, pipes[k]);
    ResendCase(s, k, false, pipes[k].head.t.h);
  }

  lemma {:induction false} ResendAllExact(s: PortState, pipes: seq<Pipe>, sockets: seq<nat>, refused: set<nat>)
    requires Refines(s, pipes) && Clears(s.helper, sockets)
    ensures if exists k :: k in sockets && k in refused then ResendAll(s, sockets, refused) == Fatal(ResponseRefused)
            else ResendAll(s, sockets, refused).Ok?
    decreases |sockets|
  {
    if sockets != [] {
      assert forall k :: k in sockets <==> k == sockets[0] || k in sockets[1..];
      if sockets[0] in refused {
        RefusedAgain(s, pipes, sockets[0]);
      } else {
        var q, s1 := ResendOne(s, pipes, sockets, refused);
        ResendAllExact(s1, q, sockets[1..], refused);
      }
    }
  }

  /** recvRespRetry is fatal if and only if gem5 refuses one of the responses that are blocked once more. */
  lemma RetryExact(s: PortState, pipes: seq<Pipe>, refused: set<nat>)
    requires Refines(s, pipes) && CaughtUp(s)
    ensures if exists k: nat :: k in refused && At(s.helper.response, k).Some?
            then RecvRespRetry(s, refused) == Fatal(ResponseRefused)
            else RecvRespRetry(s, refused).Ok?
  {
    BlockedFromClears(s.helper, 0);
    ResendAllExact(s, pipes, BlockedFrom(s.helper, 0), refused);
    if k: nat :| k in refused && At(s.helper.response, k).Some? {
      NotSpare(s, k);
      BlockedListed(s.helper, 0, k);
    } else {
      forall k | k in BlockedFrom(s.helper, 0)
        ensures k !in refused
      {
        BlockedFromBlocked(s.helper, 0, k);
      }
    }
  }

  // ---------- the loop of recvRespRetry ----------

  /** What getBlockingResponse finds is the head of the sockets that are still blocked. */
  lemma {:induction false} NextBlocked(h: HelperState, k: nat)
    requires h.Valid()
    ensures FirstBlocked(h, k).None? <==> BlockedFrom(h, k) == []
    ensures FirstBlocked(h, k).Some? ==>
              var j := FirstBlocked(h, k).value;
              BlockedFrom(h, k)[0] == j && BlockedFrom(Unblocked(h, j), k) == BlockedFrom(h, k)[1..]
    decreases h.num + 1 - k
  {
    if k <= h.num {
      if h.response[k].Some? {
        BlockedFromSame(h, Unblocked(h, k), k + 1);
      } else {
        NextBlocked(h, k + 1);
      }
    }
  }

  /** Some pipes describe the state. */
  ghost predicate Reachable(s: PortState) {
    exists pipes :: Refines(s, pipes)
  }

  function FirstResponse(h: HelperState): (r: Option<Handle>)
    requires h.Valid()
  {
    var k := FirstBlocked(h, 0);
    if k.Some? then h.response[k.value] else None
  }

  /** The loop is in state s, has found that response, has left rounds before it, and is to end in s'. */
  ghost predicate Draining(s: PortState, response: Option<Handle>, refused: set<nat>, left: nat, s': PortState) {
    exists pipes ::
      && Refines(s, pipes) && s.helper.Valid() && response == FirstResponse(s.helper)
      && left == |BlockedFrom(s.helper, 0)| && ResendAll(s, BlockedFrom(s.helper, 0), refused) == Ok(s')
  }

  lemma DrainingStart(s: PortState, refused: set<nat>) returns (s': PortState)
    requires Reachable(s) && RecvRespRetry(s, refused).Ok?
    ensures CaughtUp(s) && s.helper.Valid() && RecvRespRetry(s, refused) == Ok(s')
    ensures Draining(s, FirstResponse(s.helper), refused, |BlockedFrom(s.helper, 0)|, s')
    ensures s'.ends == s.ends + BlockedFrom(s.helper, 0) && NoneBlocked(s'.helper)
  {
    var pipes :| Refines(s, pipes);
    RetryExact(s, pipes, refused);
    var q;
    q, s' := RetryPotential(s, pipes, refused);
  }

  lemma DrainingEnd(s: PortState, response: Option<Handle>, refused: set<nat>, left: nat, s': PortState)
    requires Draining(s, response, refused, left, s') && response.None?
    ensures s == s'
  {
    NextBlocked(s.helper, 0);
  }

  /** The round for the first blocked response is the first of the rounds for all of them. */
  lemma FirstRound(s: PortState, pipes: seq<Pipe>, h: Handle, refused: set<nat>, s': PortState) returns (k: nat, s1: PortState)
    requires Refines(s, pipes) && s.helper.Valid() && FirstResponse(s.helper) == Some(h)
    requires ResendAll(s, BlockedFrom(s.helper, 0), refused) == Ok(s')
    ensures At(s.helper.response, k) == Some(h)
    ensures k !in refused && Resend(s, k, true) == Ok(s1) && Reachable(s1) && s1.helper == Unblocked(s.helper, k)
    ensures |BlockedFrom(s1.helper, 0)| == |BlockedFrom(s.helper, 0)| - 1
    ensures ResendAll(s1, BlockedFrom(s1.helper, 0), refused) == Ok(s')
  {
    k := FirstBlocked(s.helper, 0).value;
    NextBlocked(s.helper, 0);
    NotSpare(s, k);
    if k in refused {
      RefusedAgain(s, pipes, k);
    }
    var q;
    q, s1 := ResendPotential(s, pipes, k);
  }

  lemma BlockedCore(s: PortState, pipes: seq<Pipe>, k: nat, h: Handle)
    requires Refines(s, pipes) && At(s.helper.response, k) == Some(h)
    ensures h < |s.pool.slots| && s.pool.slots[h].ext.Some? && s.pool.slots[h].ext.value.core == k
  {
    NotSpare(s, k);
    RefusedLane(s, k, pipes[k]);
  }

  lemma DrainingStep(s: PortState, h: Handle, refused: set<nat>, left: nat, s': PortState) returns (k: nat, s1: PortState)
    requires Draining(s, Some(h), refused, left, s')
    ensures At(s.helper.response, k) == Some(h)
    ensures h < |s.pool.slots| && s.pool.slots[h].ext.Some? && s.pool.slots[h].ext.value.core == k
    ensures k !in refused && Resend(s, k, true) == Ok(s1) && s1.helper.Valid()
    ensures left > 0 && Draining(s1, FirstResponse(s1.helper), refused, left - 1, s')
  {
    var pipes :| Refines(s, pipes);
    k, s1 := FirstRound(s, pipes, h, refused, s');
    BlockedCore(s, pipes, k, h);
  }

  // ---------- runs ----------

  /** A step that the code takes by itself, as opposed to calls from gem5 and the passing of time. */
  predicate Internal(step: Step) {
    step.Peq? || step.Done? || step.Memory? || step.Event?
  }

  lemma InternalStep(s: PortState, pipes: seq<Pipe>, step: Step) returns (q: seq<Pipe>, s': PortState)
    requires Refines(s, pipes) && Enabled(s, step) && Internal(step)
    ensures Next(s, step) == Ok(s') && Refines(s', q) && Potential(s', q) > Potential(s, pipes)
  {
    match step
    case Peq(k, e) => q, s' := PeqPotential(s, pipes, k, e);
    case Done(k, latency) => q, s' := DonePotential(s, pipes, k, latency);
    case Memory(k) => q, s' := MemoryPotential(s, pipes, k);
    case Event(k, i, accept, script) => q, s' := EventPotential(s, pipes, k, i, accept, script);
  }

  /** No enabled step stops the simulation, and every internal step gets a phase done. */
  lemma EveryStep(s: PortState, pipes: seq<Pipe>, step: Step) returns (q: seq<Pipe>, s': PortState)
    requires Refines(s, pipes) && Enabled(s, step)
    ensures Next(s, step) == Ok(s') && Refines(s', q)
    ensures Potential(s', q) >= Potential(s, pipes) + if Internal(step) then 1 else 0
  {
    if Internal(step) {
      q, s' := InternalStep(s, pipes, step);
    } else if step.Request? {
      q, s' := RequestPotential(s, pipes, step.pkt);
    } else if step.Retry? {
      q, s' := RetryPotential(s, pipes, step.refused);
    } else if step.CatchUp? {
      CaughtStep(s, pipes);
      q, s' := pipes, Caught(s);
    } else {
      TickStep(s, pipes, step.to);
      q, s' := pipes, s.(now := step.to);
    }
  }

  /** Each step is enabled in the state that the steps before it lead to. */
  predicate Schedule(s: PortState, steps: seq<Step>)
    decreases |steps|
  {
    steps == [] || (Enabled(s, steps[0]) && (Next(s, steps[0]).Ok? ==> Schedule(Next(s, steps[0]).value, steps[1..])))
  }

  function Run(s: PortState, steps: seq<Step>): (r: Outcome<PortState>)
    requires Schedule(s, steps)
    decreases |steps|
  {
    if steps == [] then Ok(s)
    else
      var s1 :- Next(s, steps[0]);
      Run(s1, steps[1..])
  }

  function InternalSteps(steps: seq<Step>): (r: nat) {
    if steps == [] then 0 else (if Internal(steps[0]) then 1 else 0) + InternalSteps(steps[1..])
  }

  lemma {:induction false} EveryRun(s: PortState, pipes: seq<Pipe>, steps: seq<Step>) returns (q: seq<Pipe>, s': PortState)
    requires Refines(s, pipes) && Schedule(s, steps)
    ensures Run(s, steps) == Ok(s') && Refines(s', q)
    ensures Potential(s', q) >= Potential(s, pipes) + InternalSteps(steps)
    decreases |steps|
  {
    q, s' := pipes, s;
    if steps != [] {
      q, s' := EveryStep(s, pipes, steps[0]);
      q, s' := EveryRun(s', q, steps[1..]);
    }
  }

  /** The port as bindToTransactor leaves it, one idle router behind each socket. */
  function Bound(sockets: Routing.SocketMap, ranges: seq<MemRange>, now: Time): (r: PortState) {
    PortState(now, 0, sockets, Init(|ranges|), EMPTY_POOL, seq(|ranges|, k requires 0 <= k < |ranges| => NewLane(ranges[k])),
              false, 0, 0, [])
  }

  lemma BoundRefines(sockets: Routing.SocketMap, ranges: seq<MemRange>, now: Time)
    requires ranges != []
    ensures Refines(Bound(sockets, ranges, now), seq(|ranges|, _ => EMPTY_PIPE))
    ensures Potential(Bound(sockets, ranges, now), seq(|ranges|, _ => EMPTY_PIPE)) == 0
  {
    var s, pipes := Bound(sockets, ranges, now), seq(|ranges|, _ => EMPTY_PIPE);
    forall k | 0 <= k < |pipes|
      ensures LaneAt(s, k, pipes[k])
    {
      IdleLane(now, k, ranges[k]);
    }
    IdleSums(s.lanes, pipes);
  }

  lemma IdleLane(now: Time, k: nat, range: MemRange)
    ensures LaneOk(now, k, None, None, NewLane(range), [], EMPTY_PIPE)
  {
  }

  lemma {:induction false} IdleSums(lanes: seq<Lane>, pipes: seq<Pipe>)
    requires |lanes| == |pipes|
    requires forall k :: 0 <= k < |lanes| ==> lanes[k].log.accepted == []
    requires forall k :: 0 <= k < |pipes| ==> pipes[k] == EMPTY_PIPE
    ensures TotalAccepted(lanes) == 0 && RankSum(pipes) == 0 && LiveCount(pipes) == 0
  {
    if pipes != [] {
      IdleSums(lanes[..|lanes| - 1], pipes[..|pipes| - 1]);
    }
  }
}
