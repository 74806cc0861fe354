/** The handshake comes to rest: every request that has been accepted is served. */
module Liveness {
  import opened Common
  import opened Kernel
  import opened BaseProtocol
  import opened BlockingPackets
  import opened TxnRouters
  import opened SlavePorts
  import opened Pipes
  import opened Simulation
  import opened PortSteps
  import opened Runs
  import opened Handshake
  import Routing

  /** A step by which gem5 sends nothing new. */
  predicate Quiet(step: Step) {
    match step
    case Request(_) => false
    case Event(_, _, _, script) => script == []
    case _ => true
  }

  predicate AllQuiet(steps: seq<Step>) {
    forall i :: 0 <= i < |steps| ==> Quiet(steps[i])
  }

  /** No request has been accepted on the way from s to s'. */
  predicate SameAccepted(s: PortState, s': PortState) {
    && |s'.lanes| == |s.lanes|
    && forall k :: 0 <= k < |s.lanes| ==> s'.lanes[k].log.accepted == s.lanes[k].log.accepted
  }

  lemma {:induction false} SameTotal(lanes: seq<Lane>, lanes': seq<Lane>)
    requires |lanes'| == |lanes|
    requires forall k :: 0 <= k < |lanes| ==> lanes'[k].log.accepted == lanes[k].log.accepted
    ensures TotalAccepted(lanes') == TotalAccepted(lanes)
  {
    if lanes != [] {
      SameTotal(lanes[..|lanes| - 1], lanes'[..|lanes| - 1]);
    }
  }

  lemma OneLaneAccepts(s: PortState, s': PortState, k: nat)
    requires AcceptsNothing(s, s', k)
    ensures SameAccepted(s, s')
  {
  }

  lemma FreedAccepts(s: PortState, k: nat)
    requires Configured(s) && k < |s.lanes|
    ensures SameAccepted(s, Freed(s, k))
  {
    FreedFacts(s, k);
  }

  lemma EventAccepts(s: PortState, pipes: seq<Pipe>, k: nat, i: nat, accept: bool, s': PortState)
    requires Refines(s, pipes) && Enabled(s, Event(k, i, accept, [])) && Next(s, Event(k, i, accept, [])) == Ok(s')
    ensures SameAccepted(s, s')
  {
    EventPhase(s, k, i, pipes[k]);
    if s.lanes[k].events[i].phase == EndReq {
      EndReqCase(s, pipes, k, accept, []);
      FreedAccepts(s, k);
    } else {
      AnsweringLane(s, k, pipes[k]);
      RespondAccepts(s, pipes, k, accept, []);
      OneLaneAccepts(s, s', k);
    }
  }

  lemma InternalAccepts(s: PortState, pipes: seq<Pipe>, step: Step, s': PortState)
    requires Refines(s, pipes) && Enabled(s, step) && Internal(step) && Quiet(step) && Next(s, step) == Ok(s')
    ensures SameAccepted(s, s')
  {
    match step
    case Peq(k, e) =>
      RoutersAcceptNothing(s, k, e, 0);
      OneLaneAccepts(s, s', k);
    case Done(k, latency) =>
      RoutersAcceptNothing(s, k, PeqEntry(0, EndReq, 0), latency);
      OneLaneAccepts(s, s', k);
    case Memory(k) =>
      RoutersAcceptNothing(s, k, PeqEntry(0, EndReq, 0), 0);
      OneLaneAccepts(s, s', k);
    case Event(k, i, accept, script) =>
      EventAccepts(s, pipes, k, i, accept, s');
  }

  lemma {:induction false} RetryAccepts(s: PortState, pipes: seq<Pipe>, sockets: seq<nat>, s': PortState)
    requires Refines(s, pipes) && Clears(s.helper, sockets) && ResendAll(s, sockets, {}) == Ok(s')
    ensures SameAccepted(s, s')
    decreases |sockets|
  {
    if sockets != [] {
      var q, s1 := ResendOne(s, pipes, sockets, {});
      OneLaneAccepts(s, s1, sockets[0]);
      RetryAccepts(s1, q, sockets[1..], s');
    }
  }

  /** With nothing new accepted, what the potential gains the ranks lose. */
  lemma RankFalls(s: PortState, pipes: seq<Pipe>, s': PortState, q: seq<Pipe>)
    requires SameAccepted(s, s') && Potential(s', q) > Potential(s, pipes)
    ensures RankSum(q) < RankSum(pipes)
  {
    SameTotal(s.lanes, s'.lanes);
  }

  lemma OneStep(s: PortState, step: Step, s': PortState)
    requires Enabled(s, step) && Next(s, step) == Ok(s')
    ensures Schedule(s, [step]) && Run(s, [step]) == Ok(s')
  {
    assert [step][1..] == [] && Schedule(s', []) && Run(s', []) == Ok(s');
  }

  lemma {:induction false} RunAppend(s: PortState, a: seq<Step>, s1: PortState, b: seq<Step>)
    requires Schedule(s, a) && Run(s, a) == Ok(s1) && Schedule(s1, b)
    ensures Schedule(s, a + b) && Run(s, a + b) == Run(s1, b)
    decreases |a|
  {
    if a == [] {
      assert a + b == b;
    } else {
      RunAppend(Next(s, a[0]).value, a[1..], s1, b);
      assert (a + b)[0] == a[0] && (a + b)[1..] == a[1..] + b;
    }
  }

  /** Pipes of a lower rank than n describe the state. */
  ghost predicate Lower(s: PortState, n: nat) {
    exists q :: Refines(s, q) && RankSum(q) < n
  }

  /** Quiet steps lead from s to s'. */
  predicate Leads(s: PortState, steps: seq<Step>, s': PortState) {
    AllQuiet(steps) && Schedule(s, steps) && Run(s, steps) == Ok(s') && SameAccepted(s, s')
  }

  lemma Join(s: PortState, first: seq<Step>, s1: PortState, more: seq<Step>, s': PortState)
    requires Leads(s, first, s1) && Leads(s1, more, s')
    ensures Leads(s, first + more, s')
  {
    RunAppend(s, first, s1, more);
  }

  /** gem5 asks for the blocked responses. */
  lemma MoveRetry(s: PortState, pipes: seq<Pipe>, k: nat) returns (s': PortState)
    requires Refines(s, pipes) && CaughtUp(s) && At(s.helper.response, k).Some?
    ensures Leads(s, [Retry({})], s') && Lower(s', RankSum(pipes))
  {
    var q;
    q, s' := RetryPotential(s, pipes, {});
    BlockedFromClears(s.helper, 0);
    assert BlockedFrom(s.helper, 0) != [] by {
      assert BlockedFrom(s.helper, 0) == [] ==> NoneBlocked(s.helper);
    }
    RetryAccepts(s, pipes, BlockedFrom(s.helper, 0), s');
    RankFalls(s, pipes, s', q);
    OneStep(s, Retry({}), s');
  }

  lemma MoveInternal(s: PortState, pipes: seq<Pipe>, step: Step) returns (s': PortState)
    requires Refines(s, pipes) && Enabled(s, step) && Internal(step) && Quiet(step)
    ensures Leads(s, [step], s') && Lower(s', RankSum(pipes))
  {
    var q;
    q, s' := InternalStep(s, pipes, step);
    InternalAccepts(s, pipes, step, s');
    RankFalls(s, pipes, s', q);
    OneStep(s, step, s');
  }

  /** First gem5 catches up. */
  lemma CatchUpJoin(s: PortState, step: Step, s': PortState) returns (steps: seq<Step>)
    requires Leads(Caught(s), [step], s')
    ensures |steps| == 2 && Leads(s, steps, s')
  {
    OneStep(s, CatchUp, Caught(s));
    Join(s, [CatchUp], Caught(s), [step], s');
    steps := [CatchUp] + [step];
  }

  lemma TickJoin(s: PortState, to: Time, s1: PortState, more: seq<Step>, s': PortState) returns (steps: seq<Step>)
    requires s1 == s.(now := to) && (to == s.now || Enabled(s, Tick(to))) && Leads(s1, more, s')
    ensures |steps| <= |more| + 1 && Leads(s, steps, s')
  {
    if to == s.now {
      assert s1 == s;
      steps := more;
    } else {
      OneStep(s, Tick(to), s1);
      Join(s, [Tick(to)], s1, more, s');
      steps := [Tick(to)] + more;
    }
  }

  /** Time moves on to what is due first, and that happens. */
  lemma MoveDue(s: PortState, pipes: seq<Pipe>) returns (steps: seq<Step>, s': PortState)
    requires Refines(s, pipes) && First(pipes).Some?
    ensures |steps| <= 3 && Leads(s, steps, s') && Lower(s', RankSum(pipes))
  {
    var to, step := DueMoves(s, pipes);
    var s1 := s.(now := to);
    s' := MoveInternal(Caught(s1), pipes, step);
    steps := CatchUpJoin(s1, step, s');
    steps := TickJoin(s, to, s1, steps, s');
  }

  lemma Move(s: PortState, pipes: seq<Pipe>, k: nat) returns (steps: seq<Step>, s': PortState)
    requires Refines(s, pipes) && k < |s.lanes| && !Finished(s.lanes[k])
    ensures |steps| <= 3 && Leads(s, steps, s') && Lower(s', RankSum(pipes))
  {
    FinishedIdle(s, k, pipes[k]);
    if pipes[k].head.Refused? {
      assert LaneAt(s, k, pipes[k]);
      CaughtStep(s, pipes);
      s' := MoveRetry(Caught(s), pipes, k);
      steps := CatchUpJoin(s, Retry({}), s');
    } else {
      assert Due(pipes[k]).Some?;
      steps, s' := MoveDue(s, pipes);
    }
  }

  /** Everything that was accepted has been served, everything that was allocated is free, and no retry is owed. */
  predicate AtRest(s: PortState) {
    && !s.peerWaits && s.refusals == s.retries
    && |s.pool.free| == s.pool.allocations
    && forall k :: 0 <= k < |s.lanes| ==>
         var log := s.lanes[k].log;
         log.ended == log.executed == log.accepted && log.answered == Responses(log.accepted)
  }

  lemma Rested(s: PortState, pipes: seq<Pipe>)
    requires Refines(s, pipes) && forall k :: 0 <= k < |s.lanes| ==> Finished(s.lanes[k])
    ensures AtRest(s)
  {
    NothingLeaks(s, pipes);
    forall k: nat
      ensures !Flag(s.helper.retry, k)
    {
      if Flag(s.helper.retry, k) {
        FinishedIdle(s, k, pipes[k]);
      }
    }
  }

  /**
   * From every state of every run, without a new request and within a number of
   * steps that the phases still open bound, the handshake reaches a state in which
   * every request accepted so far has been to memory and has been finished, every
   * response and every retry has been given, and every payload is back in the pool.
   */
  lemma {:induction false} ComesToRest(s: PortState, pipes: seq<Pipe>) returns (steps: seq<Step>, s': PortState)
    requires Refines(s, pipes)
    ensures |steps| <= 3 * RankSum(pipes) && Leads(s, steps, s') && AtRest(s')
    decreases RankSum(pipes)
  {
    if k :| 0 <= k < |s.lanes| && !Finished(s.lanes[k]) {
      var first, s1 := Move(s, pipes, k);
      var q :| Refines(s1, q) && RankSum(q) < RankSum(pipes);
      var more;
      more, s' := ComesToRest(s1, q);
      Join(s, first, s1, more, s');
      steps := first + more;
    } else {
      steps, s' := [], s;
      Rested(s, pipes);
    }
  }

  /** Whatever has happened since the port was bound, the run can be completed. */
  lemma EveryRunCanFinish(sockets: Routing.SocketMap, ranges: seq<MemRange>, start: Time, steps: seq<Step>)
    returns (more: seq<Step>, s': PortState)
    requires ranges != []
    requires Schedule(Bound(sockets, ranges, start), steps)
    ensures var r := Run(Bound(sockets, ranges, start), steps);
            && r.Ok? && Leads(r.value, more, s') && AtRest(s')
            && InternalSteps(steps) <= 8 * TotalAccepted(r.value.lanes) && |more| <= 24 * TotalAccepted(r.value.lanes)
  {
    BoundRefines(sockets, ranges, start);
    var q, s := EveryRun(Bound(sockets, ranges, start), seq(|ranges|, _ => EMPTY_PIPE), steps);
    more, s' := ComesToRest(s, q);
  }
}
