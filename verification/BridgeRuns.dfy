/** What every run of handshake and event loop together guarantees. */
module BridgeRuns {
  import opened Common
  import opened Kernel
  import opened Payloads
  import opened TxnRouters
  import opened SlavePorts
  import opened Simulation
  import opened EventQueues
  import opened EventLoops
  import opened Bridges
  import opened BridgeEvents
  import Routing
  import Runs
  import Handshake
  import TimeRuns
  import Coupling = TimeCoupling

  // ---------- the invariant ----------

  function EventMark(ev: PayloadEvent): (r: Mark) {
    Mark(Payload(ev.h, ev.phase), ev.at)
  }

  /** How often the event is on the gem5 queue. */
  function Queued(q: seq<Entry>, ev: PayloadEvent): (r: nat) {
    Marks(q)[EventMark(ev)]
  }

  /** How often notify has been called for the event. */
  function Noticed(notices: seq<Notice>, ev: PayloadEvent): (r: nat) {
    if notices == [] then 0
    else Noticed(notices[..|notices| - 1], ev) + if notices[|notices| - 1].event == ev then 1 else 0
  }

  /** How often pec has been entered for the event. */
  function Visited(visits: seq<Visit>, ev: PayloadEvent): (r: nat) {
    if visits == [] then 0
    else Visited(visits[..|visits| - 1], ev) + if visits[|visits| - 1].event == ev then 1 else 0
  }

  /** An event is due its delay after it was raised: 10 ns for either phase. */
  predicate NoticeOk(n: Notice) {
    n.delay == RAISED_AHEAD && n.event.at == n.raised + n.delay
  }

  /** pec is entered when both clocks show the tick of the event. */
  predicate VisitOk(v: Visit) {
    v.now == v.tick == v.event.at
  }

  predicate LogsOk(b: BridgeState) {
    && (forall i :: 0 <= i < |b.notices| ==> NoticeOk(b.notices[i]))
    && (forall i :: 0 <= i < |b.visits| ==> VisitOk(b.visits[i]))
  }

  /** The event is on the queue as often as the port has raised it and not yet handled it; pending are still to be queued. */
  predicate Balanced(b: BridgeState, pending: seq<PayloadEvent>, ev: PayloadEvent) {
    && Queued(b.loop.queue, ev) + multiset(pending)[ev] == Raised(b.port.lanes, ev)
    && Noticed(b.notices, ev) + multiset(pending)[ev] == Visited(b.visits, ev) + Raised(b.port.lanes, ev)
  }

  ghost predicate Paired(b: BridgeState, pending: seq<PayloadEvent>) {
    forall ev: PayloadEvent :: Balanced(b, pending, ev)
  }

  predicate SameTime(s: PortState, t: LoopState) {
    s.now == t.now && s.curTick == t.curTick
  }

  predicate InOrder(b: BridgeState) {
    if b.looping then Coupling.InLoop(b.loop) else Coupling.Invariant(b.loop)
  }

  /** The two halves are in order, see the same time, and agree on what is queued. */
  ghost predicate Linked(b: BridgeState) {
    Runs.Reachable(b.port) && SameTime(b.port, b.loop) && InOrder(b) && LogsOk(b) && Paired(b, [])
  }

  // ---------- raising events ----------

  /** Each event is due its delay after now, within 64 bits. */
  predicate AllDue(events: seq<PayloadEvent>, now: Time, follow: Works) {
    forall i :: 0 <= i < |events| ==> events[i].at == now + RAISED_AHEAD <= MAX_TICK && Fits(follow, events[i].at)
  }

  /** In the middle of raising events. */
  ghost predicate Raising(b: BridgeState, events: seq<PayloadEvent>, follow: Works) {
    && Runs.Reachable(b.port) && SameTime(b.port, b.loop) && !b.looping && Coupling.Invariant(b.loop) && LogsOk(b)
    && Paired(b, events) && AllDue(events, b.loop.now, follow)
  }

  lemma QueuedMore(s: LoopState, e: Entry)
    requires Coupling.Invariant(s) && e.kind.Payload? && s.now <= e.at <= MAX_TICK && Fits(e.follow, e.at)
    ensures var s' := Enqueue(NotifyExternal(s), e);
            && Coupling.Invariant(s') && s'.now == s.now && s'.curTick == s.curTick
            && Marks(s'.queue) == Marks(s.queue) + multiset{Mark(e.kind, e.at)}
  {
    Coupling.RaisedKeeps(s, e);
    InsertMarks(s.queue, e);
  }

  lemma NoticedMore(notices: seq<Notice>, n: Notice, ev: PayloadEvent)
    ensures Noticed(notices + [n], ev) == Noticed(notices, ev) + if n.event == ev then 1 else 0
  {
    assert (notices + [n])[..|notices + [n]| - 1] == notices;
  }

  lemma VisitedMore(visits: seq<Visit>, v: Visit, ev: PayloadEvent)
    ensures Visited(visits + [v], ev) == Visited(visits, ev) + if v.event == ev then 1 else 0
  {
    assert (visits + [v])[..|visits + [v]| - 1] == visits;
  }

  lemma FirstOf(events: seq<PayloadEvent>, ev: PayloadEvent)
    requires events != []
    ensures multiset(events)[ev] == multiset(events[1..])[ev] + if events[0] == ev then 1 else 0
  {
    assert events == [events[0]] + events[1..];
  }

  lemma RaisePairs(b: BridgeState, events: seq<PayloadEvent>, b1: BridgeState, n: Notice)
    requires Paired(b, events) && events != [] && n.event == events[0]
    requires b1 == b.(loop := b1.loop, notices := b.notices + [n])
    requires Marks(b1.loop.queue) == Marks(b.loop.queue) + multiset{EventMark(events[0])}
    ensures Paired(b1, events[1..])
  {
    forall x: PayloadEvent
      ensures Balanced(b1, events[1..], x)
    {
      assert Balanced(b, events, x);
      FirstOf(events, x);
      NoticedMore(b.notices, n, x);
    }
  }

  lemma RaiseAllFirst(b: BridgeState, events: seq<PayloadEvent>, delay: Time, follow: Works, loop: LoopState)
    requires events != [] && events[0].at == b.loop.now + delay <= MAX_TICK
    requires loop == Enqueue(NotifyExternal(b.loop), PayloadEntry(events[0].at, events[0].h, events[0].phase, follow))
    ensures RaiseAll(b, events, follow)
         == RaiseAll(b.(loop := loop, notices := b.notices + [Notice(events[0], b.loop.now, delay)]), events[1..], follow)
  {
    assert Delay(b.loop.now, events[0].at) == delay;
    Coupling.RaisedAs(b.loop, events[0].h, events[0].phase, delay, follow);
  }

  /** The next event goes on the queue, and is noted. */
  lemma RaisingNext(b: BridgeState, events: seq<PayloadEvent>, follow: Works, loop: LoopState, n: Notice)
    requires Raising(b, events, follow) && events != [] && n == Notice(events[0], b.loop.now, RAISED_AHEAD)
    requires Coupling.Invariant(loop) && loop.now == b.loop.now && loop.curTick == b.loop.curTick
    requires Marks(loop.queue) == Marks(b.loop.queue) + multiset{EventMark(events[0])}
    ensures Raising(b.(loop := loop, notices := b.notices + [n]), events[1..], follow)
  {
    RaisePairs(b, events, b.(loop := loop, notices := b.notices + [n]), n);
  }

  /** One event is raised: it is queued, and noted. */
  lemma RaiseOne(b: BridgeState, events: seq<PayloadEvent>, follow: Works) returns (b1: BridgeState)
    requires Raising(b, events, follow) && events != []
    ensures Raising(b1, events[1..], follow)
    ensures RaiseAll(b, events, follow) == RaiseAll(b1, events[1..], follow)
  {
    var ev := events[0];
    var e := PayloadEntry(ev.at, ev.h, ev.phase, follow);
    var loop := Enqueue(NotifyExternal(b.loop), e);
    QueuedMore(b.loop, e);
    var n := Notice(ev, b.loop.now, RAISED_AHEAD);
    b1 := b.(loop := loop, notices := b.notices + [n]);
    RaisingNext(b, events, follow, loop, n);
    RaiseAllFirst(b, events, RAISED_AHEAD, follow, loop);
  }

  lemma {:induction false} RaiseAllKeeps(b: BridgeState, events: seq<PayloadEvent>, follow: Works)
    requires Raising(b, events, follow)
    ensures Linked(RaiseAll(b, events, follow))
    decreases |events|
  {
    if events != [] {
      var b1 := RaiseOne(b, events, follow);
      RaiseAllKeeps(b1, events[1..], follow);
    }
  }

  lemma GrownRaised(s: PortState, s': PortState, k: nat, ev: PayloadEvent)
    requires Raises(s, s', k)
    ensures Raised(s'.lanes, ev) == Raised(s.lanes, ev) + multiset(NewEvents(s, s', k))[ev]
  {
    RaisedUpdate(s.lanes, k, s'.lanes[k], ev);
  }

  /** A router has made a step: what is new is still to be raised. */
  lemma RouterRaising(b: BridgeState, s': PortState, k: nat, follow: Works)
    requires Linked(b) && !b.looping && Raises(b.port, s', k) && Runs.Reachable(s')
    requires forall i :: 0 <= i < |NewEvents(b.port, s', k)| ==>
               NewEvents(b.port, s', k)[i].at <= MAX_TICK && Fits(follow, NewEvents(b.port, s', k)[i].at)
    ensures Raising(b.(port := s'), NewEvents(b.port, s', k), follow)
  {
    var b1, events := b.(port := s'), NewEvents(b.port, s', k);
    forall x: PayloadEvent
      ensures Balanced(b1, events, x)
    {
      assert Balanced(b, [], x);
      GrownRaised(b.port, s', k, x);
    }
  }

  lemma RouterPort(s: PortState, step: Runs.Step) returns (s': PortState)
    requires Runs.Reachable(s) && Runs.Enabled(s, step) && (step.Peq? || step.Done? || step.Memory?)
    ensures Runs.Next(s, step) == Ok(s') && Runs.Reachable(s') && Raises(s, s', step.k)
  {
    var pipes :| Refines(s, pipes);
    var q;
    q, s' := Runs.InternalStep(s, pipes, step);
    RouterRaises(s, step);
  }

  lemma RouterNext(b: BridgeState, step: Runs.Step, follow: Works, s': PortState)
    requires Enabled(b, Router(step, follow)) && Runs.Next(b.port, step) == Ok(s')
    ensures !b.looping && Next(b, Router(step, follow)) == Ok(RaiseAll(b.(port := s'), NewEvents(b.port, s', step.k), follow))
    ensures forall i :: 0 <= i < |NewEvents(b.port, s', step.k)| ==>
              NewEvents(b.port, s', step.k)[i].at <= MAX_TICK && Fits(follow, NewEvents(b.port, s', step.k)[i].at)
  {
  }

  /** A step of a router. */
  lemma RouterStep(b: BridgeState, step: Runs.Step, follow: Works)
    requires Linked(b) && Enabled(b, Router(step, follow))
    ensures Next(b, Router(step, follow)).Ok? && Linked(Next(b, Router(step, follow)).value)
  {
    var s' := RouterPort(b.port, step);
    RouterNext(b, step, follow, s');
    RouterRaising(b, s', step.k, follow);
    RaiseAllKeeps(b.(port := s'), NewEvents(b.port, s', step.k), follow);
  }

  // ---------- gem5 at work on the port ----------

  lemma CallStep(s: PortState, c: Call) returns (s': PortState)
    requires Runs.Reachable(s) && MayCall(s, c)
    ensures DoCall(s, c) == Ok(s') && Runs.Reachable(s') && SameEvents(s, s')
  {
    var pipes :| Refines(s, pipes);
    match c
    case Send(pkt) =>
      var q;
      q, s' := Runs.RequestPotential(s, pipes, pkt);
      RequestEvents(s, pkt);
    case Ask(refused) =>
      var q;
      q, s' := Runs.RetryPotential(s, pipes, refused);
      ResendEvents(s, BlockedFrom(s.helper, 0), refused);
  }

  lemma {:induction false} CallsStep(s: PortState, calls: seq<Call>) returns (s': PortState)
    requires Runs.Reachable(s) && CallsOk(s, calls)
    ensures Calls(s, calls) == Ok(s') && Runs.Reachable(s') && SameEvents(s, s')
    decreases |calls|
  {
    s' := s;
    if calls != [] {
      var s1 := CallStep(s, calls[0]);
      s' := CallsStep(s1, calls[1..]);
    }
  }

  // ---------- a round of the event loop ----------

  /** The handler of an entry that is due, once gem5 has caught up. */
  predicate Due(s: PortState, e: Entry) {
    CaughtUp(s) && e.at == s.now && (e.kind.Payload? ==> Raised(s.lanes, PayloadEvent(e.kind.h, e.kind.phase, e.at)) > 0)
  }

  /** How often the entry stands for the event. */
  function Standing(e: Entry, ev: PayloadEvent): (r: nat) {
    if e.kind == Payload(ev.h, ev.phase) && e.at == ev.at then 1 else 0
  }

  lemma StandingMark(e: Entry, ev: PayloadEvent)
    ensures MarkOf(e)[EventMark(ev)] == Standing(e, ev)
  {
  }

  predicate TakesEvent(s: PortState, s': PortState, e: Entry, ev: PayloadEvent) {
    Raised(s.lanes, ev) == Raised(s'.lanes, ev) + Standing(e, ev)
  }

  ghost predicate Handled(s: PortState, e: Entry, s': PortState) {
    Runs.Reachable(s') && s'.now == s.now && s'.curTick == s.curTick && forall ev: PayloadEvent :: TakesEvent(s, s', e, ev)
  }

  lemma PlacedEnabled(s: PortState, e: Entry, accept: bool, script: seq<Packet>, calls: seq<Call>) returns (k: nat, i: nat)
    requires Due(s, e) && e.kind.Payload? && ReplyOk(s, e, script, calls)
    ensures Place(s.lanes, PayloadEvent(e.kind.h, e.kind.phase, e.at)) == Some((k, i))
    ensures Runs.Enabled(s, Runs.Event(k, i, accept, script))
  {
    var ev := PayloadEvent(e.kind.h, e.kind.phase, e.at);
    Placed(s.lanes, ev);
    k, i := Place(s.lanes, ev).value.0, Place(s.lanes, ev).value.1;
  }

  lemma ServiceHandles(s: PortState, e: Entry, k: nat, i: nat, accept: bool, script: seq<Packet>, s': PortState)
    requires k < |s.lanes| && i < |s.lanes[k].events| && Service(s, k, i, accept, script) == Ok(s') && Runs.Reachable(s')
    requires e.kind.Payload? && s.lanes[k].events[i] == PayloadEvent(e.kind.h, e.kind.phase, e.at)
    ensures Handled(s, e, s')
  {
    forall x: PayloadEvent
      ensures TakesEvent(s, s', e, x)
      ensures s'.now == s.now && s'.curTick == s.curTick
    {
      ServiceTakes(s, k, i, accept, script, x);
    }
    ServiceTakes(s, k, i, accept, script, s.lanes[k].events[i]);
  }

  lemma PayloadHandled(s: PortState, e: Entry, accept: bool, script: seq<Packet>, calls: seq<Call>) returns (s': PortState)
    requires Runs.Reachable(s) && Due(s, e) && e.kind.Payload? && ReplyOk(s, e, script, calls)
    ensures HandleEntry(s, e, accept, script, calls) == Ok(s') && Handled(s, e, s')
  {
    var k, i := PlacedEnabled(s, e, accept, script, calls);
    var pipes :| Refines(s, pipes);
    var q;
    q, s' := Runs.InternalStep(s, pipes, Runs.Event(k, i, accept, script));
    ServiceHandles(s, e, k, i, accept, script, s');
  }

  lemma OwnHandled(s: PortState, e: Entry, accept: bool, script: seq<Packet>, calls: seq<Call>) returns (s': PortState)
    requires Runs.Reachable(s) && Due(s, e) && !e.kind.Payload? && ReplyOk(s, e, script, calls)
    ensures HandleEntry(s, e, accept, script, calls) == Ok(s') && Handled(s, e, s')
  {
    s' := s;
    if e.kind.Own? {
      s' := CallsStep(s, calls);
    }
    forall x: PayloadEvent
      ensures TakesEvent(s, s', e, x)
    {
      SameRaised(s.lanes, s'.lanes, x);
    }
  }

  lemma EntryHandled(s: PortState, e: Entry, accept: bool, script: seq<Packet>, calls: seq<Call>) returns (s': PortState)
    requires Runs.Reachable(s) && Due(s, e) && ReplyOk(s, e, script, calls)
    ensures HandleEntry(s, e, accept, script, calls) == Ok(s') && Handled(s, e, s')
  {
    if e.kind.Payload? {
      s' := PayloadHandled(s, e, accept, script, calls);
    } else {
      s' := OwnHandled(s, e, accept, script, calls);
    }
  }

  lemma CaughtReachable(s: PortState)
    requires Runs.Reachable(s)
    ensures Runs.Reachable(Runs.Caught(s))
  {
    var pipes :| Refines(s, pipes);
    Runs.CaughtStep(s, pipes);
  }

  /** The first event of the queue, when it is due, is one that the port has raised. */
  lemma HeadDue(b: BridgeState)
    requires Linked(b) && b.loop.queue != [] && b.loop.queue[0].at == b.loop.now
    ensures Due(Runs.Caught(b.port), b.loop.queue[0])
  {
    var e := b.loop.queue[0];
    if e.kind.Payload? {
      var ev := PayloadEvent(e.kind.h, e.kind.phase, e.at);
      assert Balanced(b, [], ev);
      StandingMark(e, ev);
    }
  }

  lemma VisitsMore(visits: seq<Visit>, e: Entry, now: Time, tick: Time, ev: PayloadEvent)
    ensures Visited(visits + VisitOf(e, now, tick), ev) == Visited(visits, ev) + Standing(e, ev)
  {
    if e.kind.Payload? {
      VisitedMore(visits, Visit(PayloadEvent(e.kind.h, e.kind.phase, e.at), now, tick), ev);
    } else {
      assert visits + [] == visits;
    }
  }

  /** The head of the queue has been serviced, and its handler has run. */
  lemma ServedPairs(b: BridgeState, b': BridgeState, e: Entry)
    requires Paired(b, []) && LogsOk(b) && Handled(Runs.Caught(b.port), e, b'.port)
    requires Marks(b.loop.queue) == MarkOf(e) + Marks(b'.loop.queue)
    requires b'.notices == b.notices && b'.visits == b.visits + VisitOf(e, e.at, e.at)
    ensures Paired(b', []) && LogsOk(b')
  {
    forall x: PayloadEvent
      ensures Balanced(b', [], x)
    {
      assert Balanced(b, [], x);
      assert TakesEvent(Runs.Caught(b.port), b'.port, e, x);
      StandingMark(e, x);
      VisitsMore(b.visits, e, e.at, e.at, x);
    }
  }

  lemma SamePairs(b: BridgeState, b': BridgeState)
    requires Paired(b, []) && LogsOk(b) && b'.notices == b.notices && b'.visits == b.visits
    requires |b'.port.lanes| == |b.port.lanes|
    requires forall k :: 0 <= k < |b.port.lanes| ==> b'.port.lanes[k].events == b.port.lanes[k].events
    requires forall ev: PayloadEvent :: Queued(b'.loop.queue, ev) == Queued(b.loop.queue, ev)
    ensures Paired(b', []) && LogsOk(b')
  {
    forall x: PayloadEvent
      ensures Balanced(b', [], x)
    {
      assert Balanced(b, [], x);
      SameRaised(b.port.lanes, b'.port.lanes, x);
      assert Queued(b'.loop.queue, x) == Queued(b.loop.queue, x);
    }
  }

  lemma AsleepRound(b: BridgeState, t: LoopState)
    requires Linked(b) && b.loop.queue != [] && b.loop.now < b.loop.queue[0].at
    requires Coupling.RoundOk(b.loop, t, false) && Coupling.Invariant(t)
    ensures Linked(b.(port := Runs.Caught(b.port), loop := t, looping := false))
  {
    CaughtReachable(b.port);
    SamePairs(b, b.(port := Runs.Caught(b.port), loop := t, looping := false));
  }

  lemma ServedRound(b: BridgeState, e: Entry, t: LoopState, more: bool, s': PortState)
    requires Linked(b) && b.loop.queue != [] && b.loop.queue[0] == e && e.at == b.loop.now
    requires Coupling.RoundOk(b.loop, t, more) && (if more then Coupling.InLoop(t) else Coupling.Invariant(t))
    requires Handled(Runs.Caught(b.port), e, s')
    ensures Linked(b.(port := s', loop := t, looping := more, visits := b.visits + VisitOf(e, e.at, e.at)))
  {
    ServedPairs(b, b.(port := s', loop := t, looping := more, visits := b.visits + VisitOf(e, e.at, e.at)), e);
  }

  lemma RoundIs(b: BridgeState, accept: bool, script: seq<Packet>, calls: seq<Call>, t: LoopState, more: bool)
    requires SameTime(b.port, b.loop) && b.loop.queue != [] && EventLoops.Round(b.loop) == Ok((t, more))
    requires Coupling.RoundOk(b.loop, t, more) && b.loop.now <= b.loop.queue[0].at
    ensures var e, s := b.loop.queue[0], Runs.Caught(b.port);
            NextRound(b, accept, script, calls) ==
              if b.loop.now < e.at then Ok(b.(port := s, loop := t, looping := more))
              else if HandleEntry(s, e, accept, script, calls).Fatal? then Fatal(HandleEntry(s, e, accept, script, calls).fault)
              else Ok(b.(port := HandleEntry(s, e, accept, script, calls).value, loop := t, looping := more,
                         visits := b.visits + VisitOf(e, e.at, e.at)))
  {
  }

  /** A round of the event loop. */
  lemma RoundStep(b: BridgeState, accept: bool, script: seq<Packet>, calls: seq<Call>)
    requires Linked(b) && Enabled(b, Round(accept, script, calls))
    ensures NextRound(b, accept, script, calls).Ok? && Linked(NextRound(b, accept, script, calls).value)
  {
    var t, more := Coupling.RoundStep(b.loop);
    var e := b.loop.queue[0];
    RoundIs(b, accept, script, calls, t, more);
    if b.loop.now < e.at {
      AsleepRound(b, t);
    } else {
      HeadDue(b);
      CaughtReachable(b.port);
      var s' := EntryHandled(Runs.Caught(b.port), e, accept, script, calls);
      ServedRound(b, e, t, more, s');
    }
  }

  // ---------- the other steps ----------

  /** The loop moves on, with the clocks and the PayloadEvents as they were. */
  lemma LoopChanged(b: BridgeState, loop: LoopState, looping: bool)
    requires Linked(b) && SameTime(b.port, loop) && forall ev: PayloadEvent :: Queued(loop.queue, ev) == Queued(b.loop.queue, ev)
    requires if looping then Coupling.InLoop(loop) else Coupling.Invariant(loop)
    ensures Linked(b.(loop := loop, looping := looping))
  {
    SamePairs(b, b.(loop := loop, looping := looping));
  }

  lemma LimitQueued(s: LoopState, cycles: nat, ev: PayloadEvent)
    requires Coupling.Invariant(s) && s.curTick <= MAX_TICK
    ensures Queued(SimulateBegin(s, cycles).queue, ev) == Queued(s.queue, ev)
  {
    Coupling.BeginQueue(s.queue, SimulationLimit(s.curTick, cycles), s.now);
  }

  lemma BeginStep(b: BridgeState, cycles: nat) returns (b1: BridgeState)
    requires Linked(b) && Enabled(b, Begin(cycles))
    ensures Next(b, Begin(cycles)) == Ok(b1) && Linked(b1)
  {
    b1 := b.(loop := SimulateBegin(b.loop, cycles));
    Coupling.BeginStep(b.loop, cycles);
    forall ev: PayloadEvent
      ensures Queued(SimulateBegin(b.loop, cycles).queue, ev) == Queued(b.loop.queue, ev)
    {
      LimitQueued(b.loop, cycles, ev);
    }
    LoopChanged(b, b1.loop, false);
  }

  lemma OtherMarks(q: seq<Entry>)
    ensures forall ev: PayloadEvent :: Queued(Remove(q, Limit), ev) == Queued(q, ev)
  {
    RemoveMarks(q, Limit);
    LimitMarks(Removed(q, Limit));
  }

  lemma LimitMarks(q: seq<Entry>)
    requires |q| <= 1 && (q != [] ==> q[0].kind == Limit)
    ensures forall ev: PayloadEvent :: Marks(q)[EventMark(ev)] == 0
  {
  }

  lemma LeaveLoop(s: LoopState) returns (t: LoopState)
    requires Coupling.Invariant(s) && Coupling.Enabled(s, Coupling.Leave)
    ensures SimulateEnd(s) == Ok(t) && Coupling.Invariant(t) && t.now == s.now && t.curTick == s.curTick
    ensures forall ev: PayloadEvent :: Queued(t.queue, ev) == Queued(s.queue, ev)
  {
    Coupling.LeaveStep(s);
    t := SimulateEnd(s).value;
    OtherMarks(s.queue);
  }

  lemma LeaveStep(b: BridgeState) returns (b1: BridgeState)
    requires Linked(b) && Enabled(b, Leave)
    ensures Next(b, Leave) == Ok(b1) && Linked(b1)
  {
    var t := LeaveLoop(b.loop);
    LoopChanged(b, t, false);
    b1 := b.(loop := t);
  }

  /** What the port has raised is queued, and so not passed by time. */
  lemma RaisedAhead(b: BridgeState, to: Time, k: nat, i: nat)
    requires Linked(b) && AllFrom(b.loop.queue, to) && k < |b.port.lanes| && i < |b.port.lanes[k].events|
    ensures to <= b.port.lanes[k].events[i].at
  {
    var ev := b.port.lanes[k].events[i];
    RaisedMember(b.port.lanes, ev);
    assert Balanced(b, [], ev);
    MarkMember(b.loop.queue, EventMark(ev));
    var e :| e in b.loop.queue && !e.kind.Own? && EventMark(ev) == Mark(e.kind, e.at);
  }

  lemma QueueAhead(b: BridgeState, to: Time)
    requires Linked(b) && Enabled(b, Advance(to))
    ensures AllFrom(b.loop.queue, to)
  {
    if b.loop.inSimulate {
      Coupling.AdvanceStep(b.loop, to);
    }
  }

  lemma AdvanceStep(b: BridgeState, to: Time)
    requires Linked(b) && Enabled(b, Advance(to))
    ensures Linked(b.(port := b.port.(now := to), loop := b.loop.(now := to)))
  {
    QueueAhead(b, to);
    Coupling.AdvanceStep(b.loop, to);
    forall k | 0 <= k < |b.port.lanes|
      ensures Runs.DueFrom(b.port.lanes[k], to)
    {
      forall i | 0 <= i < |b.port.lanes[k].events|
        ensures to <= b.port.lanes[k].events[i].at
      {
        RaisedAhead(b, to, k, i);
      }
    }
    var pipes :| Refines(b.port, pipes);
    assert Runs.Enabled(b.port, Runs.Tick(to));
    Runs.TickStep(b.port, pipes, to);
    SamePairs(b, b.(port := b.port.(now := to), loop := b.loop.(now := to)));
  }

  lemma EnterStep(b: BridgeState)
    requires Linked(b) && Enabled(b, Enter)
    ensures b.loop.inSimulate && Linked(b.(loop := b.loop.(enterAt := None), looping := true))
  {
    Coupling.EnterStep(b.loop, Coupling.Enter);
    LoopChanged(b, b.loop.(enterAt := None), true);
  }

  lemma ExternalStep(b: BridgeState)
    requires Linked(b) && Enabled(b, External)
    ensures Linked(b.(loop := b.loop.(externalAt := None), looping := b.loop.inSimulate && b.loop.queue != []))
  {
    var looping := b.loop.inSimulate && b.loop.queue != [];
    if looping {
      Coupling.EnterStep(b.loop, Coupling.External);
    }
    LoopChanged(b, b.loop.(externalAt := None), looping);
  }

  lemma CallbackStep(b: BridgeState, calls: seq<Call>, works: Works)
    requires Linked(b) && Enabled(b, Callback(calls, works))
    ensures Next(b, Callback(calls, works)).Ok? && Linked(Next(b, Callback(calls, works)).value)
  {
    Coupling.CallbackStep(b.loop, works);
    CallbackLoop(b.loop, works);
    CaughtReachable(b.port);
    var s' := CallsStep(Runs.Caught(b.port), calls);
    SamePairs(b, b.(port := s', loop := EnterGem5(b.loop, works).value));
  }

  lemma CallbackLoop(s: LoopState, works: Works)
    requires Coupling.Invariant(s) && Coupling.Enabled(s, Coupling.Callback(works))
    ensures EnterGem5(s, works).Ok?
    ensures var s' := EnterGem5(s, works).value;
            s'.now == s'.curTick == s.now && Marks(s'.queue) == Marks(s.queue)
  {
    assert Catchup(s) == Ok(s.(curTick := s.now));
    Coupling.PerformExtends(s.(curTick := s.now), works);
  }

  /** The event loop is entered. */
  lemma EntryStep(b: BridgeState, step: BridgeStep) returns (b1: BridgeState)
    requires Linked(b) && Enabled(b, step) && (step.Enter? || step.External?)
    ensures Next(b, step) == Ok(b1) && Linked(b1)
  {
    if step.Enter? {
      EnterStep(b);
      b1 := b.(loop := b.loop.(enterAt := None), looping := true);
    } else {
      ExternalStep(b);
      b1 := b.(loop := b.loop.(externalAt := None), looping := b.loop.inSimulate && b.loop.queue != []);
    }
  }

  /** No step is fatal, and every step keeps port and loop in agreement. */
  lemma EveryBridgeStep(b: BridgeState, step: BridgeStep) returns (b1: BridgeState)
    requires Linked(b) && Enabled(b, step)
    ensures Next(b, step) == Ok(b1) && Linked(b1)
  {
    if step.Enter? || step.External? {
      b1 := EntryStep(b, step);
    } else if step.Begin? {
      b1 := BeginStep(b, step.cycles);
    } else if step.Leave? {
      b1 := LeaveStep(b);
    } else {
      match step {
        case Router(step, follow) => RouterStep(b, step, follow);
        case Round(accept, script, calls) => RoundStep(b, accept, script, calls);
        case Callback(calls, works) => CallbackStep(b, calls, works);
        case Advance(to) => AdvanceStep(b, to);
      }
      b1 := Next(b, step).value;
    }
  }

  // ---------- runs ----------

  predicate Schedule(b: BridgeState, steps: seq<BridgeStep>)
    decreases |steps|
  {
    steps == [] || (Enabled(b, steps[0]) && (Next(b, steps[0]).Ok? ==> Schedule(Next(b, steps[0]).value, steps[1..])))
  }

  function Run(b: BridgeState, steps: seq<BridgeStep>): (r: Outcome<BridgeState>)
    requires Schedule(b, steps)
    decreases |steps|
  {
    if steps == [] then Ok(b)
    else
      var b1 :- Next(b, steps[0]);
      Run(b1, steps[1..])
  }

  lemma {:induction false} EveryBridgeRun(b: BridgeState, steps: seq<BridgeStep>) returns (b': BridgeState)
    requires Linked(b) && Schedule(b, steps)
    ensures Run(b, steps) == Ok(b') && Linked(b')
    decreases |steps|
  {
    b' := b;
    if steps != [] {
      var b1 := EveryBridgeStep(b, steps[0]);
      b' := EveryBridgeRun(b1, steps[1..]);
    }
  }

  /** The bound port, and gem5 with what has been scheduled while it was set up. */
  function Start(sockets: Routing.SocketMap, ranges: seq<MemRange>, queue: seq<Entry>, now: Time): (r: BridgeState) {
    BridgeState(Runs.Bound(sockets, ranges, now), TimeRuns.Setup(now, queue), false, [], [])
  }

  lemma {:induction false} NothingRaised(lanes: seq<Lane>, ev: PayloadEvent)
    requires forall k :: 0 <= k < |lanes| ==> lanes[k].events == []
    ensures Raised(lanes, ev) == 0
  {
    if lanes != [] {
      NothingRaised(lanes[..|lanes| - 1], ev);
    }
  }

  lemma StartLinked(sockets: Routing.SocketMap, ranges: seq<MemRange>, queue: seq<Entry>, now: Time)
    requires ranges != [] && now <= MAX_TICK && Sorted(queue) && AllFit(queue) && TimeRuns.OwnEvents(queue)
    ensures Linked(Start(sockets, ranges, queue, now))
  {
    var b := Start(sockets, ranges, queue, now);
    Runs.BoundRefines(sockets, ranges, now);
    TimeRuns.SetupInvariant(now, queue);
    TimeRuns.OwnMarks(queue);
    forall x: PayloadEvent
      ensures Balanced(b, [], x)
    {
      NothingRaised(b.port.lanes, x);
    }
  }

  /** pec has been entered for the event as often as notify has been called for it. */
  predicate Settled(b: BridgeState, ev: PayloadEvent) {
    Visited(b.visits, ev) == Noticed(b.notices, ev) && Raised(b.port.lanes, ev) == 0
  }

  lemma PastSettled(b: BridgeState, ev: PayloadEvent)
    requires Linked(b) && b.loop.inSimulate && ev.at < b.loop.now
    ensures Settled(b, ev)
  {
    assert Balanced(b, [], ev);
    MarkMember(b.loop.queue, EventMark(ev));
    assert forall e :: e in b.loop.queue ==> b.loop.now <= e.at;
  }

  /** What holds of the whole in every reachable state. */
  ghost predicate WholeSound(b: BridgeState) {
    && Handshake.Sound(b.port) && LogsOk(b)
    && b.port.curTick == b.loop.curTick <= b.loop.now == b.port.now
    && (forall ev: PayloadEvent :: Noticed(b.notices, ev) == Visited(b.visits, ev) + Raised(b.port.lanes, ev))
    && (b.loop.inSimulate ==> forall ev: PayloadEvent :: ev.at < b.loop.now ==> Settled(b, ev))
  }

  lemma LinkedSound(b: BridgeState)
    requires Linked(b)
    ensures WholeSound(b)
  {
    var pipes :| Refines(b.port, pipes);
    Handshake.RefinesSound(b.port, pipes);
    forall ev: PayloadEvent
      ensures Noticed(b.notices, ev) == Visited(b.visits, ev) + Raised(b.port.lanes, ev)
      ensures b.loop.inSimulate && ev.at < b.loop.now ==> Settled(b, ev)
    {
      assert Balanced(b, [], ev);
      if b.loop.inSimulate && ev.at < b.loop.now {
        PastSettled(b, ev);
      }
    }
  }

  /**
   * What every run of the whole guarantees, from the bound port and the first
   * simulate on, whatever gem5, the memories and the scheduler do: nothing is
   * fatal, and with that no CAUGHT_UP assertion fails; the handshake is sound;
   * gem5 time follows SystemC time; every PayloadEvent is due its delay after it
   * was raised, and pec is entered for it when both clocks show that tick; pec is
   * never entered for what was not raised, nor twice, and inside simulate every
   * event whose tick is over has been handled.
   */
  lemma EveryEventIsHandledOnTime(sockets: Routing.SocketMap, ranges: seq<MemRange>, queue: seq<Entry>, now: Time,
                                  steps: seq<BridgeStep>)
    requires ranges != [] && now <= MAX_TICK && Sorted(queue) && AllFit(queue) && TimeRuns.OwnEvents(queue)
    requires Schedule(Start(sockets, ranges, queue, now), steps)
    ensures var r := Run(Start(sockets, ranges, queue, now), steps);
            r.Ok? && WholeSound(r.value)
  {
    StartLinked(sockets, ranges, queue, now);
    var b := EveryBridgeRun(Start(sockets, ranges, queue, now), steps);
    LinkedSound(b);
  }
}
