/** Whole runs of the event loop under SystemC time, and the exact conditions under which they fail. */
module TimeRuns {
  import opened Common
  import opened Kernel
  import opened BaseProtocol
  import opened Payloads
  import opened EventQueues
  import opened EventLoops
  import opened TimeCoupling

  predicate Admissible(s: LoopState, steps: seq<TimeStep>)
    decreases |steps|
  {
    steps == [] || (Enabled(s, steps[0]) && (Next(s, steps[0]).Ok? ==> Admissible(Next(s, steps[0]).value, steps[1..])))
  }

  function Run(s: LoopState, steps: seq<TimeStep>): (r: Outcome<LoopState>)
    requires Admissible(s, steps)
    decreases |steps|
  {
    if steps == [] then Ok(s)
    else
      var s1 :- Next(s, steps[0]);
      Run(s1, steps[1..])
  }

  lemma {:induction false} EveryTimeRun(s: LoopState, steps: seq<TimeStep>)
    requires Invariant(s) && Admissible(s, steps)
    ensures Run(s, steps).Ok? && Invariant(Run(s, steps).value)
    ensures s.serviced <= Run(s, steps).value.serviced
    decreases |steps|
  {
    if steps != [] {
      EveryTimeStep(s, steps[0]);
      EveryTimeRun(Next(s, steps[0]).value, steps[1..]);
    }
  }

  predicate OwnEvents(q: seq<Entry>) {
    forall i :: 0 <= i < |q| ==> q[i].kind.Own?
  }

  /** Before the first simulate: what gem5 has scheduled while it was set up is on the queue. */
  function Setup(now: Time, queue: seq<Entry>): (r: LoopState) {
    LoopState(now, 0, queue, None, None, None, 0, false, None, 0, queue, [], [], [])
  }

  lemma {:induction false} OwnMarks(q: seq<Entry>)
    requires OwnEvents(q)
    ensures Marks(q) == multiset{}
  {
    if q != [] {
      OwnMarks(q[1..]);
    }
  }

  lemma SetupInvariant(now: Time, queue: seq<Entry>)
    requires now <= MAX_TICK && Sorted(queue) && AllFit(queue) && OwnEvents(queue)
    ensures Invariant(Setup(now, queue))
  {
    OwnMarks(queue);
  }

  /** How often the event has been scheduled, serviced and descheduled. */
  predicate SettledOnce(s: LoopState, e: Entry) {
    && multiset(s.scheduled)[e] == multiset(s.serviced)[e] + multiset(s.cancelled)[e]
    && (e.kind.Payload? ==> multiset(s.cancelled)[e] == 0)
  }

  lemma PastIsSettled(s: LoopState, e: Entry)
    requires Invariant(s) && s.inSimulate && e.at < s.now
    ensures SettledOnce(s, e)
  {
    assert e !in s.queue;
  }

  /** No limit event of an earlier simulate can end a later one. */
  predicate NoStrayLimit(s: LoopState) {
    forall i :: 0 <= i < |s.queue| && s.queue[i].kind.Limit? ==> s.inSimulate && s.queue[i].at == s.limit
  }

  lemma NoStray(s: LoopState)
    requires OnlyLimit(s)
    ensures NoStrayLimit(s)
  {
    forall i | 0 <= i < |s.queue| && s.queue[i].kind.Limit?
      ensures s.inSimulate && s.queue[i].at == s.limit
    {
      MarkMember(s.queue, Mark(Limit, s.queue[i].at));
      assert s.queue[i] in s.queue;
    }
  }

  /**
   * What every run guarantees: nothing is fatal; gem5 time does not lead SystemC
   * time, and inside simulate SystemC time does not pass the next event; every
   * serviced event was serviced when both clocks showed its tick, in order and not
   * after the limit of the simulate it ran in; whatever was scheduled for a tick
   * that is over has been serviced or descheduled, once, and a PayloadEvent has
   * been serviced; and no limit event is left of an earlier simulate.
   */
  lemma NoMissedEvent(now: Time, queue: seq<Entry>, steps: seq<TimeStep>)
    requires now <= MAX_TICK && Sorted(queue) && AllFit(queue) && OwnEvents(queue)
    requires Admissible(Setup(now, queue), steps)
    ensures var r := Run(Setup(now, queue), steps);
            && r.Ok? && Punctual(r.value) && Conserved(r.value) && NoStrayLimit(r.value)
            && r.value.curTick <= r.value.now
            && (r.value.inSimulate ==> AllFrom(r.value.queue, r.value.now) && r.value.now <= r.value.limit)
            && (r.value.inSimulate ==> forall e: Entry :: e.at < r.value.now ==> SettledOnce(r.value, e))
  {
    SetupInvariant(now, queue);
    EveryTimeRun(Setup(now, queue), steps);
    var s := Run(Setup(now, queue), steps).value;
    NoStray(s);
    if s.inSimulate {
      forall e: Entry | e.at < s.now
        ensures SettledOnce(s, e)
      {
        PastIsSettled(s, e);
      }
    }
  }

  /** Until simulate is asked to end, the loop is entered again, and no later than the next event is due. */
  lemma LoopAlive(s: LoopState)
    requires Invariant(s) && s.inSimulate && s.exitAt.None?
    ensures s.queue != []
    ensures exists step: TimeStep ::
              && (step.Enter? || step.External?)
              && (Enabled(s, step)
                  || exists to: Time :: to <= s.queue[0].at && Enabled(s, Advance(to)) && Enabled(s.(now := to), step))
  {
    if s.externalAt == Some(s.now) {
      assert Enabled(s, External);
    } else if s.enterAt == Some(s.now) {
      assert Enabled(s, Enter);
    } else {
      var to := s.enterAt.value;
      if s.externalAt.Some? && s.externalAt.value < to {
        to := s.externalAt.value;
        assert Enabled(s, Advance(to)) && Enabled(s.(now := to), External);
      } else {
        assert Enabled(s, Advance(to)) && Enabled(s.(now := to), Enter);
      }
    }
  }

  // ---------- simulate returns ----------

  /** What the loop does by itself, as opposed to calls from outside. */
  predicate OwnStep(step: TimeStep) {
    step.Enter? || step.External? || step.Advance?
  }

  predicate OwnSteps(steps: seq<TimeStep>) {
    forall i :: 0 <= i < |steps| ==> OwnStep(steps[i])
  }

  /** How far simulate is from its end: the work on the queue, and then the wake-ups that bring no work. */
  function Distance(s: LoopState): (r: nat) {
    4 * QueueWeight(s.queue)
    + (if s.externalAt.Some? then 2 else 0)
    + (if s.queue != [] && s.enterAt == Some(s.queue[0].at) then 0 else 1)
  }

  /** Inside simulate, before an exit event. */
  predicate Running(s: LoopState) {
    Invariant(s) && s.inSimulate && s.exitAt.None?
  }

  /** The loop goes to sleep without having serviced anything. */
  predicate WentBackToSleep(s: LoopState, s': LoopState) {
    && s.queue != [] && s.now < s.queue[0].at && s'.queue == s.queue && s'.externalAt == s.externalAt && s'.exitAt == s.exitAt
    && s'.enterAt == Some(Notify(s.enterAt, s.queue[0].at).value)
  }

  /** After the loop work has been done, or it went back to sleep. */
  lemma LoopNearer(s: LoopState)
    requires InLoop(s)
    ensures s.queue != [] && Loop(s).Ok?
    ensures QueueWeight(Loop(s).value.queue) < QueueWeight(s.queue) || WentBackToSleep(s, Loop(s).value)
  {
    var s1, more := RoundStep(s);
    if more {
      LoopStep(s1);
    }
  }

  lemma LoopDistance(s: LoopState, s0: LoopState, s': LoopState)
    requires s.queue != []
    requires (s.enterAt == Some(s.now) && s0 == s.(enterAt := None)) || (s.externalAt.Some? && s0 == s.(externalAt := None))
    requires QueueWeight(s'.queue) < QueueWeight(s0.queue) || WentBackToSleep(s0, s')
    ensures Distance(s') < Distance(s)
  {
  }

  /** The loop is entered, by either event: the distance gets less, or simulate is asked to end. */
  lemma EnterNearer(s: LoopState, step: TimeStep, s': LoopState)
    requires Running(s) && Enabled(s, step) && (step.Enter? || step.External?) && Next(s, step) == Ok(s')
    ensures Invariant(s') && s'.inSimulate && Distance(s') < Distance(s)
  {
    var s0 := if step.Enter? then s.(enterAt := None) else s.(externalAt := None);
    EnterStep(s, step);
    LoopStep(s0);
    LoopNearer(s0);
    LoopDistance(s, s0, s');
  }

  /** When and by what the loop is entered next. */
  lemma NextEntry(s: LoopState) returns (to: Time, step: TimeStep)
    requires Running(s)
    ensures step.Enter? || step.External?
    ensures to == s.now || Enabled(s, Advance(to))
    ensures Enabled(s.(now := to), step) && Running(s.(now := to)) && Distance(s.(now := to)) == Distance(s)
  {
    if s.externalAt.Some? && (s.enterAt.None? || s.externalAt.value <= s.enterAt.value) {
      to, step := s.externalAt.value, External;
    } else {
      to, step := s.enterAt.value, Enter;
    }
    if to != s.now {
      EveryTimeStep(s, Advance(to));
    }
  }

  lemma {:induction false} RunAppend(s: LoopState, a: seq<TimeStep>, s1: LoopState, b: seq<TimeStep>)
    requires Admissible(s, a) && Run(s, a) == Ok(s1) && Admissible(s1, b)
    ensures Admissible(s, a + b) && Run(s, a + b) == Run(s1, b)
    decreases |a|
  {
    if a == [] {
      assert a + b == b;
    } else {
      RunAppend(Next(s, a[0]).value, a[1..], s1, b);
      assert (a + b)[0] == a[0] && (a + b)[1..] == a[1..] + b;
    }
  }

  lemma OneStep(s: LoopState, step: TimeStep, s': LoopState)
    requires Enabled(s, step) && Next(s, step) == Ok(s')
    ensures Admissible(s, [step]) && Run(s, [step]) == Ok(s')
  {
    assert [step][1..] == [] && Admissible(s', []) && Run(s', []) == Ok(s');
  }

  /** One step more at the end of a run. */
  lemma StepOn(s: LoopState, steps: seq<TimeStep>, s1: LoopState, step: TimeStep, s': LoopState)
    requires Admissible(s, steps) && Run(s, steps) == Ok(s1) && Enabled(s1, step) && Next(s1, step) == Ok(s')
    ensures Admissible(s, steps + [step]) && Run(s, steps + [step]) == Ok(s')
  {
    OneStep(s1, step, s');
    RunAppend(s, steps, s1, [step]);
  }

  /** The next step of the loop's own: it is entered now, or time moves on to when it will be. */
  lemma OwnNext(s: LoopState) returns (steps: seq<TimeStep>, s': LoopState)
    requires Running(s)
    ensures OwnSteps(steps) && 1 <= |steps| <= 2 && Admissible(s, steps) && Run(s, steps) == Ok(s')
    ensures Invariant(s') && s'.inSimulate && Distance(s') < Distance(s)
  {
    var to, step := NextEntry(s);
    var s1 := s.(now := to);
    EveryTimeStep(s1, step);
    s' := Next(s1, step).value;
    EnterNearer(s1, step, s');
    if to == s.now {
      OneStep(s1, step, s');
      steps := [step];
    } else {
      OneStep(s, Advance(to), s1);
      StepOn(s, [Advance(to)], s1, step, s');
      steps := [Advance(to)] + [step];
    }
  }

  /**
   * simulate returns: left alone, the loop comes to an exit event, the limit event
   * at the latest, in a number of steps that the work on the queue bounds; and
   * simulate then finds the exit event.
   */
  lemma {:induction false} SimulateReturns(s: LoopState) returns (steps: seq<TimeStep>, s': LoopState)
    requires Running(s)
    ensures OwnSteps(steps) && |steps| <= 2 * Distance(s) && Admissible(s, steps) && Run(s, steps) == Ok(s')
    ensures Invariant(s') && s'.inSimulate && Enabled(s', Leave) && SimulateEnd(s').Ok?
    decreases Distance(s)
  {
    steps, s' := OwnNext(s);
    if s'.exitAt.None? {
      var more;
      var s1 := s';
      more, s' := SimulateReturns(s1);
      RunAppend(s, steps, s1, more);
      steps := steps + more;
    } else {
      LeaveStep(s');
    }
  }

  // ---------- what simulate cancels ----------

  /** What simulate leaves pending: the entry of the loop, now, and nothing else. */
  predicate OnlyEntryPending(s: LoopState) {
    s.enterAt == Some(s.now) && s.externalAt.None? && s.exitAt.None? && s.exitEvent.None? && s.inSimulate
  }

  /** simulate leaves no old notification and no old exit event, in whatever state it is called. */
  lemma BeginClears(s: LoopState, cycles: nat)
    requires s.curTick <= MAX_TICK
    ensures var s' := SimulateBegin(s, cycles);
            && s'.externalAt.None? && s'.exitAt.None? && s'.exitEvent.None? && s'.inSimulate
            && s'.enterAt.Some? && s'.enterAt.value <= s.now
  {
  }

  /** A module that raises an event, or that calls into gem5, wakes the loop now; a call has gem5 catch up first. */
  lemma CallsWake(s: LoopState, works: Works, h: Handle, phase: Phase, delay: Time, follow: Works)
    ensures var s' := RaisePayloadEvent(s, h, phase, delay, follow); s'.externalAt.Some? && s'.externalAt.value <= s.now
    ensures EnterGem5(s, works).Ok? ==>
              var s' := EnterGem5(s, works).value;
              s'.externalAt.Some? && s'.externalAt.value <= s.now && s'.curTick == s'.now == s.now
  {
    if EnterGem5(s, works).Ok? {
      PerformSame(s.(curTick := s.now), works);
    }
  }

  /** After any run that has left simulate, simulate cancels what earlier calls and events have left pending. */
  lemma BeginCancels(now: Time, queue: seq<Entry>, steps: seq<TimeStep>, cycles: nat)
    requires now <= MAX_TICK && Sorted(queue) && AllFit(queue) && OwnEvents(queue)
    requires Admissible(Setup(now, queue), steps)
    requires var r := Run(Setup(now, queue), steps); r.Ok? ==> Enabled(r.value, Begin(cycles))
    ensures var r := Run(Setup(now, queue), steps);
            && r.Ok? && Next(r.value, Begin(cycles)).Ok?
            && var s' := Next(r.value, Begin(cycles)).value;
               OnlyEntryPending(s') && s'.now == r.value.now && s'.curTick == r.value.curTick
  {
    SetupInvariant(now, queue);
    EveryTimeRun(Setup(now, queue), steps);
  }

  /** None of the jobs, and none that follows them, wakes the queue. */
  predicate WakeFree(ws: Works) {
    match ws
    case Nothing => true
    case Do(job, follow, others) => !job.wakes && WakeFree(follow) && WakeFree(others)
    case Deschedule(_, others) => WakeFree(others)
  }

  predicate AllWakeFree(q: seq<Entry>) {
    forall i :: 0 <= i < |q| ==> WakeFree(q[i].follow)
  }

  lemma WakeFreeInsert(q: seq<Entry>, e: Entry)
    requires AllWakeFree(q) && WakeFree(e.follow)
    ensures AllWakeFree(Insert(q, e))
  {
    forall x | x in Insert(q, e)
      ensures x == e || x in q
    {
      assert x in multiset(Insert(q, e)) && x in multiset(q) + multiset{e};
    }
  }

  lemma WakeFreeRemove(q: seq<Entry>, kind: Kind)
    requires AllWakeFree(q)
    ensures AllWakeFree(Remove(q, kind))
  {
    forall x | x in Remove(q, kind)
      ensures x in q
    {
      RemoveMember(q, kind, x);
    }
  }

  lemma {:induction false} PerformQuiet(s: LoopState, ws: Works)
    requires AllWakeFree(s.queue) && WakeFree(ws)
    ensures AllWakeFree(Perform(s, ws).queue) && Perform(s, ws).externalAt == s.externalAt
    decreases ws
  {
    match ws
    case Nothing =>
    case Do(job, follow, others) =>
      WakeFreeInsert(s.queue, Entry((s.now + job.delay) % TWO64, Own(job.id), job.prio, job.exits, follow));
      PerformQuiet(Schedule(s, job, follow), others);
    case Deschedule(id, others) =>
      WakeFreeRemove(s.queue, Own(id));
      PerformQuiet(Cancel(s, Own(id)), others);
  }

  lemma RoundQuiet(s: LoopState)
    requires s.queue != [] && AllWakeFree(s.queue) && Round(s).Ok?
    ensures AllWakeFree(Round(s).value.0.queue) && Round(s).value.0.externalAt == s.externalAt
  {
    PerformQuiet(Take(WokenEarly(s.(curTick := s.now))), s.queue[0].follow);
  }

  lemma {:induction false} LoopQuiet(s: LoopState)
    requires AllWakeFree(s.queue) && Loop(s).Ok?
    ensures AllWakeFree(Loop(s).value.queue) && Loop(s).value.externalAt == s.externalAt
    decreases QueueWeight(s.queue)
  {
    RoundQuiet(s);
    if Round(s).value.1 {
      LoopQuiet(Round(s).value.0);
    }
  }

  /** Nothing asks for the loop to be entered from outside, and nothing on the queue will. */
  predicate Unasked(s: LoopState) {
    s.externalAt.None? && AllWakeFree(s.queue)
  }

  lemma StepQuiet(s: LoopState, step: TimeStep)
    requires Unasked(s) && Enabled(s, step) && !step.Raise? && !step.Callback? && Next(s, step).Ok?
    ensures !step.External? && Unasked(Next(s, step).value)
  {
    match step
    case Begin(cycles) => WakeFreeInsert(s.queue, LimitEvent(SimulationLimit(s.curTick, cycles)));
    case Enter => LoopQuiet(s.(enterAt := None));
    case Leave => WakeFreeRemove(s.queue, Limit);
    case Advance(_) =>
  }

  /** No module raises an event, and none calls into gem5. */
  predicate NoCalls(steps: seq<TimeStep>) {
    forall i :: 0 <= i < |steps| ==> !steps[i].Raise? && !steps[i].Callback?
  }

  lemma {:induction false} RunQuiet(s: LoopState, steps: seq<TimeStep>)
    requires Unasked(s) && Admissible(s, steps) && NoCalls(steps) && Run(s, steps).Ok?
    ensures Unasked(Run(s, steps).value) && forall i :: 0 <= i < |steps| ==> !steps[i].External?
    decreases |steps|
  {
    if steps != [] {
      StepQuiet(s, steps[0]);
      assert forall i :: 0 <= i < |steps| - 1 ==> steps[1..][i] == steps[i + 1];
      RunQuiet(Next(s, steps[0]).value, steps[1..]);
    }
  }

  /**
   * After simulate has been called the loop is entered by externalSchedulingEvent
   * only if since then an event has been raised, a module has called into gem5, or an
   * event on the queue wakes it.
   */
  lemma ExternalOnlyIfAsked(s: LoopState, cycles: nat, steps: seq<TimeStep>)
    requires Invariant(s) && Enabled(s, Begin(cycles)) && AllWakeFree(s.queue)
    requires Admissible(SimulateBegin(s, cycles), steps) && NoCalls(steps)
    ensures Run(SimulateBegin(s, cycles), steps).Ok? && Run(SimulateBegin(s, cycles), steps).value.externalAt.None?
    ensures forall i :: 0 <= i < |steps| ==> !steps[i].External?
  {
    BeginStep(s, cycles);
    WakeFreeInsert(s.queue, LimitEvent(SimulationLimit(s.curTick, cycles)));
    EveryTimeRun(SimulateBegin(s, cycles), steps);
    RunQuiet(SimulateBegin(s, cycles), steps);
  }

  // ---------- the limit and the other events of its tick ----------

  /**
   * When the limit event is the first of the queue, everything due at its tick or
   * before that has a priority below 100, and so every PayloadEvent with its priority
   * of 0, has been serviced.
   */
  lemma LimitLast(q: seq<Entry>, at: Time, i: nat)
    requires Sorted(q) && q != [] && q[0] == LimitEvent(at) && i < |q|
    ensures q[i].prio < 100 ==> at < q[i].at
    ensures forall h, phase, follow :: q[i] == PayloadEntry(q[i].at, h, phase, follow) ==> at < q[i].at
  {
    assert i > 0 ==> q[1..][i - 1] == q[i];
  }

  // ---------- exact conditions ----------

  /** simulate(n) runs up to n ticks from now, or to the last tick there is. */
  lemma BoundedSimulation(curTick: Time, cycles: nat)
    requires curTick <= MAX_TICK
    ensures var limit := SimulationLimit(curTick, cycles);
            curTick <= limit <= MAX_TICK && limit <= curTick + cycles && (limit == curTick + cycles || limit == MAX_TICK)
  {
  }

  /**
   * The first entry of the event loop after simulate has been called: it succeeds
   * if neither the limit nor anything queued is in the past, and is fatal if not.
   */
  lemma BeginExact(s: LoopState, cycles: nat)
    requires Invariant(s) && !s.inSimulate
    ensures var r := EventLoop(SimulateBegin(s, cycles).(enterAt := None));
            if CanBegin(s, cycles) then r.Ok? else r == Fatal(TimeOrder)
  {
    var s' := SimulateBegin(s, cycles);
    if CanBegin(s, cycles) {
      BeginStep(s, cycles);
      EnterStep(s', Enter);
      LoopStep(s'.(enterAt := None));
    } else {
      var limit := SimulationLimit(s.curTick, cycles);
      BeginQueue(s.queue, limit, s.now);
      var i :| 0 <= i < |s'.queue| && s'.queue[i].at < s.now;
      HeadFirst(s'.queue, i);
      MissedEvent(s'.(enterAt := None));
    }
  }

  /** simulate(0) at time 0, then time moves on by 10 ticks outside simulate, then simulate(5): gem5 time is still 0. */
  lemma SecondSimulateFails() returns (steps: seq<TimeStep>, s: LoopState)
    ensures Admissible(Setup(0, []), steps) && Run(Setup(0, []), steps) == Ok(s)
    ensures s.now == 10 && s.curTick == 0 && !s.inSimulate
    ensures EventLoop(SimulateBegin(s, 5).(enterAt := None)) == Fatal(TimeOrder)
  {
    steps, s := LimitReached();
    var s3 := SimulateEnd(s).value;
    StepOn(Setup(0, []), steps, s, Leave, s3);
    StepOn(Setup(0, []), steps + [Leave], s3, Advance(10), s3.(now := 10));
    steps, s := steps + [Leave] + [Advance(10)], s3.(now := 10);
    SetupInvariant(0, []);
    EveryTimeRun(Setup(0, []), steps);
    BeginExact(s, 5);
  }

  /** simulate(0) at time 0, up to its limit event. */
  lemma LimitReached() returns (steps: seq<TimeStep>, s: LoopState)
    ensures Admissible(Setup(0, []), steps) && Run(Setup(0, []), steps) == Ok(s)
    ensures s.queue == [] && s.now == s.curTick == 0 && s.exitAt == Some(0) && s.externalAt.None? && s.enterAt.None?
    ensures s.inSimulate && s.exitEvent == Some(LimitEvent(0))
  {
    var s1 := SimulateBegin(Setup(0, []), 0);
    assert s1.queue == [LimitEvent(0)];
    OneStep(Setup(0, []), Begin(0), s1);
    s := EventLoop(s1.(enterAt := None)).value;
    StepOn(Setup(0, []), [Begin(0)], s1, Enter, s);
    steps := [Begin(0)] + [Enter];
  }

  /** A PayloadEvent whose tick wraps around at 64 bits is in the past, and the next entry of the loop is fatal; else it is not. */
  lemma RaiseExact(s: LoopState, h: Handle, phase: Phase, delay: Time)
    requires Running(s) && delay < TWO64
    ensures var r := Loop(RaisePayloadEvent(s, h, phase, delay, Nothing));
            if s.now + delay < TWO64 then r.Ok? else r == Fatal(TimeOrder)
  {
    var s' := RaisePayloadEvent(s, h, phase, delay, Nothing);
    if s.now + delay < TWO64 {
      RaiseStep(s, h, phase, delay, Nothing);
      LoopStep(s');
    } else {
      WrappedHead(s, h, phase, delay);
      MissedEvent(s');
    }
  }

  lemma WrappedHead(s: LoopState, h: Handle, phase: Phase, delay: Time)
    requires Running(s) && delay < TWO64 <= s.now + delay
    ensures var q := RaisePayloadEvent(s, h, phase, delay, Nothing).queue; q != [] && q[0].at < s.now
  {
    Wraps(s.now, delay);
    HeadNotAfter(s.queue, PayloadEntry(s.now + delay - TWO64, h, phase, Nothing));
  }

  lemma Wraps(now: Time, delay: Time)
    requires now < TWO64 && delay < TWO64 <= now + delay
    ensures (now + delay) % TWO64 == now + delay - TWO64
  {
  }

  lemma HeadNotAfter(q: seq<Entry>, e: Entry)
    ensures Insert(q, e) != [] && Insert(q, e)[0].at <= e.at
  {
  }

  /** A PayloadEvent that does not wrap around: in whatever run, once its tick is over inside simulate it has been serviced. */
  lemma RaisedIsServiced(s: LoopState, h: Handle, phase: Phase, delay: Time, follow: Works, steps: seq<TimeStep>)
    requires Invariant(s) && Enabled(s, Raise(h, phase, delay, follow))
    requires Admissible(RaisePayloadEvent(s, h, phase, delay, follow), steps)
    ensures var e, r := PayloadEntry(s.now + delay, h, phase, follow), Run(RaisePayloadEvent(s, h, phase, delay, follow), steps);
            && r.Ok? && e in r.value.scheduled
            && (r.value.inSimulate && e.at < r.value.now ==>
                 multiset(r.value.serviced)[e] == multiset(r.value.scheduled)[e] > 0)
  {
    RaiseStep(s, h, phase, delay, follow);
    RaisedAs(s, h, phase, delay, follow);
    var e := PayloadEntry(s.now + delay, h, phase, follow);
    var s1 := RaisePayloadEvent(s, h, phase, delay, follow);
    assert s1.scheduled[|s.scheduled|] == e;
    EveryTimeRun(s1, steps);
    ScheduledGrows(s1, steps);
    var r := Run(s1, steps).value;
    if r.inSimulate && e.at < r.now {
      PastIsSettled(r, e);
    }
  }

  lemma {:induction false} PerformGrows(s: LoopState, ws: Works)
    ensures s.scheduled <= Perform(s, ws).scheduled
    decreases ws
  {
    match ws
    case Nothing =>
    case Do(job, follow, others) => PerformGrows(Schedule(s, job, follow), others);
    case Deschedule(id, others) => PerformGrows(Cancel(s, Own(id)), others);
  }

  lemma {:induction false} LoopGrows(s: LoopState)
    requires Loop(s).Ok?
    ensures s.scheduled <= Loop(s).value.scheduled
    decreases QueueWeight(s.queue)
  {
    RoundGrows(s);
    if Round(s).value.1 {
      LoopGrows(Round(s).value.0);
    }
  }

  lemma RoundGrows(s: LoopState)
    requires s.queue != [] && Round(s).Ok?
    ensures s.scheduled <= Round(s).value.0.scheduled
  {
    PerformGrows(Take(WokenEarly(s.(curTick := s.now))), s.queue[0].follow);
  }

  lemma StepGrows(s: LoopState, step: TimeStep)
    requires Enabled(s, step) && Next(s, step).Ok?
    ensures s.scheduled <= Next(s, step).value.scheduled
  {
    match step
    case Enter => LoopGrows(s.(enterAt := None));
    case External =>
      if s.inSimulate && s.queue != [] {
        LoopGrows(s.(externalAt := None));
      }
    case Callback(works) => PerformGrows(Catchup(s).value, works);
    case Begin(_) =>
    case Leave =>
    case Raise(_, _, _, _) =>
    case Advance(_) =>
  }

  lemma {:induction false} ScheduledGrows(s: LoopState, steps: seq<TimeStep>)
    requires Admissible(s, steps) && Run(s, steps).Ok?
    ensures s.scheduled <= Run(s, steps).value.scheduled
    decreases |steps|
  {
    if steps != [] {
      StepGrows(s, steps[0]);
      ScheduledGrows(Next(s, steps[0]).value, steps[1..]);
    }
  }

  // ---------- between an exit event and the return of simulate ----------

  /**
   * The loop is entered once more before simulate returns, and nothing due
   * deschedules anything: it runs out of events unless something queued leads to an
   * exit or to something for later, and simulate then finds an exit event if and
   * only if nothing was due or what was due leads to an exit now.
   */
  lemma ReentryExact(s: LoopState)
    requires Invariant(s) && s.inSimulate && s.exitAt.Some? && NoDrops(s.queue, s.now)
    ensures var r := EventLoop(s.(externalAt := None));
            && (r.Ok? <==> CanHalt(s.queue, s.now)) && (r.Fatal? ==> r == Fatal(OutOfEvents))
            && (r.Ok? ==> s.queue != [] && (SimulateEnd(r.value).Ok? <==> CanReenter(s)))
  {
    var s0 := s.(externalAt := None);
    LoopSound(s0);
    if Loop(s0).Ok? {
      LoopExitEvent(s0);
      if s.now < s.queue[0].at {
        NothingExits(s.queue, s.now);
      }
    }
  }

  /** One PayloadEvent more at the end of a run. */
  lemma RaiseOn(s0: LoopState, steps: seq<TimeStep>, s: LoopState, h: Handle, phase: Phase, delay: Time)
    returns (steps': seq<TimeStep>, s': LoopState)
    requires Admissible(s0, steps) && Run(s0, steps) == Ok(s) && s.now + delay <= MAX_TICK
    ensures Admissible(s0, steps') && Run(s0, steps') == Ok(s')
    ensures s' == Enqueue(NotifyExternal(s), PayloadEntry(s.now + delay, h, phase, Nothing))
  {
    RaisedAs(s, h, phase, delay, Nothing);
    s' := RaisePayloadEvent(s, h, phase, delay, Nothing);
    StepOn(s0, steps, s, Raise(h, phase, delay, Nothing), s');
    steps' := steps + [Raise(h, phase, delay, Nothing)];
  }

  /** After the limit event, and before simulate returns, a module raises a PayloadEvent that is due at once, and maybe a later one. */
  lemma RaisedAtTheEnd(h: Handle, phase: Phase, later: bool) returns (steps: seq<TimeStep>, s: LoopState)
    ensures Admissible(Setup(0, []), steps) && Run(Setup(0, []), steps) == Ok(s)
    ensures s.externalAt == Some(s.now) && s.exitAt.Some? && s.now == s.curTick == 0 && s.inSimulate
    ensures s.queue == [PayloadEntry(0, h, phase, Nothing)] + if later then [PayloadEntry(5, h, phase, Nothing)] else []
  {
    steps, s := LimitReached();
    if later {
      steps, s := RaiseOn(Setup(0, []), steps, s, h, phase, 5);
      assert s.queue == [PayloadEntry(5, h, phase, Nothing)];
    }
    steps, s := RaiseOn(Setup(0, []), steps, s, h, phase, 0);
  }

  /**
   * The limit event does not protect a loop that is entered once more before
   * simulate returns: a run in which it then runs out of events.
   */
  lemma ReentryRunsDry(h: Handle, phase: Phase) returns (steps: seq<TimeStep>, s: LoopState)
    ensures Admissible(Setup(0, []), steps) && Run(Setup(0, []), steps) == Ok(s)
    ensures s.externalAt == Some(s.now) && ServiceExternalEvent(s.(externalAt := None)) == Fatal(OutOfEvents)
  {
    steps, s := RaisedAtTheEnd(h, phase, false);
    SetupInvariant(0, []);
    EveryTimeRun(Setup(0, []), steps);
    ReentryExact(s);
  }

  /** A run in which the loop, entered once more, overwrites the exit event that simulate is to find. */
  lemma ReentryLosesExit(h: Handle, phase: Phase) returns (steps: seq<TimeStep>, s: LoopState)
    ensures Admissible(Setup(0, []), steps) && Run(Setup(0, []), steps) == Ok(s)
    ensures s.externalAt == Some(s.now) && ServiceExternalEvent(s.(externalAt := None)).Ok?
    ensures SimulateEnd(ServiceExternalEvent(s.(externalAt := None)).value) == Fatal(NoExitEvent)
  {
    steps, s := RaisedAtTheEnd(h, phase, true);
    SetupInvariant(0, []);
    EveryTimeRun(Setup(0, []), steps);
    assert Halting(s.queue[1], s.now);
    assert !CanReenter(s) by {
      assert forall i :: 0 <= i < |s.queue| ==> !Exiting(s.queue[i], s.now);
    }
    ReentryExact(s);
  }
}
