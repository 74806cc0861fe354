/** gem5 time follows SystemC time, and no event is ever missed. */
module TimeCoupling {
  import opened Common
  import opened Kernel
  import opened BaseProtocol
  import opened Payloads
  import opened EventQueues
  import opened EventLoops

  // ---------- what holds of a state ----------

  predicate NotPast(pending: Option<Time>, now: Time) {
    pending.Some? ==> now <= pending.value
  }

  /** gem5 time, SystemC time and the queue are in order. */
  predicate Ready(s: LoopState) {
    && s.curTick <= s.now <= MAX_TICK
    && Sorted(s.queue) && AllFit(s.queue) && AllFrom(s.queue, s.now)
  }

  predicate Pending(s: LoopState) {
    && NotPast(s.enterAt, s.now) && NotPast(s.externalAt, s.now)
    && (s.exitAt.Some? ==> s.exitAt.value == s.now)
  }

  /** Every serviced event was serviced when both clocks showed its tick, in order, and not after the limit. */
  predicate Punctual(s: LoopState) {
    && |s.clocks| == |s.serviced|
    && (forall i :: 0 <= i < |s.serviced| ==>
          s.clocks[i].now == s.clocks[i].tick == s.serviced[i].at && s.serviced[i].at <= s.clocks[i].limit)
    && (forall i, j :: 0 <= i < j < |s.serviced| ==> s.serviced[i].at <= s.serviced[j].at)
    && (forall i :: 0 <= i < |s.serviced| ==> s.serviced[i].at <= s.now)
  }

  /** What was scheduled has been serviced, or descheduled, or is on the queue, once; PayloadEvents are not descheduled. */
  predicate Conserved(s: LoopState) {
    && multiset(s.scheduled) == multiset(s.serviced) + multiset(s.cancelled) + multiset(s.queue)
    && forall x :: x in s.cancelled ==> !x.kind.Payload?
  }

  /** The limit event on the queue is the one of the current simulate, if there is one, and is there once. */
  predicate OnlyLimit(s: LoopState) {
    && (forall m :: m in Marks(s.queue) && m.kind.Limit? ==> s.inSimulate && m.at == s.limit)
    && Marks(s.queue)[Mark(Limit, s.limit)] <= (if s.exitEvent.Some? && s.exitEvent.value.kind.Limit? then 0 else 1)
  }

  /** Order in time, punctuality and conservation. */
  predicate Sound(s: LoopState) {
    Ready(s) && Pending(s) && Punctual(s) && Conserved(s) && OnlyLimit(s) && s.now <= s.limit
  }

  /** Something will enter the event loop before the first event of the queue is due, or the simulation ends now. */
  predicate Awake(s: LoopState) {
    || s.exitAt.Some?
    || (s.queue != [] && (s.externalAt == Some(s.now) || (s.enterAt.Some? && s.enterAt.value <= s.queue[0].at)))
  }

  /** The limit event is queued until an exit event has been serviced, and simulate finds that event when it returns. */
  predicate Ending(s: LoopState) {
    if s.exitAt.None? then LimitEvent(s.limit) in s.queue else s.exitEvent.Some?
  }

  predicate Invariant(s: LoopState) {
    && Punctual(s) && Conserved(s) && Pending(s) && OnlyLimit(s)
    && s.curTick <= s.now <= MAX_TICK && Sorted(s.queue) && AllFit(s.queue)
    && if s.inSimulate then Sound(s) && Awake(s) && Ending(s) else s.enterAt.None? && s.exitAt.None?
  }

  // ---------- what handlers do to the queue ----------

  /** s' is s with events of gem5's own put on the queue, none of them in the past, and others taken off. */
  predicate Extends(s: LoopState, s': LoopState) {
    && s' == s.(queue := s'.queue, externalAt := s'.externalAt, scheduled := s'.scheduled, cancelled := s'.cancelled)
    && (s'.externalAt == s.externalAt || s'.externalAt == Notify(s.externalAt, s.now))
    && (forall x :: x in s.queue && !x.kind.Own? ==> x in s'.queue)
    && Marks(s'.queue) == Marks(s.queue)
    && Sorted(s'.queue) && AllFit(s'.queue)
    && (AllFrom(s.queue, s.now) ==> AllFrom(s'.queue, s.now))
    && (Conserved(s) ==> Conserved(s'))
  }

  /** What the work does to the outlook of the loop; without descheduling nothing is lost. */
  predicate Outlook(s: LoopState, s': LoopState, ws: Works) {
    && (CanHalt(s'.queue, s.now) ==> Halts(ws) || CanHalt(s.queue, s.now))
    && (Anchored(s.queue, s.now) ==> Anchored(s'.queue, s.now))
    && (DropFree(ws) ==>
          && (CanHalt(s'.queue, s.now) <==> Halts(ws) || CanHalt(s.queue, s.now))
          && (ExitsNow(s'.queue, s.now) <==> Exits(ws) || ExitsNow(s.queue, s.now))
          && (NoDrops(s.queue, s.now) ==> NoDrops(s'.queue, s.now)))
  }

  lemma EnqueueConserves(s: LoopState, e: Entry)
    requires Conserved(s)
    ensures Conserved(Enqueue(s, e))
  {
  }

  lemma CancelConserves(s: LoopState, kind: Kind)
    requires Conserved(s) && !kind.Payload?
    ensures Conserved(Cancel(s, kind))
  {
    RemoveSplits(s.queue, kind);
    var s' := Cancel(s, kind);
    assert multiset(s'.cancelled) == multiset(s.cancelled) + multiset(Removed(s.queue, kind));
  }

  /** Without a wrap-around the event goes to its proper tick. */
  lemma InTime(now: Time, delay: Time)
    requires now + delay <= MAX_TICK
    ensures (now + delay) % TWO64 == now + delay
  {
  }

  lemma EnqueueExtends(s: LoopState, s0: LoopState, e: Entry)
    requires Sorted(s.queue) && AllFit(s.queue) && e.kind.Own? && s.now <= e.at <= MAX_TICK && Fits(e.follow, e.at)
    requires s0 == s || s0 == NotifyExternal(s)
    ensures Extends(s, Enqueue(s0, e))
  {
    InsertKeeps(s.queue, e, Insert(s.queue, e), s.now);
    if Conserved(s) {
      EnqueueConserves(s0, e);
    }
  }

  /** The event that a job becomes, without a wrap-around. */
  function EntryOf(now: Time, job: Job, follow: Works): (r: Entry) {
    Entry(now + job.delay, Own(job.id), job.prio, job.exits, follow)
  }

  lemma ScheduledAs(s: LoopState, job: Job, follow: Works)
    requires s.now + job.delay <= MAX_TICK
    ensures Schedule(s, job, follow) == Enqueue(if job.wakes then NotifyExternal(s) else s, EntryOf(s.now, job, follow))
  {
    InTime(s.now, job.delay);
  }

  lemma ScheduleExtends(s: LoopState, job: Job, follow: Works)
    requires Sorted(s.queue) && AllFit(s.queue)
    requires s.now + job.delay <= MAX_TICK && Fits(follow, s.now + job.delay)
    ensures Extends(s, Schedule(s, job, follow))
  {
    ScheduledAs(s, job, follow);
    EnqueueExtends(s, if job.wakes then NotifyExternal(s) else s, EntryOf(s.now, job, follow));
  }

  lemma CancelExtends(s: LoopState, id: nat)
    requires Sorted(s.queue) && AllFit(s.queue)
    ensures Extends(s, Cancel(s, Own(id)))
  {
    RemoveKeeps(s.queue, Own(id), Remove(s.queue, Own(id)), s.now);
    assert Marks(Removed(s.queue, Own(id))) == multiset{} by {
      NoMarks(Removed(s.queue, Own(id)));
    }
    if Conserved(s) {
      CancelConserves(s, Own(id));
    }
  }

  lemma NoMarks(q: seq<Entry>)
    requires |q| <= 1 && (q != [] ==> q[0].kind.Own?)
    ensures Marks(q) == multiset{}
  {
  }

  lemma ExtendsTrans(s: LoopState, s1: LoopState, s': LoopState)
    requires Extends(s, s1) && Extends(s1, s')
    ensures Extends(s, s')
  {
  }

  lemma ScheduleOutlook(s: LoopState, job: Job, follow: Works, now: Time)
    requires now == s.now && s.now + job.delay <= MAX_TICK
    ensures var q := Schedule(s, job, follow).queue;
            && (CanHalt(q, now) <==> job.delay > 0 || job.exits || Halts(follow) || CanHalt(s.queue, now))
            && (ExitsNow(q, now) <==> (job.delay == 0 && (job.exits || Exits(follow))) || ExitsNow(s.queue, now))
            && (NoDrops(s.queue, now) && DropFree(follow) ==> NoDrops(q, now))
            && (Anchored(s.queue, now) ==> Anchored(q, now))
  {
    ScheduledAs(s, job, follow);
    InsertHalt(s.queue, EntryOf(now, job, follow), now);
  }

  lemma {:induction false} PerformOutlook(s: LoopState, ws: Works)
    requires Fits(ws, s.now)
    ensures Outlook(s, Perform(s, ws), ws)
    decreases ws
  {
    match ws
    case Nothing =>
    case Do(job, follow, others) =>
      ScheduleOutlook(s, job, follow, s.now);
      PerformOutlook(Schedule(s, job, follow), others);
    case Deschedule(id, others) =>
      RemoveHalt(s.queue, Own(id), s.now);
      PerformOutlook(Cancel(s, Own(id)), others);
  }

  lemma {:induction false} PerformExtends(s: LoopState, ws: Works)
    requires Sorted(s.queue) && AllFit(s.queue) && Fits(ws, s.now)
    ensures Extends(s, Perform(s, ws))
    decreases ws
  {
    match ws
    case Nothing =>
    case Do(job, follow, others) =>
      var s1 := Schedule(s, job, follow);
      ScheduleExtends(s, job, follow);
      PerformExtends(s1, others);
      ExtendsTrans(s, s1, Perform(s, ws));
    case Deschedule(id, others) =>
      var s1 := Cancel(s, Own(id));
      CancelExtends(s, id);
      PerformExtends(s1, others);
      ExtendsTrans(s, s1, Perform(s, ws));
  }

  // ---------- one round of the event loop ----------

  lemma TakeKeeps(s: LoopState)
    requires Sound(s) && s.queue != [] && s.queue[0].at == s.now
    ensures Ready(Take(s)) && Pending(Take(s)) && Punctual(Take(s)) && Conserved(Take(s)) && Fits(s.queue[0].follow, s.now)
    ensures forall e :: e in s.queue && e != s.queue[0] ==> e in Take(s).queue
    ensures Marks(s.queue) == MarkOf(s.queue[0]) + Marks(Take(s).queue)
  {
    assert s.queue == [s.queue[0]] + s.queue[1..];
    assert Fits(s.queue[0].follow, s.queue[0].at);
  }

  lemma LimitTaken(s: LoopState, s1: LoopState)
    requires OnlyLimit(s) && s.queue != [] && s1.inSimulate == s.inSimulate && s1.limit == s.limit
    requires Marks(s.queue) == MarkOf(s.queue[0]) + Marks(s1.queue)
    requires s1.exitEvent == None || s1.exitEvent == s.exitEvent || s1.exitEvent == Some(s.queue[0])
    ensures OnlyLimit(s1)
  {
    if s1.exitEvent == Some(s.queue[0]) && s.queue[0].kind.Limit? {
      assert MarkOf(s.queue[0]) == multiset{Mark(Limit, s.queue[0].at)};
      assert Mark(Limit, s.queue[0].at) in Marks(s.queue);
    }
  }

  /** A new state of the loop, from the same simulate at the same time. */
  predicate Continues(s: LoopState, s': LoopState) {
    && Sound(s') && s'.now == s.now == s'.curTick && s'.limit == s.limit && s'.inSimulate == s.inSimulate
    && s.serviced <= s'.serviced && QueueWeight(s'.queue) <= QueueWeight(s.queue)
    && (forall e :: e in s.queue && !e.kind.Own? && !e.exits ==> e in s'.queue || e in s'.serviced)
  }

  /** The first event, which was due now, has been serviced. */
  predicate Serves(s: LoopState, s1: LoopState) {
    && s.queue != [] && s.queue[0].at == s.now
    && s1.now == s.now == s1.curTick && s1.limit == s.limit && s1.inSimulate == s.inSimulate && s1.enterAt == s.enterAt
    && s1.serviced == s.serviced + [s.queue[0]] && QueueWeight(s1.queue) < QueueWeight(s.queue)
    && Ready(s1) && Punctual(s1) && Conserved(s1) && OnlyLimit(s1)
    && NotPast(s1.externalAt, s1.now)
    && Marks(s.queue) == MarkOf(s.queue[0]) + Marks(s1.queue)
    && (forall e :: e in s.queue && e != s.queue[0] && !e.kind.Own? ==> e in s1.queue)
  }

  /** What Take establishes, the handler keeps. */
  lemma PerformKeeps(s: LoopState, s0: LoopState, s1: LoopState)
    requires Sound(s) && s.queue != [] && s.queue[0].at == s.now && s0 == Take(s) && Extends(s0, s1)
    requires QueueWeight(s1.queue) < QueueWeight(s.queue)
    ensures Serves(s, s1) && s1.exitAt == s.exitAt && s1.exitEvent == s.exitEvent
  {
    TakeKeeps(s);
    LimitTaken(s, s1);
  }

  lemma ServiceOneKeeps(s: LoopState, s1: LoopState)
    requires Sound(s) && s.queue != [] && s.queue[0].at == s.now && s1 == ServiceOne(s)
    ensures Serves(s, s1) && s1.exitAt == s.exitAt && s1.exitEvent == s.exitEvent
    ensures Outlook(Take(s), s1, s.queue[0].follow)
  {
    TakeKeeps(s);
    PerformExtends(Take(s), s.queue[0].follow);
    PerformOutlook(Take(s), s.queue[0].follow);
    PerformKeeps(s, Take(s), s1);
  }

  /** The three ways in which a round can end, with the clocks and the queue in order. */
  predicate RoundOk(s: LoopState, s1: LoopState, more: bool) {
    s.queue != [] &&
    if s.now < s.queue[0].at then
      && !more && s1 == s.(curTick := s.now, waitExitTime := s1.waitExitTime, enterAt := s1.enterAt)
      && s1.enterAt == Some(Notify(s.enterAt, s.queue[0].at).value)
    else
      && Serves(s, s1) && more == !s.queue[0].exits
      && s1.exitEvent == (if s.queue[0].exits then Some(s.queue[0]) else None)
      && s1.exitAt == (if s.queue[0].exits then Some(s.now) else s.exitAt)
  }

  /** A round, with the clocks and the queue in order. */
  lemma RoundCases(s: LoopState)
    requires Ready(s) && s.queue != []
    ensures var s2, next := WokenEarly(s.(curTick := s.now)), s.queue[0];
            Round(s) == Ok(if s.now < next.at then (Sleep(s2), false)
                           else if next.exits then (ServiceOne(s2).(exitEvent := Some(next), exitAt := Notify(s.exitAt, s.now)), false)
                           else (ServiceOne(s2).(exitEvent := None), true))
  {
    var s2 := WokenEarly(s.(curTick := s.now));
    assert Catchup(s) == Ok(s.(curTick := s.now));
    if s.now == s.queue[0].at {
      PerformSame(Take(s2), s.queue[0].follow);
    }
  }

  lemma {:induction false} PerformSame(s: LoopState, ws: Works)
    ensures Perform(s, ws).now == s.now && Perform(s, ws).curTick == s.curTick
    ensures Perform(s, ws).exitAt == s.exitAt && Perform(s, ws).waitExitTime == s.waitExitTime
    decreases ws
  {
    match ws
    case Nothing =>
    case Do(job, follow, others) => PerformSame(Schedule(s, job, follow), others);
    case Deschedule(id, others) => PerformSame(Cancel(s, Own(id)), others);
  }

  /** A loop that goes to sleep notes when it means to wake; one that was woken before that time corrects the note. */
  lemma WaitExact(s: LoopState)
    requires Ready(s) && s.queue != []
    ensures Round(s).Ok?
    ensures Round(s).value.0.waitExitTime ==
              if s.now < s.queue[0].at then s.queue[0].at else if s.now < s.waitExitTime then s.now else s.waitExitTime
  {
    RoundCases(s);
    PerformSame(Take(WokenEarly(s.(curTick := s.now))), s.queue[0].follow);
  }

  lemma ExitRound(s: LoopState, s2: LoopState, s1: LoopState, exitEvent: Option<Entry>, exitAt: Option<Time>)
    requires Serves(s2, s1) && s1.exitEvent == s2.exitEvent && OnlyLimit(s2)
    requires s2 == s.(curTick := s.now, waitExitTime := s2.waitExitTime)
    requires exitEvent == (if s.queue[0].exits then Some(s.queue[0]) else None)
    ensures Serves(s, s1.(exitEvent := exitEvent, exitAt := exitAt))
  {
    LimitTaken(s2, s1.(exitEvent := exitEvent, exitAt := exitAt));
  }

  lemma RoundSound(s: LoopState) returns (s1: LoopState, more: bool)
    requires Sound(s) && s.queue != []
    ensures Round(s) == Ok((s1, more)) && RoundOk(s, s1, more)
    ensures s.now == s.queue[0].at ==> Outlook(Take(s), s1, s.queue[0].follow)
  {
    RoundCases(s);
    s1, more := Round(s).value.0, Round(s).value.1;
    if s.now == s.queue[0].at {
      ServedRound(s, s1);
    }
  }

  lemma ServedRound(s: LoopState, s1: LoopState)
    requires Sound(s) && s.queue != [] && s.now == s.queue[0].at
    requires s1 == ServiceOne(WokenEarly(s.(curTick := s.now))).(exitEvent := s1.exitEvent, exitAt := s1.exitAt)
    requires s1.exitEvent == (if s.queue[0].exits then Some(s.queue[0]) else None)
    ensures Serves(s, s1) && Outlook(Take(s), s1, s.queue[0].follow)
    ensures ServiceOne(WokenEarly(s.(curTick := s.now))).exitAt == s.exitAt
  {
    var s2 := WokenEarly(s.(curTick := s.now));
    ServiceOneKeeps(s2, ServiceOne(s2));
    ExitRound(s, s2, ServiceOne(s2), s1.exitEvent, s1.exitAt);
  }

  lemma RoundContinues(s: LoopState, s1: LoopState, more: bool)
    requires Sound(s) && RoundOk(s, s1, more)
    ensures Sound(s1) && Continues(s, s1)
  {
  }

  /** An event in the past is always noticed. */
  lemma MissedEvent(s: LoopState)
    requires s.curTick <= s.now && s.queue != [] && s.queue[0].at < s.now
    ensures Loop(s) == Fatal(TimeOrder)
  {
  }

  // ---------- the outcome of the loop ----------

  /** What a round that services an event leaves of the outlook. */
  lemma OutlookOf(s: LoopState, s1: LoopState, more: bool)
    requires RoundOk(s, s1, more) && more && Outlook(Take(s), s1, s.queue[0].follow)
    ensures CanHalt(s1.queue, s.now) ==> CanHalt(s.queue, s.now)
    ensures Anchored(s.queue, s.now) ==> Anchored(s1.queue, s.now)
    ensures NoDrops(s.queue, s.now) ==>
              && (CanHalt(s.queue, s.now) <==> CanHalt(s1.queue, s.now))
              && (ExitsNow(s.queue, s.now) <==> ExitsNow(s1.queue, s.now))
              && NoDrops(s1.queue, s.now)
  {
    HeadHalt(s.queue, s.now);
  }

  /** What the event loop leaves behind. */
  predicate Looped(s: LoopState, s': LoopState) {
    && Continues(s, s')
    && ((s'.exitAt == Some(s.now) && s'.exitEvent.Some?) || Asleep(s, s'))
  }

  /** No exit has been serviced, everything due has been, and the loop comes back for the next event. */
  predicate Asleep(s: LoopState, s': LoopState) {
    && s'.exitAt == s.exitAt
    && s'.queue != [] && s.now < s'.queue[0].at && s'.enterAt.Some? && s'.enterAt.value <= s'.queue[0].at
    && (forall e :: e in s.queue && !e.kind.Own? && e.exits ==> e in s'.queue)
  }

  lemma RoundLooped(s: LoopState, s1: LoopState)
    requires Sound(s) && RoundOk(s, s1, false)
    ensures Looped(s, s1)
  {
    RoundContinues(s, s1, false);
  }

  lemma LoopedTrans(s: LoopState, s1: LoopState, s': LoopState)
    requires Sound(s) && RoundOk(s, s1, true) && Looped(s1, s')
    ensures Looped(s, s')
  {
    assert s.queue[0] in s1.serviced;
    assert s.queue[0] in s'.serviced;
  }

  /**
   * With the clocks and the queue in order the event loop is never fatal about
   * time. It does not run out of events while an event that no handler can
   * deschedule exits or is for later; it returns only if something queued leads to
   * an exit or to an event for later, and if nothing due deschedules anything it
   * returns exactly then.
   */
  lemma {:induction false} LoopSound(s: LoopState)
    requires Sound(s)
    ensures if Loop(s).Ok? then Looped(s, Loop(s).value) else Loop(s) == Fatal(OutOfEvents)
    ensures Anchored(s.queue, s.now) ==> Loop(s).Ok?
    ensures Loop(s).Ok? ==> CanHalt(s.queue, s.now)
    ensures NoDrops(s.queue, s.now) ==> (Loop(s).Ok? <==> CanHalt(s.queue, s.now))
    decreases QueueWeight(s.queue)
  {
    if s.queue != [] {
      var s1, more := RoundSound(s);
      RoundContinues(s, s1, more);
      if more {
        OutlookOf(s, s1, more);
        LoopSound(s1);
        if Loop(s).Ok? {
          LoopedTrans(s, s1, Loop(s).value);
        }
      } else {
        HeadHalt(s.queue, s.now);
        RoundLooped(s, s1);
      }
    }
  }

  /**
   * Which exit event simulate will find: the one it found before if nothing was
   * due, and otherwise one if and only if what was due leads to an exit now.
   */
  lemma {:induction false} LoopExitEvent(s: LoopState)
    requires Sound(s) && Loop(s).Ok? && NoDrops(s.queue, s.now)
    ensures s.queue != []
    ensures if s.now < s.queue[0].at then Loop(s).value.exitEvent == s.exitEvent
            else Loop(s).value.exitEvent.Some? <==> ExitsNow(s.queue, s.now)
    decreases QueueWeight(s.queue)
  {
    var s1, more := RoundSound(s);
    RoundContinues(s, s1, more);
    HeadHalt(s.queue, s.now);
    if more {
      OutlookOf(s, s1, more);
      LoopExitEvent(s1);
      if s1.now < s1.queue[0].at {
        NothingExits(s1.queue, s.now);
      }
    }
  }

  lemma NothingExits(q: seq<Entry>, now: Time)
    requires Sorted(q) && q != [] && now < q[0].at
    ensures !ExitsNow(q, now)
  {
    forall i | 0 <= i < |q|
      ensures !Exiting(q[i], now)
    {
      HeadFirst(q, i);
    }
  }

  // ---------- inside the loop ----------

  /** Entered again between an exit event and the return of simulate, the loop must come to an exit once more, or find nothing due. */
  predicate CanReenter(s: LoopState) {
    s.exitAt.Some? ==> s.queue != [] && (s.now < s.queue[0].at || (NoDrops(s.queue, s.now) && ExitsNow(s.queue, s.now)))
  }

  /** Somewhere in the while loop, before a round. */
  predicate InLoop(s: LoopState) {
    && Sound(s) && s.inSimulate
    && if s.exitAt.None? then LimitEvent(s.limit) in s.queue
       else s.queue != [] && ((s.now < s.queue[0].at && s.exitEvent.Some?) || (NoDrops(s.queue, s.now) && ExitsNow(s.queue, s.now)))
  }

  lemma RoundEnds(s: LoopState, s1: LoopState)
    requires InLoop(s) && RoundOk(s, s1, false) && Sound(s1)
    ensures Invariant(s1)
  {
    if s.now == s.queue[0].at {
    } else if s.exitAt.Some? && s.exitEvent.None? {
      NothingExits(s.queue, s.now);
    }
  }

  lemma RoundGoesOn(s: LoopState, s1: LoopState)
    requires InLoop(s) && RoundOk(s, s1, true) && Sound(s1) && Outlook(Take(s), s1, s.queue[0].follow)
    ensures InLoop(s1)
  {
    if s.exitAt.Some? {
      OutlookOf(s, s1, true);
    }
  }

  /** A round from within the loop: the loop goes on, or leaves everything in order. */
  lemma RoundStep(s: LoopState) returns (s1: LoopState, more: bool)
    requires InLoop(s)
    ensures s.queue != [] && Round(s) == Ok((s1, more)) && RoundOk(s, s1, more) && Continues(s, s1)
    ensures if more then InLoop(s1) else Invariant(s1)
  {
    s1, more := RoundSound(s);
    RoundContinues(s, s1, more);
    if more {
      RoundGoesOn(s, s1);
    } else {
      RoundEnds(s, s1);
    }
  }

  lemma {:induction false} LoopStep(s: LoopState)
    requires InLoop(s)
    ensures Loop(s).Ok? && Invariant(Loop(s).value) && Continues(s, Loop(s).value)
    decreases QueueWeight(s.queue)
  {
    var s1, more := RoundStep(s);
    if more {
      LoopStep(s1);
    }
  }

  // ---------- steps ----------

  datatype TimeStep =
    | Begin(cycles: nat)                // simulate is called
    | Enter                             // eventLoopEnterEvent
    | External                          // externalSchedulingEvent
    | Leave                             // eventLoopExitEvent: simulate returns
    | Raise(h: Handle, phase: Phase, delay: Time, follow: Works)   // a SystemC module raises a PayloadEvent
    | Callback(works: Works)            // a SystemC module calls into gem5
    | Advance(to: Time)                 // SystemC time moves on

  /** simulate can start when nothing that is queued, and not its own limit, is in the past. */
  predicate CanBegin(s: LoopState, cycles: nat) {
    s.curTick <= MAX_TICK && AllFrom(s.queue, s.now) && s.now <= SimulationLimit(s.curTick, cycles)
  }

  predicate Enabled(s: LoopState, step: TimeStep) {
    match step
    case Begin(cycles) => !s.inSimulate && CanBegin(s, cycles)
    case Enter => s.enterAt == Some(s.now) && CanReenter(s)
    case External => s.externalAt == Some(s.now) && (s.queue == [] || CanReenter(s))
    case Leave => s.exitAt == Some(s.now)
    case Raise(_, _, delay, follow) => s.now + delay <= MAX_TICK && Fits(follow, s.now + delay)
    case Callback(works) => Fits(works, s.now) && (s.inSimulate || s.queue == [] || s.curTick <= s.queue[0].at)
    case Advance(to) =>
      && s.now < to <= MAX_TICK
      && (s.enterAt.Some? ==> to <= s.enterAt.value)
      && (s.externalAt.Some? ==> to <= s.externalAt.value)
      && (s.exitAt.Some? ==> to <= s.exitAt.value)
  }

  function Next(s: LoopState, step: TimeStep): (r: Outcome<LoopState>)
    requires Enabled(s, step)
  {
    match step
    case Begin(cycles) => Ok(SimulateBegin(s, cycles))
    case Enter => EventLoop(s.(enterAt := None))
    case External => ServiceExternalEvent(s.(externalAt := None))
    case Leave => SimulateEnd(s)
    case Raise(h, phase, delay, follow) => Ok(RaisePayloadEvent(s, h, phase, delay, follow))
    case Callback(works) => EnterGem5(s, works)
    case Advance(to) => Ok(s.(now := to))
  }

  lemma BeginQueue(q: seq<Entry>, limit: Time, now: Time)
    requires Sorted(q) && AllFit(q) && limit <= MAX_TICK
    ensures var r := Insert(q, LimitEvent(limit));
            && Sorted(r) && AllFit(r) && LimitEvent(limit) in r
            && multiset(r) == multiset(q) + multiset{LimitEvent(limit)}
            && Marks(r) == Marks(q) + multiset{Mark(Limit, limit)}
            && (AllFrom(r, now) <==> now <= limit && AllFrom(q, now))
  {
    InsertKeeps(q, LimitEvent(limit), Insert(q, LimitEvent(limit)), now);
    InsertAll(q, LimitEvent(limit), LimitEvent(limit), now);
  }

  lemma BeginStep(s: LoopState, cycles: nat)
    requires Invariant(s) && !s.inSimulate && CanBegin(s, cycles)
    ensures Invariant(SimulateBegin(s, cycles))
  {
    var limit := SimulationLimit(s.curTick, cycles);
    BeginQueue(s.queue, limit, s.now);
    EnqueueConserves(s, LimitEvent(limit));
    assert Mark(Limit, limit) !in Marks(s.queue);
  }

  lemma LeaveStep(s: LoopState)
    requires Invariant(s) && Enabled(s, Leave)
    ensures SimulateEnd(s).Ok? && Invariant(SimulateEnd(s).value)
  {
    var s1 := s.(exitAt := None, enterAt := None, inSimulate := false);
    if s.exitEvent.value.kind.Limit? {
      assert forall m :: m in Marks(s.queue) && m.kind.Limit? ==> m == Mark(Limit, s.limit);
    } else {
      RemoveKeeps(s.queue, Limit, Remove(s.queue, Limit), s.now);
      CancelConserves(s1, Limit);
      LimitGone(s.queue, s.limit);
    }
  }

  /** Of at most one limit event none is left. */
  lemma LimitGone(q: seq<Entry>, limit: Time)
    requires forall m :: m in Marks(q) && m.kind.Limit? ==> m == Mark(Limit, limit)
    requires Marks(q)[Mark(Limit, limit)] <= 1
    ensures forall m :: m in Marks(Remove(q, Limit)) ==> !m.kind.Limit?
  {
    RemoveMarks(q, Limit);
    if m :| m in Marks(Remove(q, Limit)) && m.kind.Limit? {
      assert m in Marks(q);
      MarkMember(Remove(q, Limit), m);
      RemovedOne(q, limit);
    }
  }

  lemma {:induction false} RemovedOne(q: seq<Entry>, limit: Time)
    requires Mark(Limit, limit) in Marks(q)
    requires forall m :: m in Marks(q) && m.kind.Limit? ==> m == Mark(Limit, limit)
    ensures Marks(Removed(q, Limit)) == multiset{Mark(Limit, limit)}
  {
    if q[0].kind.Limit? {
      assert Mark(q[0].kind, q[0].at) in Marks(q);
      assert [q[0]][1..] == [];
    } else {
      RemovedOne(q[1..], limit);
    }
  }

  lemma AdvanceStep(s: LoopState, to: Time)
    requires Invariant(s) && Enabled(s, Advance(to))
    ensures Invariant(s.(now := to))
  {
    if s.inSimulate {
      forall i | 0 <= i < |s.queue|
        ensures to <= s.queue[i].at
      {
        HeadFirst(s.queue, i);
      }
      assert LimitEvent(s.limit) in s.queue;
    }
  }

  lemma RaisedAs(s: LoopState, h: Handle, phase: Phase, delay: Time, follow: Works)
    requires s.now + delay <= MAX_TICK
    ensures RaisePayloadEvent(s, h, phase, delay, follow)
         == Enqueue(NotifyExternal(s), PayloadEntry(s.now + delay, h, phase, follow))
  {
    InTime(s.now, delay);
  }

  /** A PayloadEvent is raised. */
  lemma RaiseStep(s: LoopState, h: Handle, phase: Phase, delay: Time, follow: Works)
    requires Invariant(s) && Enabled(s, Raise(h, phase, delay, follow))
    ensures Invariant(RaisePayloadEvent(s, h, phase, delay, follow))
  {
    RaisedAs(s, h, phase, delay, follow);
    RaisedKeeps(s, PayloadEntry(s.now + delay, h, phase, follow));
  }

  lemma RaisedKeeps(s: LoopState, e: Entry)
    requires Invariant(s) && e.kind.Payload? && s.now <= e.at <= MAX_TICK && Fits(e.follow, e.at)
    ensures Invariant(Enqueue(NotifyExternal(s), e))
  {
    InsertKeeps(s.queue, e, Insert(s.queue, e), s.now);
    EnqueueConserves(NotifyExternal(s), e);
    assert MarkOf(e) == multiset{Mark(e.kind, e.at)};
  }

  lemma CallbackStep(s: LoopState, works: Works)
    requires Invariant(s) && Enabled(s, Callback(works))
    ensures EnterGem5(s, works).Ok? && Invariant(EnterGem5(s, works).value)
    ensures EnterGem5(s, works).value.serviced == s.serviced
  {
    var s1 := s.(curTick := s.now);
    assert Catchup(s) == Ok(s1);
    PerformExtends(s1, works);
    WokenKeeps(s1, Perform(s1, works));
  }

  lemma WokenKeeps(s: LoopState, s': LoopState)
    requires Invariant(s) && Extends(s, s')
    ensures Invariant(NotifyExternal(s'))
  {
  }

  /** The loop is entered, by whichever event. */
  lemma EnterStep(s: LoopState, step: TimeStep)
    requires Invariant(s) && Enabled(s, step) && s.inSimulate && s.queue != [] && (step.Enter? || step.External?)
    ensures InLoop(if step.Enter? then s.(enterAt := None) else s.(externalAt := None))
  {
  }

  /** No step is fatal, and every step keeps the invariant. */
  lemma EveryTimeStep(s: LoopState, step: TimeStep)
    requires Invariant(s) && Enabled(s, step)
    ensures Next(s, step).Ok? && Invariant(Next(s, step).value)
    ensures s.serviced <= Next(s, step).value.serviced
  {
    match step
    case Begin(cycles) => BeginStep(s, cycles);
    case Enter =>
      EnterStep(s, step);
      LoopStep(s.(enterAt := None));
    case External =>
      if s.inSimulate && s.queue != [] {
        EnterStep(s, step);
        LoopStep(s.(externalAt := None));
      }
    case Leave => LeaveStep(s);
    case Raise(h, phase, delay, follow) => RaiseStep(s, h, phase, delay, follow);
    case Callback(works) => CallbackStep(s, works);
    case Advance(to) => AdvanceStep(s, to);
  }
}
