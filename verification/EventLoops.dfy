/**
 * src/sc_module.cc and include/sc_peq.hh: gem5 time and SystemC time. The event
 * loop as functions on its state, with the branches and fatal errors of the code.
 */
module EventLoops {
  import opened Common
  import opened Kernel
  import opened BaseProtocol
  import opened Payloads
  import opened EventQueues

  /** What the clocks showed when an event was serviced, and the tick that simulate was to stop at. */
  datatype Clock = Clock(now: Time, tick: Time, limit: Time)

  /**
   * now is sc_time_stamp, curTick gem5's time. The three sc_events are represented
   * by their pending notification. The rest is bookkeeping: limit is the end of the
   * current simulate; then what was scheduled, serviced and descheduled.
   */
  datatype LoopState = LoopState(
    now: Time,
    curTick: Time,
    queue: seq<Entry>,
    enterAt: Option<Time>,
    externalAt: Option<Time>,
    exitAt: Option<Time>,
    waitExitTime: Time,
    inSimulate: bool,
    exitEvent: Option<Entry>,
    limit: Time,
    scheduled: seq<Entry>,
    serviced: seq<Entry>,
    cancelled: seq<Entry>,
    clocks: seq<Clock>)

  const SIM_EXIT_PRI := 100
  const DEFAULT_PRI := 0

  function Catchup(s: LoopState): (r: Outcome<LoopState>) {
    if s.curTick > s.now then Fatal(TimeOrder)
    else if s.queue != [] && s.curTick > s.queue[0].at then Fatal(TimeOrder)
    else Ok(s.(curTick := s.now))
  }

  /** Module::notify, and with it SCEventQueue::wakeup. */
  function NotifyExternal(s: LoopState): (r: LoopState) {
    s.(externalAt := Notify(s.externalAt, s.now))
  }

  function Enqueue(s: LoopState, e: Entry): (r: LoopState)
    ensures QueueWeight(r.queue) == QueueWeight(s.queue) + 1 + Weight(e.follow)
  {
    InsertWeight(s.queue, e);
    s.(queue := Insert(s.queue, e), scheduled := s.scheduled + [e])
  }

  /** The first event of that kind is taken off the queue, if there is one. */
  function Cancel(s: LoopState, kind: Kind): (r: LoopState)
    ensures QueueWeight(r.queue) <= QueueWeight(s.queue)
  {
    RemoveWeight(s.queue, kind);
    s.(queue := Remove(s.queue, kind), cancelled := s.cancelled + Removed(s.queue, kind))
  }

  /** An event of gem5's own goes on the queue, at SystemC time plus its delay on 64 bits. */
  function Schedule(s: LoopState, job: Job, follow: Works): (r: LoopState)
    ensures QueueWeight(r.queue) == QueueWeight(s.queue) + 1 + Weight(follow)
  {
    Enqueue(if job.wakes then NotifyExternal(s) else s,
            Entry((s.now + job.delay) % TWO64, Own(job.id), job.prio, job.exits, follow))
  }

  /** What a handler does to the queue. */
  function Perform(s: LoopState, ws: Works): (r: LoopState)
    ensures QueueWeight(r.queue) <= QueueWeight(s.queue) + Weight(ws)
    decreases ws
  {
    match ws
    case Nothing => s
    case Do(job, follow, others) => Perform(Schedule(s, job, follow), others)
    case Deschedule(id, others) => Perform(Cancel(s, Own(id)), others)
  }

  /** The first event leaves the queue, and gem5 time becomes its tick. */
  function Take(s: LoopState): (r: LoopState)
    requires s.queue != []
  {
    var e := s.queue[0];
    s.(queue := s.queue[1..], curTick := e.at,
       serviced := s.serviced + [e], clocks := s.clocks + [Clock(s.now, e.at, s.limit)])
  }

  /** EventQueue::serviceOne: the first event leaves the queue and its handler runs. */
  function ServiceOne(s: LoopState): (r: LoopState)
    requires s.queue != []
    ensures QueueWeight(r.queue) < QueueWeight(s.queue)
  {
    Perform(Take(s), s.queue[0].follow)
  }

  /** The next event is in the future: come back then. */
  function Sleep(s: LoopState): (r: LoopState)
    requires s.queue != [] && s.curTick <= s.queue[0].at
  {
    var period := s.queue[0].at - s.curTick;
    s.(waitExitTime := s.curTick + period, enterAt := Notify(s.enterAt, s.now + period))
  }

  /** A loop that was woken up before the time it had announced. */
  function WokenEarly(s: LoopState): (r: LoopState) {
    if s.waitExitTime > s.now then s.(waitExitTime := s.now) else s
  }

  /** One round of the while loop in eventLoop; the flag tells whether the loop goes on. */
  function Round(s: LoopState): (r: Outcome<(LoopState, bool)>)
    requires s.queue != []
    ensures r.Ok? && r.value.1 ==> QueueWeight(r.value.0.queue) < QueueWeight(s.queue)
  {
    var next := s.queue[0];
    var s1 :- Catchup(s);
    var s2 := WokenEarly(s1);
    if s2.curTick < next.at then Ok((Sleep(s2), false))
    else if s2.curTick > next.at then Fatal(TimeOrder)
    else
      var s3 := ServiceOne(s2);
      if next.exits then Ok((s3.(exitEvent := Some(next), exitAt := Notify(s3.exitAt, s3.now)), false))
      else Ok((s3.(exitEvent := None), true))
  }

  /** The while loop of eventLoop. */
  function Loop(s: LoopState): (r: Outcome<LoopState>)
    decreases QueueWeight(s.queue)
  {
    if s.queue == [] then Fatal(OutOfEvents)
    else
      var (s1, more) :- Round(s);
      if more then Loop(s1) else Ok(s1)
  }

  function EventLoop(s: LoopState): (r: Outcome<LoopState>) {
    if !s.inSimulate then Fatal(NotSimulating) else Loop(s)
  }

  function ServiceExternalEvent(s: LoopState): (r: Outcome<LoopState>) {
    if s.inSimulate && s.queue != [] then EventLoop(s) else Ok(s)
  }

  function SimulationLimit(curTick: Time, cycles: nat): (r: Time)
    requires curTick <= MAX_TICK
  {
    if cycles < MAX_TICK - curTick then curTick + cycles else MAX_TICK
  }

  function LimitEvent(limit: Time): (r: Entry) {
    Entry(limit, Limit, SIM_EXIT_PRI, true, Nothing)
  }

  /** simulate up to its wait. */
  function SimulateBegin(s: LoopState, cycles: nat): (r: LoopState)
    requires s.curTick <= MAX_TICK
  {
    var limit := SimulationLimit(s.curTick, cycles);
    Enqueue(s, LimitEvent(limit)).(
      limit := limit, exitEvent := None, exitAt := None, externalAt := None, inSimulate := true,
      enterAt := Notify(s.enterAt, s.now))
  }

  /** simulate after its wait: a limit event that did not end it is descheduled. */
  function SimulateEnd(s: LoopState): (r: Outcome<LoopState>) {
    var s1 := s.(exitAt := None, enterAt := None, inSimulate := false);
    if s.exitEvent.None? then Fatal(NoExitEvent)
    else if s.exitEvent.value.kind.Limit? then Ok(s1)
    else Ok(Cancel(s1, Limit))
  }

  function PayloadEntry(at: Time, h: Handle, phase: Phase, follow: Works): (r: Entry) {
    Entry(at, Payload(h, phase), DEFAULT_PRI, false, follow)
  }

  /** PayloadEvent::notify, called by a SystemC module; follow is what the handler of the event does to the queue. */
  function RaisePayloadEvent(s: LoopState, h: Handle, phase: Phase, delay: Time, follow: Works): (r: LoopState) {
    Enqueue(NotifyExternal(s), PayloadEntry((s.now + delay) % TWO64, h, phase, follow))
  }

  /** A TLM callback that enters gem5: catch up, let gem5 do what it likes to its queue, and wake the loop. */
  function EnterGem5(s: LoopState, ws: Works): (r: Outcome<LoopState>) {
    var s1 :- Catchup(s);
    Ok(NotifyExternal(Perform(s1, ws)))
  }
}
