/** src/sc_module.cc and include/sc_peq.hh as objects: the module that owns the event loop. */
module EventModule {
  import opened Common
  import opened Kernel
  import opened BaseProtocol
  import opened Payloads
  import opened EventQueues
  import opened EventLoops

  class Module {
    var now: Time                       // sc_time_stamp, moved on by the SystemC kernel
    var curTick: Time
    var eventq: seq<Entry>
    var eventLoopEnterEvent: Option<Time>
    var externalSchedulingEvent: Option<Time>
    var eventLoopExitEvent: Option<Time>
    var waitExitTime: Time
    var inSimulate: bool
    var exitEvent: Option<Entry>
    ghost var limit: Time
    ghost var scheduled: seq<Entry>
    ghost var serviced: seq<Entry>
    ghost var cancelled: seq<Entry>
    ghost var clocks: seq<Clock>

    ghost function View(): (r: LoopState)
      reads this
    {
      LoopState(now, curTick, eventq, eventLoopEnterEvent, externalSchedulingEvent, eventLoopExitEvent,
                waitExitTime, inSimulate, exitEvent, limit, scheduled, serviced, cancelled, clocks)
    }

    constructor (start: Time)
      ensures View() == LoopState(start, 0, [], None, None, None, 0, false, None, 0, [], [], [], [])
    {
      now, curTick, eventq := start, 0, [];
      eventLoopEnterEvent, externalSchedulingEvent, eventLoopExitEvent := None, None, None;
      waitExitTime, inSimulate, exitEvent := 0, false, None;
      limit, scheduled, serviced, cancelled, clocks := 0, [], [], [], [];
    }

    method CatchUp()
      requires Catchup(View()).Ok?
      modifies this`curTick
      ensures Ok(View()) == Catchup(old(View()))
    {
      var gem5Time := curTick;
      assert gem5Time <= now;
      curTick := now;
      if eventq != [] {
        assert gem5Time <= eventq[0].at;
      }
    }

    /** notify, which is also how the event queue is woken up. */
    method NotifyModule()
      modifies this`externalSchedulingEvent
      ensures View() == NotifyExternal(old(View()))
    {
      externalSchedulingEvent := Notify(externalSchedulingEvent, now);
    }

    /** The insertion sort of the event queue. */
    method AddToQueue(e: Entry)
      modifies this`eventq, this`scheduled
      ensures View() == Enqueue(old(View()), e)
    {
      var i := 0;
      while i < |eventq| && !NotAfter(e, eventq[i])
        invariant i <= |eventq| && unchanged(this)
        invariant Insert(eventq, e) == eventq[..i] + Insert(eventq[i..], e)
      {
        InsertLater(eventq, i, e);
        i := i + 1;
      }
      InsertHere(eventq, i, e);
      assert eventq[..i] + [e] + eventq[i..] == Insert(eventq, e);
      eventq := eventq[..i] + [e] + eventq[i..];
      scheduled := scheduled + [e];
    }

    /** The place of the first event of that kind, or the end of the queue. */
    method FindFirst(kind: Kind) returns (i: nat)
      ensures i <= |eventq| && (i < |eventq| ==> eventq[i].kind == kind)
      ensures forall j :: 0 <= j < i ==> eventq[j].kind != kind
    {
      i := 0;
      while i < |eventq| && eventq[i].kind != kind
        invariant i <= |eventq| && forall j :: 0 <= j < i ==> eventq[j].kind != kind
      {
        i := i + 1;
      }
    }

    /** deschedule: the first event of that kind leaves the queue. */
    method TakeOffQueue(kind: Kind)
      modifies this`eventq, this`cancelled
      ensures View() == Cancel(old(View()), kind)
    {
      var i := FindFirst(kind);
      if i < |eventq| {
        RemoveAt(eventq, i, kind);
        cancelled := cancelled + [eventq[i]];
        eventq := eventq[..i] + eventq[i + 1..];
      } else {
        RemoveNone(eventq, kind);
        assert cancelled + [] == cancelled;
      }
    }

    lemma InsertLater(q: seq<Entry>, i: nat, e: Entry)
      requires i < |q| && !NotAfter(e, q[i])
      ensures q[..i] + Insert(q[i..], e) == q[..i + 1] + Insert(q[i + 1..], e)
    {
      assert q[i..][1..] == q[i + 1..];
      assert q[..i + 1] == q[..i] + [q[i]];
    }

    lemma InsertHere(q: seq<Entry>, i: nat, e: Entry)
      requires i <= |q| && (i == |q| || NotAfter(e, q[i]))
      ensures q[..i] + Insert(q[i..], e) == q[..i] + [e] + q[i..]
    {
      assert Insert(q[i..], e) == [e] + q[i..];
    }

    /** A gem5 component schedules an event of its own. */
    method ScheduleEvent(job: Job, follow: Works)
      modifies this`externalSchedulingEvent, this`eventq, this`scheduled
      ensures View() == Schedule(old(View()), job, follow)
    {
      var when := (now + job.delay) % TWO64;
      if job.wakes {
        NotifyModule();
      }
      AddToQueue(Entry(when, Own(job.id), job.prio, job.exits, follow));
    }

    /** PayloadEvent::notify: the tick is counted from SystemC time, and the loop is woken. */
    method NotifyPayload(h: Handle, phase: Phase, delay: Time, follow: Works)
      modifies this`externalSchedulingEvent, this`eventq, this`scheduled
      ensures View() == RaisePayloadEvent(old(View()), h, phase, delay, follow)
    {
      var nextEventTick := (now + delay) % TWO64;
      NotifyModule();
      AddToQueue(PayloadEntry(nextEventTick, h, phase, follow));
    }

    /** What a handler does to the queue, one thing after the other. */
    method Process(ws: Works)
      modifies this`externalSchedulingEvent, this`eventq, this`scheduled, this`cancelled
      ensures View() == Perform(old(View()), ws)
    {
      var rest := ws;
      while !rest.Nothing?
        invariant Perform(View(), rest) == Perform(old(View()), ws)
        decreases rest
      {
        if rest.Do? {
          ScheduleEvent(rest.job, rest.follow);
        } else {
          TakeOffQueue(Own(rest.id));
        }
        rest := rest.others;
      }
    }

    /** EventQueue::serviceOne; the result is the event if it is an exit event. */
    method ServiceFirst() returns (exit: Option<Entry>)
      requires eventq != []
      modifies this`externalSchedulingEvent, this`eventq, this`curTick, this`scheduled, this`cancelled, this`serviced, this`clocks
      ensures View() == ServiceOne(old(View()))
      ensures exit == if old(eventq)[0].exits then Some(old(eventq)[0]) else None
    {
      var e := eventq[0];
      eventq := eventq[1..];
      curTick := e.at;
      serviced, clocks := serviced + [e], clocks + [Clock(now, e.at, limit)];
      Process(e.follow);
      exit := if e.exits then Some(e) else None;
    }

    /** The next event is in the future: be woken for it. */
    method WaitForNext()
      requires eventq != [] && curTick <= eventq[0].at
      modifies this`waitExitTime, this`eventLoopEnterEvent
      ensures View() == Sleep(old(View()))
    {
      var waitPeriod := eventq[0].at - curTick;
      waitExitTime := curTick + waitPeriod;
      eventLoopEnterEvent := Notify(eventLoopEnterEvent, now + waitPeriod);
    }

    /** The body of the while loop in eventLoop; the result tells whether the loop goes on. */
    method RunRound() returns (more: bool)
      requires eventq != [] && Round(View()).Ok?
      modifies this
      ensures Ok((View(), more)) == Round(old(View()))
    {
      var nextEventTime := eventq[0].at;
      CatchUp();
      if waitExitTime > now {
        waitExitTime := now;
      }
      if curTick < nextEventTime {
        WaitForNext();
        return false;
      }
      assert curTick == nextEventTime;
      exitEvent := ServiceFirst();
      if exitEvent.Some? {
        eventLoopExitEvent := Notify(eventLoopExitEvent, now);
        return false;
      }
      return true;
    }

    method RunEventLoop()
      requires EventLoop(View()).Ok?
      modifies this
      ensures Ok(View()) == EventLoop(old(View()))
    {
      assert inSimulate;
      while eventq != []
        invariant Loop(View()) == Loop(old(View()))
        decreases QueueWeight(eventq)
      {
        var more := RunRound();
        if !more {
          return;
        }
      }
      assert false;
    }

    /** Triggered by externalSchedulingEvent. */
    method OnExternalEvent()
      requires ServiceExternalEvent(View()).Ok?
      modifies this
      ensures Ok(View()) == ServiceExternalEvent(old(View()))
    {
      if inSimulate && eventq != [] {
        RunEventLoop();
      }
    }

    /** simulate, up to where it waits for eventLoopExitEvent. */
    method Simulate(cycles: nat)
      requires curTick <= MAX_TICK
      modifies this
      ensures View() == SimulateBegin(old(View()), cycles)
      ensures externalSchedulingEvent.None? && eventLoopExitEvent.None? && exitEvent.None? && inSimulate
    {
      var end := MAX_TICK;
      if cycles < MAX_TICK - curTick {
        end := curTick + cycles;
      }
      assert end == SimulationLimit(curTick, cycles);
      AddToQueue(LimitEvent(end));
      PrepareLoop(end);
    }

    /** No exit event yet, outstanding notifications cancelled, and the loop is to be entered now. */
    method PrepareLoop(end: Time)
      modifies this`limit, this`exitEvent, this`eventLoopExitEvent, this`externalSchedulingEvent, this`inSimulate
      modifies this`eventLoopEnterEvent
      ensures View() == old(View()).(limit := end, exitEvent := None, exitAt := None, externalAt := None, inSimulate := true,
                                     enterAt := Notify(old(eventLoopEnterEvent), now))
    {
      limit := end;
      exitEvent := None;
      eventLoopExitEvent := None;
      externalSchedulingEvent := None;
      inSimulate := true;
      eventLoopEnterEvent := Notify(eventLoopEnterEvent, now);
    }

    /** simulate, after its wait; a limit event that is still queued is descheduled. */
    method Finish() returns (exit: Entry)
      requires SimulateEnd(View()).Ok?
      modifies this
      ensures Ok(View()) == SimulateEnd(old(View())) && Some(exit) == exitEvent
    {
      eventLoopExitEvent := None;
      eventLoopEnterEvent := None;
      inSimulate := false;
      exit := exitEvent.value;
      if !exit.kind.Limit? {
        TakeOffQueue(Limit);
      }
    }

    /** A TLM callback that enters gem5. */
    method CallBack(ws: Works)
      requires EnterGem5(View(), ws).Ok?
      modifies this
      ensures Ok(View()) == EnterGem5(old(View()), ws)
    {
      CatchUp();
      Process(ws);
      NotifyModule();
    }
  }
}
