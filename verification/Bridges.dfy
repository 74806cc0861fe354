/**
 * The handshake and the event loop as one machine: what the targets raise goes on
 * the gem5 queue, what the loop services runs the handler of the port, and both see
 * the same time.
 */
module Bridges {
  import opened Common
  import opened Kernel
  import opened BaseProtocol
  import opened Payloads
  import opened BlockingPackets
  import opened TxnRouters
  import opened SlavePorts
  import opened Simulation
  import opened PortSteps
  import opened EventQueues
  import opened EventLoops
  import Runs
  import Coupling = TimeCoupling

  /** A call of PayloadEvent::notify, and a call of pec. */
  datatype Notice = Notice(event: PayloadEvent, raised: Time, delay: Time)
  datatype Visit = Visit(event: PayloadEvent, now: Time, tick: Time)

  /** looping tells that the while loop of eventLoop is running; notices and visits are bookkeeping. */
  datatype BridgeState = BridgeState(
    port: PortState, loop: LoopState, looping: bool, notices: seq<Notice>, visits: seq<Visit>)

  /** What gem5 does with the port from within an event of its own. */
  datatype Call = Send(pkt: Packet) | Ask(refused: set<nat>)

  datatype BridgeStep =
    | Router(step: Runs.Step, follow: Works)          // a router makes a step and may raise an event
    | Begin(cycles: nat)                              // simulate is called
    | Leave                                           // simulate returns
    | Advance(to: Time)                               // SystemC time moves on
    | Enter                                           // eventLoopEnterEvent
    | External                                        // externalSchedulingEvent
    | Round(accept: bool, script: seq<Packet>, calls: seq<Call>)   // one round of the event loop
    | Callback(calls: seq<Call>, works: Works)        // a SystemC module calls into gem5

  // ---------- gem5 at work on the port ----------

  function DoCall(s: PortState, c: Call): (r: Outcome<PortState>) {
    match c
    case Send(pkt) => var (s', _) :- RecvTimingReq(s, pkt); Ok(s')
    case Ask(refused) => RecvRespRetry(s, refused)
  }

  function Calls(s: PortState, calls: seq<Call>): (r: Outcome<PortState>)
    decreases |calls|
  {
    if calls == [] then Ok(s)
    else
      var s1 :- DoCall(s, calls[0]);
      Calls(s1, calls[1..])
  }

  /** gem5 keeps to its side of the handshake. */
  predicate MayCall(s: PortState, c: Call) {
    match c
    case Send(pkt) => !s.peerWaits && Acceptable(s, pkt)
    case Ask(refused) => CaughtUp(s) && forall k :: k in refused ==> At(s.helper.response, k).None?
  }

  predicate CallsOk(s: PortState, calls: seq<Call>)
    decreases |calls|
  {
    calls == [] || (MayCall(s, calls[0]) && (DoCall(s, calls[0]).Ok? ==> CallsOk(DoCall(s, calls[0]).value, calls[1..])))
  }

  /** Where an event is among the ones the port has raised. */
  function IndexOf(events: seq<PayloadEvent>, ev: PayloadEvent): (r: Option<nat>)
    ensures r.Some? ==> r.value < |events| && events[r.value] == ev
    ensures r.None? ==> ev !in events
  {
    if events == [] then None
    else if events[0] == ev then Some(0)
    else
      var r := IndexOf(events[1..], ev);
      if r.None? then None else Some(r.value + 1)
  }

  function Place(lanes: seq<Lane>, ev: PayloadEvent): (r: Option<(nat, nat)>)
    ensures r.Some? ==> r.value.0 < |lanes| && r.value.1 < |lanes[r.value.0].events| && lanes[r.value.0].events[r.value.1] == ev
    ensures r.None? ==> forall k :: 0 <= k < |lanes| ==> ev !in lanes[k].events
  {
    if lanes == [] then None
    else
      var n := |lanes| - 1;
      var i := IndexOf(lanes[n].events, ev);
      if i.Some? then Some((n, i.value)) else Place(lanes[..n], ev)
  }

  /** The handler of an event, which gem5 has just taken off its queue. */
  function HandleEntry(s: PortState, e: Entry, accept: bool, script: seq<Packet>, calls: seq<Call>): (r: Outcome<PortState>) {
    match e.kind
    case Limit => Ok(s)
    case Own(_) => Calls(s, calls)
    case Payload(h, phase) =>
      var place := Place(s.lanes, PayloadEvent(h, phase, e.at));
      if place.None? then Fatal(LostEvent) else Service(s, place.value.0, place.value.1, accept, script)
  }

  /** What gem5 does in reply is within the protocol. */
  predicate ReplyOk(s: PortState, e: Entry, script: seq<Packet>, calls: seq<Call>) {
    match e.kind
    case Limit => true
    case Own(_) => CallsOk(s, calls)
    case Payload(h, phase) =>
      var place := Place(s.lanes, PayloadEvent(h, phase, e.at));
      phase == EndReq && place.Some? ==> ScriptOk(Freed(s, place.value.0), script)
  }

  // ---------- the machine ----------

  function NewEvents(s: PortState, s': PortState, k: nat): (r: seq<PayloadEvent>) {
    if k < |s.lanes| && k < |s'.lanes| && |s.lanes[k].events| <= |s'.lanes[k].events|
    then s'.lanes[k].events[|s.lanes[k].events|..] else []
  }

  function Delay(now: Time, at: Time): (r: Time) {
    if now <= at then at - now else 0
  }

  /** Each event that has been raised goes on the gem5 queue. */
  function RaiseAll(b: BridgeState, events: seq<PayloadEvent>, follow: Works): (r: BridgeState)
    decreases |events|
  {
    if events == [] then b
    else
      var ev := events[0];
      var delay := Delay(b.loop.now, ev.at);
      RaiseAll(b.(loop := RaisePayloadEvent(b.loop, ev.h, ev.phase, delay, follow),
                  notices := b.notices + [Notice(ev, b.loop.now, delay)]), events[1..], follow)
  }

  predicate RouterWaits(r: RouterState, t: Time) {
    && (forall e :: e in r.peq ==> t <= e.at)
    && (r.targetDone.Some? ==> t <= r.targetDone.value)
    && (r.thread.InMemory? ==> t <= r.thread.until)
  }

  /**
   * When a step can happen. SystemC processes do not run while the event loop does.
   * SystemC time does not pass a pending notification; outside simulate it must not
   * pass what is queued, or simulate could not be called again. That gem5 keeps to
   * the handshake is judged as if it had caught up: whether it has is a result.
   */
  predicate Enabled(b: BridgeState, step: BridgeStep) {
    match step
    case Router(step, follow) =>
      && !b.looping && (step.Peq? || step.Done? || step.Memory?) && Runs.Enabled(b.port, step)
      && (Runs.Next(b.port, step).Ok? ==>
            forall i :: 0 <= i < |NewEvents(b.port, Runs.Next(b.port, step).value, step.k)| ==>
              var at := NewEvents(b.port, Runs.Next(b.port, step).value, step.k)[i].at; at <= MAX_TICK && Fits(follow, at))
    case Begin(cycles) => !b.looping && Coupling.Enabled(b.loop, Coupling.Begin(cycles))
    case Leave => !b.looping && Coupling.Enabled(b.loop, Coupling.Leave)
    case Advance(to) =>
      && !b.looping && Coupling.Enabled(b.loop, Coupling.Advance(to))
      && (forall k :: 0 <= k < |b.port.lanes| ==> RouterWaits(b.port.lanes[k].router, to))
      && (b.loop.inSimulate || AllFrom(b.loop.queue, to))
    case Enter => !b.looping && Coupling.Enabled(b.loop, Coupling.Enter)
    case External => !b.looping && Coupling.Enabled(b.loop, Coupling.External)
    case Round(accept, script, calls) =>
      b.looping && (b.loop.queue != [] && b.loop.queue[0].at == b.loop.now ==>
                      ReplyOk(Runs.Caught(b.port), b.loop.queue[0], script, calls))
    case Callback(calls, works) =>
      !b.looping && Coupling.Enabled(b.loop, Coupling.Callback(works)) && CallsOk(Runs.Caught(b.port), calls)
  }

  function Next(b: BridgeState, step: BridgeStep): (r: Outcome<BridgeState>)
    requires Enabled(b, step)
  {
    match step
    case Router(step, follow) =>
      var s' :- Runs.Next(b.port, step);
      Ok(RaiseAll(b.(port := s'), NewEvents(b.port, s', step.k), follow))
    case Begin(cycles) => Ok(b.(loop := SimulateBegin(b.loop, cycles)))
    case Leave =>
      var t :- SimulateEnd(b.loop);
      Ok(b.(loop := t))
    case Advance(to) => Ok(b.(port := b.port.(now := to), loop := b.loop.(now := to)))
    case Enter =>
      if !b.loop.inSimulate then Fatal(NotSimulating)
      else Ok(b.(loop := b.loop.(enterAt := None), looping := true))
    case External =>
      Ok(b.(loop := b.loop.(externalAt := None), looping := b.loop.inSimulate && b.loop.queue != []))
    case Round(accept, script, calls) => NextRound(b, accept, script, calls)
    case Callback(calls, works) =>
      var t :- EnterGem5(b.loop, works);
      var s' :- Calls(b.port.(curTick := t.curTick), calls);
      Ok(b.(port := s', loop := t))
  }

  /** A round either goes to sleep or services the first event, whose handler finds gem5 time at the tick of the event. */
  function NextRound(b: BridgeState, accept: bool, script: seq<Packet>, calls: seq<Call>): (r: Outcome<BridgeState>) {
    if b.loop.queue == [] then Fatal(OutOfEvents)
    else
      var e := b.loop.queue[0];
      var (t, more) :- EventLoops.Round(b.loop);
      var s := b.port.(curTick := t.curTick);
      if t.curTick < e.at then Ok(b.(port := s, loop := t, looping := more))
      else
        var s' :- HandleEntry(s, e, accept, script, calls);
        Ok(b.(port := s', loop := t, looping := more, visits := b.visits + VisitOf(e, b.loop.now, t.curTick)))
  }

  function VisitOf(e: Entry, now: Time, tick: Time): (r: seq<Visit>) {
    if e.kind.Payload? then [Visit(PayloadEvent(e.kind.h, e.kind.phase, e.at), now, tick)] else []
  }
}
