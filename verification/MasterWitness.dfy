/** A run of the master port after which a peer within the gem5 protocol fails an assertion. */
module MasterWitness {
  import opened Common
  import opened BaseProtocol
  import opened Payloads
  import opened MasterPorts
  import opened MasterRuns

  // ---------- any number of reads that have been answered ----------

  const READ := TlmPayload(None, ReadCommand, 0x1000, 64, false, 64)

  /** The packet of read t in gem5, with the port's entry. */
  function ReadPacket(t: nat, answered: bool): (r: Gem5Packet) {
    Gem5Packet(ReadCommand, 0x1000, 64, !answered, answered, [TlmSenderState(t)])
  }

  function Packets(n: nat): (r: map<nat, Gem5Packet>)
    ensures r.Keys == Below(n) && forall t :: t in r ==> r[t] == ReadPacket(t, true)
  {
    if n == 0 then map[] else Packets(n - 1)[n - 1 := ReadPacket(n - 1, true)]
  }

  function TlmPayloads(n: nat): (r: map<nat, TlmPayload>)
    ensures r.Keys == Below(n) && forall t :: t in r ==> r[t] == READ
  {
    if n == 0 then map[] else TlmPayloads(n - 1)[n - 1 := READ]
  }

  function Flights(n: nat): (r: map<nat, Flight>)
    ensures r.Keys == Below(n) && forall t :: t in r ==> r[t] == Flight(t, [])
  {
    if n == 0 then map[] else Flights(n - 1)[n - 1 := Flight(n - 1, [])]
  }

  /** n reads have been taken by gem5, and all are ready to be answered. */
  function Reads(n: nat, wire: seq<WireEvent>): (r: MasterState) {
    MasterState(false, None, None, false, false, Packets(n), TlmPayloads(n), Flights(n), wire, false, 0, 0)
  }

  /** A request and its END_REQ. */
  lemma OneRead(wire: seq<WireEvent>, n: nat)
    requires Monitor(wire) == Some(Channels(None, None, Below(n), Below(n)))
    ensures var w := wire + [WireEvent(BeginReq, n)];
            Legal(w) && Monitor(w + [WireEvent(EndReq, n)]) == Some(Channels(None, None, Below(n + 1), Below(n + 1)))
  {
    MonitorAppend(wire, WireEvent(BeginReq, n));
    MonitorAppend(wire + [WireEvent(BeginReq, n)], WireEvent(EndReq, n));
  }

  /** gem5 takes read n. */
  function Taken(n: nat, wire: seq<WireEvent>): (r: MasterState) {
    var s := Reads(n, wire);
    s.(packets := s.packets[n := ReadPacket(n, false)], payloads := s.payloads[n := READ], flights := s.flights[n := Flight(n, [])],
       wire := wire + [WireEvent(BeginReq, n)] + [WireEvent(EndReq, n)])
  }

  lemma TakenStep(n: nat, wire: seq<WireEvent>)
    requires Monitor(wire) == Some(Channels(None, None, Below(n), Below(n)))
    ensures Enabled(Reads(n, wire), Request(n, READ, n, true))
    ensures Next(Reads(n, wire), Request(n, READ, n, true)) == Ok(Taken(n, wire))
  {
    assert [] + [TlmSenderState(n)] == [TlmSenderState(n)];
  }

  lemma AnswerStep(n: nat, wire: seq<WireEvent>)
    ensures Enabled(Taken(n, wire), Answer(n))
    ensures Next(Taken(n, wire), Answer(n)) == Ok(Reads(n + 1, wire + [WireEvent(BeginReq, n)] + [WireEvent(EndReq, n)]))
  {
    var p: map<nat, Gem5Packet> := Packets(n);
    assert p[n := ReadPacket(n, false)][n := ReadPacket(n, true)] == p[n := ReadPacket(n, true)];
  }

  lemma {:induction false} StepOn(s: MasterState, steps: seq<Step>, s1: MasterState, step: Step, s': MasterState)
    requires Schedule(s, steps) && Run(s, steps) == Ok(s1) && Enabled(s1, step) && Next(s1, step) == Ok(s')
    ensures Schedule(s, steps + [step]) && Run(s, steps + [step]) == Ok(s')
    decreases |steps|
  {
    if steps == [] {
      assert [step][1..] == [] && steps + [step] == [step];
      assert Schedule(s', []) && Run(s', []) == Ok(s');
    } else {
      StepOn(Next(s, steps[0]).value, steps[1..], s1, step, s');
      assert (steps + [step])[0] == steps[0] && (steps + [step])[1..] == steps[1..] + [step];
    }
  }

  /** The steps lead from the new port to n reads. */
  predicate Reached(steps: seq<Step>, n: nat, wire: seq<WireEvent>) {
    && Schedule(NewPort(map[]), steps) && Run(NewPort(map[]), steps) == Ok(Reads(n, wire))
    && Monitor(wire) == Some(Channels(None, None, Below(n), Below(n)))
  }

  /** One read more. */
  lemma ReadOn(steps: seq<Step>, n: nat, wire: seq<WireEvent>) returns (steps': seq<Step>, wire': seq<WireEvent>)
    requires Reached(steps, n, wire)
    ensures Reached(steps', n + 1, wire')
  {
    wire' := wire + [WireEvent(BeginReq, n)] + [WireEvent(EndReq, n)];
    var s, taken, s' := Reads(n, wire), Taken(n, wire), Reads(n + 1, wire');
    OneRead(wire, n);
    TakenStep(n, wire);
    AnswerStep(n, wire);
    StepOn(NewPort(map[]), steps, s, Request(n, READ, n, true), taken);
    StepOn(NewPort(map[]), steps + [Request(n, READ, n, true)], taken, Answer(n), s');
    steps' := steps + [Request(n, READ, n, true)] + [Answer(n)];
  }

  lemma NoReads()
    ensures Reached([], 0, [])
  {
    assert NewPort(map[]) == Reads(0, []);
  }

  lemma ThreeReached() returns (steps: seq<Step>, wire: seq<WireEvent>)
    ensures Reached(steps, 3, wire)
  {
    NoReads();
    steps, wire := ReadOn([], 0, []);
    steps, wire := ReadOn(steps, 1, wire);
    steps, wire := ReadOn(steps, 2, wire);
  }

  // ---------- a response in progress, and another refused ----------

  lemma Responded(s0: MasterState) returns (s1: MasterState)
    requires Invariant(s0) && !s0.responseInProgress && !s0.peerWaits && Deliverable(s0, 0)
    ensures Enabled(s0, Response(0, Accepted)) && Next(s0, Response(0, Accepted)) == Ok(s1)
    ensures s1.responseInProgress && s1.needToSendRetry == s0.needToSendRetry && s1.peerWaits == s0.peerWaits
    ensures Legal(s1.wire) && Monitor(s1.wire).value.response == Some(0)
    ensures s1.flights == s0.flights - {0} && forall u :: u != 0 && Deliverable(s0, u) ==> Deliverable(s1, u)
  {
    DeliverCase(s0, 0, Accepted);
    s1 := RecvTimingResp(s0, s0.flights[0].packet, Accepted).value.0;
    DeliverKeeps(s0, 0, Accepted, s1);
    AnsweringLegal(s0.wire, 0, Accepted);
  }

  /** gem5 answers read 1 as well, and is refused. */
  lemma Refused(s: MasterState) returns (s': MasterState)
    requires s.responseInProgress && !s.needToSendRetry && !s.peerWaits && Deliverable(s, 1)
    ensures Enabled(s, Response(1, Accepted)) && Next(s, Response(1, Accepted)) == Ok(s')
    ensures s' == s.(needToSendRetry := true, peerWaits := true, refusals := s.refusals + 1)
    ensures forall u :: Deliverable(s, u) ==> Deliverable(s', u)
  {
    s' := s.(needToSendRetry := true, peerWaits := true, refusals := s.refusals + 1);
  }

  lemma ReadsReady(wire: seq<WireEvent>, t: nat)
    requires t < 3
    ensures Deliverable(Reads(3, wire), t) && Reads(3, wire).flights[t] == Flight(t, [])
  {
    assert [] + [TlmSenderState(t)] == [TlmSenderState(t)];
  }

  /** Both responses, one after the other. */
  lemma TwoResponses(s0: MasterState) returns (s: MasterState)
    requires Invariant(s0) && !s0.responseInProgress && !s0.peerWaits && !s0.needToSendRetry
    requires Deliverable(s0, 0) && Deliverable(s0, 1) && Deliverable(s0, 2)
    ensures exists s1 ::
              && Enabled(s0, Response(0, Accepted)) && Next(s0, Response(0, Accepted)) == Ok(s1)
              && Enabled(s1, Response(1, Accepted)) && Next(s1, Response(1, Accepted)) == Ok(s)
    ensures s.responseInProgress && s.needToSendRetry && Legal(s.wire) && Monitor(s.wire).value.response == Some(0)
    ensures Deliverable(s, 1) && Deliverable(s, 2) && s.flights == s0.flights - {0}
  {
    var s1 := Responded(s0);
    s := Refused(s1);
  }

  /** gem5 answers read 0 of three, and is refused when it answers read 1. */
  lemma OneRefused() returns (steps: seq<Step>, s: MasterState)
    ensures Schedule(NewPort(map[]), steps) && Run(NewPort(map[]), steps) == Ok(s)
    ensures s.responseInProgress && s.needToSendRetry && Legal(s.wire) && Monitor(s.wire).value.response == Some(0)
    ensures Deliverable(s, 1) && Deliverable(s, 2) && s.flights[1].packet == 1 && s.flights[2].packet == 2
  {
    var wire;
    steps, wire := ThreeReached();
    var s0 := Reads(3, wire);
    NewInvariant();
    EveryMasterRun(NewPort(map[]), steps);
    ReadsReady(wire, 0);
    ReadsReady(wire, 1);
    ReadsReady(wire, 2);
    s := TwoResponses(s0);
    var s1 :| && Enabled(s0, Response(0, Accepted)) && Next(s0, Response(0, Accepted)) == Ok(s1)
              && Enabled(s1, Response(1, Accepted)) && Next(s1, Response(1, Accepted)) == Ok(s);
    StepOn(NewPort(map[]), steps, s0, Response(0, Accepted), s1);
    StepOn(NewPort(map[]), steps + [Response(0, Accepted)], s1, Response(1, Accepted), s);
    steps := steps + [Response(0, Accepted)] + [Response(1, Accepted)];
  }

  lemma NewInvariant()
    ensures Invariant(NewPort(map[]))
  {
  }

  /**
   * A run from the new port to a state in which a peer that sends two responses
   * from within sendRetryResp fails the assertion, if the first has to wait for its
   * END_RESP.
   */
  lemma TwoResponsesFail() returns (steps: seq<Step>, s: MasterState, script: seq<Resent>)
    ensures Schedule(NewPort(map[]), steps) && Run(NewPort(map[]), steps) == Ok(s)
    ensures s.needToSendRetry && Legal(s.wire) && Monitor(s.wire).value.response == Some(0)
    ensures Sendable(CalledBack(s, 0), script) && |script| == 2
    ensures HandleEndResp(s, 0, script) == Fatal(RetryProtocol)
  {
    steps, s := OneRefused();
    NewInvariant();
    EveryMasterRun(NewPort(map[]), steps);
    script := [Resent(1, 1, Accepted), Resent(2, 2, Accepted)];
    EndRespWire(s, 0);
    CoreFrame(OnWire(s, EndResp, 0).(responseInProgress := false), CalledBack(s, 0));
    TwoResponsesFault(s, script);
  }

  lemma TwoResponsesFault(s: MasterState, script: seq<Resent>)
    requires s.responseInProgress && s.needToSendRetry && |script| == 2
    requires Core(CalledBack(s, 0)) && Deliverable(CalledBack(s, 0), script[0].trans)
    requires script[0].packet == s.flights[script[0].trans].packet && script[0].status.Accepted?
    ensures HandleEndResp(s, 0, script) == Fatal(RetryProtocol)
  {
    AcknowledgeCase(s, 0, script);
    DeliverCase(CalledBack(s, 0), script[0].trans, script[0].status);
    ResendBlocked(RecvTimingResp(CalledBack(s, 0), script[0].packet, script[0].status).value.0, script[1..]);
  }
}
