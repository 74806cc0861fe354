/** The events that the port has raised and not yet handled, and what each step does to them. */
module BridgeEvents {
  import opened Common
  import opened Kernel
  import opened BaseProtocol
  import opened Payloads
  import opened BlockingPackets
  import opened TxnRouters
  import opened SlavePorts
  import opened Bridges
  import Runs

  // ---------- counting events ----------

  /** How often the port has raised the event and not yet handled it. */
  function Raised(lanes: seq<Lane>, ev: PayloadEvent): (r: nat) {
    if lanes == [] then 0 else Raised(lanes[..|lanes| - 1], ev) + multiset(lanes[|lanes| - 1].events)[ev]
  }

  lemma {:induction false} RaisedUpdate(lanes: seq<Lane>, k: nat, l: Lane, ev: PayloadEvent)
    requires k < |lanes|
    ensures Raised(lanes[k := l], ev) + multiset(lanes[k].events)[ev] == Raised(lanes, ev) + multiset(l.events)[ev]
  {
    var n := |lanes| - 1;
    if k == n {
      assert lanes[k := l][..n] == lanes[..n];
    } else {
      assert lanes[k := l][..n] == lanes[..n][k := l];
      RaisedUpdate(lanes[..n], k, l, ev);
    }
  }

  predicate SameEvents(s: PortState, s': PortState) {
    && s'.now == s.now && s'.curTick == s.curTick && |s'.lanes| == |s.lanes|
    && forall k :: 0 <= k < |s.lanes| ==> s'.lanes[k].events == s.lanes[k].events
  }

  lemma {:induction false} SameRaised(lanes: seq<Lane>, lanes': seq<Lane>, ev: PayloadEvent)
    requires |lanes'| == |lanes| && forall k :: 0 <= k < |lanes| ==> lanes'[k].events == lanes[k].events
    ensures Raised(lanes', ev) == Raised(lanes, ev)
  {
    if lanes != [] {
      SameRaised(lanes[..|lanes| - 1], lanes'[..|lanes| - 1], ev);
    }
  }

  lemma {:induction false} RaisedMember(lanes: seq<Lane>, ev: PayloadEvent)
    ensures Raised(lanes, ev) > 0 <==> exists k :: 0 <= k < |lanes| && ev in lanes[k].events
  {
    if lanes != [] {
      var n := |lanes| - 1;
      RaisedMember(lanes[..n], ev);
      if k :| 0 <= k < |lanes| && ev in lanes[k].events {
        assert k < n ==> lanes[..n][k] == lanes[k];
      }
      if k :| 0 <= k < n && ev in lanes[..n][k].events {
        assert lanes[..n][k] == lanes[k];
      }
    }
  }

  /** What has been raised is found. */
  lemma Placed(lanes: seq<Lane>, ev: PayloadEvent)
    requires Raised(lanes, ev) > 0
    ensures Place(lanes, ev).Some?
  {
    RaisedMember(lanes, ev);
  }

  // ---------- what the port does to its events ----------

  lemma RequestEvents(s: PortState, pkt: Packet)
    ensures RecvTimingReq(s, pkt).Ok? ==> SameEvents(s, RecvTimingReq(s, pkt).value.0)
  {
  }

  lemma {:induction false} ScriptEvents(s: PortState, script: seq<Packet>)
    requires RecvAll(s, script).Ok?
    ensures SameEvents(s, RecvAll(s, script).value)
    decreases |script|
  {
    if script != [] && !s.peerWaits {
      RequestEvents(s, script[0]);
      ScriptEvents(RecvTimingReq(s, script[0]).value.0, script[1..]);
    }
  }

  lemma FinishEvents(s: PortState, k: nat, h: Handle)
    ensures Finish(s, k, h).Ok? ==> SameEvents(s, Finish(s, k, h).value)
  {
  }

  lemma UnblockEvents(s: PortState, h: Handle, script: seq<Packet>)
    requires Unblock(s, h, script).Ok?
    ensures SameEvents(s, Unblock(s, h, script).value)
  {
    var (helper, need) := ClearChannel(s.helper, s.pool, h).value;
    if need {
      ScriptEvents(s.(helper := helper, peerWaits := false, retries := s.retries + 1), script);
    }
  }

  lemma RespondEvents(s: PortState, h: Handle, accept: bool)
    requires Respond(s, h, accept).Ok?
    ensures SameEvents(s, Respond(s, h, accept).value)
  {
    var ext := s.pool.slots[h].ext.value;
    var s1 := s.(pool := s.pool.(slots := s.pool.slots[h := s.pool.slots[h].(ext := Some(ext.(packet := ext.packet.Answered())))]));
    FinishEvents(s1, ext.core, h);
  }

  lemma PecEvents(s: PortState, h: Handle, phase: Phase, accept: bool, script: seq<Packet>)
    requires Pec(s, h, phase, accept, script).Ok?
    ensures SameEvents(s, Pec(s, h, phase, accept, script).value)
  {
    var s1 := s;
    if phase == EndReq || (IsBlocking(s.helper, h) && phase == BeginResp) {
      UnblockEvents(s, h, script);
      s1 := Unblock(s, h, script).value;
    }
    if phase == BeginResp {
      RespondEvents(s1, h, accept);
    }
  }

  lemma {:induction false} ResendEvents(s: PortState, sockets: seq<nat>, refused: set<nat>)
    requires ResendAll(s, sockets, refused).Ok?
    ensures SameEvents(s, ResendAll(s, sockets, refused).value)
    decreases |sockets|
  {
    if sockets != [] {
      var k := sockets[0];
      var ext := GetExtension(s.pool, s.helper.response[k].value).value;
      var helper := UpdateBlocking(s.helper, ext.core, None, Response).value;
      FinishEvents(s.(helper := helper), ext.core, s.helper.response[k].value);
      ResendEvents(Resend(s, k, k !in refused).value, sockets[1..], refused);
    }
  }

  lemma WithoutOne(events: seq<PayloadEvent>, i: nat, ev: PayloadEvent)
    requires i < |events|
    ensures multiset(events)[ev] == multiset(events[..i] + events[i + 1..])[ev] + if events[i] == ev then 1 else 0
  {
    assert events == events[..i] + [events[i]] + events[i + 1..];
  }

  /** Handling an event takes exactly that event away. */
  lemma ServiceTakes(s: PortState, k: nat, i: nat, accept: bool, script: seq<Packet>, ev: PayloadEvent)
    requires k < |s.lanes| && i < |s.lanes[k].events| && Service(s, k, i, accept, script).Ok?
    ensures var s' := Service(s, k, i, accept, script).value;
            && s'.now == s.now && s'.curTick == s.curTick
            && Raised(s.lanes, ev) == Raised(s'.lanes, ev) + if s.lanes[k].events[i] == ev then 1 else 0
  {
    var events := s.lanes[k].events;
    var l := s.lanes[k].(events := events[..i] + events[i + 1..]);
    var popped := SetLane(s, k, l, s.pool);
    PecEvents(popped, events[i].h, events[i].phase, accept, script);
    SameRaised(popped.lanes, Service(s, k, i, accept, script).value.lanes, ev);
    RaisedUpdate(s.lanes, k, l, ev);
    WithoutOne(events, i, ev);
  }

  /** 10 ns in ticks of 1 ps, for either phase. */
  const RAISED_AHEAD: Time := 10_000

  /** What a step of router k raises: END_REQ or BEGIN_RESP, after the delay of the phase. */
  predicate Raises(s: PortState, s': PortState, k: nat) {
    && k < |s.lanes| == |s'.lanes| && s'.lanes == s.lanes[k := s'.lanes[k]]
    && s'.lanes[k].events == s.lanes[k].events + NewEvents(s, s', k)
    && s'.now == s.now && s'.curTick == s.curTick
    && forall i :: 0 <= i < |NewEvents(s, s', k)| ==>
         var ev := NewEvents(s, s', k)[i];
         (ev.phase == EndReq || ev.phase == BeginResp) && ev.at == s.now + RAISED_AHEAD
  }

  /** The events of a lane with more of them, raised now. */
  predicate Grown(l: Lane, l': Lane, now: Time) {
    && |l.events| <= |l'.events| && l'.events[..|l.events|] == l.events
    && forall i :: |l.events| <= i < |l'.events| ==>
         (l'.events[i].phase == EndReq || l'.events[i].phase == BeginResp) && l'.events[i].at == now + RAISED_AHEAD
  }

  lemma SendEndReqGrows(l: Lane, p: PoolState, now: Time, h: Handle)
    ensures SendEndReq(l, p, now, h).Ok? ==> Grown(l, SendEndReq(l, p, now, h).value, now)
  {
  }

  lemma SendResponseGrows(l: Lane, p: PoolState, now: Time, h: Handle)
    ensures SendResponse(l, p, now, h).Ok? ==> Grown(l, SendResponse(l, p, now, h).value.0, now)
  {
  }

  lemma GrownTrans(l: Lane, l1: Lane, l': Lane, now: Time)
    requires Grown(l, l1, now) && Grown(l1, l', now)
    ensures Grown(l, l', now)
  {
    assert l'.events[..|l.events|] == l'.events[..|l1.events|][..|l.events|];
    assert forall i :: |l.events| <= i < |l1.events| ==> l'.events[i] == l'.events[..|l1.events|][i];
  }

  lemma EndRespGrows(l: Lane, p: PoolState, now: Time)
    ensures OnEndResp(l, p, now).Ok? ==> Grown(l, OnEndResp(l, p, now).value.0, now)
  {
    if OnEndResp(l, p, now).Ok? {
      var l1 := l.(router := l.router.(inProgress := None, responding := false));
      var l2, p2 := l1, p;
      if l1.router.nextResponse.Some? {
        SendResponseGrows(l1, p, now, l1.router.nextResponse.value);
        var r := SendResponse(l1, p, now, l1.router.nextResponse.value).value;
        l2, p2 := r.0, r.1;
      }
      var l3 := l2.(router := l2.router.(nextResponse := None));
      var l4 := l3;
      if l3.router.endReqPending.Some? {
        SendEndReqGrows(l3, p2, now, l3.router.endReqPending.value);
        l4 := SendEndReq(l3, p2, now, l3.router.endReqPending.value).value;
      }
      GrownTrans(l, l3, l4, now);
    }
  }

  lemma PeqGrows(l: Lane, p: PoolState, now: Time, e: PeqEntry)
    ensures PeqCallback(l, p, now, e).Ok? ==> Grown(l, PeqCallback(l, p, now, e).value.0, now)
  {
    var l1 := l.(router := l.router.(peq := l.router.peq - multiset{e}));
    if e.phase == BeginReq && Acquire(p, e.h).Ok? {
      SendEndReqGrows(l1, Acquire(p, e.h).value, now, e.h);
    } else if e.phase == EndResp {
      EndRespGrows(l1, p, now);
    }
  }

  lemma RouterRaises(s: PortState, step: Runs.Step)
    requires Runs.Enabled(s, step) && (step.Peq? || step.Done? || step.Memory?) && Runs.Next(s, step).Ok?
    ensures Raises(s, Runs.Next(s, step).value, step.k)
  {
    var s', k := Runs.Next(s, step).value, step.k;
    match step {
      case Peq(_, e) => PeqGrows(s.lanes[k], s.pool, s.now, e);
      case Done(_, _) =>
      case Memory(_) =>
        var l1 := s.lanes[k].(router := s.lanes[k].router.(thread := Listening));
        if l1.router.inProgress.Some? {
          SendResponseGrows(l1, s.pool, s.now, l1.router.inProgress.value);
        }
    }
    assert Grown(s.lanes[k], s'.lanes[k], s.now);
    var before, after := s.lanes[k].events, s'.lanes[k].events;
    assert after == after[..|before|] + after[|before|..];
  }
}
