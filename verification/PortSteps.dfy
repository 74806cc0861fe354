/** The handler of the port's events and recvRespRetry keep the invariant. */
module PortSteps {
  import opened Common
  import opened Kernel
  import opened BaseProtocol
  import opened Payloads
  import opened BlockingPackets
  import opened TxnRouters
  import opened SlavePorts
  import opened Pipes
  import opened Simulation

  // ---------- END_REQ ----------

  /** The only event of a socket, removed from the queue. */
  function Popped(s: PortState, k: nat): (r: PortState)
    requires k < |s.lanes|
  {
    SetLane(s, k, s.lanes[k].(events := []), s.pool)
  }

  /** The state when the request channel of socket k has become free and a refused peer has been called back. */
  function Freed(s: PortState, k: nat): (r: PortState)
    requires k < |s.lanes|
  {
    var free := Popped(s, k).(helper := s.helper.(request := s.helper.request[k := None]));
    if Flag(s.helper.retry, k)
    then free.(helper := free.helper.(retry := s.helper.retry[k := false]), peerWaits := false, retries := s.retries + 1)
    else free
  }

  function FreedPipe(q: Pipe): (r: Pipe)
    requires q.head.Serving?
  {
    Pipe(q.head.(endReqAt := None), q.tail)
  }

  lemma FreedLane(s: PortState, k: nat, q: Pipe)
    requires LaneAt(s, k, q) && q.head.Serving? && q.head.endReqAt.Some?
    ensures LaneAt(Freed(s, k), k, FreedPipe(q))
  {
    var l, p := s.lanes[k], FreedPipe(q);
    assert p.Live() == q.Live();
    assert p.Router(l.router.range) == q.Router(l.router.range);
    assert LogOk(l.log, p);
  }

  lemma FreedRetry(s: PortState, s': PortState, k: nat)
    requires RetryOk(s) && s'.helper.request == s.helper.request[k := None]
    requires if Flag(s.helper.retry, k)
             then s'.helper.retry == s.helper.retry[k := false] && !s'.peerWaits && s'.retries == s.retries + 1
             else s'.helper.retry == s.helper.retry && s'.peerWaits == s.peerWaits && s'.retries == s.retries
    requires s'.refusals == s.refusals && s'.helper.num == s.helper.num
    ensures RetryOk(s')
  {
    forall j: nat
      ensures Flag(s'.helper.retry, j) <==> Flag(s.helper.retry, j) && j != k
      ensures Flag(s'.helper.retry, j) ==> At(s'.helper.request, j).Some?
    {
      if Flag(s.helper.retry, j) {
        assert At(s.helper.request, j).Some?;
        assert j != k ==> At(s'.helper.request, j) == At(s.helper.request, j);
      }
    }
    if s.peerWaits && !Flag(s.helper.retry, k) {
      var j: nat :| Flag(s.helper.retry, j);
      assert Flag(s'.helper.retry, j);
    }
  }

  lemma FreedFacts(s: PortState, k: nat)
    requires Configured(s) && k < |s.lanes|
    ensures var s' := Freed(s, k);
            && Configured(s') && OnlyEvents(s, s', k)
            && s'.helper == s.helper.(request := s.helper.request[k := None], retry := s'.helper.retry)
            && s'.refusals == s.refusals
            && if Flag(s.helper.retry, k)
               then s'.helper.retry == s.helper.retry[k := false] && !s'.peerWaits && s'.retries == s.retries + 1
               else s'.helper.retry == s.helper.retry && s'.peerWaits == s.peerWaits && s'.retries == s.retries
  {
  }

  /** Apart from the port's own fields, only the events of socket k are new. */
  predicate OnlyEvents(s: PortState, s': PortState, k: nat) {
    && k < |s.lanes| && s'.now == s.now && s'.pool == s.pool && s'.sockets == s.sockets
    && s'.lanes == s.lanes[k := s.lanes[k].(events := [])]
  }

  lemma FreedStep(s: PortState, pipes: seq<Pipe>, k: nat)
    requires Refines(s, pipes) && k < |s.lanes|
    requires pipes[k].head.Serving? && pipes[k].head.endReqAt.Some?
    ensures Refines(Freed(s, k), pipes[k := FreedPipe(pipes[k])])
  {
    var s', p := Freed(s, k), FreedPipe(pipes[k]);
    FreedLane(s, k, pipes[k]);
    FreedFacts(s, k);
    FreedWhole(s, pipes, s', k, p);
  }

  lemma FreedWhole(s: PortState, pipes: seq<Pipe>, s': PortState, k: nat, p: Pipe)
    requires Refines(s, pipes) && Configured(s') && OnlyEvents(s, s', k) && k < |s.lanes|
    requires pipes[k].head.Serving? && p == FreedPipe(pipes[k])
    requires LaneAt(s', k, p)
    requires s'.helper == s.helper.(request := s.helper.request[k := None], retry := s'.helper.retry)
    requires if Flag(s.helper.retry, k)
             then s'.helper.retry == s.helper.retry[k := false] && !s'.peerWaits && s'.retries == s.retries + 1
             else s'.helper.retry == s.helper.retry && s'.peerWaits == s.peerWaits && s'.retries == s.retries
    requires s'.refusals == s.refusals
    ensures Refines(s', pipes[k := p])
  {
    FreedRetry(s, s', k);
    FreedElsewhere(s, s', k);
    PoolSameOwners(s.pool, pipes, k, p);
    PortStep(s, pipes, s', k, |s.pool.slots|, p);
  }

  lemma FreedElsewhere(s: PortState, s': PortState, k: nat)
    requires OnlyEvents(s, s', k)
    requires s'.helper == s.helper.(request := s.helper.request[k := None], retry := s'.helper.retry)
    ensures SameElsewhere(s, s', k, |s.pool.slots|)
  {
  }

  /** Taking the only event off the queue. */
  lemma ServiceOnly(s: PortState, k: nat, e: PayloadEvent, accept: bool, script: seq<Packet>)
    requires k < |s.lanes| && s.lanes[k].events == [e]
    ensures Service(s, k, 0, accept, script) == Pec(Popped(s, k), e.h, e.phase, accept, script)
  {
    assert s.lanes[k].events[..0] + s.lanes[k].events[1..] == [];
  }

  lemma UnblockCase(s: PortState, k: nat, h: Handle, script: seq<Packet>)
    requires Configured(s) && k < s.helper.num && IsBlocking(s.helper, h)
    requires h < |s.pool.slots| && s.pool.slots[h].ext.Some? && s.pool.slots[h].ext.value.core == k
    ensures Unblock(Popped(s, k), h, script)
         == if Flag(s.helper.retry, k) then RecvAll(Freed(s, k), script) else Ok(Freed(s, k))
  {
    assert k in s.helper.retry && k in s.helper.request;
  }

  /** The request channel of socket k becomes free, and a refused peer is called back. */
  function Freeing(s: PortState, k: nat): (r: PortState) {
    var free := s.(helper := s.helper.(request := s.helper.request[k := None]));
    if Flag(s.helper.retry, k)
    then free.(helper := free.helper.(retry := s.helper.retry[k := false]), peerWaits := false, retries := s.retries + 1)
    else free
  }

  /** The phase frees the channel that payload h blocks: END_REQ, or BEGIN_RESP in its place. */
  predicate FreesChannel(s: PortState, k: nat, h: Handle, phase: Phase) {
    (phase == EndReq || phase == BeginResp) && At(s.helper.request, k) == Some(h)
  }

  lemma UnblockExact(s: PortState, k: nat, h: Handle, script: seq<Packet>)
    requires Configured(s) && k < s.helper.num
    requires h < |s.pool.slots| && s.pool.slots[h].ext.Some? && s.pool.slots[h].ext.value.core == k
    requires IsBlocking(s.helper, h) <==> At(s.helper.request, k) == Some(h)
    ensures Unblock(s, h, script)
         == if At(s.helper.request, k) != Some(h) then Fatal(NotBlocking)
            else if Flag(s.helper.retry, k) then RecvAll(Freeing(s, k), script) else Ok(Freeing(s, k))
  {
    assert k in s.helper.retry && k in s.helper.request;
  }

  /**
   * pec for whatever target, in any state in which payload h belongs to socket k: an
   * END_REQ that does not find its payload blocking fails the assertion; END_REQ, and
   * BEGIN_RESP of a payload that still blocks, free the channel and call a refused
   * peer back; and BEGIN_RESP goes on to the response.
   */
  lemma PecExact(s: PortState, k: nat, h: Handle, phase: Phase, accept: bool, script: seq<Packet>)
    requires Configured(s) && k < s.helper.num
    requires h < |s.pool.slots| && s.pool.slots[h].ext.Some? && s.pool.slots[h].ext.value.core == k
    requires IsBlocking(s.helper, h) <==> At(s.helper.request, k) == Some(h)
    ensures var freed := if !FreesChannel(s, k, h, phase) then Ok(s)
                         else if Flag(s.helper.retry, k) then RecvAll(Freeing(s, k), script) else Ok(Freeing(s, k));
            Pec(s, h, phase, accept, script)
            == if phase == EndReq && At(s.helper.request, k) != Some(h) then Fatal(NotBlocking)
               else if freed.Ok? && phase == BeginResp then Respond(freed.value, h, accept) else freed
  {
    UnblockExact(s, k, h, script);
  }

  /** Respond leaves the request channels and the retry flags alone. */
  lemma RespondChannels(s: PortState, h: Handle, accept: bool)
    requires Respond(s, h, accept).Ok?
    ensures var s' := Respond(s, h, accept).value;
            s'.helper.request == s.helper.request && s'.helper.retry == s.helper.retry && s'.retries == s.retries
  {
  }

  /** After END_REQ or BEGIN_RESP the payload does not block its socket, the peer of a raised flag has had its retry, and no other socket has noticed. */
  lemma PecUnblocks(s: PortState, k: nat, h: Handle, phase: Phase, accept: bool)
    requires Configured(s) && k < s.helper.num && (phase == EndReq || phase == BeginResp)
    requires h < |s.pool.slots| && s.pool.slots[h].ext.Some? && s.pool.slots[h].ext.value.core == k
    requires IsBlocking(s.helper, h) <==> At(s.helper.request, k) == Some(h)
    requires Pec(s, h, phase, accept, []).Ok?
    ensures var s', owed := Pec(s, h, phase, accept, []).value, At(s.helper.request, k) == Some(h) && Flag(s.helper.retry, k);
            && At(s'.helper.request, k) == (if At(s.helper.request, k) == Some(h) then None else At(s.helper.request, k))
            && s'.retries == s.retries + (if owed then 1 else 0) && (owed ==> !Flag(s'.helper.retry, k))
            && forall j: nat :: j != k ==>
                 At(s'.helper.request, j) == At(s.helper.request, j) && Flag(s'.helper.retry, j) == Flag(s.helper.retry, j)
  {
    PecExact(s, k, h, phase, accept, []);
    if phase == BeginResp {
      RespondChannels(if FreesChannel(s, k, h, phase) then Freeing(s, k) else s, h, accept);
    }
  }

  lemma EndReqCase(s: PortState, pipes: seq<Pipe>, k: nat, accept: bool, script: seq<Packet>)
    requires Refines(s, pipes) && k < |s.lanes|
    requires pipes[k].head.Serving? && pipes[k].head.endReqAt.Some?
    ensures |s.lanes[k].events| == 1
    ensures Service(s, k, 0, accept, script)
         == if Flag(s.helper.retry, k) then RecvAll(Freed(s, k), script) else Ok(Freed(s, k))
  {
    var h := pipes[k].head.t.h;
    ServingLane(s, k, pipes[k]);
    ScanAgrees(s, pipes, h);
    ServiceOnly(s, k, s.lanes[k].events[0], accept, script);
    UnblockCase(s, k, h, script);
  }

  lemma ServingLane(s: PortState, k: nat, q: Pipe)
    requires LaneAt(s, k, q) && q.head.Serving? && q.head.endReqAt.Some?
    ensures var h := q.head.t.h;
            && s.lanes[k].events == [PayloadEvent(h, EndReq, q.head.endReqAt.value)]
            && h < |s.pool.slots| && s.pool.slots[h].ext.Some? && s.pool.slots[h].ext.value.core == k
            && At(s.helper.request, k) == Some(h)
  {
  }

  /** Everything gem5 sends from within sendRetryReq may be sent when it is sent. */
  predicate ScriptOk(s: PortState, script: seq<Packet>)
    decreases |script|
  {
    script == [] || s.peerWaits ||
    (Acceptable(s, script[0]) && RecvTimingReq(s, script[0]).Ok? && ScriptOk(RecvTimingReq(s, script[0]).value.0, script[1..]))
  }

  lemma {:induction false} RecvAllStep(s: PortState, pipes: seq<Pipe>, script: seq<Packet>) returns (q: seq<Pipe>)
    requires Refines(s, pipes)
    ensures RecvAll(s, script).Ok? <==> ScriptOk(s, script)
    ensures ScriptOk(s, script) ==> Refines(RecvAll(s, script).value, q)
    decreases |script|
  {
    q := pipes;
    if script != [] && !s.peerWaits {
      RequestCases(s, pipes, script[0]);
      if Acceptable(s, script[0]) {
        var s' := RecvTimingReq(s, script[0]).value.0;
        q := RequestStep(s, pipes, script[0], s');
        q := RecvAllStep(s', q, script[1..]);
      }
    }
  }

  // ---------- BEGIN_RESP ----------

  /** The packet of payload h has been made a response. */
  function Converting(s: PortState, k: nat, h: Handle, pkt: Packet): (r: PortState)
    requires k < |s.lanes| && h < |s.pool.slots| && s.pool.slots[h].ext.Some?
  {
    var slot := s.pool.slots[h];
    Popped(s, k).(pool := s.pool.(slots := s.pool.slots[h := slot.(ext := Some(slot.ext.value.(packet := pkt)))]))
  }

  lemma AnsweringLane(s: PortState, k: nat, q: Pipe)
    requires LaneAt(s, k, q) && q.head.Answering?
    ensures var h := q.head.t.h;
            && s.lanes[k].events == [PayloadEvent(h, BeginResp, q.head.at)]
            && h < |s.pool.slots| && s.pool.slots[h].refs == 1
            && s.pool.slots[h].ext.Some? && s.pool.slots[h].ext.value.core == k && s.pool.slots[h].ext.value.packet == q.head.t.pkt
            && At(s.helper.request, k) != Some(h)
            && At(s.helper.response, k) == None
  {
  }

  lemma RespondCase(s: PortState, k: nat, h: Handle, pkt: Packet, accept: bool)
    requires CaughtUp(s)
    requires Configured(s) && k < s.helper.num && At(s.helper.response, k) == None
    requires h < |s.pool.slots| && s.pool.slots[h].ext.Some? && s.pool.slots[h].ext.value.core == k
    requires pkt == s.pool.slots[h].ext.value.packet.Answered()
    ensures var s1 := Converting(s, k, h, pkt);
            Respond(Popped(s, k), h, accept)
            == if pkt.isResponse && !accept then Ok(s1.(helper := s.helper.(response := s.helper.response[k := Some(h)])))
               else Finish(s1, k, h)
  {
    assert k in s.helper.response;
  }

  lemma BeginRespCase(s: PortState, pipes: seq<Pipe>, k: nat, accept: bool, script: seq<Packet>)
    requires CaughtUp(s)
    requires Refines(s, pipes) && k < |s.lanes| && pipes[k].head.Answering?
    ensures |s.lanes[k].events| == 1
    ensures var h, pkt := pipes[k].head.t.h, pipes[k].head.t.pkt.Answered();
            && h < |s.pool.slots| && s.pool.slots[h].ext.Some?
            && var s1 := Converting(s, k, h, pkt);
            Service(s, k, 0, accept, script)
            == if pkt.isResponse && !accept then Ok(s1.(helper := s.helper.(response := s.helper.response[k := Some(h)])))
               else Finish(s1, k, h)
  {
    var h := pipes[k].head.t.h;
    AnsweringLane(s, k, pipes[k]);
    ScanAgrees(s, pipes, h);
    ServiceOnly(s, k, s.lanes[k].events[0], accept, script);
    RespondCase(s, k, h, pipes[k].head.t.pkt.Answered(), accept);
  }

  // ---------- the end of a transaction ----------

  /**
   * s1 is s in the middle of a handler: the events of socket k are off the queue,
   * its response entry is clear, and the payload h may carry a response packet.
   */
  ghost predicate MidHandler(s: PortState, s1: PortState, k: nat, h: Handle) {
    && k < |s.lanes| && h < |s.pool.slots| && |s1.pool.slots| == |s.pool.slots|
    && s1 == s.(lanes := s.lanes[k := s.lanes[k].(events := [])],
                pool := s.pool.(slots := s.pool.slots[h := s1.pool.slots[h]]),
                helper := s.helper.(response := s1.helper.response))
    && s1.helper.response.Keys == s.helper.response.Keys
    && (forall j: nat :: j != k ==> At(s1.helper.response, j) == At(s.helper.response, j))
    && At(s1.helper.response, k) == None
  }

  lemma FinishLane(s1: PortState, k: nat, q: Pipe)
    requires k < |s1.lanes| && s1.lanes[k].events == [] && At(s1.helper.response, k) == None
    requires q.head.Answering? || q.head.Refused?
    requires !q.head.t.pkt.needsResponse
    requires LaneWith(s1, k, At(s1.helper.request, k), q.Blocked(), q.Events(), q)
    ensures var r := Finish(s1, k, q.head.t.h);
            && r.Ok? && OnlyLane(s1, r.value, k)
            && Release(s1.pool, q.head.t.h) == Ok(r.value.pool)
            && LaneAt(r.value, k, Ended(q, s1.now))
  {
    FinishKeeps(s1.now, k, At(s1.helper.request, k), s1.lanes[k], s1.pool.slots, q, s1.pool);
  }

  /** The payload of the head goes back to the pool. */
  lemma FinishPool(s: PortState, pipes: seq<Pipe>, pool: PoolState, k: nat, q: Pipe, p: Pipe)
    requires PoolOk(s.pool, pipes) && k < |pipes| && LaneAt(s, k, pipes[k])
    requires (pipes[k].head.Answering? || pipes[k].head.Refused?) && (q.head.Answering? || q.head.Refused?)
    requires q.head.t.h == pipes[k].head.t.h && q.tail == pipes[k].tail && p == Ended(q, s.now)
    requires var h := q.head.t.h;
             && h < |s.pool.slots| && h < |pool.slots|
             && pool == s.pool.(slots := s.pool.slots[h := pool.slots[h]])
             && pool.slots[h].refs == s.pool.slots[h].refs
             && pool.slots[h].ext.Some? && pool.slots[h].ext.value.core == k
    ensures Release(pool, q.head.t.h).Ok? && PoolOk(Release(pool, q.head.t.h).value, pipes[k := p])
  {
    var h := q.head.t.h;
    HeldByHead(s, pipes, k);
    PoolKept(s.pool, pool, pipes, k, q, h);
    PoolReleased(pool, pipes[k := q], k, p, h);
    assert pipes[k := q][k := p] == pipes[k := p];
  }

  /** Whatever a handler does from its middle on to socket k, payload h and the response entry of k. */
  lemma HandlerStep(s: PortState, pipes: seq<Pipe>, s1: PortState, s': PortState, k: nat, h: Handle, p: Pipe)
    requires Refines(s, pipes) && MidHandler(s, s1, k, h)
    requires s.pool.slots[h].ext.Some? && s.pool.slots[h].ext.value.core == k
    requires HandlerDone(s1, s', k)
    requires |s'.pool.slots| == |s1.pool.slots|
    requires forall x :: 0 <= x < |s1.pool.slots| && x != h ==> s'.pool.slots[x] == s1.pool.slots[x]
    requires LaneAt(s', k, p)
    requires PoolOk(s'.pool, pipes[k := p])
    ensures Refines(s', pipes[k := p])
  {
    HandlerConfig(s, s1, s', k, h);
    HandlerElsewhere(s, s1, s', k, h);
    RetrySame(s, s');
    PortStep(s, pipes, s', k, h, p);
  }

  ghost predicate HandlerDone(s1: PortState, s': PortState, k: nat) {
    && k < |s1.lanes| && k < |s'.lanes|
    && s' == s1.(lanes := s1.lanes[k := s'.lanes[k]], pool := s'.pool, ends := s'.ends,
                 helper := s1.helper.(response := s'.helper.response))
    && s'.helper.response.Keys == s1.helper.response.Keys
    && (forall j: nat :: j != k ==> At(s'.helper.response, j) == At(s1.helper.response, j))
  }

  lemma HandlerConfig(s: PortState, s1: PortState, s': PortState, k: nat, h: Handle)
    requires Configured(s) && MidHandler(s, s1, k, h)
    requires HandlerDone(s1, s', k)
    ensures Configured(s')
  {
    assert At(s'.helper.response, s.helper.num) == At(s1.helper.response, s.helper.num);
  }

  lemma HandlerElsewhere(s: PortState, s1: PortState, s': PortState, k: nat, h: Handle)
    requires MidHandler(s, s1, k, h)
    requires s.pool.slots[h].ext.Some? && s.pool.slots[h].ext.value.core == k
    requires HandlerDone(s1, s', k)
    requires |s'.pool.slots| == |s1.pool.slots|
    requires forall x :: 0 <= x < |s1.pool.slots| && x != h ==> s'.pool.slots[x] == s1.pool.slots[x]
    ensures SameElsewhere(s, s', k, h)
  {
    forall j | 0 <= j < |s.lanes| && j != k
      ensures SameSocket(s, s', j)
    {
      assert At(s'.helper.response, j) == At(s1.helper.response, j) == At(s.helper.response, j);
    }
  }

  lemma FinishWhole(s: PortState, pipes: seq<Pipe>, s1: PortState, s': PortState, k: nat, h: Handle, p: Pipe)
    requires Refines(s, pipes) && MidHandler(s, s1, k, h) && OnlyLane(s1, s', k)
    requires s.pool.slots[h].ext.Some? && s.pool.slots[h].ext.value.core == k
    requires |s'.pool.slots| == |s1.pool.slots|
    requires forall x :: 0 <= x < |s1.pool.slots| && x != h ==> s'.pool.slots[x] == s1.pool.slots[x]
    requires LaneAt(s', k, p)
    requires PoolOk(s'.pool, pipes[k := p])
    ensures Refines(s', pipes[k := p])
  {
    HandlerStep(s, pipes, s1, s', k, h, p);
  }

  /** END_RESP for the head of socket k, out of a handler. */
  lemma FinishStep(s: PortState, pipes: seq<Pipe>, s1: PortState, k: nat, q: Pipe)
    requires Refines(s, pipes) && k < |s.lanes| && (pipes[k].head.Answering? || pipes[k].head.Refused?)
    requires (q.head.Answering? || q.head.Refused?) && q.head.t.h == pipes[k].head.t.h && q.tail == pipes[k].tail
    requires !q.head.t.pkt.needsResponse
    requires MidHandler(s, s1, k, q.head.t.h)
    requires LaneWith(s1, k, At(s.helper.request, k), q.Blocked(), q.Events(), q)
    ensures Finish(s1, k, q.head.t.h).Ok?
    ensures Refines(Finish(s1, k, q.head.t.h).value, pipes[k := Ended(q, s.now)])
  {
    var s' := FinishParts(s, pipes, s1, k, q);
    FinishWhole(s, pipes, s1, s', k, q.head.t.h, Ended(q, s.now));
  }

  lemma FinishParts(s: PortState, pipes: seq<Pipe>, s1: PortState, k: nat, q: Pipe) returns (s': PortState)
    requires Refines(s, pipes) && k < |s.lanes| && (pipes[k].head.Answering? || pipes[k].head.Refused?)
    requires (q.head.Answering? || q.head.Refused?) && q.head.t.h == pipes[k].head.t.h && q.tail == pipes[k].tail
    requires !q.head.t.pkt.needsResponse
    requires MidHandler(s, s1, k, q.head.t.h)
    requires LaneWith(s1, k, At(s.helper.request, k), q.Blocked(), q.Events(), q)
    ensures Finish(s1, k, q.head.t.h) == Ok(s') && OnlyLane(s1, s', k)
    ensures s.pool.slots[q.head.t.h].ext.Some? && s.pool.slots[q.head.t.h].ext.value.core == k
    ensures |s'.pool.slots| == |s1.pool.slots|
    ensures forall x :: 0 <= x < |s1.pool.slots| && x != q.head.t.h ==> s'.pool.slots[x] == s1.pool.slots[x]
    ensures LaneAt(s', k, Ended(q, s.now))
    ensures PoolOk(s'.pool, pipes[k := Ended(q, s.now)])
  {
    FinishLane(s1, k, q);
    FinishPayload(s, pipes, s1, k, q);
    FinishPool(s, pipes, s1.pool, k, q, Ended(q, s.now));
    s' := Finish(s1, k, q.head.t.h).value;
  }

  lemma FinishPayload(s: PortState, pipes: seq<Pipe>, s1: PortState, k: nat, q: Pipe)
    requires k < |pipes| && LaneAt(s, k, pipes[k]) && (pipes[k].head.Answering? || pipes[k].head.Refused?)
    requires (q.head.Answering? || q.head.Refused?) && q.head.t.h == pipes[k].head.t.h && MidHandler(s, s1, k, q.head.t.h)
    requires LaneWith(s1, k, At(s.helper.request, k), q.Blocked(), q.Events(), q)
    ensures var h := q.head.t.h;
            && s.pool.slots[h].refs == 1 && s.pool.slots[h].ext.Some? && s.pool.slots[h].ext.value.core == k
            && s1.pool.slots[h].refs == 1 && s1.pool.slots[h].ext.Some? && s1.pool.slots[h].ext.value.core == k
  {
  }

  lemma ConvertingLane(s: PortState, k: nat, q: Pipe)
    requires LaneAt(s, k, q) && q.head.Answering?
    ensures var h := q.head.t.h;
            && h < |s.pool.slots| && s.pool.slots[h].ext.Some?
            && var s1 := Converting(s, k, h, q.head.t.pkt.Answered());
            && MidHandler(s, s1, k, h)
            && LaneWith(s1, k, At(s.helper.request, k), None, Converted(q).Events(), Converted(q))
  {
    AnsweringLane(s, k, q);
    var h := q.head.t.h;
    var s1 := Converting(s, k, h, q.head.t.pkt.Answered());
    ConvertedKeeps(s.now, k, At(s.helper.request, k), s.lanes[k], s.pool.slots, q, s1.pool.slots);
    assert s1.lanes[k].(events := Converted(q).Events()) == s.lanes[k];
  }

  lemma WaitingLane(s1: PortState, s': PortState, k: nat, q: Pipe)
    requires q.head.Answering? && q.head.t.pkt.isResponse && !q.head.t.pkt.needsResponse
    requires LaneWith(s1, k, At(s1.helper.request, k), None, q.Events(), q) && s1.lanes[k].events == []
    requires s' == s1.(helper := s1.helper.(response := s1.helper.response[k := Some(q.head.t.h)]))
    ensures LaneAt(s', k, Waiting(q))
  {
    WaitingKeeps(s1.now, k, At(s1.helper.request, k), s1.lanes[k].(events := q.Events()), s1.pool.slots, q);
    assert s1.lanes[k].(events := q.Events()).(events := []) == s1.lanes[k];
  }

  lemma WaitingWhole(s: PortState, pipes: seq<Pipe>, s1: PortState, s': PortState, k: nat, q: Pipe)
    requires Refines(s, pipes) && k < |s.lanes| && pipes[k].head.Answering? && q == Converted(pipes[k])
    requires MidHandler(s, s1, k, q.head.t.h) && MidSlot(s, s1, k, q.head.t.h)
    requires s' == s1.(helper := s1.helper.(response := s1.helper.response[k := Some(q.head.t.h)]))
    requires LaneAt(s', k, Waiting(q))
    ensures Refines(s', pipes[k := Waiting(q)])
  {
    WaitingPool(s, pipes, s'.pool, k, q);
    assert k in s1.helper.response;
    HandlerStep(s, pipes, s1, s', k, q.head.t.h, Waiting(q));
  }

  lemma WaitingPool(s: PortState, pipes: seq<Pipe>, pool: PoolState, k: nat, q: Pipe)
    requires PoolOk(s.pool, pipes) && k < |pipes| && LaneAt(s, k, pipes[k]) && pipes[k].head.Answering? && q == Converted(pipes[k])
    requires var h := q.head.t.h;
             && h < |s.pool.slots| == |pool.slots|
             && pool == s.pool.(slots := s.pool.slots[h := pool.slots[h]])
             && pool.slots[h].refs == s.pool.slots[h].refs && pool.slots[h].ext.Some? && pool.slots[h].ext.value.core == k
    ensures s.pool.slots[q.head.t.h].ext.Some? && s.pool.slots[q.head.t.h].ext.value.core == k
    ensures PoolOk(pool, pipes[k := Waiting(q)])
  {
    HeldByHead(s, pipes, k);
    PoolKept(s.pool, pool, pipes, k, Waiting(q), q.head.t.h);
  }

  predicate MidSlot(s: PortState, s1: PortState, k: nat, h: Handle) {
    && h < |s.pool.slots| && h < |s1.pool.slots| && s1.pool.slots[h].refs == s.pool.slots[h].refs
    && s1.pool.slots[h].ext.Some? && s1.pool.slots[h].ext.value.core == k
  }

  lemma RefusedByPeer(s: PortState, pipes: seq<Pipe>, k: nat, accept: bool, script: seq<Packet>) returns (s': PortState)
    requires CaughtUp(s)
    requires Refines(s, pipes) && k < |s.lanes| && pipes[k].head.Answering?
    requires !accept && pipes[k].head.t.pkt.Answered().isResponse
    ensures |s.lanes[k].events| == 1
    ensures Service(s, k, 0, accept, script) == Ok(s') && Refines(s', pipes[k := Waiting(Converted(pipes[k]))])
  {
    BeginRespCase(s, pipes, k, accept, script);
    ConvertingLane(s, k, pipes[k]);
    AnsweringLane(s, k, pipes[k]);
    var q := Converted(pipes[k]);
    var s1 := Converting(s, k, q.head.t.h, q.head.t.pkt);
    s' := s1.(helper := s.helper.(response := s.helper.response[k := Some(q.head.t.h)]));
    WaitingLane(s1, s', k, q);
    WaitingWhole(s, pipes, s1, s', k, q);
  }

  lemma AcceptedByPeer(s: PortState, pipes: seq<Pipe>, k: nat, accept: bool, script: seq<Packet>) returns (s': PortState)
    requires CaughtUp(s)
    requires Refines(s, pipes) && k < |s.lanes| && pipes[k].head.Answering?
    requires accept || !pipes[k].head.t.pkt.Answered().isResponse
    ensures |s.lanes[k].events| == 1
    ensures Service(s, k, 0, accept, script) == Ok(s') && Refines(s', pipes[k := Ended(Converted(pipes[k]), s.now)])
  {
    BeginRespCase(s, pipes, k, accept, script);
    ConvertingLane(s, k, pipes[k]);
    var q := Converted(pipes[k]);
    var s1 := Converting(s, k, q.head.t.h, q.head.t.pkt);
    FinishStep(s, pipes, s1, k, q);
    s' := Finish(s1, k, q.head.t.h).value;
  }

  lemma AnsweredRank(q: Pipe, now: Time)
    requires q.head.Answering?
    ensures Rank(Waiting(Converted(q))) < Rank(q) && Rank(Ended(Converted(q), now)) < Rank(q)
  {
  }

  /** pec on BEGIN_RESP: gem5 takes the response, or owes a retry. */
  lemma BeginRespStep(s: PortState, pipes: seq<Pipe>, k: nat, accept: bool, script: seq<Packet>) returns (p: Pipe, s': PortState)
    requires CaughtUp(s)
    requires Refines(s, pipes) && k < |s.lanes| && pipes[k].head.Answering?
    ensures |s.lanes[k].events| == 1
    ensures Service(s, k, 0, accept, script) == Ok(s') && Refines(s', pipes[k := p])
    ensures Rank(p) < Rank(pipes[k])
  {
    AnsweredRank(pipes[k], s.now);
    if pipes[k].head.t.pkt.Answered().isResponse && !accept {
      p := Waiting(Converted(pipes[k]));
      s' := RefusedByPeer(s, pipes, k, accept, script);
    } else {
      p := Ended(Converted(pipes[k]), s.now);
      s' := AcceptedByPeer(s, pipes, k, accept, script);
    }
  }

  // ---------- recvRespRetry ----------

  /** A blocked response is sent once more; it must be accepted. */
  lemma ResendStep(s: PortState, pipes: seq<Pipe>, k: nat, accept: bool) returns (p: Pipe)
    requires Refines(s, pipes) && k < s.helper.num && At(s.helper.response, k).Some?
    ensures pipes[k].head.Refused? && p == Ended(pipes[k], s.now)
    ensures Resend(s, k, accept).Ok? <==> accept
    ensures accept ==> Refines(Resend(s, k, accept).value, pipes[k := p])
  {
    RefusedLane(s, k, pipes[k]);
    ResendCase(s, k, accept, pipes[k].head.t.h);
    p := Ended(pipes[k], s.now);
    if accept {
      FinishStep(s, pipes, Cleared(s, k), k, pipes[k]);
    }
  }

  function Cleared(s: PortState, k: nat): (r: PortState) {
    s.(helper := s.helper.(response := s.helper.response[k := None]))
  }

  lemma RefusedLane(s: PortState, k: nat, q: Pipe)
    requires Configured(s) && LaneAt(s, k, q) && At(s.helper.response, k).Some?
    ensures q.head.Refused? && At(s.helper.response, k) == Some(q.head.t.h)
    ensures !q.head.t.pkt.needsResponse
    ensures var h := q.head.t.h;
            h < |s.pool.slots| && s.pool.slots[h].ext.Some? && s.pool.slots[h].ext.value.core == k
    ensures MidHandler(s, Cleared(s, k), k, q.head.t.h)
    ensures LaneWith(Cleared(s, k), k, At(s.helper.request, k), q.Blocked(), q.Events(), q)
  {
    assert s.lanes[k].events == [];
    assert s.lanes[k := s.lanes[k]] == s.lanes;
    assert s.pool.slots[q.head.t.h := s.pool.slots[q.head.t.h]] == s.pool.slots;
    assert k in s.helper.response;
  }

  lemma ResendCase(s: PortState, k: nat, accept: bool, h: Handle)
    requires Configured(s) && k < s.helper.num && At(s.helper.response, k) == Some(h)
    requires h < |s.pool.slots| && s.pool.slots[h].ext.Some? && s.pool.slots[h].ext.value.core == k
    ensures Resend(s, k, accept) == if accept then Finish(Cleared(s, k), k, h) else Fatal(ResponseRefused)
  {
  }
}
