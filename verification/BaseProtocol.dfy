/**
 * A monitor for the TLM-2.0 base protocol on one socket, written from section
 * 15.2 of IEEE 1666-2011 and not from the code of the wrapper: which phase of
 * which transaction may follow a given history.
 */
module BaseProtocol {
  import opened Common

  datatype Phase = BeginReq | EndReq | BeginResp | EndResp

  datatype WireEvent = WireEvent(phase: Phase, txn: nat)

  /**
   * What the history of a socket leaves open: the transaction that occupies the
   * request channel, the one that occupies the response channel, the ones whose
   * request is over but whose response has not begun, and all that ever began.
   */
  datatype Channels = Channels(request: Option<nat>, response: Option<nat>, served: set<nat>, begun: set<nat>)

  const IDLE := Channels(None, None, {}, {})

  function Observe(c: Channels, e: WireEvent): (r: Option<Channels>) {
    match e.phase
    case BeginReq =>
      if c.request.None? && e.txn !in c.begun
      then Some(c.(request := Some(e.txn), begun := c.begun + {e.txn})) else None
    case EndReq =>
      if c.request == Some(e.txn)
      then Some(c.(request := None, served := c.served + {e.txn})) else None
    case BeginResp =>
      // BEGIN_RESP on a transaction that still occupies the request channel stands in for END_REQ
      if c.response.None? && c.request == Some(e.txn)
      then Some(c.(request := None, response := Some(e.txn)))
      else if c.response.None? && e.txn in c.served
      then Some(c.(response := Some(e.txn), served := c.served - {e.txn})) else None
    case EndResp =>
      if c.response == Some(e.txn) then Some(c.(response := None)) else None
  }

  function Monitor(trace: seq<WireEvent>): (r: Option<Channels>) {
    if trace == [] then Some(IDLE)
    else
      var before := Monitor(trace[..|trace| - 1]);
      if before.None? then None else Observe(before.value, trace[|trace| - 1])
  }

  predicate Legal(trace: seq<WireEvent>) {
    Monitor(trace).Some?
  }

  lemma MonitorAppend(trace: seq<WireEvent>, e: WireEvent)
    requires Legal(trace)
    ensures Monitor(trace + [e]) == Observe(Monitor(trace).value, e)
  {
    assert (trace + [e])[..|trace + [e]| - 1] == trace;
  }

  lemma {:induction false} LegalPrefix(trace: seq<WireEvent>, n: nat)
    requires Legal(trace) && n <= |trace|
    ensures Legal(trace[..n])
  {
    if n < |trace| {
      LegalPrefix(trace[..|trace| - 1], n);
      assert trace[..|trace| - 1][..n] == trace[..n];
    } else {
      assert trace[..n] == trace;
    }
  }

  /** While the request channel is held by a transaction, nothing has ended its request yet. */
  lemma {:induction false} RequestHeld(trace: seq<WireEvent>, i: nat, j: nat)
    requires i < j <= |trace| && Legal(trace[..j]) && trace[i].phase == BeginReq
    requires forall k :: i < k < j ==> !(trace[k].txn == trace[i].txn && trace[k].phase in {EndReq, BeginResp})
    ensures Monitor(trace[..j]).value.request == Some(trace[i].txn)
  {
    assert trace[..j][..j - 1] == trace[..j - 1];
    if j > i + 1 {
      RequestHeld(trace, i, j - 1);
    }
  }

  lemma {:induction false} ResponseHeld(trace: seq<WireEvent>, i: nat, j: nat)
    requires i < j <= |trace| && Legal(trace[..j]) && trace[i].phase == BeginResp
    requires forall k :: i < k < j ==> trace[k] != WireEvent(EndResp, trace[i].txn)
    ensures Monitor(trace[..j]).value.response == Some(trace[i].txn)
  {
    assert trace[..j][..j - 1] == trace[..j - 1];
    if j > i + 1 {
      ResponseHeld(trace, i, j - 1);
    }
  }

  /**
   * The exclusion rules of section 15.2.6, read off a legal trace: between two
   * BEGIN_REQ the first request ends (by END_REQ or by its BEGIN_RESP), and
   * between two BEGIN_RESP the first response ends.
   */
  lemma ExclusionRules(trace: seq<WireEvent>, i: nat, j: nat)
    requires Legal(trace) && i < j < |trace|
    ensures trace[i].phase == BeginReq && trace[j].phase == BeginReq ==>
              exists k :: i < k < j && trace[k].txn == trace[i].txn && trace[k].phase in {EndReq, BeginResp}
    ensures trace[i].phase == BeginResp && trace[j].phase == BeginResp ==>
              exists k :: i < k < j && trace[k] == WireEvent(EndResp, trace[i].txn)
  {
    LegalPrefix(trace, j);
    LegalPrefix(trace, j + 1);
    assert trace[..j + 1][..j] == trace[..j];
    if trace[i].phase == BeginReq && trace[j].phase == BeginReq
       && (forall k :: i < k < j ==> !(trace[k].txn == trace[i].txn && trace[k].phase in {EndReq, BeginResp})) {
      RequestHeld(trace, i, j);
    }
    if trace[i].phase == BeginResp && trace[j].phase == BeginResp
       && (forall k :: i < k < j ==> trace[k] != WireEvent(EndResp, trace[i].txn)) {
      ResponseHeld(trace, i, j);
    }
  }

  // ---------- how often each phase occurs ----------

  /** The channels and the transactions under way are among those that began, each in one place. */
  predicate Consistent(c: Channels) {
    && c.served <= c.begun
    && (c.request.Some? ==> c.request.value in c.begun && c.request.value !in c.served)
    && (c.response.Some? ==> c.response.value in c.begun && c.response.value !in c.served)
    && (c.request.Some? ==> c.request != c.response)
  }

  lemma {:induction false} MonitorConsistent(trace: seq<WireEvent>)
    requires Legal(trace)
    ensures Consistent(Monitor(trace).value)
  {
    if trace != [] {
      MonitorConsistent(trace[..|trace| - 1]);
    }
  }

  function Count(trace: seq<WireEvent>, e: WireEvent): (r: nat) {
    if trace == [] then 0
    else Count(trace[..|trace| - 1], e) + if trace[|trace| - 1] == e then 1 else 0
  }

  function One(b: bool): (r: nat) {
    if b then 1 else 0
  }

  /** Has the response of t begun, according to what the history leaves open? */
  predicate Responded(c: Channels, t: nat) {
    t in c.begun && t !in c.served && c.request != Some(t)
  }

  /**
   * On a legal trace every transaction goes through each phase at most once, and
   * the history tells which it has gone through.
   */
  lemma {:induction false} PhaseCounts(trace: seq<WireEvent>, t: nat)
    requires Legal(trace)
    ensures var c := Monitor(trace).value;
            && Count(trace, WireEvent(BeginReq, t)) == One(t in c.begun)
            && Count(trace, WireEvent(BeginResp, t)) == One(Responded(c, t))
            && Count(trace, WireEvent(EndResp, t)) == One(Responded(c, t) && c.response != Some(t))
            && Count(trace, WireEvent(EndReq, t)) <= 1
            && (t in c.served ==> Count(trace, WireEvent(EndReq, t)) == 1)
            && (t !in c.begun || c.request == Some(t) ==> Count(trace, WireEvent(EndReq, t)) == 0)
  {
    if trace != [] {
      PhaseCounts(trace[..|trace| - 1], t);
      MonitorConsistent(trace[..|trace| - 1]);
    }
  }

  /** The request channel is freed once for each transaction that no longer holds it: by END_REQ, or by a BEGIN_RESP in its place. */
  function Unblockings(trace: seq<WireEvent>, t: nat): (r: nat) {
    if trace == [] then 0
    else
      var before := trace[..|trace| - 1];
      Unblockings(before, t) + One(Monitor(before).Some? && Monitor(before).value.request == Some(t)
                                   && Monitor(trace).Some? && Monitor(trace).value.request != Some(t))
  }

  lemma {:induction false} UnblockedOnce(trace: seq<WireEvent>, t: nat)
    requires Legal(trace)
    ensures var c := Monitor(trace).value;
            Unblockings(trace, t) == One(t in c.begun && c.request != Some(t))
  {
    if trace != [] {
      UnblockedOnce(trace[..|trace| - 1], t);
      MonitorConsistent(trace[..|trace| - 1]);
    }
  }
}
