/** The gem5 event queue as the event loop sees it: pending events, ordered by tick and priority. */
module EventQueues {
  import opened Kernel
  import opened BaseProtocol
  import opened Payloads

  /** An event of gem5's own; exits: servicing it asks to leave the simulation loop; wakes: scheduling it wakes the queue. */
  datatype Job = Job(id: nat, delay: Time, prio: int, exits: bool, wakes: bool)

  /**
   * What a handler does to the queue, in a row: schedule jobs, each after its delay,
   * and deschedule jobs that are queued. follow is what the handler of a job does in
   * its turn; all that ever follows is finite.
   */
  datatype Works = Nothing | Do(job: Job, follow: Works, others: Works) | Deschedule(id: nat, others: Works)

  /** The limit event of simulate, a PayloadEvent with its payload and phase, or an event of gem5's own. */
  datatype Kind = Limit | Payload(h: Handle, phase: Phase) | Own(id: nat)

  /** A scheduled event. */
  datatype Entry = Entry(at: Time, kind: Kind, prio: int, exits: bool, follow: Works)

  predicate NotAfter(a: Entry, b: Entry) {
    a.at < b.at || (a.at == b.at && a.prio <= b.prio)
  }

  function Insert(q: seq<Entry>, e: Entry): (r: seq<Entry>)
    ensures multiset(r) == multiset(q) + multiset{e}
  {
    if q == [] || NotAfter(e, q[0]) then
      assert multiset([e] + q) == multiset(q) + multiset{e};
      [e] + q
    else
      assert q == [q[0]] + q[1..];
      [q[0]] + Insert(q[1..], e)
  }

  /** The first event of that kind, and the queue without it. */
  function Removed(q: seq<Entry>, kind: Kind): (r: seq<Entry>)
    ensures |r| <= 1 && (r != [] ==> r[0].kind == kind)
  {
    if q == [] then [] else if q[0].kind == kind then [q[0]] else Removed(q[1..], kind)
  }

  function Remove(q: seq<Entry>, kind: Kind): (r: seq<Entry>) {
    if q == [] then [] else if q[0].kind == kind then q[1..] else [q[0]] + Remove(q[1..], kind)
  }

  lemma {:induction false} RemoveSplits(q: seq<Entry>, kind: Kind)
    ensures multiset(q) == multiset(Remove(q, kind)) + multiset(Removed(q, kind))
  {
    if q != [] {
      assert q == [q[0]] + q[1..];
      if q[0].kind != kind {
        RemoveSplits(q[1..], kind);
      }
    }
  }

  lemma {:induction false} RemoveNone(q: seq<Entry>, kind: Kind)
    requires forall j :: 0 <= j < |q| ==> q[j].kind != kind
    ensures Remove(q, kind) == q && Removed(q, kind) == []
  {
    if q != [] {
      RemoveNone(q[1..], kind);
    }
  }

  lemma {:induction false} RemoveAt(q: seq<Entry>, i: nat, kind: Kind)
    requires i < |q| && q[i].kind == kind && forall j :: 0 <= j < i ==> q[j].kind != kind
    ensures Remove(q, kind) == q[..i] + q[i + 1..] && Removed(q, kind) == [q[i]]
  {
    if i > 0 {
      RemoveAt(q[1..], i - 1, kind);
      WithoutAt(q, i);
    }
  }

  lemma WithoutAt(q: seq<Entry>, i: nat)
    requires 0 < i < |q|
    ensures [q[0]] + (q[1..][..i - 1] + q[1..][i..]) == q[..i] + q[i + 1..]
  {
  }

  predicate AllAfter(a: Entry, q: seq<Entry>) {
    forall i :: 0 <= i < |q| ==> NotAfter(a, q[i])
  }

  predicate Sorted(q: seq<Entry>) {
    q == [] || (AllAfter(q[0], q[1..]) && Sorted(q[1..]))
  }

  /** No event of the queue is earlier than t. */
  predicate AllFrom(q: seq<Entry>, t: Time) {
    forall i :: 0 <= i < |q| ==> t <= q[i].at
  }

  lemma AllByMember(q: seq<Entry>, a: Entry, t: Time)
    ensures AllAfter(a, q) <==> forall x :: x in q ==> NotAfter(a, x)
    ensures AllFrom(q, t) <==> forall x :: x in q ==> t <= x.at
  {
  }

  lemma InsertAll(q: seq<Entry>, e: Entry, a: Entry, t: Time)
    ensures AllAfter(a, Insert(q, e)) <==> NotAfter(a, e) && AllAfter(a, q)
    ensures AllFrom(Insert(q, e), t) <==> t <= e.at && AllFrom(q, t)
  {
    forall x
      ensures x in Insert(q, e) <==> x == e || x in q
    {
      assert x in multiset(Insert(q, e)) <==> x in multiset(q) + multiset{e};
    }
    AllByMember(q, a, t);
    AllByMember(Insert(q, e), a, t);
  }

  lemma {:induction false} InsertSorted(q: seq<Entry>, e: Entry)
    requires Sorted(q)
    ensures Sorted(Insert(q, e))
  {
    if q == [] || NotAfter(e, q[0]) {
      assert ([e] + q)[1..] == q;
      assert forall i :: 0 < i < |q| ==> q[i] == q[1..][i - 1];
    } else {
      InsertSorted(q[1..], e);
      InsertAll(q[1..], e, q[0], 0);
      assert Insert(q, e)[1..] == Insert(q[1..], e);
    }
  }

  lemma {:induction false} RemoveSorted(q: seq<Entry>, kind: Kind)
    requires Sorted(q)
    ensures Sorted(Remove(q, kind))
  {
    if q != [] && q[0].kind != kind {
      RemoveSorted(q[1..], kind);
      assert Remove(q, kind)[1..] == Remove(q[1..], kind);
      forall i | 0 <= i < |Remove(q[1..], kind)|
        ensures NotAfter(q[0], Remove(q[1..], kind)[i])
      {
        RemoveMember(q[1..], kind, Remove(q[1..], kind)[i]);
      }
    }
  }

  lemma RemoveMember(q: seq<Entry>, kind: Kind, x: Entry)
    ensures x in Remove(q, kind) ==> x in q
    ensures x in q && x.kind != kind ==> x in Remove(q, kind)
  {
    RemoveSplits(q, kind);
    assert x in multiset(q) <==> x in multiset(Remove(q, kind)) || x in multiset(Removed(q, kind));
    if x in Remove(q, kind) {
      assert x in multiset(Remove(q, kind));
    }
    if x in q && x.kind != kind {
      assert x !in multiset(Removed(q, kind));
    }
  }

  lemma HeadFirst(q: seq<Entry>, j: nat)
    requires Sorted(q) && j < |q|
    ensures q[0].at <= q[j].at
  {
    assert j > 0 ==> q[1..][j - 1] == q[j];
  }

  // ---------- the amount of work ----------

  function Weight(ws: Works): (r: nat) {
    match ws
    case Nothing => 0
    case Do(_, follow, others) => 1 + Weight(follow) + Weight(others)
    case Deschedule(_, others) => Weight(others)
  }

  function QueueWeight(q: seq<Entry>): (r: nat) {
    if q == [] then 0 else 1 + Weight(q[0].follow) + QueueWeight(q[1..])
  }

  lemma {:induction false} InsertWeight(q: seq<Entry>, e: Entry)
    ensures QueueWeight(Insert(q, e)) == QueueWeight(q) + 1 + Weight(e.follow)
  {
    if q == [] || NotAfter(e, q[0]) {
      assert ([e] + q)[1..] == q;
    } else {
      InsertWeight(q[1..], e);
      assert Insert(q, e)[1..] == Insert(q[1..], e);
    }
  }

  lemma {:induction false} RemoveWeight(q: seq<Entry>, kind: Kind)
    ensures QueueWeight(Remove(q, kind)) <= QueueWeight(q)
  {
    if q != [] && q[0].kind != kind {
      RemoveWeight(q[1..], kind);
      assert Remove(q, kind)[1..] == Remove(q[1..], kind);
    }
  }

  // ---------- what gem5 itself cannot take off the queue ----------

  datatype Mark = Mark(kind: Kind, at: Time)

  /** The limit event and the PayloadEvents among the events of a queue, with their ticks. */
  function Marks(q: seq<Entry>): (r: multiset<Mark>) {
    if q == [] then multiset{} else MarkOf(q[0]) + Marks(q[1..])
  }

  function MarkOf(e: Entry): (r: multiset<Mark>) {
    if e.kind.Own? then multiset{} else multiset{Mark(e.kind, e.at)}
  }

  lemma {:induction false} InsertMarks(q: seq<Entry>, e: Entry)
    ensures Marks(Insert(q, e)) == Marks(q) + MarkOf(e)
  {
    if q == [] || NotAfter(e, q[0]) {
      assert ([e] + q)[1..] == q;
    } else {
      InsertMarks(q[1..], e);
      assert Insert(q, e)[1..] == Insert(q[1..], e);
    }
  }

  lemma {:induction false} RemoveMarks(q: seq<Entry>, kind: Kind)
    ensures Marks(q) == Marks(Remove(q, kind)) + Marks(Removed(q, kind))
  {
    if q != [] {
      if q[0].kind == kind {
        assert [q[0]][1..] == [];
      } else {
        RemoveMarks(q[1..], kind);
        assert Remove(q, kind)[1..] == Remove(q[1..], kind);
      }
    }
  }

  lemma {:induction false} MarkMember(q: seq<Entry>, m: Mark)
    ensures m in Marks(q) <==> exists e :: e in q && !e.kind.Own? && m == Mark(e.kind, e.at)
  {
    if q != [] {
      MarkMember(q[1..], m);
      if e :| e in q && !e.kind.Own? && m == Mark(e.kind, e.at) {
        assert e == q[0] || e in q[1..];
      }
    }
  }

  // ---------- 64 bits ----------

  /** Scheduled at time t, none of the jobs and nothing that follows them gets past the last tick. */
  predicate Fits(ws: Works, t: Time) {
    match ws
    case Nothing => true
    case Do(job, follow, others) => t + job.delay <= MAX_TICK && Fits(follow, t + job.delay) && Fits(others, t)
    case Deschedule(_, others) => Fits(others, t)
  }

  predicate AllFit(q: seq<Entry>) {
    forall i :: 0 <= i < |q| ==> q[i].at <= MAX_TICK && Fits(q[i].follow, q[i].at)
  }

  lemma FitsByMember(q: seq<Entry>)
    ensures AllFit(q) <==> forall x :: x in q ==> x.at <= MAX_TICK && Fits(x.follow, x.at)
  {
  }

  lemma {:induction false} InsertFits(q: seq<Entry>, e: Entry)
    ensures AllFit(Insert(q, e)) <==> e.at <= MAX_TICK && Fits(e.follow, e.at) && AllFit(q)
  {
    forall x
      ensures x in Insert(q, e) <==> x == e || x in q
    {
      assert x in multiset(Insert(q, e)) <==> x in multiset(q) + multiset{e};
    }
    FitsByMember(q);
    FitsByMember(Insert(q, e));
  }

  // ---------- what makes the event loop return ----------

  /** Somewhere among the jobs and what follows them at once there is an exit, or something for later. */
  predicate Halts(ws: Works) {
    match ws
    case Nothing => false
    case Do(job, follow, others) => job.delay > 0 || job.exits || Halts(follow) || Halts(others)
    case Deschedule(_, others) => Halts(others)
  }

  predicate CanHalt(q: seq<Entry>, now: Time) {
    exists i :: 0 <= i < |q| && Halting(q[i], now)
  }

  predicate Halting(e: Entry, now: Time) {
    now < e.at || e.exits || Halts(e.follow)
  }

  /** Somewhere among the jobs for now and what follows them at once there is an exit. */
  predicate Exits(ws: Works) {
    match ws
    case Nothing => false
    case Do(job, follow, others) => (job.delay == 0 && (job.exits || Exits(follow))) || Exits(others)
    case Deschedule(_, others) => Exits(others)
  }

  predicate ExitsNow(q: seq<Entry>, now: Time) {
    exists i :: 0 <= i < |q| && Exiting(q[i], now)
  }

  predicate Exiting(e: Entry, now: Time) {
    e.at <= now && (e.exits || Exits(e.follow))
  }

  /** Nothing is descheduled. */
  predicate DropFree(ws: Works) {
    match ws
    case Nothing => true
    case Do(_, follow, others) => DropFree(follow) && DropFree(others)
    case Deschedule(_, _) => false
  }

  /** What is due deschedules nothing. */
  predicate NoDrops(q: seq<Entry>, now: Time) {
    forall i :: 0 <= i < |q| ==> now < q[i].at || DropFree(q[i].follow)
  }

  /** An event that no handler can deschedule exits, or is for later. */
  predicate Anchored(q: seq<Entry>, now: Time) {
    exists i :: 0 <= i < |q| && !q[i].kind.Own? && (now < q[i].at || q[i].exits)
  }

  /** The four predicates depend on which events are queued, not on where. */
  lemma ByMember(q: seq<Entry>, now: Time)
    ensures CanHalt(q, now) <==> exists x :: x in q && Halting(x, now)
    ensures ExitsNow(q, now) <==> exists x :: x in q && Exiting(x, now)
    ensures NoDrops(q, now) <==> forall x :: x in q ==> now < x.at || DropFree(x.follow)
    ensures Anchored(q, now) <==> exists x :: x in q && !x.kind.Own? && (now < x.at || x.exits)
  {
    if x :| x in q && !x.kind.Own? && (now < x.at || x.exits) {
      var i :| 0 <= i < |q| && q[i] == x;
    }
  }

  lemma InsertHalt(q: seq<Entry>, e: Entry, now: Time)
    ensures CanHalt(Insert(q, e), now) <==> Halting(e, now) || CanHalt(q, now)
    ensures ExitsNow(Insert(q, e), now) <==> Exiting(e, now) || ExitsNow(q, now)
    ensures NoDrops(Insert(q, e), now) <==> (now < e.at || DropFree(e.follow)) && NoDrops(q, now)
    ensures Anchored(q, now) ==> Anchored(Insert(q, e), now)
  {
    forall x
      ensures x in Insert(q, e) <==> x == e || x in q
    {
      assert x in multiset(Insert(q, e)) <==> x in multiset(q) + multiset{e};
    }
    ByMember(q, now);
    ByMember(Insert(q, e), now);
  }

  lemma RemoveHalt(q: seq<Entry>, kind: Kind, now: Time)
    ensures CanHalt(Remove(q, kind), now) ==> CanHalt(q, now)
    ensures kind.Own? && Anchored(q, now) ==> Anchored(Remove(q, kind), now)
  {
    forall x
      ensures x in Remove(q, kind) ==> x in q
      ensures x in q && x.kind != kind ==> x in Remove(q, kind)
    {
      RemoveMember(q, kind, x);
    }
    ByMember(q, now);
    ByMember(Remove(q, kind), now);
  }

  /** The first event and the others. */
  lemma HeadHalt(q: seq<Entry>, now: Time)
    requires q != []
    ensures CanHalt(q, now) <==> Halting(q[0], now) || CanHalt(q[1..], now)
    ensures ExitsNow(q, now) <==> Exiting(q[0], now) || ExitsNow(q[1..], now)
    ensures NoDrops(q, now) <==> (now < q[0].at || DropFree(q[0].follow)) && NoDrops(q[1..], now)
    ensures Anchored(q, now) <==> (!q[0].kind.Own? && (now < q[0].at || q[0].exits)) || Anchored(q[1..], now)
  {
    assert forall x :: x in q <==> x == q[0] || x in q[1..];
    ByMember(q, now);
    ByMember(q[1..], now);
  }

  /** Inserting keeps order and range, and loses nothing. */
  lemma InsertKeeps(q: seq<Entry>, e: Entry, r: seq<Entry>, t: Time)
    requires Sorted(q) && AllFit(q) && e.at <= MAX_TICK && Fits(e.follow, e.at)
    requires r == Insert(q, e)
    ensures Sorted(r) && AllFit(r) && multiset(r) == multiset(q) + multiset{e} && Marks(r) == Marks(q) + MarkOf(e)
    ensures AllFrom(q, t) && t <= e.at ==> AllFrom(r, t)
    ensures e in r && forall x :: x in q ==> x in r
  {
    InsertSorted(q, e);
    InsertFits(q, e);
    InsertAll(q, e, e, t);
    InsertMarks(q, e);
    forall x
      ensures x in r <==> x == e || x in q
    {
      assert x in multiset(r) <==> x in multiset(q) + multiset{e};
    }
  }

  /** Removing keeps order and range, and loses at most one event of the kind. */
  lemma RemoveKeeps(q: seq<Entry>, kind: Kind, r: seq<Entry>, t: Time)
    requires Sorted(q) && AllFit(q) && r == Remove(q, kind)
    ensures Sorted(r) && AllFit(r) && multiset(q) == multiset(r) + multiset(Removed(q, kind))
    ensures Marks(q) == Marks(r) + Marks(Removed(q, kind))
    ensures AllFrom(q, t) ==> AllFrom(r, t)
    ensures forall x :: x in q && x.kind != kind ==> x in r
  {
    RemoveSorted(q, kind);
    RemoveSplits(q, kind);
    RemoveMarks(q, kind);
    forall x
      ensures x in r ==> x in q
      ensures x in q && x.kind != kind ==> x in r
    {
      RemoveMember(q, kind, x);
    }
    FitsByMember(q);
    FitsByMember(r);
  }
}
