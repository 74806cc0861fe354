/** gem5 packets, TLM generic payloads, and the pool the payloads come from (sc_mm, sc_ext). */
module Payloads {
  import opened Common

  /** The gem5 packet as far as the ports look at it; id stands for the packet pointer. */
  datatype Packet = Packet(
    id: nat, requestor: nat, cluster: Option<nat>, addr: nat, size: nat,
    isRead: bool, isWrite: bool, isInvalidate: bool, cacheResponding: bool,
    needsResponse: bool, isResponse: bool, payloadDelay: nat, headerDelay: nat)
  {
    /** The packet after its transport delays have been paid for. */
    function Paid(): (r: Packet) {
      this.(payloadDelay := 0, headerDelay := 0)
    }

    /** gem5's makeResponse, for a packet that needs one. */
    function Answered(): (r: Packet) {
      if needsResponse then this.(needsResponse := false, isResponse := true) else this
    }

    /** What a history keeps of a packet: its identity and whether a response travels back. */
    function Stub(): (r: Ticket) {
      Ticket(id, needsResponse || isResponse)
    }
  }

  datatype Ticket = Ticket(id: nat, responds: bool)

  /**
   * Gem5Extension: the original packet and the socket. The serial number of the
   * transaction on its socket is bookkeeping of the model: payload pointers are
   * recycled, serial numbers are not.
   */
  datatype Extension = Extension(packet: Packet, core: nat, serial: nat)

  datatype Command = ReadCommand | WriteCommand | IgnoreCommand

  /** A payload object: its reference count, its extension and the fields the port sets. */
  datatype Slot = Slot(refs: nat, ext: Option<Extension>, addr: nat, size: nat, command: Command)

  /** A payload pointer: the index of its object among all that were ever allocated. */
  type Handle = nat

  datatype PoolState = PoolState(slots: seq<Slot>, free: seq<Handle>, allocations: nat)

  const EMPTY_POOL := PoolState([], [], 0)
  const NEW_SLOT := Slot(0, None, 0, 0, IgnoreCommand)

  function Allocate(p: PoolState): (r: (PoolState, Handle)) {
    if p.free == [] then (p.(slots := p.slots + [NEW_SLOT], allocations := p.allocations + 1), |p.slots|)
    else (p.(free := p.free[..|p.free| - 1]), p.free[|p.free| - 1])
  }

  function Acquire(p: PoolState, h: Handle): (r: Outcome<PoolState>) {
    if h < |p.slots| then Ok(p.(slots := p.slots[h := p.slots[h].(refs := p.slots[h].refs + 1)]))
    else Fatal(BadPayload)
  }

  /** The last release resets the payload, which drops its extension, and returns it to the pool. */
  function Release(p: PoolState, h: Handle): (r: Outcome<PoolState>) {
    if h >= |p.slots| || p.slots[h].refs == 0 then Fatal(BadPayload)
    else if p.slots[h].refs > 1 then Ok(p.(slots := p.slots[h := p.slots[h].(refs := p.slots[h].refs - 1)]))
    else Ok(p.(slots := p.slots[h := p.slots[h].(refs := 0, ext := None)], free := p.free + [h]))
  }

  /** packet2payload: a packet that is neither a read nor a plain write leaves the command as it was. */
  function CommandOf(pkt: Packet, before: Command): (r: Command) {
    if pkt.isRead then ReadCommand
    else if pkt.isInvalidate then before
    else if pkt.isWrite then WriteCommand
    else before
  }

  function Fill(s: Slot, pkt: Packet): (r: Slot) {
    s.(addr := pkt.addr, size := pkt.size, command := CommandOf(pkt, s.command))
  }

  /** The payload says what its packet says; an invalidating write is left without a command of its own. */
  predicate Matches(s: Slot, pkt: Packet) {
    && s.addr == pkt.addr && s.size == pkt.size
    && (pkt.isRead ==> s.command.ReadCommand?)
    && (!pkt.isRead && pkt.isWrite && !pkt.isInvalidate ==> s.command.WriteCommand?)
  }

  /** mm.allocate, acquire, packet2payload and set_auto_extension, in a row: a payload for a new request. */
  function Issue(p: PoolState, pkt: Packet, core: nat, serial: nat): (r: (PoolState, Handle))
    requires p.free != [] ==> p.free[|p.free| - 1] < |p.slots|
    ensures r.1 < |r.0.slots| && |p.slots| <= |r.0.slots|
    ensures r.0.slots[r.1].ext == Some(Extension(pkt.Paid(), core, serial)) && r.0.slots[r.1].addr == pkt.addr
    ensures forall x :: 0 <= x < |p.slots| && x != r.1 ==> r.0.slots[x] == p.slots[x]
  {
    var (p0, h) := Allocate(p);
    var slot := Fill(p0.slots[h], pkt).(refs := p0.slots[h].refs + 1, ext := Some(Extension(pkt.Paid(), core, serial)));
    (p0.(slots := p0.slots[h := slot]), h)
  }

  lemma IssueMatches(p: PoolState, pkt: Packet, core: nat, serial: nat)
    requires p.free != [] ==> p.free[|p.free| - 1] < |p.slots|
    ensures var (pool, h) := Issue(p, pkt, core, serial);
            pool.slots[h].refs == Allocate(p).0.slots[h].refs + 1 && Matches(pool.slots[h], pkt.Paid())
  {
  }

  function GetExtension(p: PoolState, h: Handle): (r: Outcome<Extension>) {
    if h < |p.slots| && p.slots[h].ext.Some? then Ok(p.slots[h].ext.value) else Fatal(NoExtension)
  }

  /** Histories name a transaction by its serial number; 0 if the payload has no extension. */
  function SerialOf(p: PoolState, h: Handle): (r: nat) {
    if h < |p.slots| && p.slots[h].ext.Some? then p.slots[h].ext.value.serial else 0
  }
}
