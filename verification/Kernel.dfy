/** The part of the SystemC kernel the model relies on. */
module Kernel {
  import opened Common

  type Time = nat

  /** gem5::Tick and the value of an sc_time are 64 bits wide. */
  const TWO64: nat := 0x1_0000_0000_0000_0000
  const MAX_TICK: nat := TWO64 - 1

  /**
   * sc_event::notify (section 5.10 of IEEE 1666-2011): an event carries at most
   * one pending notification, and of two the earlier one survives.
   */
  function Notify(pending: Option<Time>, at: Time): (r: Option<Time>)
    ensures r.Some? && r.value <= at
    ensures pending.Some? ==> r.value <= pending.value
    ensures r == Some(at) || r == pending
  {
    if pending.Some? && pending.value <= at then pending else Some(at)
  }
}
