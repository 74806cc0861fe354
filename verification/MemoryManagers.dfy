/** src/sc_mm.cc: the pool of payload objects, and the reference counts it is driven by. */
module MemoryManagers {
  import opened Common
  import opened Payloads

  class MemoryManager {
    var payloads: seq<Slot>       // every payload object that was ever allocated
    var freePayloads: seq<Handle>
    var numberOfAllocations: nat
    var numberOfFrees: nat

    function View(): (r: PoolState)
      reads this
    {
      PoolState(payloads, freePayloads, numberOfAllocations)
    }

    constructor ()
      ensures View() == EMPTY_POOL && numberOfFrees == 0
    {
      payloads, freePayloads := [], [];
      numberOfAllocations, numberOfFrees := 0, 0;
    }

    method AllocatePayload() returns (h: Handle)
      modifies this
      ensures (View(), h) == Allocate(old(View())) && numberOfFrees == old(numberOfFrees)
    {
      if freePayloads == [] {
        numberOfAllocations := numberOfAllocations + 1;
        h := |payloads|;
        payloads := payloads + [NEW_SLOT];
      } else {
        h := freePayloads[|freePayloads| - 1];
        freePayloads := freePayloads[..|freePayloads| - 1];
      }
    }

    /** free: reset drops the extension and the payload goes to the back of the list. */
    method FreePayload(h: Handle)
      requires h < |payloads|
      modifies this
      ensures View() == old(View()).(slots := old(payloads)[h := old(payloads)[h].(ext := None)],
                                     free := old(freePayloads) + [h])
      ensures numberOfFrees == old(numberOfFrees)
    {
      payloads := payloads[h := payloads[h].(ext := None)];
      freePayloads := freePayloads + [h];
    }

    method AcquirePayload(h: Handle)
      requires Acquire(View(), h).Ok?
      modifies this
      ensures Ok(View()) == Acquire(old(View()), h) && numberOfFrees == old(numberOfFrees)
    {
      payloads := payloads[h := payloads[h].(refs := payloads[h].refs + 1)];
    }

    method ReleasePayload(h: Handle)
      requires Release(View(), h).Ok?
      modifies this
      ensures Ok(View()) == Release(old(View()), h) && numberOfFrees == old(numberOfFrees)
    {
      assert payloads[h].refs > 0;
      payloads := payloads[h := payloads[h].(refs := payloads[h].refs - 1)];
      if payloads[h].refs == 0 {
        FreePayload(h);
        assert payloads == old(payloads)[h := old(payloads)[h].(refs := 0, ext := None)];
      }
    }

    /** What the port does to a payload it is about to send: count it, fill it in and attach the packet. */
    method Prepare(h: Handle, pkt: Packet, core: nat, serial: nat)
      requires h < |payloads|
      modifies this
      ensures View() == old(View()).(slots := old(payloads)[h := Fill(old(payloads)[h], pkt).(
                refs := old(payloads)[h].refs + 1, ext := Some(Extension(pkt.Paid(), core, serial)))])
      ensures numberOfFrees == old(numberOfFrees)
    {
      AcquirePayload(h);
      payloads := payloads[h := Fill(payloads[h], pkt)];
      payloads := payloads[h := payloads[h].(ext := Some(Extension(pkt.Paid(), core, serial)))];
    }

    /** makeResponse on the packet that payload h carries. */
    method MakeResponse(h: Handle)
      requires h < |payloads| && payloads[h].ext.Some?
      modifies this`payloads
      ensures var ext := old(payloads)[h].ext.value;
              payloads == old(payloads)[h := old(payloads)[h].(ext := Some(ext.(packet := ext.packet.Answered())))]
    {
      var ext := payloads[h].ext.value;
      if ext.packet.needsResponse {
        payloads := payloads[h := payloads[h].(ext := Some(ext.(packet := ext.packet.(needsResponse := false, isResponse := true))))];
      }
    }

    /** The destructor counts what it deletes: everything in the free list. */
    method Destroy()
      modifies this`numberOfFrees
      ensures numberOfFrees == old(numberOfFrees) + |freePayloads|
    {
      for i := 0 to |freePayloads|
        invariant numberOfFrees == old(numberOfFrees) + i
      {
        numberOfFrees := numberOfFrees + 1;
      }
    }
  }

  /** Allocation and preparation together are what the specification calls issuing a payload. */
  method IssuePayload(mm: MemoryManager, pkt: Packet, core: nat, serial: nat) returns (h: Handle)
    requires mm.freePayloads != [] ==> mm.freePayloads[|mm.freePayloads| - 1] < |mm.payloads|
    modifies mm
    ensures (mm.View(), h) == Issue(old(mm.View()), pkt, core, serial)
  {
    h := mm.AllocatePayload();
    mm.Prepare(h, pkt, core, serial);
  }
}
