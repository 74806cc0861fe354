/** The core bookkeeping of src/sim_control.cc as an object. */
module SimControls {
  import opened Routing

  class Gem5SimControl {
    var cpuPorts: CoreMap

    constructor ()
      ensures cpuPorts == []
    {
      cpuPorts := [];
    }

    /** addCoreID: a scan for the name, then an append or an insertion at the place of the key. */
    method AddCoreID(name: string, id: RequestorId)
      requires SortedCores(cpuPorts)
      modifies this
      ensures cpuPorts == AddCore(old(cpuPorts), name, id) && SortedCores(cpuPorts)
    {
      AddCoreSorted(cpuPorts, name, id);
      var it := 0;
      while it < |cpuPorts|
        invariant it <= |cpuPorts| && cpuPorts == old(cpuPorts)
        invariant forall i :: 0 <= i < it ==> cpuPorts[i].name != name
      {
        if cpuPorts[it].name == name {
          AddCoreHere(cpuPorts, name, id, it);
          cpuPorts := cpuPorts[it := CoreEntry(name, cpuPorts[it].ids + [id])];
          return;
        }
        it := it + 1;
      }
      var place := InsertPlace(name);
      cpuPorts := cpuPorts[..place] + [CoreEntry(name, [id])] + cpuPorts[place..];
      AddCoreNew(old(cpuPorts), name, id, place);
    }

    /** Where std::map keeps a new key. */
    method InsertPlace(name: string) returns (place: nat)
      ensures place <= |cpuPorts|
      ensures forall i :: 0 <= i < place ==> !Less(name, cpuPorts[i].name)
      ensures place < |cpuPorts| ==> Less(name, cpuPorts[place].name)
    {
      place := 0;
      while place < |cpuPorts| && !Less(name, cpuPorts[place].name)
        invariant place <= |cpuPorts|
        invariant forall i :: 0 <= i < place ==> !Less(name, cpuPorts[i].name)
      {
        place := place + 1;
      }
    }

    method GetCoreIDByRequestorID(id: RequestorId) returns (coreId: nat)
      ensures coreId == CoreIdFrom(cpuPorts, id, 0)
    {
      coreId := 0;
      var it := 0;
      while it < |cpuPorts|
        invariant it == coreId <= |cpuPorts|
        invariant CoreIdFrom(cpuPorts[it..], id, coreId) == CoreIdFrom(cpuPorts, id, 0)
      {
        assert cpuPorts[it..][0] == cpuPorts[it] && cpuPorts[it..][1..] == cpuPorts[it + 1..];
        if id in cpuPorts[it].ids {
          return;
        }
        coreId := coreId + 1;
        it := it + 1;
      }
      return 0;
    }

    /** initCoreInfo, over the list of cores of the configuration. */
    method InitCoreInfo(cpus: seq<CpuInfo>)
      requires SortedCores(cpuPorts)
      modifies this
      ensures cpuPorts == InitCores(old(cpuPorts), cpus) && SortedCores(cpuPorts)
    {
      var it := 0;
      while it < |cpus|
        invariant it <= |cpus| && SortedCores(cpuPorts)
        invariant InitCores(cpuPorts, cpus[it..]) == InitCores(old(cpuPorts), cpus)
      {
        assert cpus[it..][0] == cpus[it] && cpus[it..][1..] == cpus[it + 1..];
        AddCoreID(cpus[it].name, cpus[it].inst);
        AddCoreID(cpus[it].name, cpus[it].data);
        it := it + 1;
      }
    }
  }

  lemma {:induction false} AddCoreHere(m: CoreMap, name: string, id: RequestorId, i: nat)
    requires SortedCores(m) && i < |m| && m[i].name == name
    ensures AddCore(m, name, id) == m[i := CoreEntry(name, m[i].ids + [id])]
  {
    if i == 0 {
      LessTotal(name, name);
    } else {
      assert m[1..][i - 1] == m[i];
      LessTotal(name, m[0].name);
      AddCoreHere(m[1..], name, id, i - 1);
    }
  }

  lemma {:induction false} AddCoreNew(m: CoreMap, name: string, id: RequestorId, place: nat)
    requires place <= |m|
    requires forall i :: 0 <= i < |m| ==> m[i].name != name
    requires forall i :: 0 <= i < place ==> !Less(name, m[i].name)
    requires place < |m| ==> Less(name, m[place].name)
    ensures AddCore(m, name, id) == m[..place] + [CoreEntry(name, [id])] + m[place..]
  {
    if place > 0 {
      assert forall i :: 0 <= i < |m| - 1 ==> m[1..][i] == m[i + 1];
      AddCoreNew(m[1..], name, id, place - 1);
      assert m[..place] == [m[0]] + m[1..][..place - 1];
    }
  }
}
