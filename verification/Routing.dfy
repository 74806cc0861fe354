/** The socket routing tables of the port and of the simulation control. */
module Routing {

  type RequestorId = nat

  // ---------- the cores and their requestor ids (src/sim_control.cc) ----------

  /** cpuPorts as std::map iterates it: one entry for each core, ascending by name. */
  datatype CoreEntry = CoreEntry(name: string, ids: seq<RequestorId>)
  type CoreMap = seq<CoreEntry>

  /** The order of std::string. */
  predicate Less(a: string, b: string) {
    b != [] && (a == [] || a[0] < b[0] || (a[0] == b[0] && Less(a[1..], b[1..])))
  }

  lemma {:induction false} LessTotal(a: string, b: string)
    ensures Less(a, b) || a == b || Less(b, a)
    ensures !(Less(a, b) && Less(b, a)) && !Less(a, a)
    decreases |a| + |b|
  {
    if a != [] && b != [] && a[0] == b[0] {
      LessTotal(a[1..], b[1..]);
      assert a == [a[0]] + a[1..] && b == [b[0]] + b[1..];
    }
    if a != [] {
      LessIrreflexive(a);
    }
  }

  lemma {:induction false} LessIrreflexive(a: string)
    ensures !Less(a, a)
    decreases |a|
  {
    if a != [] {
      LessIrreflexive(a[1..]);
    }
  }

  lemma {:induction false} LessTransitive(a: string, b: string, c: string)
    requires Less(a, b) && Less(b, c)
    ensures Less(a, c)
    decreases |a|
  {
    if a != [] && a[0] == b[0] == c[0] {
      LessTransitive(a[1..], b[1..], c[1..]);
    }
  }

  predicate NamesAbove(name: string, m: CoreMap) {
    forall i :: 0 <= i < |m| ==> Less(name, m[i].name)
  }

  predicate SortedCores(m: CoreMap) {
    m == [] || (NamesAbove(m[0].name, m[1..]) && SortedCores(m[1..]))
  }

  /** The ids of a core; none if the core is not there. */
  function IdsOf(m: CoreMap, name: string): (r: seq<RequestorId>) {
    if m == [] then [] else if m[0].name == name then m[0].ids else IdsOf(m[1..], name)
  }

  /** addCoreID: the id goes to the end of the list of its core, which is made if it is not there. */
  function AddCore(m: CoreMap, name: string, id: RequestorId): (r: CoreMap) {
    if m == [] || Less(name, m[0].name) then [CoreEntry(name, [id])] + m
    else if m[0].name == name then [CoreEntry(name, m[0].ids + [id])] + m[1..]
    else [m[0]] + AddCore(m[1..], name, id)
  }

  lemma {:induction false} AddCoreNames(m: CoreMap, name: string, id: RequestorId, low: string)
    requires NamesAbove(low, m) && Less(low, name)
    ensures NamesAbove(low, AddCore(m, name, id))
  {
    if !(m == [] || Less(name, m[0].name) || m[0].name == name) {
      AddCoreNames(m[1..], name, id, low);
    }
  }

  lemma {:induction false} AddCoreSorted(m: CoreMap, name: string, id: RequestorId)
    requires SortedCores(m)
    ensures SortedCores(AddCore(m, name, id))
  {
    if m == [] || Less(name, m[0].name) {
      assert ([CoreEntry(name, [id])] + m)[1..] == m;
      forall i | 0 <= i < |m|
        ensures Less(name, m[i].name)
      {
        if i > 0 {
          assert m[1..][i - 1] == m[i];
          LessTransitive(name, m[0].name, m[i].name);
        }
      }
    } else if m[0].name == name {
      assert AddCore(m, name, id)[1..] == m[1..];
    } else {
      LessTotal(name, m[0].name);
      AddCoreSorted(m[1..], name, id);
      AddCoreNames(m[1..], name, id, m[0].name);
      assert AddCore(m, name, id)[1..] == AddCore(m[1..], name, id);
    }
  }

  lemma {:induction false} NotThere(m: CoreMap, low: string, name: string)
    requires NamesAbove(low, m) && (name == low || Less(name, low))
    ensures IdsOf(m, name) == []
  {
    if m != [] {
      if name == m[0].name {
        LessTotal(low, name);
      }
      NotThere(m[1..], low, name);
    }
  }

  /** Exactly the list of the named core grows, by exactly the new id. */
  lemma {:induction false} AddCoreIds(m: CoreMap, name: string, id: RequestorId, other: string)
    requires SortedCores(m)
    ensures IdsOf(AddCore(m, name, id), other) == IdsOf(m, other) + if other == name then [id] else []
  {
    if m == [] || Less(name, m[0].name) {
      assert ([CoreEntry(name, [id])] + m)[1..] == m;
      if m != [] {
        LessTotal(name, m[0].name);
        NotThere(m[1..], m[0].name, name);
      }
    } else if m[0].name == name {
      assert AddCore(m, name, id)[1..] == m[1..];
    } else {
      AddCoreIds(m[1..], name, id, other);
      assert AddCore(m, name, id)[1..] == AddCore(m[1..], name, id);
    }
  }

  /** cpu_vec: the names of the cores, by number. */
  function Names(m: CoreMap): (r: seq<string>)
    ensures |r| == |m|
  {
    if m == [] then [] else [m[0].name] + Names(m[1..])
  }

  /** The number of a core leads to its ids by way of its name. */
  lemma {:induction false} IdsByNumber(m: CoreMap, c: nat)
    requires SortedCores(m) && c < |m|
    ensures Names(m)[c] == m[c].name && IdsOf(m, Names(m)[c]) == m[c].ids
  {
    if c > 0 {
      IdsByNumber(m[1..], c - 1);
      LessTotal(m[0].name, m[1..][c - 1].name);
    }
  }

  /** initCoreInfo: every core has an instruction and a data port. */
  datatype CpuInfo = CpuInfo(name: string, inst: RequestorId, data: RequestorId)

  function InitCores(m: CoreMap, cpus: seq<CpuInfo>): (r: CoreMap)
    decreases |cpus|
  {
    if cpus == [] then m
    else InitCores(AddCore(AddCore(m, cpus[0].name, cpus[0].inst), cpus[0].name, cpus[0].data), cpus[1..])
  }

  /** What the core of that name got: its ids in the order of the list of cores. */
  function IdsFrom(cpus: seq<CpuInfo>, name: string): (r: seq<RequestorId>) {
    if cpus == [] then []
    else (if cpus[0].name == name then [cpus[0].inst, cpus[0].data] else []) + IdsFrom(cpus[1..], name)
  }

  lemma {:induction false} InitCoresIds(m: CoreMap, cpus: seq<CpuInfo>, name: string)
    requires SortedCores(m)
    ensures SortedCores(InitCores(m, cpus)) && |InitCores(m, cpus)| >= |m|
    ensures cpus != [] ==> InitCores(m, cpus) != []
    ensures IdsOf(InitCores(m, cpus), name) == IdsOf(m, name) + IdsFrom(cpus, name)
    decreases |cpus|
  {
    if cpus != [] {
      var c := cpus[0];
      var m1 := AddCore(m, c.name, c.inst);
      var m2 := AddCore(m1, c.name, c.data);
      AddCoreSorted(m, c.name, c.inst);
      AddCoreSorted(m1, c.name, c.data);
      AddCoreIds(m, c.name, c.inst, name);
      AddCoreIds(m1, c.name, c.data, name);
      AddCoreGrows(m, c.name, c.inst);
      AddCoreGrows(m1, c.name, c.data);
      InitCoresIds(m2, cpus[1..], name);
    }
  }

  lemma {:induction false} AddCoreGrows(m: CoreMap, name: string, id: RequestorId)
    ensures |m| <= |AddCore(m, name, id)| <= |m| + 1 && AddCore(m, name, id) != []
  {
    if !(m == [] || Less(name, m[0].name) || m[0].name == name) {
      AddCoreGrows(m[1..], name, id);
    }
  }

  /** getCoreIDByRequestorID counts the cores before the one that lists the id; 0 if none does. */
  function CoreIdFrom(m: CoreMap, id: RequestorId, count: nat): (r: nat) {
    if m == [] then 0
    else if id in m[0].ids then count
    else CoreIdFrom(m[1..], id, count + 1)
  }

  // ---------- the sockets (src/sc_slave_port.cc) ----------

  /** socket_map as std::map iterates it: one entry for each socket, ascending. */
  datatype SocketEntry = SocketEntry(socket: nat, ids: seq<RequestorId>)
  type SocketMap = seq<SocketEntry>

  predicate SocketsAbove(k: nat, m: SocketMap) {
    forall i :: 0 <= i < |m| ==> k < m[i].socket
  }

  predicate Ascending(m: SocketMap) {
    m == [] || (SocketsAbove(m[0].socket, m[1..]) && Ascending(m[1..]))
  }

  /** getSocketId: the first entry that lists the requestor, or socket 0. */
  function GetSocketId(m: SocketMap, id: RequestorId): (r: nat) {
    if m == [] then 0
    else if id in m[0].ids then m[0].socket
    else GetSocketId(m[1..], id)
  }

  /** The ids of a socket; none if it has no entry. */
  function Lookup(m: SocketMap, k: nat): (r: seq<RequestorId>) {
    if m == [] then [] else if m[0].socket == k then m[0].ids else Lookup(m[1..], k)
  }

  predicate HasSocket(m: SocketMap, k: nat) {
    m != [] && (m[0].socket == k || HasSocket(m[1..], k))
  }

  /** initSocketMap without a configuration: one socket for each core, numbered from count. */
  function DefaultFrom(m: CoreMap, count: nat): (r: SocketMap) {
    if m == [] then [] else [SocketEntry(count, m[0].ids)] + DefaultFrom(m[1..], count + 1)
  }

  /** Without a configuration the port and the simulation control route every requestor alike. */
  lemma {:induction false} RoutingAgrees(m: CoreMap, id: RequestorId, count: nat)
    ensures GetSocketId(DefaultFrom(m, count), id) == CoreIdFrom(m, id, count)
    ensures |DefaultFrom(m, count)| == |m|
    ensures CoreIdFrom(m, id, count) < count + |m| || CoreIdFrom(m, id, count) == 0
    decreases |m|
  {
    if m != [] {
      RoutingAgrees(m[1..], id, count + 1);
      assert DefaultFrom(m, count)[1..] == DefaultFrom(m[1..], count + 1);
    }
  }

  /** socket_map[k].insert(end, ids): the entry is made if it is not there. */
  function AppendAt(m: SocketMap, k: nat, ids: seq<RequestorId>): (r: SocketMap) {
    if m == [] || k < m[0].socket then [SocketEntry(k, ids)] + m
    else if k == m[0].socket then [SocketEntry(k, m[0].ids + ids)] + m[1..]
    else [m[0]] + AppendAt(m[1..], k, ids)
  }

  lemma {:induction false} AppendAtAbove(m: SocketMap, k: nat, ids: seq<RequestorId>, low: nat)
    requires SocketsAbove(low, m) && low < k
    ensures SocketsAbove(low, AppendAt(m, k, ids))
  {
    if !(m == [] || k <= m[0].socket) {
      AppendAtAbove(m[1..], k, ids, low);
    }
  }

  lemma {:induction false} NoSocket(m: SocketMap, low: nat, k: nat)
    requires SocketsAbove(low, m) && k <= low
    ensures !HasSocket(m, k) && Lookup(m, k) == []
  {
    if m != [] {
      NoSocket(m[1..], low, k);
    }
  }

  lemma {:induction false} AppendAtKeeps(m: SocketMap, k: nat, ids: seq<RequestorId>, j: nat)
    requires Ascending(m)
    ensures Ascending(AppendAt(m, k, ids))
    ensures HasSocket(AppendAt(m, k, ids), j) <==> j == k || HasSocket(m, j)
    ensures Lookup(AppendAt(m, k, ids), j) == Lookup(m, j) + if j == k then ids else []
  {
    var r := AppendAt(m, k, ids);
    if m == [] || k < m[0].socket {
      assert r[1..] == m;
      assert m != [] ==> forall i :: 0 < i < |m| ==> m[i] == m[1..][i - 1];
      NoSocket(m, k, k);
    } else if k == m[0].socket {
      assert r[1..] == m[1..];
    } else {
      AppendAtKeeps(m[1..], k, ids, j);
      AppendAtAbove(m[1..], k, ids, m[0].socket);
      assert r[1..] == AppendAt(m[1..], k, ids);
    }
  }

  /** The configuration of a socket: the cores that use it, by their number. */
  datatype SocketConfig = SocketConfig(socket: nat, cores: seq<int>)

  /** The number of a core that exists; a negative one is a huge one for the comparison of the code. */
  predicate ValidCore(names: seq<string>, c: int) {
    0 <= c < |names|
  }

  /** The inner loop of initSocketMap; cores that do not exist are skipped. */
  function AddCores(m: SocketMap, k: nat, cores: seq<int>, ports: CoreMap, names: seq<string>): (r: SocketMap)
    decreases |cores|
  {
    if cores == [] then m
    else
      var m1 := if ValidCore(names, cores[0]) then AppendAt(m, k, IdsOf(ports, names[cores[0]])) else m;
      AddCores(m1, k, cores[1..], ports, names)
  }

  /** The outer loop of initSocketMap. */
  function ConfigMap(m: SocketMap, config: seq<SocketConfig>, ports: CoreMap, names: seq<string>): (r: SocketMap)
    decreases |config|
  {
    if config == [] then m
    else ConfigMap(AddCores(m, config[0].socket, config[0].cores, ports, names), config[1..], ports, names)
  }

  /** One of the cores is there, of n cores. */
  predicate AnyCore(cores: seq<int>, n: nat) {
    exists i :: 0 <= i < |cores| && 0 <= cores[i] < n
  }

  /** The ids of the cores that are there, one core after the other. */
  function ListedIds(cores: seq<int>, ports: CoreMap): (r: seq<RequestorId>) {
    if cores == [] then []
    else (if 0 <= cores[0] < |ports| then ports[cores[0]].ids else []) + ListedIds(cores[1..], ports)
  }

  lemma AnyCoreFirst(cores: seq<int>, n: nat)
    requires cores != []
    ensures AnyCore(cores, n) <==> 0 <= cores[0] < n || AnyCore(cores[1..], n)
  {
    assert forall i :: 0 <= i < |cores| - 1 ==> cores[1..][i] == cores[i + 1];
    if i :| 0 < i < |cores| && 0 <= cores[i] < n {
      assert cores[1..][i - 1] == cores[i];
    }
  }

  lemma AddCoresFirst(m: SocketMap, k: nat, cores: seq<int>, ports: CoreMap)
    requires cores != [] && SortedCores(ports)
    ensures AddCores(m, k, cores, ports, Names(ports))
         == AddCores(if 0 <= cores[0] < |ports| then AppendAt(m, k, ports[cores[0]].ids) else m, k, cores[1..], ports, Names(ports))
  {
    if 0 <= cores[0] < |ports| {
      IdsByNumber(ports, cores[0]);
    }
  }

  /** What the loop has made of the entry of socket j, by the cores that are there and their ids. */
  predicate Extended(m: SocketMap, r: SocketMap, j: nat, any: bool, ids: seq<RequestorId>) {
    Ascending(r) && (HasSocket(r, j) <==> HasSocket(m, j) || any) && Lookup(r, j) == Lookup(m, j) + ids
  }

  lemma ExtendedTrans(m: SocketMap, m1: SocketMap, r: SocketMap, j: nat, any: bool, any': bool, ids: seq<RequestorId>, ids': seq<RequestorId>)
    requires Extended(m, m1, j, any, ids) && Extended(m1, r, j, any', ids')
    ensures Extended(m, r, j, any || any', ids + ids')
  {
  }

  /** The inner loop adds the ids of the cores at the end of the socket's, and makes the entry if one of the cores is there. */
  lemma {:induction false} AddCoresIds(m: SocketMap, k: nat, cores: seq<int>, ports: CoreMap, j: nat)
    requires Ascending(m) && SortedCores(ports)
    ensures Extended(m, AddCores(m, k, cores, ports, Names(ports)), j,
                     j == k && AnyCore(cores, |ports|), if j == k then ListedIds(cores, ports) else [])
    decreases |cores|
  {
    if cores != [] {
      AnyCoreFirst(cores, |ports|);
      AddCoresFirst(m, k, cores, ports);
      var c, rest := cores[0], cores[1..];
      var there := 0 <= c < |ports|;
      var m1 := if there then AppendAt(m, k, ports[c].ids) else m;
      if there {
        AppendAtKeeps(m, k, ports[c].ids, j);
      }
      AddCoresIds(m1, k, rest, ports, j);
      ExtendedTrans(m, m1, AddCores(m1, k, rest, ports, Names(ports)), j, j == k && there, j == k && AnyCore(rest, |ports|),
                    if j == k && there then ports[c].ids else [], if j == k then ListedIds(rest, ports) else []);
    }
  }

  /** The ids that a configuration gives to socket k. */
  function ConfigIds(config: seq<SocketConfig>, ports: CoreMap, k: nat): (r: seq<RequestorId>) {
    if config == [] then []
    else (if config[0].socket == k then ListedIds(config[0].cores, ports) else []) + ConfigIds(config[1..], ports, k)
  }

  /** A socket of the configuration gets an entry if one of its cores is there. */
  predicate ConfigHas(config: seq<SocketConfig>, n: nat, k: nat) {
    config != [] && ((config[0].socket == k && AnyCore(config[0].cores, n)) || ConfigHas(config[1..], n, k))
  }

  lemma {:induction false} ConfigMapIds(m: SocketMap, config: seq<SocketConfig>, ports: CoreMap, j: nat)
    requires Ascending(m) && SortedCores(ports)
    ensures Extended(m, ConfigMap(m, config, ports, Names(ports)), j, ConfigHas(config, |ports|, j), ConfigIds(config, ports, j))
    decreases |config|
  {
    if config != [] {
      var k, cores := config[0].socket, config[0].cores;
      var m1 := AddCores(m, k, cores, ports, Names(ports));
      AddCoresIds(m, k, cores, ports, j);
      ConfigMapIds(m1, config[1..], ports, j);
      ExtendedTrans(m, m1, ConfigMap(m1, config[1..], ports, Names(ports)), j,
                    j == k && AnyCore(cores, |ports|), ConfigHas(config[1..], |ports|, j),
                    if j == k then ListedIds(cores, ports) else [], ConfigIds(config[1..], ports, j));
    }
  }

  /** initSocketMap, from an empty map. */
  function SocketsOf(config: seq<SocketConfig>, ports: CoreMap, names: seq<string>): (r: SocketMap) {
    if config == [] then DefaultFrom(ports, 0) else ConfigMap([], config, ports, names)
  }

  // ---------- what the configuration says ----------

  /** Core c lists the id, and one of the cores is c. */
  predicate Lists(cores: seq<int>, ports: CoreMap, c: int, id: RequestorId) {
    c in cores && 0 <= c < |ports| && id in ports[c].ids
  }

  ghost predicate CoresList(cores: seq<int>, ports: CoreMap, id: RequestorId) {
    exists c: int :: Lists(cores, ports, c, id)
  }

  lemma {:induction false} ListedIdsExact(cores: seq<int>, ports: CoreMap, id: RequestorId)
    ensures id in ListedIds(cores, ports) <==> CoresList(cores, ports, id)
    decreases |cores|
  {
    if cores != [] {
      ListedIdsExact(cores[1..], ports, id);
      assert forall c :: c in cores <==> c == cores[0] || c in cores[1..];
      assert forall c :: Lists(cores, ports, c, id) <==> Lists([cores[0]], ports, c, id) || Lists(cores[1..], ports, c, id);
      if 0 <= cores[0] < |ports| && id in ports[cores[0]].ids {
        assert Lists(cores, ports, cores[0], id);
      }
    }
  }

  ghost predicate SocketLists(config: seq<SocketConfig>, ports: CoreMap, k: nat, id: RequestorId) {
    exists i :: 0 <= i < |config| && config[i].socket == k && CoresList(config[i].cores, ports, id)
  }

  lemma {:induction false} ConfigIdsExact(config: seq<SocketConfig>, ports: CoreMap, k: nat, id: RequestorId)
    ensures id in ConfigIds(config, ports, k) <==> SocketLists(config, ports, k, id)
    decreases |config|
  {
    if config != [] {
      ListedIdsExact(config[0].cores, ports, id);
      ConfigIdsExact(config[1..], ports, k, id);
      assert forall i :: 0 <= i < |config| - 1 ==> config[1..][i] == config[i + 1];
      if i :| 0 < i < |config| && config[i].socket == k && CoresList(config[i].cores, ports, id) {
        assert config[1..][i - 1] == config[i];
      }
    }
  }

  lemma {:induction false} DefaultIds(m: CoreMap, count: nat, k: nat)
    ensures Ascending(DefaultFrom(m, count)) && SocketsAbove(count, DefaultFrom(m, count + 1))
    ensures HasSocket(DefaultFrom(m, count), k) <==> count <= k < count + |m|
    ensures Lookup(DefaultFrom(m, count), k) == if count <= k < count + |m| then m[k - count].ids else []
    decreases |m|
  {
    if m != [] {
      DefaultIds(m[1..], count + 1, k);
      assert DefaultFrom(m, count)[1..] == DefaultFrom(m[1..], count + 1);
      assert DefaultFrom(m, count + 1)[1..] == DefaultFrom(m[1..], count + 2);
      DefaultAbove(m[1..], count + 1, count);
      DefaultAbove(m, count + 1, count);
    }
  }

  lemma {:induction false} DefaultAbove(m: CoreMap, count: nat, low: nat)
    requires low < count
    ensures SocketsAbove(low, DefaultFrom(m, count))
    decreases |m|
  {
    if m != [] {
      DefaultAbove(m[1..], count + 1, low);
      assert DefaultFrom(m, count)[1..] == DefaultFrom(m[1..], count + 1);
      assert forall i :: 0 < i < |DefaultFrom(m, count)| ==> DefaultFrom(m, count)[i] == DefaultFrom(m[1..], count + 1)[i - 1];
    }
  }

  /**
   * Which ids initSocketMap gives to which socket: without a configuration those of
   * the core of that number, and else those of the cores that the configuration lists
   * for the socket and that are there.
   */
  lemma SocketIds(config: seq<SocketConfig>, ports: CoreMap, k: nat, id: RequestorId)
    requires SortedCores(ports)
    ensures var m := SocketsOf(config, ports, Names(ports));
            && Ascending(m)
            && (id in Lookup(m, k) <==>
                  if config == [] then k < |ports| && id in ports[k].ids
                  else exists i, c: int :: 0 <= i < |config| && config[i].socket == k
                                           && c in config[i].cores && 0 <= c < |ports| && id in ports[c].ids)
  {
    if config == [] {
      DefaultIds(ports, 0, k);
    } else {
      ConfigMapIds([], config, ports, k);
      ConfigIdsExact(config, ports, k, id);
      if i, c: int :| 0 <= i < |config| && config[i].socket == k && c in config[i].cores && 0 <= c < |ports| && id in ports[c].ids {
        assert Lists(config[i].cores, ports, c, id);
        assert CoresList(config[i].cores, ports, id);
      }
      if SocketLists(config, ports, k, id) {
        var i :| 0 <= i < |config| && config[i].socket == k && CoresList(config[i].cores, ports, id);
        var c: int :| Lists(config[i].cores, ports, c, id);
        assert 0 <= i < |config| && config[i].socket == k && c in config[i].cores && 0 <= c < |ports| && id in ports[c].ids;
      }
    }
  }

  // ---------- what getSocketId finds ----------

  /** The entry at the head of the map does not matter to the sockets of the others. */
  lemma HeadLookup(m: SocketMap, j: nat)
    requires Ascending(m) && m != []
    ensures Lookup(m, j) == if j == m[0].socket then m[0].ids else Lookup(m[1..], j)
    ensures j <= m[0].socket ==> Lookup(m[1..], j) == [] && !HasSocket(m[1..], j)
  {
    if j <= m[0].socket {
      NoSocket(m[1..], m[0].socket, j);
    }
  }

  ghost predicate OwnerBefore(m: SocketMap, id: RequestorId, k: nat) {
    exists j: nat :: j < k && id in Lookup(m, j)
  }

  ghost predicate Unowned(m: SocketMap, id: RequestorId) {
    forall j: nat :: id !in Lookup(m, j)
  }

  /** The least socket that lists the id, or 0 when none does. */
  lemma {:induction false} LeastOwner(m: SocketMap, id: RequestorId)
    requires Ascending(m)
    ensures var k := GetSocketId(m, id);
            if Unowned(m, id) then k == 0 else id in Lookup(m, k) && !OwnerBefore(m, id, k)
    decreases |m|
  {
    if m != [] {
      forall j: nat
        ensures Lookup(m, j) == if j == m[0].socket then m[0].ids else Lookup(m[1..], j)
        ensures j <= m[0].socket ==> Lookup(m[1..], j) == []
      {
        HeadLookup(m, j);
      }
      LeastOwner(m[1..], id);
      assert Lookup(m, m[0].socket) == m[0].ids;
      if id !in m[0].ids && !Unowned(m[1..], id) {
        var k := GetSocketId(m[1..], id);
        assert id in Lookup(m[1..], k);
        assert Lookup(m, k) == Lookup(m[1..], k);
      } else if id !in m[0].ids {
        assert Unowned(m, id);
      }
    }
  }

  /** The sockets of the map are k, k + 1 and so on, without a gap. */
  predicate Gapless(m: SocketMap, k: nat) {
    m == [] || (m[0].socket == k && Gapless(m[1..], k + 1))
  }

  lemma {:induction false} GaplessBound(m: SocketMap, k: nat, id: RequestorId)
    requires Gapless(m, k)
    ensures GetSocketId(m, id) < k + |m| || GetSocketId(m, id) == 0
    decreases |m|
  {
    if m != [] {
      GaplessBound(m[1..], k + 1, id);
    }
  }

  lemma NotBelow(m: SocketMap, k: nat)
    requires Ascending(m) && m != []
    ensures k < m[0].socket ==> !HasSocket(m, k)
  {
    HeadLookup(m, k);
  }

  /** A map whose sockets are exactly k to n - 1 has no gap. */
  lemma {:induction false} AllSockets(m: SocketMap, k: nat, n: nat)
    requires Ascending(m) && k <= n
    requires forall j: nat :: HasSocket(m, j) <==> k <= j < n
    ensures Gapless(m, k) && |m| == n - k
    decreases |m|
  {
    if m == [] {
      assert !HasSocket(m, k);
    } else {
      var first := m[0].socket;
      assert HasSocket(m, first);
      NotBelow(m, k);
      forall j: nat
        ensures HasSocket(m[1..], j) <==> k + 1 <= j < n
      {
        HeadLookup(m, j);
        assert HasSocket(m, j) <==> j == first || HasSocket(m[1..], j);
      }
      AllSockets(m[1..], k + 1, n);
    }
  }

  /** A configuration of the sockets 0 to |config| - 1 that gives each a core that is there, of n cores. */
  predicate FullConfig(config: seq<SocketConfig>, n: nat) {
    && config != []
    && forall i :: 0 <= i < |config| ==> config[i].socket == i && exists c: int :: c in config[i].cores && 0 <= c < n
  }

  lemma {:induction false} ConfigHasAt(config: seq<SocketConfig>, n: nat, k: nat, j: nat)
    requires forall i :: 0 <= i < |config| ==> config[i].socket == k + i && AnyCore(config[i].cores, n)
    ensures ConfigHas(config, n, j) <==> k <= j < k + |config|
    decreases |config|
  {
    if config != [] {
      assert forall i :: 0 <= i < |config| - 1 ==> config[1..][i] == config[i + 1];
      ConfigHasAt(config[1..], n, k + 1, j);
    }
  }

  /**
   * With a full configuration there are as many entries as sockets, and a requestor
   * is routed to the least socket that lists one of its cores, or to socket 0 if
   * there is none.
   */
  lemma ConfiguredRouting(config: seq<SocketConfig>, ports: CoreMap, id: RequestorId)
    requires FullConfig(config, |ports|) && SortedCores(ports)
    ensures var m, k := ConfigMap([], config, ports, Names(ports)), GetSocketId(ConfigMap([], config, ports, Names(ports)), id);
            && |m| == |config| && k < |config|
            && (|| (CoresList(config[k].cores, ports, id)
                    && forall j :: 0 <= j < k ==> !CoresList(config[j].cores, ports, id))
                || (k == 0 && forall j :: 0 <= j < |config| ==> !CoresList(config[j].cores, ports, id)))
  {
    var m := ConfigMap([], config, ports, Names(ports));
    forall i | 0 <= i < |config|
      ensures AnyCore(config[i].cores, |ports|)
    {
      var c: int :| c in config[i].cores && 0 <= c < |ports|;
    }
    forall j: nat
      ensures Ascending(m)
      ensures HasSocket(m, j) <==> j < |config|
      ensures id in Lookup(m, j) <==> j < |config| && CoresList(config[j].cores, ports, id)
    {
      ConfigMapIds([], config, ports, j);
      ConfigHasAt(config, |ports|, 0, j);
      ConfigIdsExact(config, ports, j, id);
    }
    assert HasSocket(m, 0);
    AllSockets(m, 0, |config|);
    GaplessBound(m, 0, id);
    LeastOwner(m, id);
    var k := GetSocketId(m, id);
    forall j | 0 <= j < |config|
      ensures CoresList(config[j].cores, ports, id) ==> !Unowned(m, id) && (j < k ==> OwnerBefore(m, id, k))
    {
      assert id in Lookup(m, j) <==> CoresList(config[j].cores, ports, id);
    }
  }

  // ---------- exact condition for the bound of the helper ----------

  /** Every id that a socket beyond the number of entries lists is listed by an earlier socket as well. */
  ghost predicate NoneBeyond(m: SocketMap) {
    forall k: nat, id: RequestorId :: |m| <= k && id in Lookup(m, k) ==> OwnerBefore(m, id, |m|)
  }

  lemma BoundOf(m: SocketMap, id: RequestorId)
    requires Ascending(m) && m != []
    ensures GetSocketId(m, id) < |m| <==> Unowned(m, id) || OwnerBefore(m, id, |m|)
  {
    LeastOwner(m, id);
    var k := GetSocketId(m, id);
    if OwnerBefore(m, id, |m|) {
      var j: nat :| j < |m| && id in Lookup(m, j);
    }
  }

  /**
   * The helper has as many sockets as the map has entries. Its index assertions
   * hold for every requestor exactly when no id belongs to nothing but a socket
   * beyond that number.
   */
  lemma BoundExact(m: SocketMap)
    requires Ascending(m) && m != []
    ensures (forall id: RequestorId :: GetSocketId(m, id) < |m|) <==> NoneBeyond(m)
  {
    forall id: RequestorId
      ensures GetSocketId(m, id) < |m| <==> Unowned(m, id) || OwnerBefore(m, id, |m|)
    {
      BoundOf(m, id);
    }
    if NoneBeyond(m) {
      forall id: RequestorId
        ensures Unowned(m, id) || OwnerBefore(m, id, |m|)
      {
        if !Unowned(m, id) {
          var k: nat :| id in Lookup(m, k);
          assert k < |m| ==> OwnerBefore(m, id, |m|);
        }
      }
    } else {
      var k: nat, id: RequestorId :| |m| <= k && id in Lookup(m, k) && !OwnerBefore(m, id, |m|);
      assert GetSocketId(m, id) >= |m|;
    }
  }

  /** A configuration with a gap: socket 1 alone, which the helper has no room for. */
  lemma GapFails(ports: CoreMap, name: string, id: RequestorId)
    requires id in IdsOf(ports, name)
    ensures var m := ConfigMap([], [SocketConfig(1, [0])], ports, [name]);
            |m| == 1 && GetSocketId(m, id) == 1
  {
    var config := [SocketConfig(1, [0])];
    var m1 := AddCores([], 1, [0], ports, [name]);
    assert m1 == [SocketEntry(1, IdsOf(ports, name))] by {
      assert [0][1..] == [];
    }
    assert ConfigMap([], config, ports, [name]) == ConfigMap(m1, [], ports, [name]) == m1;
  }
}
