/**
 * src/blocking_packet_helper.cc: which payload blocks the request and the
 * response channel of each socket, and which sockets owe gem5 a retry.
 */
module BlockingPackets {
  import opened Common
  import opened Payloads

  /** The entry of a blocking map at a key, if the key is there. */
  function At(m: map<nat, Option<Handle>>, k: nat): (r: Option<Handle>) {
    if k in m then m[k] else None
  }

  predicate Flag(m: map<nat, bool>, k: nat) {
    k in m && m[k]
  }

  /** The maps hold the keys 0..num, one more than there are sockets. */
  datatype HelperState = HelperState(
    num: nat,
    request: map<nat, Option<Handle>>,
    response: map<nat, Option<Handle>>,
    retry: map<nat, bool>)
  {
    ghost predicate Valid() {
      request.Keys == response.Keys == retry.Keys == Below(num + 1)
    }
  }

  datatype PacketType = Request | Response

  function Init(num: nat): (r: HelperState)
    ensures r.Valid()
  {
    var keys := Below(num + 1);
    HelperState(num, map k | k in keys :: None, map k | k in keys :: None, map k | k in keys :: false)
  }

  /** updateBlockingMap admits the spare key as well. */
  function UpdateBlocking(s: HelperState, core: nat, h: Option<Handle>, kind: PacketType): (r: Outcome<HelperState>) {
    if core > s.num then Fatal(BadIndex)
    else match kind
      case Request => if core in s.request then Ok(s.(request := s.request[core := h])) else Fatal(BadIndex)
      case Response => if core in s.response then Ok(s.(response := s.response[core := h])) else Fatal(BadIndex)
  }

  function GetBlocking(s: HelperState, core: nat, kind: PacketType): (r: Outcome<Option<Handle>>) {
    var m := if kind.Request? then s.request else s.response;
    if core >= s.num || core !in m then Fatal(BadIndex) else Ok(m[core])
  }

  /** isBlockingTrans scans the whole request map, whatever its second argument says. */
  predicate IsBlocking(s: HelperState, h: Handle) {
    exists k :: k in s.request && s.request[k] == Some(h)
  }

  function NeedRetry(s: HelperState, core: nat): (r: Outcome<bool>) {
    if core >= s.num || core !in s.retry then Fatal(BadIndex) else Ok(s.retry[core])
  }

  function UpdateRetry(s: HelperState, core: nat, b: bool): (r: Outcome<HelperState>) {
    if core >= s.num then Fatal(BadIndex)
    else Ok(if core in s.retry then s.(retry := s.retry[core := b]) else s)
  }

  /** The lowest socket whose response is blocked, at or above key k. */
  function FirstBlocked(s: HelperState, k: nat): (r: Option<nat>)
    requires s.Valid()
    ensures r.Some? ==> k <= r.value <= s.num && s.response[r.value].Some?
    ensures forall j :: k <= j <= s.num && (r.None? || j < r.value) ==> s.response[j].None?
    decreases s.num + 1 - k
  {
    if k > s.num then None
    else if s.response[k].Some? then Some(k)
    else FirstBlocked(s, k + 1)
  }

  /** BlockingPacketHelper: the three std::maps, updated in place. */
  class BlockingPacketHelper {
    var socketNum: nat
    var blockingRequestMap: map<nat, Option<Handle>>
    var blockingResponseMap: map<nat, Option<Handle>>
    var needToSendRequestRetryMap: map<nat, bool>

    function View(): (r: HelperState)
      reads this
    {
      HelperState(socketNum, blockingRequestMap, blockingResponseMap, needToSendRequestRetryMap)
    }

    constructor ()
      ensures blockingRequestMap == blockingResponseMap == map[] && needToSendRequestRetryMap == map[]
    {
      socketNum := 0;
      blockingRequestMap, blockingResponseMap, needToSendRequestRetryMap := map[], map[], map[];
    }

    /** init: called once, when the port is bound and the number of sockets is known. */
    method InitMaps(num: nat)
      requires blockingRequestMap == blockingResponseMap == map[] && needToSendRequestRetryMap == map[]
      modifies this
      ensures View() == Init(num)
    {
      socketNum := num;
      var i := 0;
      while i <= socketNum
        invariant i <= socketNum + 1 && socketNum == num
        invariant blockingRequestMap == map k | k in Below(i) :: None
        invariant blockingResponseMap == map k | k in Below(i) :: None
        invariant needToSendRequestRetryMap == map k | k in Below(i) :: false
      {
        blockingRequestMap := blockingRequestMap[i := None];
        blockingResponseMap := blockingResponseMap[i := None];
        needToSendRequestRetryMap := needToSendRequestRetryMap[i := false];
        i := i + 1;
      }
    }

    method UpdateBlockingMap(core: nat, h: Option<Handle>, kind: PacketType)
      requires UpdateBlocking(View(), core, h, kind).Ok?
      modifies this
      ensures View() == UpdateBlocking(old(View()), core, h, kind).value
    {
      assert core <= socketNum;
      match kind {
        case Request => blockingRequestMap := blockingRequestMap[core := h];
        case Response => blockingResponseMap := blockingResponseMap[core := h];
      }
    }

    method GetBlockingTrans(core: nat, kind: PacketType) returns (h: Option<Handle>)
      requires GetBlocking(View(), core, kind).Ok?
      ensures h == GetBlocking(View(), core, kind).value
    {
      assert core < socketNum;
      match kind {
        case Request => h := blockingRequestMap[core];
        case Response => h := blockingResponseMap[core];
      }
    }

    method IsBlockedPort(core: nat, kind: PacketType) returns (b: bool)
      requires GetBlocking(View(), core, kind).Ok?
      ensures b <==> GetBlocking(View(), core, kind).value.Some?
    {
      var h := GetBlockingTrans(core, kind);
      b := h.Some?;
    }

    method IsBlockingTrans(h: Handle) returns (b: bool)
      requires View().Valid()
      ensures b <==> IsBlocking(View(), h)
    {
      var it := 0;
      while it <= socketNum
        invariant it <= socketNum + 1
        invariant forall k :: k in blockingRequestMap && k < it ==> blockingRequestMap[k] != Some(h)
      {
        if blockingRequestMap[it] == Some(h) {
          return true;
        }
        it := it + 1;
      }
      return false;
    }

    method NeedToSendRequestRetry(core: nat) returns (b: bool)
      requires NeedRetry(View(), core).Ok?
      ensures b == NeedRetry(View(), core).value
    {
      b := needToSendRequestRetryMap[core];
    }

    method UpdateRetryMap(core: nat, state: bool)
      requires View().Valid() && UpdateRetry(View(), core, state).Ok?
      modifies this`needToSendRequestRetryMap
      ensures View() == UpdateRetry(old(View()), core, state).value
    {
      var it := 0;
      while it <= socketNum
        invariant it <= socketNum + 1
        invariant needToSendRequestRetryMap == if core < it then old(needToSendRequestRetryMap)[core := state]
                                               else old(needToSendRequestRetryMap)
      {
        if it == core {
          needToSendRequestRetryMap := needToSendRequestRetryMap[it := state];
        }
        it := it + 1;
      }
    }

    method GetBlockingResponse() returns (h: Option<Handle>)
      requires View().Valid()
      ensures h == var k := FirstBlocked(View(), 0); if k.Some? then blockingResponseMap[k.value] else None
    {
      var it := 0;
      while it <= socketNum
        invariant it <= socketNum + 1
        invariant FirstBlocked(View(), 0) == FirstBlocked(View(), it)
      {
        if blockingResponseMap[it].Some? {
          return blockingResponseMap[it];
        }
        it := it + 1;
      }
      return None;
    }
  }
}
