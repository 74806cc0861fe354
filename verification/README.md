# A verified model of the gem5 / SystemC transaction bridge

The bridge lets gem5 act as a SystemC module: memory requests leave gem5 through
`SCSlavePort`, cross N TLM sockets to one `TxnRouter` each, and come back as
responses; `SCMasterPort` takes TLM transactions into gem5; `Module` runs the gem5
event queue under SystemC time. This project models those parts in Dafny and
proves what they promise.

Run `dafny verify dfyconfig.toml` to check everything.

## How it is built

| part | specification on values | objects that meet it | main results |
|---|---|---|---|
| request / response handshake | `Payloads`, `BlockingPackets`, `TxnRouters`, `SlavePorts` | `BlockingPackets`, `MemoryManagers`, `RouterModule`, `PortModule` | `Pipes`, `Simulation`, `PortSteps`, `Requests`, `Runs`, `Handshake`, `Timing`, `Liveness` |
| any compliant target | `AnyTargets` | | `AnyTargets`, `RouterTargets` |
| gem5 / SystemC time | `Kernel`, `EventQueues`, `EventLoops` | `EventModule` | `TimeCoupling`, `TimeRuns` |
| handshake under the event loop | `Bridges` | | `BridgeEvents`, `BridgeRuns` |
| master port | `MasterPorts` | `MasterModule` | `MasterRuns`, `MasterWitness` |
| routing tables | `Routing` | `SimControls`, `PortModule` | `Routing`, `WholeSystem` |

* The specification functions have the branches, constants and assertions of the
  code. They return `Ok` or the `Fatal` fault (an `sc_assert`, `panic_if`, `fatal`
  or `SC_REPORT_FATAL`) that stops the simulation, so "no assertion fails" is a
  theorem and not a precondition.
* `Faults` gives the exact conditions of the assertions and fatal errors, call by
  call, also for states that no run reaches.
* The classes have the fields and loops of the code. Each method is proved to lead
  to exactly the state its specification function gives.
* `BaseProtocol` is a monitor for section 15.2 of IEEE 1666-2011, written from the
  standard. Histories are checked against it.
* `Pipes` describes a socket by at most two live transactions. The helper's
  entries, the router's fields, the queued events, the reference counts and the
  history of a socket are all functions of its pipe; `Simulation.Refines` says so
  for all sockets at once, and every step of every party is shown to keep it.
* gem5, the memories and the scheduler are free to do what their protocols allow:
  gem5 may send or refuse as it likes, may send any requests from within
  `sendRetryReq`, and may not send while it is owed a retry; memories take any
  finite time; steps that are due at the same time happen in any order.
* `Bridges` puts the two halves together: what a router raises goes on the gem5
  queue, what the event loop services runs the handler of the port, and SystemC
  time is the same for both. That gem5 has caught up whenever it acts on the port
  is an assumption of the handshake alone and a theorem of the whole.
* Payload pointers are recycled, so transactions carry a serial number of the model.

## What does not hold of the code, and exactly when it does

* `TimeRuns.ReentryRunsDry`, `TimeRuns.ReentryLosesExit`: the limit event does not
  protect an event loop that is entered again after the exit event and before
  `simulate` returns: it can run out of events, or overwrite the exit event that
  `simulate` then reads. `TimeRuns.ReentryExact` says when.
* `TimeRuns.SecondSimulateFails`, `TimeRuns.BeginExact`: `simulate` counts its limit
  from gem5 time, which may lag; the loop it starts succeeds if neither the limit
  nor anything queued is in the past, and is fatal if not.
* `TimeRuns.RaiseExact`: a tick that wraps around at 64 bits is a missed event.
* `MasterWitness.TwoResponsesFail`, `MasterRuns.EndRespExact`: `handleEndResp` clears
  its flag only after `sendRetryResp` has returned, so a peer may send at most one
  response that waits for END_RESP, and only as the last.
* `Routing.GapFails`, `WholeSystem.IndexExact`: a configuration with a gap in its
  sockets can fail the index assertions of the helper.
* `AnyTargets.BothAtOnce`, `AnyTargets.OrderMatters`: a target whose END_REQ is not due
  before its BEGIN_RESP fails the assertion in `pec`, also when both are due at the
  same tick.
* `Runs.RetryExact`: `recvRespRetry` is fatal if and only if gem5 refuses once more
  one of the responses that are blocked.

Runs of the time part and of the whole start `simulate` and enter the loop once
more under the conditions these results give, `TimeCoupling.CanBegin` and
`TimeCoupling.CanReenter`.

Where a comment and the code disagree the model follows the code: the comment in
`src/sc_slave_port.cc:277-282` has BEGIN_REQ wait for the header delay and drop the
payload delay, the code (line 295) waits for the payload delay; and `isBlockingTrans` ignores the
type it is given and always looks at requests.

## Model

| member | source | states |
|---|---|---|
| BridgeRuns.EveryEventIsHandledOnTime | src/sc_slave_port.cc:205-488 | From the bound port and the first simulate on, in every run of handshake and event loop together: nothing is fatal and no CAUGHT_UP assertion fails, the handshake is sound, every PayloadEvent is due its delay after it was raised, pec is entered for it when curTick and SystemC time show that tick, never twice and never for what was not raised, and inside simulate every event whose tick is over has been handled |
| BridgeRuns.EveryBridgeStep | src/sc_module.cc:193-250 | Each step of the whole, a round of the event loop among them, succeeds and keeps the two halves at the same time and in agreement on which PayloadEvents are queued |
| BridgeRuns.RaiseAllKeeps | src/sc_slave_port.cc:479-488 | Each event that nb_transport_bw is called for goes on the gem5 queue once, at SystemC time plus the delay |
| BridgeRuns.RaisedAhead | include/sc_peq.hh:90-95 | What the port has raised is on the queue, so SystemC time does not pass it before it is handled |
| BridgeEvents.ServiceTakes | src/sc_slave_port.cc:339-430 | Handling an event takes exactly that event away, whatever gem5 sends or refuses in reply |
| BridgeEvents.RouterRaises | include/txn_router.h:152-273 | A router raises only END_REQ and BEGIN_RESP, each 10 ns ahead, and leaves the events before them alone |
| Handshake.EveryRunIsSound | src/sc_slave_port.cc:205-477 | From the bound port on, under every interleaving of gem5, routers, memories and time in which gem5 acts when it has caught up: no assertion and no fatal error is reached, every state is sound (order, wire, router, events, payloads, maps, retries, progress), and at most eight internal steps are taken for each accepted request |
| Handshake.FifoServer | include/txn_router.h:183-317 | Each socket is a FIFO server with room for two: memory gets the accepted requests in order of acceptance, END_RESP follows in the same order, gem5 gets a response for exactly the finished packets that need one |
| Handshake.RouterInvariant | include/txn_router.h:183-303 | In every reachable state a response in progress implies a transaction in progress, no pending target-done notification and a memory that is idle; next_response_pending is null; no BEGIN_REQ is queued while an END_REQ is still owed; the phases on the wire are legal |
| Handshake.EventPayloads | src/sc_slave_port.cc:480-488 | At most one PayloadEvent of a socket is queued, and its payload is in use, not in the free list, and belongs to that socket |
| Handshake.ReferenceCounts | src/sc_slave_port.cc:252-253 | A payload in use counts 1 plus 1 exactly while the router is between BEGIN_REQ handling and the end of send_response, carries the address, size and command of its packet, and is not in the free list; every other payload is |
| Handshake.PoolBound | src/sc_mm.cc:55-66 | numberOfAllocations equals the number of payload objects and never exceeds twice the number of sockets |
| Handshake.MapEntries | src/blocking_packet_helper.cc:25-61 | Every non-null entry of a blocking map is a payload in use whose extension names the socket of the key, and the two entries of a socket differ |
| Handshake.DeadlockFree | src/sc_slave_port.cc:339-477 | The handshake has a step left (now, once time has moved on, or a recvRespRetry) if and only if some accepted request has not been finished |
| Handshake.NothingLeaks | src/sc_mm.cc:68-73 | When every request has been finished, all payloads are in the free list, all accepted requests have been to memory and all responses have been given |
| Timing.TransactionTimes | include/txn_router.h:183-303 | Over every run, for every transaction of every socket: END_REQ takes effect exactly 10 ns after the later of its BEGIN_REQ and the END_RESP of the transaction before, BEGIN_RESP no earlier than 35 ns after that, and END_RESP not before it |
| Timing.TakeDelays | include/txn_router.h:246-273 | When the router takes a transaction, on BEGIN_REQ or on the END_RESP of the one before, END_REQ is raised for 10 ns and target-done for 25 ns from now |
| Timing.AnswerDelay | include/txn_router.h:152-180 | When the memory returns BEGIN_RESP of the transaction in progress is raised for 10 ns from now |
| Requests.RequestExact | src/sc_slave_port.cc:205-337 | In a reachable state recvTimingReq, for any packet: the socket is the cluster id, or the least that lists the requestor, or 0; the call is fatal exactly on a packet that may not be sent there; a refusal raises that socket's flag and nothing else; else exactly that socket gets BEGIN_REQ after the payload delay, with a payload from the end of the free list that carries the packet with its delays paid |
| Requests.RoutedOnce | src/sc_slave_port.cc:557-576 | A packet has one socket |
| WholeSystem.RequestsRouted | src/sc_slave_port.cc:219-225 | The same after whatever run of the port bound with an ascending socket map |
| Liveness.ComesToRest | src/sc_slave_port.cc:339-477 | From every reachable state, without a new request and within three times the number of phases still open, a state is reached in which every accepted request has been to memory and finished, every response and every retry given and every payload freed |
| Liveness.EveryRunCanFinish | src/sc_slave_port.cc:205-477 | The same from the end of any run of the bound port, with the bound in terms of the accepted requests |
| Runs.EveryStep | src/sc_slave_port.cc:205-477 | No enabled step stops the simulation; each keeps the description of every socket by its pipe, and each internal step raises the potential |
| Runs.EveryRun | src/sc_slave_port.cc:205-477 | The same over whole runs: the potential grows at least by the number of internal steps |
| Runs.RetryPotential | src/sc_slave_port.cc:432-477 | recvRespRetry ends with every response entry null, having sent one END_RESP for each blocked socket in ascending order |
| Runs.RetryExact | src/sc_slave_port.cc:432-477 | In a reachable state recvRespRetry is fatal if and only if gem5 refuses again one of the responses that are blocked |
| Runs.BoundRefines | src/sc_slave_port.cc:514-529 | The port as bindToTransactor leaves it satisfies the invariant, with potential 0 |
| Runs.DrainingStep | src/sc_slave_port.cc:439-476 | A round for the response getBlockingResponse finds is the first of the rounds for all blocked sockets, and leaves fewer of them |
| Simulation.RequestCases | src/sc_slave_port.cc:209-238 | In a reachable state recvTimingReq stops the simulation if and only if the packet may not be sent; otherwise it refuses exactly when the socket is blocked |
| Simulation.BeginStep | src/sc_slave_port.cc:251-336 | The accepting branch of recvTimingReq keeps the invariant and puts the request at the end of its socket |
| Simulation.RefuseStep | src/sc_slave_port.cc:236-239 | A refusal raises the one retry flag and keeps the invariant |
| Simulation.PeqStep | include/txn_router.h:183-244 | peq_cb on any queued entry is not fatal, keeps the invariant and lowers the rank of its socket |
| Simulation.TargetDoneStep | include/txn_router.h:275-286 | target_done_event finds the process waiting and a transaction to execute; the invariant is kept and the rank falls |
| Simulation.MemoryDoneStep | include/txn_router.h:288-301 | After the memory the response is sent at once and never held back; the invariant is kept and the rank falls |
| Simulation.ScanAgrees | src/blocking_packet_helper.cc:108-123 | The scan of the whole request map finds a payload if and only if the entry at the payload's own socket is that payload |
| PortSteps.EndReqCase | src/sc_slave_port.cc:347-373 | pec on END_REQ clears exactly the entry of the payload that blocked, and calls gem5 back if and only if its socket has the retry flag |
| PortSteps.PecExact | src/sc_slave_port.cc:347-377 | pec for whatever target, in any state: END_REQ that does not find its payload blocking is fatal; END_REQ, and BEGIN_RESP of a payload that still blocks, free the channel and call a refused peer back; BEGIN_RESP goes on to the response |
| PortSteps.PecUnblocks | src/sc_slave_port.cc:362-373 | After either phase the payload does not block its socket, the peer has had the retry it was owed, and no other socket is touched |
| PortSteps.FreedStep | src/sc_slave_port.cc:364-372 | Freeing the request channel keeps the invariant, the retry bookkeeping included |
| PortSteps.RecvAllStep | src/sc_slave_port.cc:371-371 | Whatever gem5 sends from within sendRetryReq: it is not fatal if and only if each packet may be sent when it is sent, and then the invariant is kept |
| PortSteps.BeginRespStep | src/sc_slave_port.cc:375-428 | pec on BEGIN_RESP, once gem5 has caught up, never finds a blocked response; accepted or refused by gem5, the invariant is kept and the rank falls |
| PortSteps.ResendStep | src/sc_slave_port.cc:449-475 | A response that is sent again is fatal if and only if gem5 refuses it again; otherwise END_RESP goes out, the payload is released and the invariant is kept |
| Pipes.SendEndReqKeeps | include/txn_router.h:246-273 | send_end_req from an idle router raises END_REQ for 10 ns and target-done for 25 ns from now, and leads to the state of a served transaction |
| Pipes.EndRespKeeps | include/txn_router.h:202-239 | peq_cb on END_RESP frees the router and sends the END_REQ that is owed, if any |
| Pipes.MemoryDoneKeeps | include/txn_router.h:288-301 | The response of the transaction that comes back from memory goes out, and the router lets go of its payload |
| Pipes.FinishKeeps | src/sc_slave_port.cc:411-425 | END_RESP ends the transaction in the history and returns the payload |
| BaseProtocol.ExclusionRules | src/sc_slave_port.cc:314-322 | Between two BEGIN_REQ of a legal trace the first request ends, by END_REQ or its BEGIN_RESP; between two BEGIN_RESP the first response ends |
| BaseProtocol.PhaseCounts | src/sc_slave_port.cc:300-301 | On a legal trace each transaction goes through each phase at most once, and the monitor tells which it has gone through |
| BaseProtocol.UnblockedOnce | src/sc_slave_port.cc:347-351 | On a legal trace each transaction frees the request channel exactly once, by END_REQ or by a BEGIN_RESP in its place |
| AnyTargets.SingleUnblocking | src/sc_slave_port.cc:347-374 | For any target that answers TLM_ACCEPTED and keeps to the protocol, with BEGIN_RESP in effect after END_REQ, and with requests that gem5 sends from within sendRetryReq: the assertions of pec hold and every accepted request frees its request channel once |
| AnyTargets.EveryTargetStep | src/sc_slave_port.cc:339-430 | Each step of the port and of such a target, a request between the two halves of pec among them, keeps the two entries of the socket consistent with the wire and the queued events |
| AnyTargets.OrderMatters | src/sc_slave_port.cc:362-363 | With END_REQ and BEGIN_RESP of one transaction queued and serviced in the order of the gem5 queue: the assertion holds if and only if END_REQ is due strictly before BEGIN_RESP |
| AnyTargets.BothAtOnce | src/sc_slave_port.cc:479-488 | A run of the base protocol that has both queued, for the same tick |
| RouterTargets.AnswersInTurn | include/txn_router.h:183-303 | TxnRouter is such a target: in every reachable state each of its calls is legal, and BEGIN_RESP is raised when no event of the socket is queued any more |
| BlockingPackets.Init | src/blocking_packet_helper.cc:10-23 | After init each map has the keys 0 to the number of sockets |
| BlockingPackets.FirstBlocked | src/blocking_packet_helper.cc:151-161 | The least key at or above k with a blocked response |
| BlockingPackets.BlockingPacketHelper.InitMaps | src/blocking_packet_helper.cc:10-23 | Fills the three maps: no payload and no flag under any key |
| BlockingPackets.BlockingPacketHelper.UpdateBlockingMap | src/blocking_packet_helper.cc:25-61 | Changes exactly the entry at the key in the chosen map |
| BlockingPackets.BlockingPacketHelper.GetBlockingTrans | src/blocking_packet_helper.cc:63-92 | The entry at the key of the chosen map |
| BlockingPackets.BlockingPacketHelper.IsBlockedPort | src/blocking_packet_helper.cc:94-106 | True if and only if the entry at the key is a payload |
| BlockingPackets.BlockingPacketHelper.IsBlockingTrans | src/blocking_packet_helper.cc:108-123 | True if and only if the payload is an entry of the request map |
| BlockingPackets.BlockingPacketHelper.NeedToSendRequestRetry | src/blocking_packet_helper.cc:125-135 | The retry flag at the key |
| BlockingPackets.BlockingPacketHelper.UpdateRetryMap | src/blocking_packet_helper.cc:137-149 | Changes exactly the flag at the key |
| BlockingPackets.BlockingPacketHelper.GetBlockingResponse | src/blocking_packet_helper.cc:151-161 | The blocked response at the least key, or null when there is none |
| Payloads.Issue | src/sc_slave_port.cc:252-260 | The payload of a new request carries the packet, with its delays paid, and its socket; no other payload changes |
| Payloads.IssueMatches | src/sc_slave_port.cc:55-79 | The payload has the packet's address and size, and its command for reads and plain writes |
| MemoryManagers.MemoryManager.AllocatePayload | src/sc_mm.cc:55-66 | Reuses the last of the free list, or makes and counts a new payload |
| MemoryManagers.MemoryManager.FreePayload | src/sc_mm.cc:68-73 | Drops the extension and puts the payload at the end of the free list |
| MemoryManagers.MemoryManager.ReleasePayload | src/sc_slave_port.cc:424-425 | One reference less; the last one returns the payload to the pool |
| MemoryManagers.MemoryManager.Destroy | src/sc_mm.cc:47-53 | Counts one free for each payload of the free list |
| MemoryManagers.IssuePayload | src/sc_slave_port.cc:252-260 | allocate, acquire, packet2payload and the extension, in a row, as Payloads.Issue states it |
| RouterModule.SocketEnd.NbTransportBw | src/sc_slave_port.cc:479-488 | Queues a PayloadEvent for now plus the annotated delay |
| RouterModule.TxnRouter.InMemoryRange | include/txn_router.h:142-149 | Inside the memory, whose upper end wraps around at 64 bits |
| RouterModule.TxnRouter.NbTransportFw | include/txn_router.h:105-129 | Queues the phase in the peq at now plus the delay, for an address inside the memory |
| RouterModule.TxnRouter.SendEndRequest | include/txn_router.h:246-273 | END_REQ goes out 10 ns ahead, target-done 25 ns ahead, and the new state of router, events and wire is that of TxnRouters.SendEndReq |
| RouterModule.TxnRouter.SendResponseTo | include/txn_router.h:152-180 | BEGIN_RESP goes out 10 ns ahead, and the new state of router, events, wire and pool is that of TxnRouters.SendResponse |
| RouterModule.TxnRouter.HandleBeginReq | include/txn_router.h:188-201 | peq_cb on BEGIN_REQ, as TxnRouters.OnBeginReq states it |
| RouterModule.TxnRouter.HandleEndResp | include/txn_router.h:202-239 | peq_cb on END_RESP, as TxnRouters.OnEndResp states it |
| RouterModule.TxnRouter.PeqCallbackOn | include/txn_router.h:183-244 | The new state is that of TxnRouters.PeqCallback, about which the step lemmas are proved |
| RouterModule.TxnRouter.Execute | include/txn_router.h:275-286 | The process hands the transaction to memory; a notification that finds it there is lost |
| RouterModule.TxnRouter.Complete | include/txn_router.h:288-301 | After memory: the response goes out or is kept, as TxnRouters.OnMemoryDone states it |
| PortModule.SCSlavePort.UpdateCorePortMap | src/sc_slave_port.cc:578-588 | Takes over the core map and appends its names, in order, to the core numbers |
| PortModule.SCSlavePort.InitSocketMap | src/sc_slave_port.cc:606-655 | The socket map that the configuration, or its absence, prescribes |
| PortModule.SCSlavePort.InitDefaultMap | src/sc_slave_port.cc:615-627 | One socket for each core, numbered in order |
| PortModule.SCSlavePort.InitSocket | src/sc_slave_port.cc:636-649 | The ids of the configured cores that exist go to the socket, in order; other core numbers are skipped; Routing.SocketIds says which |
| PortModule.SCSlavePort.GetSocketId | src/sc_slave_port.cc:557-576 | The first socket that lists the requestor, or 0 |
| PortModule.SCSlavePort.BindToTransactor | src/sc_slave_port.cc:514-529 | The bound port is the start state of the runs, with as many helper sockets as the map has entries |
| PortModule.SCSlavePort.SocketId | src/sc_slave_port.cc:219-225 | The cluster id of the packet, if it has one, overrides the routing table |
| PortModule.SCSlavePort.ReceiveRequest | src/sc_slave_port.cc:205-337 | The answer and the new state of port, helper, pool, router and wire are those of SlavePorts.RecvTimingReq |
| PortModule.SCSlavePort.SendBeginReq | src/sc_slave_port.cc:251-322 | The accepting branch, as SlavePorts.Begin states it |
| PortModule.SCSlavePort.SendRetryReq | src/sc_slave_port.cc:369-372 | gem5 is called back and goes on sending until it is refused again |
| PortModule.SCSlavePort.FreeRequestChannel | src/sc_slave_port.cc:362-373 | The first half of pec, as SlavePorts.Unblock states it |
| PortModule.SCSlavePort.FinishTransaction | src/sc_slave_port.cc:412-425 | END_RESP and release, as SlavePorts.Finish states it |
| PortModule.SCSlavePort.RespondToPeer | src/sc_slave_port.cc:375-428 | The second half of pec, as SlavePorts.Respond states it |
| PortModule.SCSlavePort.HandleEvent | src/sc_slave_port.cc:339-430 | pec as a whole, as SlavePorts.Pec states it |
| PortModule.SCSlavePort.ReceiveRespRetry | src/sc_slave_port.cc:432-477 | The loop terminates with no response blocked, and END_RESP has gone out for exactly the blocked sockets, ascending |
| Kernel.Notify | src/sc_module.cc:135-139 | Of two notifications of an sc_event the earlier survives |
| TimeRuns.NoMissedEvent | src/sc_module.cc:113-297 | Over every run: no fatal error, gem5 time never leads, inside simulate SystemC time passes neither the next event nor the limit, every event was serviced when both clocks showed its tick, in order; whatever was scheduled for a tick that is over has been serviced or descheduled, once, and a PayloadEvent has been serviced; no limit event of an earlier simulate is left |
| TimeCoupling.EveryTimeStep | src/sc_module.cc:113-297 | Every enabled step succeeds and keeps curTick <= SystemC time <= next queued tick inside simulate, and that what was scheduled is serviced, descheduled or queued |
| TimeCoupling.LoopSound | src/sc_module.cc:193-250 | With clocks and queue in order eventLoop is never fatal about time; it does not run out of events while one that no handler can deschedule exits or is for later, it returns only if something queued leads to an exit or to something later, and exactly then if nothing due deschedules anything |
| TimeRuns.LoopAlive | src/sc_module.cc:218-230 | Inside simulate, until it is asked to end, the loop is entered again no later than the next event is due |
| TimeRuns.SimulateReturns | src/sc_module.cc:252-300 | Left alone, the loop comes to an exit event, the limit event at the latest, in a number of steps that the work on the queue bounds, and simulate finds the event |
| TimeCoupling.MissedEvent | src/sc_module.cc:231-237 | An event in the past is always noticed, and with everything in order none is |
| TimeRuns.BeginExact | src/sc_module.cc:252-274 | The first entry of the loop that simulate starts succeeds if neither the queue nor its limit is in the past, and is fatal if not |
| TimeRuns.SecondSimulateFails | src/sc_module.cc:258-261 | A run after which simulate(5) is fatal: gem5 time has stayed at 0 while SystemC time moved to 10 |
| TimeRuns.BoundedSimulation | src/sc_module.cc:258-261 | The limit is the current tick plus the number of cycles or the last tick, whichever is less, without wrap-around |
| TimeRuns.BeginCancels | src/sc_module.cc:267-274 | From any run outside simulate: after simulate has been called the entry of the loop is pending for now, and no other notification and no exit event is left |
| TimeRuns.BeginClears | src/sc_module.cc:267-274 | In whatever state simulate is called, old notifications and the old exit event are gone afterwards |
| TimeRuns.ExternalOnlyIfAsked | src/sc_module.cc:270-271 | After simulate has been called the loop is entered by externalSchedulingEvent only if an event has been raised, a module has called into gem5, or an event on the queue wakes it |
| TimeRuns.LimitLast | src/sc_module.cc:263-265 | When the limit event is first in the queue, every PayloadEvent and every event of priority below 100 due by then has been serviced |
| TimeRuns.CallsWake | src/sc_module.cc:135-139 | Raising an event and calling into gem5 have the loop entered now, and a call has gem5 catch up first |
| TimeCoupling.WaitExact | src/sc_module.cc:206-218 | The time the loop means to wake is noted when it goes to sleep, and corrected when it is woken earlier |
| TimeRuns.RaiseExact | include/sc_peq.hh:79-96 | The next entry of the loop after a PayloadEvent has been raised succeeds if its tick does not wrap around at 64 bits, and is fatal if it does |
| TimeRuns.RaisedIsServiced | include/sc_peq.hh:79-96 | A PayloadEvent whose tick does not wrap around has been serviced, as often as it was raised, in every run inside simulate once its tick is over |
| TimeRuns.ReentryExact | src/sc_module.cc:189-190 | The loop entered once more between the exit event and the return of simulate, with nothing due that deschedules: it runs out of events unless something leads to an exit or to something later, and simulate finds an exit event if and only if nothing was due or what was due leads to an exit now |
| TimeRuns.ReentryRunsDry | src/sc_module.cc:189-190 | A run in which the loop is entered once more between the limit event and the return of simulate, and runs out of events |
| TimeRuns.ReentryLosesExit | src/sc_module.cc:240-240 | A run in which the loop entered once more overwrites the exit event, and simulate reads a null pointer |
| EventQueues.InsertKeeps | include/sc_peq.hh:94-95 | Scheduling keeps the queue sorted, loses nothing and adds exactly the event |
| EventModule.Module.CatchUp | src/sc_module.cc:113-133 | gem5 time becomes SystemC time |
| EventModule.Module.NotifyModule | src/sc_module.cc:135-139 | externalSchedulingEvent is notified for now, unless it already is |
| EventModule.Module.ScheduleEvent | src/sc_module.cc:135-139 | An event of gem5's own is queued for SystemC time plus its delay, on 64 bits; the queue is woken if the event asks for it |
| EventModule.Module.NotifyPayload | include/sc_peq.hh:79-96 | The PayloadEvent is queued for SystemC time plus the delay, on 64 bits, and the loop is woken |
| EventModule.Module.TakeOffQueue | src/sc_module.cc:294-295 | deschedule: the first event of the kind leaves the queue, if there is one |
| EventModule.Module.ServiceFirst | src/sc_module.cc:238-240 | The first event is removed and its handler runs; an exit event is returned |
| EventModule.Module.RunRound | src/sc_module.cc:202-249 | One round of the while loop, as EventLoops.Round states it |
| EventModule.Module.RunEventLoop | src/sc_module.cc:193-250 | The while loop ends in the state EventLoops.Loop states, for every finite amount of work |
| EventModule.Module.OnExternalEvent | src/sc_module.cc:178-191 | Enters the loop if and only if simulating with a queue that is not empty |
| EventModule.Module.Simulate | src/sc_module.cc:252-274 | The limit event is queued, the exit event and the two other notifications are cleared, and the loop is to be entered now |
| EventModule.Module.Finish | src/sc_module.cc:282-300 | No loop entry is pending after simulate, and the limit event has been descheduled if another exit event ended it |
| EventModule.Module.CallBack | src/sc_master_port.cc:167-189 | A TLM callback catches up, schedules, and wakes the loop |
| MasterRuns.EveryRunAnswers | src/sc_master_port.cc:191-399 | Over every run: no assertion fails, waitForRetry and the pending fields agree, an owed retry implies a response in progress and each refusal gets one retry, the wire is legal, and each transaction gets END_REQ and BEGIN_RESP once |
| MasterRuns.EveryMasterStep | src/sc_master_port.cc:191-399 | Every enabled step succeeds and keeps the invariant of the port |
| MasterRuns.PipeThrough | src/sc_master_port.cc:200-215 | With any requests in flight and responses in any order, a response goes to the transaction its packet came from, and a piped-through packet returns as a response with the command, address, size and sender states it came with, in the same payload |
| MasterRuns.GeneratedRequest | src/sc_master_port.cc:47-74 | For a payload without a packet gem5 gets one with the payload's command, address and size that needs a response and carries the port's entry alone |
| MasterRuns.PipedRequest | src/sc_master_port.cc:203-215 | A packet that comes with the payload goes to gem5 as it is, with the port's entry on its stack |
| MasterRuns.TransportExact | src/sc_master_port.cc:139-163 | A request is turned down with TLM_COMPLETED, and changes nothing, if and only if it has byte enables or is a burst |
| MasterRuns.EndRespExact | src/sc_master_port.cc:227-240 | handleEndResp succeeds if and only if, of the responses sent from within sendRetryResp, all but the last complete at once |
| MasterWitness.TwoResponsesFail | src/sc_master_port.cc:236-239 | A run from the new port, and two responses for which handleEndResp fails after it: the flag is still up when the second one is refused |
| MasterRuns.RetryStep | src/sc_master_port.cc:382-399 | recvReqRetry while a retry is awaited keeps the invariant, and waits on exactly when gem5 refuses again |
| MasterRuns.AnswerCounts | src/sc_master_port.cc:217-224 | Each begun transaction has one END_REQ unless its request is pending, and one BEGIN_RESP unless it is pending or in gem5 |
| MasterModule.SCMasterPort.ChoosePacket | src/sc_master_port.cc:205-212 | The packet of the extension, or under the new id a packet with the payload's command, address and size that needs a response |
| MasterModule.SCMasterPort.TransportRequest | src/sc_master_port.cc:139-163 | TLM_COMPLETED for byte enables and bursts, else handleBeginReq and TLM_ACCEPTED |
| MasterModule.SCMasterPort.BeginRequest | src/sc_master_port.cc:191-225 | The new state is that of MasterPorts.HandleBeginReq |
| MasterModule.SCMasterPort.EndRequest | src/sc_master_port.cc:242-251 | END_REQ goes out for the transaction |
| MasterModule.SCMasterPort.EndResponse | src/sc_master_port.cc:227-240 | The new state is that of MasterPorts.HandleEndResp |
| MasterModule.SCMasterPort.ReceiveTimingResp | src/sc_master_port.cc:315-358 | The answer and the new state are those of MasterPorts.RecvTimingResp |
| MasterModule.SCMasterPort.BeginResponse | src/sc_master_port.cc:360-380 | BEGIN_RESP goes out, and the response is in progress unless the initiator completes at once |
| MasterModule.SCMasterPort.ReceiveReqRetry | src/sc_master_port.cc:382-399 | The new state is that of MasterPorts.RecvReqRetry |
| SimControls.Gem5SimControl.AddCoreID | src/sim_control.cc:244-259 | The id goes to the end of the list of its core, which is made in its place if it is new |
| SimControls.Gem5SimControl.GetCoreIDByRequestorID | src/sim_control.cc:261-274 | The number of cores before the first that lists the id, or 0 |
| SimControls.Gem5SimControl.InitCoreInfo | src/sim_control.cc:229-242 | Two ids are added for each core of the configuration |
| Routing.AddCoreIds | src/sim_control.cc:244-259 | Exactly the list of the named core grows, by exactly the new id |
| Routing.InitCoresIds | src/sim_control.cc:229-242 | Afterwards each core has the ids the configuration gives it, in order |
| Routing.IdsByNumber | src/sc_slave_port.cc:639-648 | A core number leads, by way of the name, to the ids of that core |
| Routing.RoutingAgrees | src/sc_slave_port.cc:615-627 | Without a configuration getSocketId equals getCoreIDByRequestorID for every id, known or not |
| Routing.LeastOwner | src/sc_slave_port.cc:560-575 | getSocketId gives the least socket that lists the id, or 0 if none does |
| Routing.ConfiguredRouting | src/sc_slave_port.cc:628-652 | With sockets 0 to n-1, each with a core number below the number of cores: n entries, and every id goes to the least socket that lists the number of a core with the id, or to 0 |
| Routing.SocketIds | src/sc_slave_port.cc:606-655 | A socket lists an id if and only if the configuration lists for it a number of an existing core with the id; without a configuration, if the core of that number has the id |
| Routing.BoundExact | src/blocking_packet_helper.cc:67-67 | Every id is routed below the number of entries if and only if none belongs only to a socket beyond that number |
| Routing.GapFails | src/sc_slave_port.cc:529-529 | A configuration of socket 1 alone routes to a socket the helper has no room for |
| WholeSystem.IndexExact | src/blocking_packet_helper.cc:67-67 | For whatever ascending map, and after whatever run of the port bound with it: when gem5 has caught up, no packet without a cluster id fails an index assertion of the helper if and only if no id belongs only to a socket beyond the size of the map |
| WholeSystem.DefaultSystem | src/sim_control.cc:205-216 | For any list of cores: routing agrees with the simulation control and every run of the bound port is sound |
| WholeSystem.ConfiguredSystem | src/sc_slave_port.cc:628-652 | With a full configuration every run of the bound port is sound |
| Faults.HelperFaults | src/blocking_packet_helper.cc:25-149 | updateBlockingMap admits the spare key, the other operations of the helper only the sockets |
| Faults.PeqFaults | include/txn_router.h:183-244 | peq_cb is fatal on END_REQ and BEGIN_RESP, and on END_RESP without a response in progress |
| Faults.SendFaults | include/txn_router.h:105-149 | send_end_req is fatal while a transaction is in progress, nb_transport_fw for an address outside the memory |
| Faults.TargetDoneFaults | include/txn_router.h:275-286 | A notification inside the memory is lost, one without a transaction is fatal |
| Faults.MemoryDoneFaults | include/txn_router.h:288-301 | The first pending response waits, a second is fatal |
| Faults.RespondFaults | src/sc_slave_port.cc:377-388 | BEGIN_RESP is fatal when gem5 has not caught up, and for a socket whose response is blocked already |
| Faults.RequestFaults | src/sc_slave_port.cc:208-213 | recvTimingReq is fatal when gem5 has not caught up, and for a packet that a cache answers or that is neither read nor write |
| Faults.RetryFaults | src/sc_slave_port.cc:435-456 | recvRespRetry is fatal when gem5 has not caught up, and for a response that gem5 refuses again |
| Faults.CatchupFaults | src/sc_module.cc:113-133 | catchup succeeds if and only if gem5 time has passed neither SystemC time nor the next event |
| Faults.LoopFaults | src/sc_module.cc:198-250 | eventLoop is fatal outside simulate and with an empty queue, simulate without an exit event |
| Faults.BeginReqFaults | src/sc_master_port.cc:193-212 | handleBeginReq is fatal while a request waits, and for a payload without packet that is neither read nor write |
| Faults.ReqRetryFaults | src/sc_master_port.cc:382-399 | recvReqRetry is fatal unless a request waits |
| Faults.TimingRespFaults | src/sc_master_port.cc:315-358 | recvTimingResp succeeds if and only if it is not refused twice, or gets a response with the port's entry on top and a status of the protocol |
| Faults.EndRespFaults | src/sc_master_port.cc:227-230 | handleEndResp is fatal without a response in progress |

## Left out

- `usingGem5Cache`: the multi-socket transactor always reports false, so its branches, `isSystemPortBlocked` and the port's own blocking fields are not modelled.
- The single-socket transactor, which never sets up the helper.
- TLM_UPDATED and TLM_COMPLETED as answers to the port's BEGIN_REQ or to the router's BEGIN_RESP: router and port always answer TLM_ACCEPTED.
- `recvAtomic`, `recvFunctional`, `b_transport`, `transport_dbg`, DMI and snoops: straight calls into other components.
- The memory's `b_transport` is a finite latency; data pointers, byte enables of the slave port and response status values are not modelled.
- The fields of a `PayloadEvent` object and its `scheduled` assertion: every event is made anew for one call, so its payload and phase are kept in the queued event.
- A peer that calls back from within `sendTimingResp`.
- `serviceAsyncEvent`: interrupts, statistics dumps and polling.
- gem5's own code and the SystemC kernel appear as small specifications: a queue ordered by tick and priority in which the last of equal events comes first, packets with a stack of sender states, event notifications. Delta cycles within one time are not told apart.
- `SimpleBus`, `Gem5Wrapper`, configuration loading, the logger, statistics and debug output.
- EventLoops.Loop: what handlers schedule in their turn is a finite tree, so an endless chain of events at one tick is not in the model.
- Handshake.EveryRunIsSound: times are unbounded there; the wrap-around of a tick at 64 bits is treated in the time part. gem5 sends only what `Simulation.Acceptable` admits, which includes that the socket is there and that gem5 has caught up, and takes a response it has asked for.
- AnyTargets.SingleUnblocking: looks at one socket and names payloads by transaction; the pool, the extension and the retry flag are treated with the router alone.
- MasterRuns.EveryRunAnswers: the callbacks of the peq are taken in the order in which they come into effect, their delays are not modelled, and reference counts are left out because `nb_transport_fw` acquires END_RESP payloads that nothing releases.
- BridgeRuns.EveryEventIsHandledOnTime: what the handler of an event does to the gem5 queue is chosen when the event is raised, and what gem5 sends to the port in reply when it is handled. Outside simulate SystemC time does not pass a queued event, or simulate could not be called again, and ticks stay within 64 bits.
- Routing.ConfiguredRouting: a core map handed over twice would number its cores twice; the statement is for the numbering as it is given.
