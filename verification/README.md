# Verified model of the HyGCN and DRAMsim3 simulators

The repository simulates an accelerator for graph convolutional networks (hygcn/)
on top of a cycle-accurate DRAM simulator (dramsim3/). This project models the parts
of both that decide what happens, as opposed to what is reported, and proves what a
maintainer would want to rely on when changing them.

One DRAM channel controller is a step machine over the calls `AddTransaction`,
`ClockTick` and `ReturnDoneTrans`. It reorders commands, merges reads, coalesces and
forwards writes, refreshes ranks and banks, and (for HBM) issues two commands a
cycle. The results hold for every sequence of calls from power-up: the controller is
a plain memory, serves each transaction once, never exits, keeps every gap of the
timing tables and the activation windows, and completes a rank refresh within a bound
computed from the banks' own times. What the timing tables are for is proved in the
standard's own parameters (`DataBus`): data bursts keep clear of each other on the
channel's bus, reads wait for written data, and a bank is precharged and activated when
its data is done. The write drain (`WriteDrain`), the row policy (`RowPolicy`) and the delay of
responses (`ReadLatency`) are read off queues and history, and a cycle is idle only when
no queued command may go (`WorkConserving`). Three things the code does not do are stated with the exact
condition under which it does them, and with a run that shows the failure: dual command
issue loses a transaction unless all gaps between column commands are positive, the gap
tRFCb is kept on the refreshed bank only if it is at most one cycle, and with
self-closing commands the data of one bank meets on the bus unless the bank reopens
slowly enough, because for that one pair the tables list no gap.

The HyGCN aggregation engine is a step machine over its clock and the replies of the
memory, in any order. When it reports that it is done, every edge has been aggregated
exactly once for each slice of the features, in chunk order, and each slice of each
vertex has had its running sum in a stretch of the ring buffer that no other slice of the
chunk touches. The events it raises are accounted for in the coordinator: each is
delivered exactly once, when its last transaction is confirmed, and by then its
transactions have asked for every byte it is about, each in exactly one block.

Around these stand the algorithms with sequence or arithmetic content: the sliding
window edge partitioner, the greedy edge chunker, the bit-field address map, the page
layout of edges, the hybrid memory cube's crossbar (nothing lost, everything on its own
link and quad), the sparse conductance matrix of the thermal model, the tile sizes and the systolic tile walker.

For each component a module of functions says what one step makes of the whole state
(`ControllerSpec`, `ChannelSpec`, `QueueSpec`, `AggrSpec`, `EventSpec`, `HmcSpec`,
`Systolic`, ...), modules of lemmas prove properties of runs of these functions, and a
class or method with the source's own loops and fields is proved equal to them
(`ControllerClass`, `ChannelClass`, `CommandQueueClass`, `TimingTables.Timing`,
`AggrClass`, `CoordinatorClass`, `HmcClass`, `SystolicClass`, `EdgeCompressClass`,
`ConductanceFill`, the methods of `EdgePartition`, `EdgeChunks` and `AddressMap`).
Exits of the source (`AbruptExit`, a failed `assert`, a lookup that finds nothing) are
an explicit outcome, and the theorems say that they are not reached.

## Model

| member | source | states |
|---|---|---|
| ControllerTheorems.ReadsSeeLastWrite | dramsim3/src/controller.cc:161-263 | on every run, a returned read carries the value of the last write to its address accepted before it, whatever was reordered, merged, coalesced or forwarded, with unified and with split queues |
| ControllerTheorems.ServedExactlyOnce | dramsim3/src/controller.cc:45-93 | on every run each accepted transaction is in exactly one of: waiting, about to be returned, returned |
| ControllerTheorems.OneEntryEach | dramsim3/src/controller.cc:161-228 | on every run an address that is pending for reading or for writing has exactly one entry across transaction and command queues, and nothing else is queued; so a command issued always finds its transaction |
| ControllerTheorems.HardwareRules | dramsim3/src/channel_state.cc:76-138 | on every run: no exit is reached; every issued command respects every listed gap to every earlier one, meets its row open (column), its bank closed (activate, refresh) or open (precharge); and the activations of a rank keep tFAW (any five) and, on GDDR, t32AW (any 33) |
| ControllerTheorems.ArraysEqualHistory | dramsim3/src/channel_state.cc:140-263 | on every run the incremental array `cmd_timing_` equals the maximum over all commands ever issued of issue time plus the gap of the one table whose scope relates the banks; and state and open row are those of the history |
| DualIssueLoss.DualIssueSafeIff | dramsim3/src/controller.cc:80-93 | with dual command issue and the tables of timing.cc: no issuing step of any sound state leaves a pending transaction in no queue, if and only if every gap between column commands that the geometry can need is at least one cycle |
| DualIssueRun.SetupLosesRead | dramsim3/src/controller.cc:84-92 | a run from power-up of a concrete HBM configuration (write-to-read gap across ranks of zero): the second fetch drops a read, which is then pending and in no queue |
| DualIssueRun.RunLosesRead | dramsim3/src/controller.cc:84-92 | the same run for every configuration of that geometry with these three gaps |
| BankRefreshGap.BankRefreshGapIff | dramsim3/src/timing.cc:224-230 | with per-bank refresh: every run keeps tRFCb between a bank refresh and an activate of the same bank if and only if tRFCb is at most one cycle |
| DataBus.BusFreeIff | dramsim3/src/timing.cc:7-267 | over all histories that follow the protocol with these tables: every data burst ends before a later one starts (tRTRS earlier from a read to a write, and between ranks unless both write), and a read waits tWTR behind the last written data of its rank, if and only if a bank that closed itself reopens slowly enough |
| DataBus.RunsKeepBus | dramsim3/src/timing.cc:7-267 | so on every run of the controller: always with open pages, and with closed pages under that condition |
| WriteDrain.DrainServesWrites | dramsim3/src/controller.cc:197-228 | with split queues: a drain begun with n writes moves exactly these, oldest first, and no read before the last of them, unless a pending read of the oldest write's address stops it |
| RowPolicy.QueueYields | dramsim3/src/command_queue.cc:77-110 | on every run a command queue yields the answer for its first entry that may go: a row is closed for an entry only if no older entry is for the bank, and either no entry from it on goes to the row opened last or at least four column commands have gone to it since; and a write waits for an older read of its cell |
| WorkConserving.IdleOnlyIfNothingGoes | dramsim3/src/controller.cc:65-93 | on every run a cycle that issues nothing leaves no queued command that may go, by the history and the queues, except those that wait for the oldest refresh request |
| ReadLatency.ReturnedOnTime | dramsim3/src/controller.cc:161-260 | on every run what has been returned was due: a write one cycle after it came, a read the read delay after a read command of its address that went out since it came, or one cycle after it came if a write of its address came before it |
| DualIssue.RefreshGoesOut | dramsim3/src/command_queue.cc:56-75 | on every run: once a rank refresh is the oldest request, it goes out no later than a deadline computed from its banks' precharge and refresh times, the number of open banks and tRP (tPPD where the protocol has it), and until then the rank sees precharges only |
| AggrTheorems.DoneMeansAll | hygcn/dataflow/aggr.cpp:32-72 | for any timing and order of replies: when the engine says done, every chunk is confirmed, every event is back, all jobs were started in order and finished exactly once, and the operation count is edges times feature chunks times width |
| AggrTheorems.DoneMeansEveryRow | hygcn/dataflow/aggr.cpp:185-243 | then each slice of each vertex has gathered exactly the vertex's row of sources, in order |
| GraphAggregation.GraphAggregated | hygcn/dataflow/aggr.cpp:32-243 | chunker and engine together: for every graph whose vertices each fit a chunk, done means that every vertex has aggregated its row once for each slice, and the operation count is that of the graph |
| EventAccounting.DeliveredOnce | hygcn/hygcn.h:31-61 | for any replies and any choice among equal addresses: an event's issued minus confirmed transactions are its entries in flight, it is delivered at most once, and exactly when all are confirmed |
| AggrPlaces.SlicesApart | hygcn/hardware/aggr_buf.h:36-69 | any two jobs of one chunk, at whatever times of the run, that differ in vertex or slice keep their sums in disjoint stretches of the ring, if the slices fit a vector and the chunk's vectors the ring |
| EventAddresses.DeliveredBytesAsked | hygcn/hardware/coordinator.cpp:56-80 | once an event is delivered, every byte it is about lies in exactly one of the blocks its transactions asked for, and no block starts outside its bytes |
| HmcRouting.RunOnRoute | dramsim3/src/hmc.cc:397-542 | on every run: a request stands in the queue of the link that took it and then of its own quad, and its response waits for, stands in and leaves by that link and that quad |
| HmcTheorems.CrossbarConserves | dramsim3/src/hmc.cc:397-542 | on every run of the crossbar no empty queue's front is taken, every lookup succeeds, each request has exactly one response in exactly one place, bounded queues stay within depth, and an age is positive iff its queue is non-empty |
| EdgeChunks.GreedyIsMinimal | hygcn/config.cpp:135-179 | no contiguous chunking within the byte and vertex limits has fewer chunks than the greedy one |
| AddressMap.CoordinatesIdentify | dramsim3/src/configuration.cc:33-42 | two addresses have the same coordinates if and only if they agree on the mapped bits |
| EdgePages.LayoutLossless | hygcn/graph.cpp:255-298 | for any page capacity, decoding the pages gives back the rows, in order, and then the sentinel |
| ConductanceMatrix.RowSums | dramsim3/src/thermal_solver.c:355-370 | every row of the matrix sums to zero, and a heat-sink row to 1 / Ramb |
| ConductanceMatrix.MatrixSymmetric | dramsim3/src/thermal_solver.c:303-353 | the matrix is symmetric |
| Systolic.WalkComplete | hygcn/hardware/systolic_arr.cpp:56-83 | the walk ends, having dispatched each (batch, column tile, row tile) exactly once with row tiles innermost, and the operation counters are the closed forms |
| RefreshRotation.EachBankOncePerRound | dramsim3/src/refresh.cc:62-82 | per-bank refresh asks for each bank exactly once a round, in the order bankgroup, bank, rank |
| Banks.ReadyFits | dramsim3/src/bankstate.cc:22-94 | an awake bank answers a read, write or refresh without exit, and what it hands out its own state allows |
| ChannelSpec.ReadyMeaning | dramsim3/src/channel_state.cc:76-115 | the same for the whole channel, rank refreshes included; an activate only when the windows allow it |
| CommandHistory.LegalIsAllowed | dramsim3/src/channel_state.cc:76-115 | what the arrays, states and windows allow, the history allows |
| CommandHistory.ApplyAgrees | dramsim3/src/channel_state.cc:117-186 | issuing any legal command keeps arrays, states and windows in agreement with the history |
| CommandHistory.GapsRespected | dramsim3/src/channel_state.cc:140-186 | in a history that follows the protocol any two commands are at least every listed gap apart |
| CommandHistory.RowWasActivated | dramsim3/src/bankstate.cc:96-165 | the open row of a bank is the one most recently activated and not closed since |
| CommandHistory.ColumnHitsOpenRow | dramsim3/src/bankstate.cc:22-94 | a column command goes to the row of the last activate of its bank, with no closing command between |
| CommandHistory.PushAgrees | dramsim3/src/channel_state.cc:282-314 | dropping at most one expired entry for each activate keeps the window within its size and any size + 1 activates apart by its span |
| TimingFacts.StampIsSpacing | dramsim3/src/timing.cc:7-267 | what the tables make a command add to a bank is the gap written in the standard's parameters and the distance of the banks, and nothing where the tables are silent |
| TimingFacts.NamedGaps | dramsim3/src/timing.cc:7-267 | any two commands of a history that follows the protocol keep every such gap |
| DataBus.ListedPair | dramsim3/src/timing.cc:13-181 | two column commands with a listed gap: their bursts keep clear of each other, turnaround included |
| DataBus.ReopenWaits | dramsim3/src/timing.cc:13-202 | from a self-closing command to the next column command of its bank: the burst or tRTP, tWR, tRP and the activate wait |
| DataBus.SlowMeets | dramsim3/src/timing.cc:130-202 | concrete parameters (read latency 30) with which a read that closes its bank and the write after the bank reopened have their bursts at the same time |
| DataBus.BusFreeOpenPage | dramsim3/src/timing.cc:76-129 | without self-closing commands the bursts keep clear whatever the parameters |
| DataBus.PrechargeWaits | dramsim3/src/timing.cc:13-202 | a precharge comes at least tWR after the last written data, AL + tRTP after a read and tRAS after the activate |
| DataBus.ActivateWaits | dramsim3/src/timing.cc:13-251 | an activate comes tRP after the bank's precharge or its closing command's data, tRFC after a rank refresh, tRRD after one of another bank, a row cycle after one of its own |
| DataBus.ColumnWaits | dramsim3/src/timing.cc:42-202 | a column command comes tRCD less AL (or tRCDRD, tRCDWR) after the activate |
| DataBus.RunKinds | dramsim3/src/controller.cc:269-279 | every column command of a run is of the sort that the page policy names |
| TimingFacts.ColumnGapsIff | dramsim3/src/timing.cc:13-32 | the tables' column gaps are all positive if and only if a condition on the timing parameters and the geometry holds |
| TimingFacts.TablesBoundRefresh | dramsim3/src/timing.cc:203-222 | the tables delay a refresh by precharges of its own rank only |
| RefreshRotation.RunAtTurn | dramsim3/src/refresh.cc:21-60 | the n-th request, when it is made and for whom, in closed form |
| RefreshRotation.SimultaneousStarves | dramsim3/src/refresh.cc:31-39 | the policy that is to refresh all ranks at once asks for rank 0 only |
| QueueSafety.FirstReadyMeaning | dramsim3/src/command_queue.cc:178-196 | the first ready command of a queue is one that the channel allows and that is not held back by the row policy or by an older read of its cell |
| QueueSafety.FetchMeaning | dramsim3/src/command_queue.cc:36-54 | fetching never exits, and takes a column command and nothing else off its queue |
| Census.CountedOnce | dramsim3/src/controller.cc:161-228 | where queues and pending addresses agree (which `StepSound` keeps), a key is queued once if it is pending and never otherwise |
| Servicing.NoReaderLeft | dramsim3/src/command_queue.cc:218-230 | when a write may issue, no read of its address is pending |
| Servicing.NoReadBehind | dramsim3/src/controller.cc:197-228 | a write that moves to a command queue leaves no read of its address behind in a transaction queue |
| WriteDrain.FullBufferDrains | dramsim3/src/controller.cc:197-228 | a cycle that finds no drain on and a full write buffer (or more than eight writes and nothing queued) moves the oldest write to its queue, unless that is full or a read of the address is pending, and no read |
| WriteDrain.ReadsOtherwise | dramsim3/src/controller.cc:197-228 | with no drain on or starting, the oldest read moves if its queue has room, and no write |
| WriteDrain.WritesOnlyInDrain | dramsim3/src/controller.cc:197-228 | on every run a write leaves its buffer only in a drain that was on or has just started |
| WriteDrain.RunDrainOk | dramsim3/src/controller.cc:197-228 | on every run a drain has no more to move than there are buffered writes |
| WriteDrain.ScheduleRule | dramsim3/src/controller.cc:197-228 | the move of one transaction, in terms of the buffers and queues |
| WriteDrain.LanesBounded | dramsim3/src/command_queue.cc:112-136 | on every run no command queue is longer than its size |
| RowPolicy.RunCounts | dramsim3/src/bankstate.cc:96-165 | on every run the hit counter of a bank is the number of reads and writes issued to it since its last activate |
| RowPolicy.FirstSelectable | dramsim3/src/command_queue.cc:178-196 | the same rule from any sound state and any place in a queue |
| RowPolicy.RunFetchesPrecharge | dramsim3/src/command_queue.cc:77-110 | on every run a precharge that is fetched was asked for by an entry for which the row may be closed |
| RowPolicy.QueuesSeparate | dramsim3/src/command_queue.cc:164-176 | on every run two queued commands share a queue exactly when they are for the same bank, or with a queue for each rank for the same rank |
| WorkConserving.FetchVisits | dramsim3/src/command_queue.cc:36-54 | fetching goes round the queues from the one after the last visited: it passes over those that are fenced or yield nothing, and takes the answer of the first other |
| ReadLatency.ReturnsWhenDue | dramsim3/src/controller.cc:45-63 | on every run a call for responses returns one that is due by then, and nothing only if none is |
| ReadLatency.ServedIsDataEnd | dramsim3/src/configuration.cc:338-343 | with the delays of the configuration a served read is due with the last data of its burst |
| PlainMemory.AcceptFaithful | dramsim3/src/controller.cc:161-195 | accepting keeps: buffered and stored values are the requester's view, every answer is the value due, each transaction is answered once |
| PlainMemory.IssueFaithful | dramsim3/src/controller.cc:230-267 | so does issuing, given that no read of a write's address is pending |
| PlainMemory.DeliverFaithful | dramsim3/src/controller.cc:45-63 | and so does returning |
| ControllerRuns.NoSecondColumn | dramsim3/src/controller.cc:84-92 | when no bank takes another column command in this cycle, the second fetch takes none |
| ControllerRuns.StepSound | dramsim3/src/controller.cc:45-228 | one call of any kind keeps hardware agreement, the count of queue entries and the plain-memory view together |
| ControllerTheorems.LogRecords | dramsim3/src/controller.cc:161-195 | the log of the theorems is the sequence of accepted calls |
| RefreshBound.RefreshWithinBound | dramsim3/src/command_queue.cc:56-75 | the refresh bound from any sound state, over any calls |
| DualIssue.DualIssueLosesIff | dramsim3/src/controller.cc:84-92 | within one cycle: the second step keeps every transaction queued if and only if its fetch does not return a column command after one |
| DualIssue.NamedParametersSuffice | dramsim3/src/controller.cc:84-92 | under the condition on the timing parameters, every run of a dual-issue controller is sound |
| DualIssue.DeadlineExists | dramsim3/src/command_queue.cc:56-75 | whenever a rank refresh is the oldest request, the banks' own times give such a deadline |
| DualIssueLoss.GapLoses | dramsim3/src/controller.cc:84-92 | for each gap that is not positive, a sound state with two open rows in which the second of two queued commands is lost |
| DualIssueLoss.MapAddressed | dramsim3/src/configuration.cc:347-404 | an address map with power-of-two dimensions and two columns to a row meets the one demand of the condition, two cells of a row of every bank |
| BankRefreshGap.RunOrderly | dramsim3/src/controller.cc:80-93 | on every run no cycle issues two commands other than column commands |
| BankRefreshGap.RunExposes | dramsim3/src/channel_state.cc:149-174 | for every configuration with per-bank refresh, requests two cycles apart or more and an address in the first bank: a run that activates the bank one cycle after its refresh |
| ChannelClass.ChannelState.UpdateActivationTimes | dramsim3/src/channel_state.cc:282-295 | with the source's loops: the window update is that of the specification |
| ChannelClass.ChannelState.UpdateSameBankTiming | dramsim3/src/channel_state.cc:188-197 | the nested loops raise the arrays of the banks in scope by the list, once each, and no other |
| ChannelClass.ChannelState.UpdateOtherBanksSameBankgroupTiming | dramsim3/src/channel_state.cc:199-212 | likewise for the other banks of the bankgroup |
| ChannelClass.ChannelState.UpdateOtherBankgroupsSameRankTiming | dramsim3/src/channel_state.cc:214-229 | likewise for the other bankgroups of the rank |
| ChannelClass.ChannelState.UpdateOtherRanksTiming | dramsim3/src/channel_state.cc:231-248 | likewise for the other ranks |
| ChannelClass.ChannelState.UpdateSameRankTiming | dramsim3/src/channel_state.cc:250-263 | likewise for the whole rank |
| ChannelClass.ChannelState.UpdateTiming | dramsim3/src/channel_state.cc:140-186 | together the scopes give every bank the list of the one table that relates it to the command |
| ChannelClass.ChannelState.RankNeedRefresh | dramsim3/src/channel_state.cc:61-74 | a rank request is appended, or the first one for the rank removed |
| ChannelClass.ChannelState.BankNeedRefresh | dramsim3/src/channel_state.cc:44-59 | likewise for a bank request |
| ChannelClass.ChannelState.UpdateState | dramsim3/src/channel_state.cc:117-138 | the loops give every bank reached its next state, or exit where one refuses |
| ChannelClass.ChannelState.UpdateTimingAndStates | dramsim3/src/channel_state.cc:265-269 | states first, then times |
| ChannelClass.ChannelState.GetReadyCommand | dramsim3/src/channel_state.cc:76-115 | the scan over a rank's banks stops at the first bank that wants another command, and grants the rank command only if all banks are ready |
| CommandQueueClass.CommandQueue.ArbitratePrecharge | dramsim3/src/command_queue.cc:77-110 | a row is closed under another command only by the oldest command of the bank, when no command from it on hits the row or the row has had four hits |
| CommandQueueClass.CommandQueue.HasRWDependency | dramsim3/src/command_queue.cc:218-230 | whether an older read of the cell is queued |
| CommandQueueClass.CommandQueue.GetFirstReadyInQueue | dramsim3/src/command_queue.cc:178-196 | the scan returns the first ready command that is not held back |
| CommandQueueClass.CommandQueue.EraseRWCommand | dramsim3/src/command_queue.cc:198-208 | exactly the first entry of the command leaves its queue |
| CommandQueueClass.CommandQueue.GetCommandToIssue | dramsim3/src/command_queue.cc:36-54 | each queue is looked at once, round robin, leaving out those that wait for a refresh |
| CommandQueueClass.CommandQueue.GetRefQIndices | dramsim3/src/command_queue.cc:146-162 | the queues that wait for a refresh are those of its rank or bank |
| CommandQueueClass.CommandQueue.FinishRefresh | dramsim3/src/command_queue.cc:56-75 | the fence goes up for the oldest request and down when its refresh goes out |
| CommandQueueClass.CommandQueue.AddCommand | dramsim3/src/command_queue.cc:127-136 | a command joins its queue |
| ControllerClass.Refresh.ClockTick | dramsim3/src/refresh.cc:21-27 | requests are inserted every interval, and the clock advances |
| ControllerClass.Refresh.InsertRefresh | dramsim3/src/refresh.cc:29-60 | whom a request is for, by policy |
| ControllerClass.Refresh.IterateNext | dramsim3/src/refresh.cc:62-82 | the rotation by bankgroup, bank and rank |
| ControllerClass.Controller.AddTransaction | dramsim3/src/controller.cc:161-195 | coalescing, forwarding, merging and queueing |
| ControllerClass.Controller.ScheduleTransaction | dramsim3/src/controller.cc:197-228 | the move of one transaction by the rule of the write drain, said in the buffers and queues |
| ControllerClass.Controller.IssueCommand | dramsim3/src/controller.cc:230-267 | a command answers its reads or completes its write, and reaches the channel |
| ControllerClass.Controller.ReturnDoneTrans | dramsim3/src/controller.cc:45-63 | the first response that is due is returned and leaves its queue |
| ControllerClass.Controller.ClockTick | dramsim3/src/controller.cc:65-149 | the whole cycle is the step of the specification, and the object stays valid |
| TimingTables.Timing.constructor | dramsim3/src/timing.cc:7-267 | the lists assigned one after the other, with the long values overwritten for a single bankgroup, are the tables of the specification |
| AddressMap.LogBase2 | dramsim3/src/common.cc:50-57 | the halving loop gives the greatest power of two that is not greater |
| AddressMap.SetAddressMapping | dramsim3/src/configuration.cc:347-404 | accepts a text exactly when it is twelve characters naming the six fields, and then places each field behind those named after it |
| AddressMap.AcceptedIsValid | dramsim3/src/configuration.cc:347-404 | an accepted text gives a map that the lemmas below apply to |
| AddressMap.FieldsTile | dramsim3/src/configuration.cc:367-404 | the fields tile the mapped bits without gap or overlap |
| AddressMap.CoordinatesInRange | dramsim3/src/configuration.cc:33-42 | every coordinate is below its dimension, powers of two or not |
| AddressMap.ChannelsAgree | dramsim3/src/dram_system.cc:35-38 | `GetChannel` agrees with `AddressMapping` |
| AddressMap.EveryCellHasAnAddress | dramsim3/src/configuration.cc:33-42 | every combination of coordinates that the fields can hold has an address |
| AddressMap.DecodesInRange | dramsim3/src/configuration.cc:33-42 | the map meets the controller's demand that addresses name existing banks |
| AddressText.AcceptedIff | dramsim3/src/configuration.cc:362-386 | a text is accepted if and only if each of ch, ra, bg, ba, ro and co is one of its six pairs of letters |
| AddressText.FieldBehindLater | dramsim3/src/configuration.cc:367-404 | the field named by the i-th pair of letters starts behind the bits of the fields named after it |
| AddressText.WidthsOfDims | dramsim3/src/configuration.cc:350-360 | a field has the exponent of the greatest power of two within its dimension; columns that are a power of two of bursts give a column field that counts the bursts |
| AddressText.StepCountsField | dramsim3/src/configuration.cc:33-42 | adding one request, times two to the bits below a field, counts that field up round its size and, short of overflow, changes no other coordinate |
| AddressText.NextRequest | dramsim3/src/configuration.cc:33-42 | the next request's address counts up the last named field that has any bits |
| AddressText.SameRequest | dramsim3/src/configuration.cc:348-351 | all bytes of a request have the same coordinates |
| EdgePartition.Partition | hygcn/dataflow/aggr.cpp:282-343 | the loops terminate and give the parts of the specification |
| EdgePartition.SparsityElimination | hygcn/dataflow/aggr.cpp:345-353 | the set of all sources of a part |
| EdgePartition.PartsRestoreRow | hygcn/dataflow/aggr.cpp:282-343 | the parts of a row, concatenated, are the row |
| EdgePartition.PartsKeepSize | hygcn/dataflow/aggr.cpp:282-343 | the parts have as many edges as the rows |
| EdgePartition.PartsNonEmpty | hygcn/dataflow/aggr.cpp:282-343 | a chunk with an edge has no part without one |
| EdgePartition.WindowsAdvance | hygcn/dataflow/aggr.cpp:282-343 | with ascending rows each part lies in its window, and windows follow one another without overlap |
| EdgePartition.FetchedOnce | hygcn/dataflow/aggr.cpp:282-353 | no source is fetched for two parts of a chunk |
| EdgePartition.PartFitsInputBuffer | hygcn/config.cpp:233-234 | the vectors of all sources of a part fit the input buffer |
| EdgeChunks.BuildChunks | hygcn/config.cpp:135-179 | the loop exits exactly when some vertex does not fit a chunk of its own, and otherwise gives the greedy chunks |
| EdgeChunks.GreedyIsChunking | hygcn/config.cpp:135-179 | the greedy chunks are contiguous, non-empty, cover all vertices and respect both limits |
| GraphAggregation.VertexAggregated | hygcn/dataflow/aggr.cpp:32-243 | done means that every vertex of a graph cut into contiguous chunks has gathered its row |
| GraphAggregation.FetchesInRegion | hygcn/dataflow/aggr.cpp:87-175 | a chunk's edges and a source's features start inside their regions |
| AggrTheorems.NeverFails | hygcn/dataflow/aggr.cpp:32-280 | no assertion of the engine fails, whatever the memory does |
| AggrTheorems.OneChunkAtATime | hygcn/dataflow/aggr.cpp:107-151 | at most one edge buffer drains; it holds the first unconfirmed chunk, and the ready pointer stands at that chunk's first vertex |
| AggrTheorems.StartedInOrder | hygcn/dataflow/aggr.cpp:185-243 | the jobs given out are a prefix of the list of all jobs in chunk, part, vertex and slice order |
| AggrTheorems.MacsSoFar | hygcn/hardware/simd.h:31-56 | the operation count is that of the jobs given out less what is still running; started jobs are finished or running, once each |
| AggrTasks.AllGathered | hygcn/dataflow/aggr.cpp:185-243 | in the list of all jobs each vertex and slice gathers its row once |
| AggrRing.WritesWhereItRead | hygcn/hardware/aggr_buf.h:36-69 | a SIMD writes its sum back to the place in the ring from which it read it, and between chunks the two ring pointers agree |
| AggrPlaces.RunPlaced | hygcn/hardware/aggr_buf.h:36-69 | on every run both pointers of the ring stand as many vectors on as they have passed vertices, round the capacity |
| AggrPlaces.ReadsItsSlice | hygcn/hardware/aggr_buf.h:64-69 | on every run a SIMD at work has read at the place of its vertex and slice |
| AggrPlaces.BehindItsChunk | hygcn/hardware/aggr_buf.h:36-69 | behind the place its chunk was given when it was opened, the vertices follow one another, and the slices of a vertex in their order |
| AggrClass.Aggr.ClockTick | hygcn/dataflow/aggr.cpp:32-72 | the loops of one cycle are the step of the specification |
| AggrClass.Aggr.GenDataFlow | hygcn/dataflow/aggr.cpp:74-243 | edge fetch, part binding and dispatch |
| AggrClass.Aggr.FillEdgeBuffer | hygcn/dataflow/aggr.cpp:83-105 | the next chunk is fetched into an idle buffer and partitioned |
| AggrClass.Aggr.FillInputBuffer | hygcn/dataflow/aggr.cpp:107-183 | the next part of the draining chunk, or else the ready chunk with the smallest start |
| AggrClass.Aggr.DispatchJobs | hygcn/dataflow/aggr.cpp:185-243 | free SIMDs take the next slices of the part |
| AggrClass.Aggr.HandleReturnEvent | hygcn/dataflow/aggr.cpp:248-280 | what an edge, feature or write-back reply confirms |
| EventAccounting.NothingForgotten | hygcn/hardware/coordinator.cpp:56-126 | once nothing is queued or in flight, every event of some bytes has been delivered, and one of zero bytes never is |
| EventAccounting.StepInv | hygcn/hardware/coordinator.cpp:7-126 | any call keeps the accounts of every event |
| EventAddresses.AskedInOrder | hygcn/hardware/coordinator.cpp:56-80 | on every run an event of the DRAM has asked for the blocks from its address on, without a gap, each once and in order, as many as it has counted |
| CoordinatorClass.Coordinator.AddEvent | hygcn/hardware/coordinator.cpp:7-54 | events join the queue of their direction and data |
| CoordinatorClass.Coordinator.IssueEvent | hygcn/hardware/coordinator.cpp:56-126 | the loops issue transactions as long as there is room, and drop an event from its queue when all are issued |
| CoordinatorClass.Coordinator.MemCallback | hygcn/hygcn.h:31-45 | a DRAM reply confirms one entry of its address and delivers a completed event |
| CoordinatorClass.Coordinator.BufCallback | hygcn/hygcn.h:47-61 | likewise for the aggregation buffer |
| HmcTheorems.QuietMeansAnswered | dramsim3/src/hmc.cc:397-542 | once nothing is under way each inserted request has been answered exactly once, and nothing else |
| HmcTheorems.InsertedIffRoom | dramsim3/src/hmc.cc:419-442 | an insertion succeeds if and only if some link has room |
| HmcTheorems.AlwaysFinds | dramsim3/src/hmc.cc:621-633 | every completion finds a waiting response of its address |
| HmcRouting.InsertLands | dramsim3/src/hmc.cc:397-442 | an insertion goes to the first link with room from the round-robin position on, and its response waits for that link and the request's quad |
| HmcCrossing.QuadLeavesLate | dramsim3/src/hmc.cc:444-492 | a request leaves its quad's queue no sooner than the clock at which it crossed plus its flits |
| HmcCrossing.LinkLeavesLate | dramsim3/src/hmc.cc:494-542 | likewise a response its link's queue |
| HmcPace.QuadPace | dramsim3/src/hmc.cc:444-492 | on every run: of two requests that come into one quad the second comes when the flits of the first have passed, two in each round |
| HmcPace.LinkPace | dramsim3/src/hmc.cc:494-542 | likewise two responses that come into one link |
| HmcTheorems.StepInv | dramsim3/src/hmc.cc:397-542 | any call keeps the invariant |
| HmcConservation.BuildAgeQueueIs | dramsim3/src/hmc.cc:589-613 | the arbitration order lists each position with a positive age once, and no other |
| HmcClock.TickCounts | dramsim3/src/hmc.cc:569-587 | after every tick dram_ps <= logic_ps < dram_ps + ps_per_logic, and logic_ps counts the logic ticks |
| HmcClock.CountedMeansRoundedUp | dramsim3/src/hmc.cc:569-587 | the number of logic ticks is the DRAM time divided by the logic period, rounded up |
| HmcClass.Hmc.InsertHMCReq | dramsim3/src/hmc.cc:397-442 | the round over the links is the insertion of the specification |
| HmcClass.Hmc.BuildAgeQueue | dramsim3/src/hmc.cc:589-613 | the nested loops build the order of the specification |
| HmcClass.Hmc.DrainRequests | dramsim3/src/hmc.cc:444-492 | vaults, crossbar and links, in the source's order |
| HmcClass.Hmc.DrainResponses | dramsim3/src/hmc.cc:494-542 | caller, crossbar and quads, in the source's order |
| HmcClass.Hmc.VaultCallback | dramsim3/src/hmc.cc:621-633 | a completed request's response moves to its quad |
| HmcClass.Hmc.ClockTick | dramsim3/src/hmc.cc:569-587 | one tick runs exactly the listed steps, advances both clocks, and keeps the invariant and the clock relation |
| EdgePages.PagesFull | hygcn/graph.cpp:270-298 | for an even capacity of at least four: every page but the last is exactly full, the last no longer, and each starts with a row header |
| EdgePages.PagesFitIff | hygcn/graph.cpp:270-298 | pages stay within their capacity on every graph if and only if it is even and at least four |
| EdgeCompressClass.EdgeCompress.FillEdgePage | hygcn/graph.cpp:270-298 | one call in place |
| EdgeCompressClass.EdgeCompress.GenEdgeLayout | hygcn/graph.cpp:255-267 | the loops lay out all rows, decode to them, and leave the writer ready for the next graph |
| ConductanceMatrix.RowIs | dramsim3/src/thermal_solver.c:374-388 | the swaps leave the diagonal entry between the neighbours below and above it |
| ConductanceMatrix.MatrixOrdered | dramsim3/src/thermal_solver.c:299-393 | entries are ordered by row and, within a row, strictly by column |
| ConductanceMatrix.Signs | dramsim3/src/thermal_solver.c:303-370 | off-diagonal entries are negative, diagonal entries positive |
| ConductanceMatrix.NeighbourValues | dramsim3/src/thermal_solver.c:303-353 | above the diagonal the matrix holds exactly: between cells along x and along z the negative inverse of the plane's resistance of that axis, between planes that of the two half resistances |
| ConductanceMatrix.CountEntries | dramsim3/src/thermal_solver.c:260-278 | the counting loops give the closed form of the number of entries |
| ConductanceMatrix.MatrixLength | dramsim3/src/thermal_solver.c:260-278 | and that is how many entries the matrix has, although it is filled along other lines |
| ConductanceFill.SiftDown | dramsim3/src/thermal_solver.c:374-388 | the swapping loop in place is the insertion of the specification |
| ConductanceFill.BuildMatrix | dramsim3/src/thermal_solver.c:296-393 | the loops fill exactly the counted entries with exactly the matrix |
| Systolic.WaitsIff | hygcn/hardware/systolic_arr.cpp:56-66 | left alone, the walker stops for its output to be emptied if and only if all its output rows exceed the buffer |
| SystolicClass.SystolicArray.SetMatrix | hygcn/hardware/systolic_arr.cpp:116-133 | tile counts, batch sizes and counters of a new pair of matrices |
| SystolicClass.SystolicArray.GenDataFlow | hygcn/hardware/systolic_arr.cpp:56-83 | one tile is dispatched, or the walker waits for its output |
| SystolicClass.SystolicArray.ClockTick | hygcn/hardware/systolic_arr.cpp:85-114 | one cycle, and the walk stays consistent |
| TileSizing.NeverAborts | hygcn/config.cpp:202-226 | the exit of the tile sizing is not reached |
| TileSizing.TileFits | hygcn/config.cpp:202-226 | every weight tile fits the weight buffer |
| TileSizing.TileIsWidest | hygcn/config.cpp:202-226 | unless the weights fit whole, the tile is a square or a strip with one whole side of the weights, aligned, and one more block of elements does not fit: on both sides of the square, along the strip |
| TileSizing.TilePositiveIff | hygcn/config.cpp:202-230 | the tile is not empty, so that the tile counts are defined, if and only if the weights fit whole or a square of one block's elements fits |
| TileSizing.WeightsCovered | hygcn/config.cpp:195-230 | the tiles cover the aligned weights, and one fewer along either side would not |
| TileSizing.BatchIsGreatest | hygcn/config.cpp:241-241 | a number of vertices fits input and output buffer if and only if it is at most the batch size |

## Left out

- Statistics, energy, traces, CSV and JSON output, INI parsing, command line, CPU front ends, dataset loading and sampling: reporting and input.
- Self-refresh: off, as by default. Its states and commands exist in the bank model; no run reaches them.
- Clocks and counters are unbounded integers; only the wrap-around of a negative `uint64_t + int` sum is modelled.
- `rank_q_empty`, `rank_idle_cycles` and the write buffer size of the configuration decide nothing in the modelled code.
- Banks, buffers and SIMDs are values in maps and sequences: the source holds them by value or in pointers that it does not share. A vector access outside its bounds counts as an exit.
- A multimap is a sequence or a map with an arbitrary pick among equal keys.
- `id`, `data`, `log`, `memory`, `issued`, `returned`, `started`, `finished`, `confirmed`, `delivered` and `tiles` record what the theorems speak about; no decision reads them.
- Progress of transactions: with a full write buffer whose head waits for a read still in the read queue, the write side is selected every tick.
- `IdealDRAMSystem`, and the loop of `JedecDRAMSystem::ClockTick` that drains the channels one after the other: each channel is one controller.
- DualIssueLoss.DualIssueSafeIff: speaks of all sound states; a run from power-up is given for one geometry (DualIssueRun), because how a refresh falls between two commands depends on the interval.
- BankRefreshGap.BankRefreshGapIff: requests two cycles apart or more; with an interval of one cycle every cycle goes to a refresh.
- RefreshBound.RefreshWithinBound: rank refreshes; for a bank refresh no bound is stated.
- `WillAllocate` of the aggregation buffer is an arbitrary yes or no, as its formula is not the free space; that the ring does not overwrite is not stated.
- The combination engine (`Comb`): the environment of the aggregation engine.
- A chunk without any edge would leave its input buffer waiting; the theorems speak of runs that report done.
- HmcConservation.BuildAgeQueueIs: not the order by age, because the source compares an age with a position.
- The vaults behind the crossbar accept and complete requests as they like; `ControllerTheorems` is about the controllers they are.
- HmcClass.Hmc.VaultCallback: which of several responses of one address a lookup finds is a parameter.
- The systolic array's waiting time for its last tile, and its byte counters.
- TileSizing.TileFits: `std::sqrt` is the integer root; the store amplification figure is output.
- ConductanceMatrix.RowSums: exact reals instead of floating point; the solver itself (SuperLU) is not part of this model.
- Which addresses the engine gives its events beyond the regions they fall in; AddrMapper's layout of the regions.
- EventAddresses.DeliveredBytesAsked: events of the DRAM; those of the aggregation buffer wrap round its capacity.
- AggrPlaces.SlicesApart: one chunk; that two chunks do not meet in the ring would rest on `WillAllocate`.
- HmcRouting.RunOnRoute: the quad of a request is a parameter, as its address map is that of the vaults.
- DataBus.BusFreeIff: over histories that follow the protocol; that a run reaches the failing one depends on page policy and geometry. A row's self-closing command and the next column command of its bank have no gap of their own in the tables.
