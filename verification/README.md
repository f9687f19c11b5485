# The multi-cluster endpoint picker, modelled and proved

One process serves many clusters. Each cluster is a *cell*: a resident data plane (datastore,
discovery) and an *engine* that is replaced while requests are in flight. This project models how
cells live and die, how requests are admitted, how assignments and endpoint tables arrive, and
proves what holds over every run.

| file | what it holds |
|---|---|
| `Types`, `Registry` | the registry of cells as a value, and what each `Manager` method, each step of a drain worker and each end of an engine start does to it |
| `RegistryRuns`, `RegistryTheorems` | the invariant of every run, what never goes back, the registry read key by key |
| `RegistrySteps` | single steps told by their effects: readiness of fresh engines, states of cells, order and bound of the drain channel |
| `Teardown`, `EngineTrace` | lifecycle, engine accounting, termination of teardown; which engines a sequence of configurations installs |
| `Manager` | the classes `Engine`, `Cell`, `Manager`, each method proved equal to its function in `Registry` |
| `Rounds` | one round of the assignment handler as a run of the registry: which calls in which order, with background steps in between, and what every such round leaves |
| `EppData`, `Reconcile` | the handler as a class driving the `Manager`, proved to perform such rounds; guarantees across orders, rounds and instances |
| `Admission` | hot swap against admission, one atomic operation per step, any number of requests |
| `EnsureRace`, `ReadyRace` | two further interleavings at the same granularity: concurrent `Ensure` on one key, and `markReady` against `Promote`, `Demote` and `Drop` |
| `Diff`, `Hub`, `Discovery`, `Broadcast` | the endpoint diff, the versioned hub, the discovery loop, and hub and loops as one system of atomic steps |
| `Poller`, `Convert`, `Pipeline` | the poll loop with its backoff, the conversion of the cluster table, and the path from table to datastore end to end |
| `Server` | one request through the demultiplexer |

Code that changes state is written as classes and loops (`Manager`, `EppData`, `Hub`, `Discovery`,
`Poller`, `Convert`, `Server`); each method's contract ties the new state to a specification function, and the
theorems are about those functions. Protocols with several goroutines are state machines over atomic
steps, and their theorems are about every run.

One goroutine changes the registry: only the epp_data poller calls the mutators of `Manager`
(cmd/epp/main.go:170, pkg/poller/epp_data.go:101-122). The registry runs, the admission runs and the readiness
runs rest on this. Drain workers, start goroutines and requests may do anything at any time.

## What the code does not give

Each of these is stated as a theorem, with the condition under which the expected property does hold.

- A cell that was demoted and is promoted again under an unchanged configuration serves on a cancelled engine
  (`Teardown.DemotedThenPromoted` is such a run). The current engine of a live cell with no drain pending is cancelled
  if and only if the cell was demoted since that engine was installed (`Teardown.LiveEngineCancelledIffDemoted`).
- A dropped primary goes on admitting, because `Drop` sets the state and admission looks at the role. A drop stops new
  requests, then and in every continuation, unless the cell is a primary with an engine and the drain channel has
  room; exactly then some continuation admits. A request routed to the cell before passes the checks even after the
  teardown, in every continuation, exactly when the cell is a primary with an engine (`Teardown.DroppedStillPrimary`).
  The design document (detailed design 02, section 3.1) says that draining stops admission.
- Waiting for a zero counter makes an engine safe if and only if it is no longer the current one
  (`Admission.ServedAgainIffCurrent`); `Demote` and `Drop` drain the current one.
- `Ensure` on a key whose draining predecessor is still registered returns that dying cell. Every round that returns no
  error leaves a live cell for all wanted clusters if and only if none of them has a draining cell registered when the
  round begins (`Reconcile.AllWantedLiveIff`); `Reconcile.WantedButNotLive` is a reachable registry and such a round
  that misses one, and `Reconcile.LiveAreMine` says which ones a given round misses.
- `markReady` looks at the state and stores later, and `Promote` looks at it twice. Role and state agree afterwards if
  and only if the store comes at one of the harmless moments (`ReadyRace.AgreesIffTimely`); `ReadyRace.UntimelyStores` has the three ways it goes wrong.
- Applying an endpoint list a second time is silent if and only if the list does not repeat an id with different
  metadata (`Diff.ReapplySilentIffConsistent`); a table reaches the datastores in full if and only if no two weighted backends of a cluster clash on an id
  (`Pipeline.StoreMirrorsTable`).
- The backoff doubles a signed 64-bit number of nanoseconds before comparing it with the ceiling. The delay is
  the intended one for every number of failures if and only if the ceiling is unset, or at least a second and below
  2^62 ns (`Poller.DelayIntendedIff`): the first delay is a second whatever the ceiling, and from 2^62 ns on doubling
  overflows. The poller leaves the ceiling unset, which means thirty seconds.

Where documentation and code differ the model follows the code: the design lets a cell become primary only after it
is ready, `Promote` also takes it from creating to primary; the design skips clusters without a cell when the table
arrives, the code keeps them; the design drains until the flow-control queue is empty as well, the code waits for the
counter alone; the comment on `Track` speaks of a retry on the new engine, `Process` returns an error.

## Model

| member | source | states |
|---|---|---|
| Teardown.Lifecycle | pkg/cell/manager.go:155-232 | in every reachable registry a live cell is registered, open, and primary in role exactly when primary in state; a registered draining cell always has a teardown pending; the drain channel never exceeds 64; a cell leaves the registry only closed |
| Teardown.OneWay | pkg/cell/manager.go:219-300 | along any continuation draining, ready, closed and unregistered are permanent, so no stale teardown closes or unregisters a cell that stays alive |
| Teardown.ReadyMeans | pkg/cell/engine.go:63-88 | exactly when a cell becomes ready: all discovery plugins of one of its engines are ready, or an engine without any is swapped in |
| Teardown.ReadyWhenSynced | pkg/cell/cell.go:83-92 | readiness reaches the owning cell, ends its creating state and touches no other cell |
| Teardown.NoEngineForgotten | pkg/cell/manager.go:204-300 | every engine ever installed is the current one of a live cell, has a drain or a teardown pending, or is cancelled |
| Teardown.LiveEngineCancelledIffDemoted | pkg/cell/manager.go:204-216 | the current engine of a live cell is never cancelled unless the cell was demoted since it was installed, and is then once no drain of it is pending |
| Teardown.DemotedMeans | pkg/cell/manager.go:173-216 | the mark used there is set by every demotion of the live cell whose current engine it is, called directly or through Ensure, and by nothing else |
| Teardown.DemotedThenPromoted | pkg/cell/manager.go:243-247 | a run after which a live primary cell has a cancelled current engine and a further apply of its configuration is skipped |
| Teardown.DroppedStillPrimary | pkg/cell/manager.go:219-232 | after a drop some continuation admits new requests on the cell if and only if it was a primary with an engine and the drain channel had room; a request already routed to it passes the checks in every continuation if and only if it was a primary with an engine |
| Teardown.BackgroundShrinks | pkg/cell/manager.go:280-300 | every move of a drain worker strictly lowers the work that is pending, and nothing in the background raises it |
| Teardown.SomeWorkerMoves | pkg/cell/manager.go:280-289 | while a drain is pending some worker can move |
| Teardown.TeardownTerminates | pkg/cell/manager.go:269-300 | with no new control call, under any scheduling, worker moves are bounded, live cells stay untouched, and when no worker can move no draining cell is registered |
| RegistrySteps.FreshEngineStarts | pkg/cell/manager.go:250-262 | the engine an apply brings in is current, not cancelled, and starting exactly when it has discovery plugins; when they are ready the cell is ready and past creating, without any it is so at once |
| RegistrySteps.StartingUntil | pkg/cell/engine.go:78-87 | an engine stops starting exactly when its discovery is ready or the end of its own or its cell's context is noticed |
| RegistrySteps.FreshCell | pkg/cell/manager.go:156-187 | Ensure on a free key adds exactly one cell under it, with the role, creating unless primary, neither ready nor closed, without an engine; a failed creation changes nothing |
| RegistrySteps.StateFollows | pkg/cell/manager.go:192-216 | after every step a live cell is primary by its role alone, and has left creating only by becoming ready or primary |
| RegistrySteps.ChannelInOrder | pkg/cell/manager.go:269-278 | control calls append at most one entry to the drain channel; with fewer than 64 waiting they cancel no engine themselves, with 64 they append none |
| RegistrySteps.FirstInFirstOut | pkg/cell/manager.go:280-289 | whatever happens in the background, entries leave the channel from the front only |
| RegistryTheorems.RunKeeps | pkg/cell/manager.go:155-300 | the invariant behind these holds in every reachable registry |
| RegistryTheorems.RunGrows | pkg/cell/manager.go:155-300 | along every run cells and engines keep key, owner and version, and draining, ready, closed and cancelled never revert |
| RegistryTheorems.SlotEnsure | pkg/cell/manager.go:155-189 | Ensure gives the role to a live or newly created cell under exactly that key, keeps its configuration, leaves a dying cell dying, and changes no other key |
| RegistryTheorems.SlotPromote | pkg/cell/manager.go:192-201 | promotion changes the role of that live cell and nothing else a key leads to |
| RegistryTheorems.SlotDemote | pkg/cell/manager.go:204-216 | demotion changes the role of that live cell and nothing else, even when the drain runs synchronously |
| RegistryTheorems.SlotDrop | pkg/cell/manager.go:219-232 | after Drop the key leads to no live cell, and every other key to what it led to |
| RegistryTheorems.SlotApply | pkg/cell/manager.go:237-267 | a configuration reaches exactly live cells, changes the hash of that one only when swapped, and no other key |
| RegistryTheorems.SlotBackgroundRun | pkg/cell/manager.go:280-300 | any number of worker and start steps only frees dying keys: a leftover teardown never unregisters a successor |
| RegistryTheorems.FailuresLeaveNoTrace | pkg/cell/manager.go:250-254 | every run of the registry ends in the same registry, engines and hashes included, as the run without its failing compiles |
| EngineTrace.InstallsDistinctCompilable | pkg/cell/manager.go:237-267 | the engines a live cell is given over any run are those of the compilable configurations sent to it, consecutive repeats removed, and its hash is that of the last one |
| EngineTrace.HashMatchesEngine | pkg/cell/manager.go:243-257 | the recorded hash is always that of the configuration of the current engine |
| EngineTrace.StepInstalls | pkg/cell/manager.go:243-257 | exactly which step installs an engine on a cell that stays alive, and what its hash is then |
| ManagerClasses.Manager.constructor | pkg/cell/manager.go:84-117 | an empty registry with the requested drain workers, four when none are requested |
| ManagerClasses.Manager.List | pkg/cell/manager.go:144-151 | every registered cell exactly once, under some iteration order |
| ManagerClasses.Manager.Ensure | pkg/cell/manager.go:155-189 | lookup, creation and role switch do to the whole registry what the specification says; the error return is exactly a failed creation on a free key |
| ManagerClasses.Manager.Promote | pkg/cell/manager.go:192-201 | refines the specified promotion; a missing or draining cell is left alone |
| ManagerClasses.Manager.Demote | pkg/cell/manager.go:204-216 | refines the specified demotion, the drain of the current engine included |
| ManagerClasses.Manager.Drop | pkg/cell/manager.go:219-232 | refines the specified drop, with and without an engine |
| ManagerClasses.Manager.ApplyConfig | pkg/cell/manager.go:237-267 | refines the specified apply and returns its verdict: not assigned, unchanged, compile failed or swapped |
| ManagerClasses.Manager.Start | pkg/cell/engine.go:63-88 | an engine without discovery plugins makes its cell ready at once; any other is starting and leaves exactly one goroutine behind, as every engine that is starting has one |
| ManagerClasses.Manager.StartEnds | pkg/cell/engine.go:78-87 | that goroutine marks the cell ready or gives up because a context ended |
| ManagerClasses.Manager.ScheduleDrain | pkg/cell/manager.go:269-278 | a drain is enqueued at the end of the channel or, when that is full, done on the spot |
| ManagerClasses.Manager.Drain | pkg/cell/manager.go:291-300 | cancel, and for a teardown close and unregister that very cell |
| ManagerClasses.Manager.CompareAndDelete | pkg/cell/manager.go:295-298 | only the cell itself is unregistered, never another one under its key |
| ManagerClasses.Manager.WorkerAdvance | pkg/cell/manager.go:280-300 | a drain worker's effects one at a time do what the specification says at each point |
| ManagerClasses.Cell.MarkReady | pkg/cell/cell.go:83-92 | ready closes once, only a creating cell changes its state, nothing else changes |
| ManagerClasses.Cell.Track | pkg/cell/cell.go:97-104 | succeeds exactly on the current engine and then leaves the counter one higher, otherwise as it was |
| EppData.EppDataWatcher.Resolve | pkg/poller/epp_data.go:81-93 | under any iteration order: primary exactly where the entry names this instance as primary, standby exactly where it names it as standby and not as primary, nothing else |
| EppData.EppDataWatcher.Handle | pkg/poller/epp_data.go:78-124 | under every iteration order and with drains going on: a clean return has performed a round that goes through, ends in the registry of that run, reconciled, with its verdicts; an error return has only made Ensure calls up to the one that failed, dropped no cell and applied no configuration |
| Rounds.CleanRoundReconciles | pkg/poller/epp_data.go:101-123 | every round that goes through, from any registry, leaves each key as its assignment says, and its verdicts are those read off the registry before it |
| Rounds.AbortedRoundKeeps | pkg/poller/epp_data.go:101-105 | a round that returns an error keeps every live cell and its configuration, and changes roles only to the assigned ones |
| Reconcile.LiveAreMine | pkg/poller/epp_data.go:101-111 | after a round that goes through the live cells are the clusters resolved to this instance with their roles, except exactly those whose Ensure call met a draining cell, which was there before the round |
| Reconcile.AssignmentDecides | pkg/poller/epp_data.go:129-137 | after a round that goes through, for each key whose Ensure met no draining cell: a live primary exactly when the entry's primary is this instance, a live standby exactly when its standby is and its primary is not, otherwise no live cell; none for a key that met one |
| Reconcile.AllWantedLiveIff | pkg/poller/epp_data.go:101-105 | every round that goes through leaves all wanted clusters a live cell if and only if none of them has a draining cell registered before it |
| Reconcile.WantedButNotLive | pkg/cell/manager.go:156-172 | a reachable registry and a round from it that goes through and leaves a wanted cluster without a live cell |
| Reconcile.OrderIndependent | pkg/poller/epp_data.go:101-123 | two rounds from one registry agree, whatever the map orders and the background, wherever no dying predecessor was met, verdicts included |
| Reconcile.RolesFollowSnapshot | pkg/poller/epp_data.go:78-124 | with no dying predecessor the outcome depends on the last snapshot alone |
| Reconcile.SecondRoundIsQuiet | pkg/poller/epp_data.go:113-122 | the same snapshot again compiles only clusters whose compile failed or whose cell was dying the first time |
| Reconcile.FailuresAsIfAbsent | pkg/poller/epp_data.go:113-122 | taking the failing compiles out of a round that goes through leaves a round over the configuration without those entries, which goes through, ends in the very same registry and gives the other entries the same verdicts |
| Reconcile.PrimaryIsNamed | pkg/poller/epp_data.go:129-137 | a live primary cell, then and after any background activity, is one the snapshot names this instance primary of |
| Reconcile.AtMostOnePrimary | pkg/poller/epp_data.go:78-137 | among instances with distinct ids whose last clean round handled the same snapshot at most one holds a live primary cell per cluster |
| Admission.AdmissionLinearizes | pkg/demux/server.go:117-130 | every request handed to an engine has an instant, its role check, when the cell was primary and that engine current, both at once |
| Admission.PointerAdvances | pkg/cell/manager.go:250-256 | the engine pointer never returns to an engine it has left |
| Admission.CountersExact | pkg/cell/cell.go:97-104 | in every reachable state an engine's counter equals the requests between Add and Done on it, those backing out or unwinding from a panic included |
| Admission.RepliesMatch | pkg/demux/server.go:117-138 | a finished request was told that the cell is draining exactly when no engine ever served it, a lost swap race included; otherwise its reply says whether its engine returned or panicked |
| Admission.SwapLeavesNobodyBehind | pkg/cell/engine.go:92-106 | when the drain of a replaced engine ends by its wait, no request is then or ever after served on that engine |
| Admission.ServedAgainIffCurrent | pkg/cell/engine.go:92-106 | an engine seen at zero can be served again if and only if it is still the current one |
| EnsureRace.SameCellForAll | pkg/cell/manager.go:155-172 | callers racing on one key return the same cell, which is the registered one and open |
| EnsureRace.SingleWinner | pkg/cell/manager.go:155-172 | when all are through exactly one created cell is registered and open, every other one is closed |
| EnsureRace.HeldKeyIsReused | pkg/cell/manager.go:155-157 | on a key that is held no caller creates or closes a cell, and every one that is through has the held one |
| ReadyRace.AgreesIffTimely | pkg/cell/cell.go:84-92 | the late store of markReady leaves role and state in agreement if and only if it comes at a harmless moment |
| ReadyRace.TimelyRunsAgree | pkg/cell/manager.go:192-232 | with timely stores, at the granularity of single loads and stores, role and state agree whenever no method is running and Drop is final |
| ReadyRace.StoresAfterCreating | pkg/cell/cell.go:88-90 | markReady comes to store only after its one look found the state creating |
| ReadyRace.UntimelyStores | pkg/cell/cell.go:88-90 | a primary falls back to standby, a dropped cell leaves draining, a promotion between its two looks misses its state |
| DemuxServer.Server.Process | pkg/demux/server.go:53-139 | each refusal in order, reaching no engine; a served request is handed, counted, to the current engine of the cell it is routed to and to no other, which reads the stream from its first message until it returns or panics part-way; on every path no counter stays raised |
| DemuxServer.Server.RefusalMeans | pkg/demux/server.go:64-122 | which request is refused for which reason, and served exactly when the pool it names, or the default, has a primary cell with an engine |
| DemuxServer.Server.HandOver | pkg/demux/server.go:124-138 | exactly on the current engine the request is counted before the engine is entered, with the counter one higher, and the count is taken back on return and while a panic unwinds |
| DemuxServer.BufferedStream.Recv | pkg/demux/server.go:174-180 | the buffered message first, then the stream, nothing lost or repeated |
| HubClasses.Hub.ReplaceAll | pkg/eppplugin/clustertable/hub.go:44-51 | the whole table and the version change together, the old channel is closed and a fresh open one takes its place |
| HubClasses.Hub.Snapshot | pkg/eppplugin/clustertable/hub.go:54-58 | the list of the cluster, empty when missing, with its version |
| HubClasses.Hub.WaitChange | pkg/eppplugin/clustertable/hub.go:61-78 | a stale waiter returns at once; a current one exactly at the first turn that publishes something, unless the context has ended and is noticed first; then it gives up with the version it came with; at most two looks |
| Broadcast.NoLostWakeup | pkg/eppplugin/clustertable/hub.go:61-78 | in every reachable state a blocked waiter holds the open channel exactly when its version is current, and can wake exactly when it is stale |
| Broadcast.ClosedExactlyOnce | pkg/eppplugin/clustertable/hub.go:44-51 | every channel but the current one has been closed exactly once, the current one never |
| Broadcast.AllWakeTogether | pkg/eppplugin/clustertable/hub.go:44-51 | one replacement enables every waiter at once |
| Broadcast.ReplicaMatchesHub | pkg/eppplugin/clustertable/discovery.go:97-107 | a loop parked in WaitChange is ready and has a store equal to its cluster's list of that version read as a last-wins map; at the hub's version, to the hub's list |
| Broadcast.Converges | pkg/eppplugin/clustertable/discovery.go:97-107 | once the hub stops changing a loop is parked in sync after at most five steps of its own, under any scheduling, and can go on until it is |
| DiscoveryClasses.Discovery.ContainsId | pkg/eppplugin/clustertable/discovery.go:136-143 | true exactly for ids of the list |
| DiscoveryClasses.Discovery.Apply | pkg/eppplugin/clustertable/discovery.go:111-134 | for every iteration order the notifier calls are a diff of the applied map and the list, and the applied map becomes the list read as a last-wins map |
| DiscoveryClasses.Discovery.Start | pkg/eppplugin/clustertable/discovery.go:97-107 | whatever is published while the loop applies and waits, the calls of all rounds build a store equal to the applied map; the loop goes on until the context ends, and is then in sync with the hub's last table unless the end is noticed before that change |
| Diff.DiffReaches | pkg/eppplugin/clustertable/discovery.go:111-134 | a store that obeys the events ends equal to the desired list read as a last-wins map |
| Diff.LastWinsAt | pkg/eppplugin/clustertable/discovery.go:124-133 | of the entries of a list that share an id the last one is the one in the map |
| Diff.DeletesFirst | pkg/eppplugin/clustertable/discovery.go:115-122 | every delete precedes every upsert, the ids are disjoint, the deleted ids are exactly those that disappeared, each once |
| Diff.OneEventPerChange | pkg/eppplugin/clustertable/discovery.go:117-133 | for a list without repeated ids exactly one event for each removed, new or changed id and none for any other |
| Diff.ReapplySilentIffConsistent | pkg/eppplugin/clustertable/discovery.go:124-133 | applying the list again is silent if and only if it repeats no id with different metadata |
| Poller.DelayIntended | pkg/poller/helpers.go:35-48 | after n failures in a row the delay is the smaller of 2^(n-1) seconds and the ceiling, thirty seconds when none is set, otherwise at least a second, as long as doubling does not overflow |
| Poller.DelayIntendedIff | pkg/poller/helpers.go:40-46 | the delay is that for every n if and only if the ceiling is unset, or at least a second and below 2^62 ns |
| Poller.Backoff.Next | pkg/poller/helpers.go:35-48 | one step of the backoff, signed 64-bit overflow included |
| Poller.Poller.Start | pkg/poller/poller.go:103-148 | over any rounds the stored version is that of the last one fetched and handled, the handler sees exactly the changed data, first sync closes exactly with a clean round, and every delay is the interval or the backoff of the failures in a row |
| Poller.HandedAt | pkg/poller/poller.go:133-141 | the handler is called once for each round that brought data, in order and with that data, whatever it answered |
| Poller.LastGoodIs | pkg/poller/poller.go:133-143 | the stored version is that of the last round the handler accepted, empty before the first |
| Poller.DelayIs | pkg/poller/poller.go:110-146 | no wait before the first round, the interval after a successful fetch, the smaller of 2^(n-1) s and 30 s after exactly n failures in a row |
| Poller.CleanRoundSyncs | pkg/innerapi/client.go:130-146 | against a server that says unchanged only to its current version, after one clean round the last data handed to the handler and accepted is the server's, and a failing round leaves it |
| Convert.ConvertClusterTable | pkg/poller/discovery.go:101-125 | cluster keys are preserved and each list is, under some order of the sub-clusters, the endpoints of their weighted backends in list order |
| Convert.ImageAt | pkg/poller/discovery.go:106-120 | one endpoint for each backend with a non-zero weight, in list order, and the one in its place describes it |
| Convert.EndpointDescribes | pkg/poller/discovery.go:110-118 | an endpoint is made of a backend exactly when its fields tell it: cluster, name, address without brackets, port in decimal, host and port joined, and the name or else that as id |
| Pipeline.ConversionConserves | pkg/poller/discovery.go:101-125 | each endpoint occurs in a cluster's list exactly as often as there are weighted backends in its sub-clusters that it describes |
| Convert.OrderKeepsEndpoints | pkg/poller/discovery.go:103-122 | the order of the sub-clusters does not change the multiset of endpoints |
| Convert.ConversionsAgree | pkg/poller/discovery.go:101-125 | any two conversions of a table give each cluster the same multiset of endpoints |
| Pipeline.ConvertedIsWanted | pkg/poller/discovery.go:105-120 | a converted list names exactly the cluster's backends with a non-zero weight |
| Convert.NamelessIdsCollideIffSame | pkg/poller/discovery.go:127-140 | two nameless backends share an id exactly when unwrapped address and port are the same |
| Convert.IdsCollideIff | pkg/poller/discovery.go:127-132 | when two backends of a cluster get one id: named ones for equal names, nameless ones for equal unwrapped address and port, a mixed pair when the name spells host and port |
| Convert.Handle | pkg/poller/discovery.go:84-96 | the whole table reaches the hub, clusters without a local cell included and counted |
| Pipeline.StoreMirrorsTable | pkg/poller/discovery.go:101-125 | from table to datastore: a loop parked at a converted table's version stores only weighted backends of its cluster, one for every id, and all of them if and only if no two clash |

The functions of `Registry` (`Ensure`, `Promote`, `Demote`, `Drop`, `ApplyConfig`, `WorkerTake`, `WorkerAdvance`, `StartEnds`) are the
specification the methods of `Manager` refine; what is proved of them is in the rows above.

## Left out

- The internals of compiling (pkg/cell/compile.go): a compile answers failure, or success with or without discovery plugins. What a compile that fails late leaves on the cell's data plane, a runtime configured once and for all (pkg/cell/compile.go:124-132), is not part of the registry, so the statements about failures speak of engines, hashes and registration only.
- More than one discovery plugin per engine: `start` waits for all of them, the model for one event that says they are all ready or the context ended.
- Scheduling, scorers, flow control, datastore and metric collection: libraries outside this repository; a datastore is a map that obeys upsert and delete.
- Transport, JSON and authentication of the API client: its answers are parameters of the poll rounds, and a version the server serves is taken to be non-empty.
- gRPC, TLS, health, flags, plugin registration, pprof, metrics, logs, the request id written back into the headers, and the peer id, which is only logged.
- Timeouts and delays as time: a drain may end its wait by timeout at any moment, a delay is a number.
- The uint64 wrap-around of the hub version, and the reuse rule of WaitGroup.
- SHA-256 is taken to be injective, equality of endpoint metadata to be plain equality, and metadata is the five fields the conversion sets.
- Reading configuration from local files, where every round counts as changed with an empty version.
- Several engine generations feeding one datastore: replica statements are per generation, from an empty store.
- The end of the process: drain workers leaving on their context, `WaitReady`.
- Registry.Step: each `Manager` method and each `markReady` is one atomic step of a registry run; ReadyRace and EnsureRace say what finer steps change, and Admission takes the pointer swap, the hash store and the scheduling apart.
- Admission.Next: one cell; whether the drain channel has room is left open at each scheduling, and role and state changes are reduced to the role, which is all admission reads.
- DemuxServer.Server.Process: one request with nobody in between, so its Track always finds the engine it loaded; the interleavings are in Admission.
- DiscoveryClasses.Discovery.Start: what the poller publishes comes as a sequence of turns, one while a snapshot is applied and any number while the loop waits; the context ends after the last. Broadcast has the interleavings.
- HubClasses.Hub.WaitChange: the same turns stand for what others publish while it is blocked; that it can wake whenever the version has changed, at any interleaving, is Broadcast.NoLostWakeup.
- Poller.Poller.Start: called once on a new poller, over the rounds met before the context ends.
- The iteration order of a map is an arbitrary choice at each turn of a loop.
