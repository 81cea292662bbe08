# A model of the agent gateway

The gateway lets HTTP clients chat with agents that connect to it over long-lived gRPC streams. Several
gateways share one Redis, in which agents, sessions and the gateways themselves are leased entries with
indexes beside them. This project models that system in Dafny and proves what it keeps.

## What is modelled

**The store** (`Keys`, `Decimal`, `RedisModel`). A Redis server with a clock in milliseconds: string keys hold
hashes or sets, with an optional deadline. `HSet`, `SAdd` and `HIncrBy` keep a deadline, a set that loses its
last member is gone, and an expired entry is dropped when the clock reaches its deadline. Class `Redis` runs each
command on the rendered string key and keeps a ghost view of the same store under structured keys; `Keys` proves
that the rendering is injective, so every later statement about the structured store is one about the strings.

**The leased registry** (`Registry`, `AgentPool`, `RegistryProperties`, `Routing`, `Balance`). `Registry` holds
what each operation does to the store as a function, and the invariant: a live agent hash can be parsed, its
deadline is its last beat plus the lease, and it is in its type index and in the index of the gateway it names,
which is leased at least as long. Class `Pool` runs the operations command by command and is proved against
those functions. Routing takes the least loaded online agent of a listing; `Balance` follows the session counters
over runs of requests.

**Sessions and addresses** (`Sessions`, `SessionManager`, `Gateways`, `GatewayForwarder`). The same
two layers for the session store with its reverse index, and for the gateways' advertised addresses.

**Runs** (`Runs`, `RunProperties`, `Lease`, `Evictions`). All operations of all gateways interleaved with time: the
invariants hold in every reachable store. `Lease` adds the connections: each registers, is published in its gateway's
table, beats while it serves, leaves the table and unregisters. A beat that finds no hash and the registration it leads
to are two steps. `Evictions` follows who takes what from whom when leases may lapse.

**The multiplexer** (`Proto`, `Mux`, `AgentServer`, `Callers`, `Relays`, `Forwarding`). `Mux` is a transition
system whose steps are the critical sections and channel operations of callers, send loops and receive loops; a
push into a full channel is a step that is not enabled. Class `GRPCServer` has a method for each thing the server
does, proved to take exactly the step, or the run of steps, it stands for. The loops that wait - the send loop, the
loop of a forwarded request, the wait of a chat request - run interleaved with everybody else, as a list of turns
says, and each is proved to be a path through the transition system (`Mux.Path`). `Relays` puts the two relay loops
of a forwarded request behind it.

**Answers** (`OpenAI`, `Sse`, `Answers`, `Chat`, `EndToEnd`, `Backoff`). The two folds of a response sequence, the
event stream a client reads back, the chat handler over the store and the multiplexer, and the reconnect loop of the
agent SDK.

**All together** (`Deployment`). The connections of `Lease` and a multiplexer with its relays for each gateway, as one
state: publishing, hanging up and leaving the table are steps of both.

## What the model takes as given

- Each `Pool`, `Manager` and `Forwarder` method is one step of a run, with others between the steps of one caller: between the two
  calls of a beat (`Lease`, `Evictions`), and between routing and counting (`Balance.OverlappingRequestsStayClose`; the results on
  `Balance.Dispatch` are those for requests that do not overlap). The windows between a check and the write that follows it
  (internal/agent/pool.go:62-91, 174-176, 191-210, 220-228) are not interleaved.
- All gateways use one clock and one heartbeat timeout, and no Redis command fails but a count on a value that cannot be
  counted. A command on a key of the wrong kind cannot happen: the key families are disjoint, and each holds one kind (`RedisModel.WellKinded`).
- Leases are whole milliseconds; any rounding of a TTL by the Redis client has already been applied to the value given.
- Over runs, agent types hold no colon and gateways have a name. Both are exact: `Keys.AgentKeyCollides` and
  `RegistryProperties.BeatRenewsIndexExactly` say what happens otherwise. The methods of `Pool` take any type.
- An agent is a type and an id. Nothing makes ids unique across types, and lease exclusivity does not need it. A gateway's table
  and every lookup in it know the id alone, though, so what goes through the tables has its own condition: that a slot was free
  when it was published in, for the tables to name every connection that serves (`Lease.TablesPointExactly`), and that no
  gateway had an entry under the id, for every request to reach the agent it is for (`Lease.RequestsReachAgentsExactly`).
  Ids that are unique across types meet both (`Lease.UniqueIDsFreeSlots`, `Lease.UniqueIDsAreFree`).
- Request ids are fresh, and an agent answers only ids it was sent. gRPC streams are FIFO and may be cut.
- The JSON encoder is invertible, writes no line end, and begins an object with a brace (`Answers.JsonCodec`).
- Nothing is claimed about progress or total time: a receive loop can stay blocked on an abandoned full buffer (`Mux.FullBufferHoldsUp`), and the response
  timer restarts with every response.

## What turned out not to hold

- Lease exclusivity needs more than renewal in time and gateways cleared only when stopped. A stopped gateway's index can still
  list an agent that has moved elsewhere, and clearing it evicts the agent from its new gateway (`Evictions.StaleIndexEvictsMovedAgent`; exactly
  when, `Evictions.ClearingTakesExactly` and `Evictions.ClearingEvictsExactly`). The guard used in `Lease` is that the index lists no connected agent.
- A request can go to an agent of another type. Routing picks an agent by type and id, but the handler asks its own table for the
  id alone, so an agent of another type under the same id, connected to the gateway where the request comes in, gets the request
  and its answer is returned; every slot was free, every lease is kept, and the hash of the agent asked for names its gateway
  (`Lease.SharedIDTakesRequests`). A request reaches the very agent it is for exactly if the entry it is sent by is of that
  agent's type, which could be tested before sending: `Lease.RequestReachesExactly` says so for every state of every run,
  `Mux.LookupDecides` and `Relays.LookupDecides` for the lookup of a request within a run of the multiplexer, and
  `Chat.ChatHandler.Handle` and `Forwarding.ForwardRequest` for the call they make.
- An id shared by two types on one gateway takes the first one's table entry (`Lease.SharedIDTakesSlot`).
- A beat asks for no owner. A connection renews the lease of another one exactly if that one registered the agent after it
  (`Evictions.BeatRenewsAnotherExactly`), and goes on doing so when that one's gateway has crashed: the hash stays live and
  names a gateway that is gone (`Evictions.BeatKeepsDeadGateway`).
- Nor does the registration after a missed beat, which tests for no hash as the first one does. If the agent has connected
  to another gateway since the beat was missed, the old connection takes it from a new one whose lease never lapsed
  (`Evictions.LateRenewTakes`; exactly when, `Evictions.RenewTakesExactly`).
- Neither unregistering nor leaving the table asks for the owner. A connection whose lease lapsed, and whose agent
  connected again before it left, takes the new connection's registration with it; on the same gateway it takes the new
  connection's table entry too (`Evictions.ReconnectIsEvicted`, `Evictions.LapsedConnectionEvictsSuccessor`). In any run a
  disconnect takes a registration from another connection exactly if that one registered the agent since it did and still
  has it, and a table entry exactly if another connection was published in its slot since and is still there
  (`Evictions.DisconnectEvictsExactly`). For the registration, either its own lease has lapsed, or its live hash was
  written over by a connection that had missed a beat before it registered. That only lapsed connections evict holds all
  through a run exactly if no registration after a missed beat meets a connection that holds the agent by then
  (`Evictions.LapseExplainsExactly`). It is enough that none meets a live hash, which `Register` would test; without
  crashes that is exact as well (`Evictions.LapseExplainsByTest`).
- A keepalive that comes after a gateway's entry expired makes an entry without an address, although the comment on it says it keeps the
  registration alive (`RunProperties.KeepaliveKnowsExactly`, `RunProperties.LapsedAddressStaysLost`).
- The streamed answer lacks the final response's own content, so the two folds agree exactly if that is empty (`OpenAI.FoldsAgree`).
- A session id an agent reports after the first chunk was written never reaches a streaming client
  (`Answers.LateSessionIsLost`; exactly when one does, `Answers.SessionArrivesExactly`).
- The closed form of the reconnect waits fails where doubling overflows, for a negative first delay, and for most negative
  caps. For every pair of settings `Backoff.ClosedFormExactly` gives the exact test, `Backoff.KeepsForm`; for
  settings that are not negative it is that the first delay is zero or both are below half the range of a duration.
- `UnregisterByGateway` and `DecrActiveSessions` have no caller in the gateway itself: counters only grow between registrations.

## Model

| member | source | states |
|---|---|---|
| `Keys.FamiliesDisjoint` | internal/session/manager.go:53-59 | keys of two of the six families never share a string |
| `Keys.RenderInjective` | internal/agent/pool.go:47-57 | no two keys share a string, for colon-free agent types |
| `Keys.AgentKeyCollides` | internal/agent/pool.go:47-49 | an agent key shares its string with another agent's exactly when its type holds a colon |
| `Keys.Home` | internal/agent/pool.go:47-49 | the colon-free key an agent of any type really is stored under; its own exactly if its type holds no colon |
| `Keys.SplitCompose` | internal/session/manager.go:29-39 | parsing a composed id gives back the parts exactly when the type holds no colon |
| `Keys.ComposeSplit` | internal/session/manager.go:33-39 | composing the parsed parts gives back the id, for every id with a colon; parsing fails on every other |
| `Keys.SplitAgentMember` | internal/agent/pool.go:285-292 | the scan splits an index member at its first colon, and inverts composing it |
| `Decimal.ParseFormat` | internal/agent/pool.go:294-319 | a stored integer reads back as itself exactly when it fits 64 bits |
| `RedisModel.WithRenders` | internal/agent/pool.go:47-57 | a command on a rendered key is the command on the structured key and touches no other key |
| `AgentPool.Pool.Register` | internal/agent/pool.go:59-96 | refused exactly when the agent's hash is live; otherwise the whole new store: hash, both indexes, hash and gateway index leased for twice the heartbeat timeout; for any type, on the hash its key string names |
| `AgentPool.Pool.ReRegister` | internal/agent/pool.go:98-127 | the same new store and leases, whether or not the hash is live; for any type, on the hash its key string names |
| `AgentPool.Pool.Unregister` | internal/agent/pool.go:129-150 | hash and memberships go, the gateway index being the one the stored hash names; for any type, on the hash its key string names |
| `AgentPool.Pool.Get` | internal/agent/pool.go:152-162 | the parsed hash, or not found exactly when there is none; for any type, on the hash its key string names |
| `AgentPool.Pool.ListByType` | internal/agent/pool.go:164-186 | of any type: each indexed agent with a live hash once, stale ids pruned, early end only at a hash that cannot be parsed |
| `AgentPool.Pool.UpdateHeartbeat` | internal/agent/pool.go:188-215 | renews hash and the live index of the gateway it names for twice the heartbeat timeout, or reports not found and changes nothing; for any type, on the hash its key string names |
| `AgentPool.Pool.IncrActiveSessions` | internal/agent/pool.go:217-233 | adds one to the counter of a live agent; reports not found, or that counting failed on an unreadable counter or at the end of 64 bits, and then changes nothing; for any type, on the hash its key string names |
| `AgentPool.Pool.DecrActiveSessions` | internal/agent/pool.go:235-251 | takes one from the counter of a live agent; reports not found, or that counting failed on an unreadable counter or at the end of 64 bits, and then changes nothing; for any type, on the hash its key string names |
| `AgentPool.Pool.UnregisterByGateway` | internal/agent/pool.go:253-283 | the store without any agent the index listed and without the index; counts the members that name an agent |
| `AgentPool.RegistrationTransaction` | internal/agent/pool.go:82-91 | the five commands of a registration in order leave the one store specified |
| `AgentPool.DropOneMember` | internal/agent/pool.go:266-277 | the loop of UnregisterByGateway: one member's transaction extends the set of members dropped by that member |
| `Registry.PutAgentKeepsInv` | internal/agent/pool.go:82-91 | registration keeps the registry invariant: parseable hashes, complete indexes, gateway index leased longest |
| `Registry.UnregisterKeepsInv` | internal/agent/pool.go:129-150 | unregistering keeps it |
| `Registry.HeartbeatKeepsInv` | internal/agent/pool.go:188-215 | a beat keeps it, whatever other agents share the gateway index |
| `Registry.AddSessionsKeepsInv` | internal/agent/pool.go:217-251 | counting keeps it, at the ends of the 64-bit range too |
| `Registry.DropIDsKeepsInv` | internal/agent/pool.go:174-176 | pruning stale ids from a type index keeps it |
| `Registry.UnregisterByGatewayKeepsInv` | internal/agent/pool.go:253-283 | clearing a gateway keeps it, also for agents that have moved |
| `Registry.AdvanceKeepsInv` | internal/agent/pool.go:70-89 | expiry keeps it: no gateway index lapses before an agent listed in it |
| `RegistryProperties.LookupReads` | internal/agent/pool.go:294-319 | every live hash parses, under its own type and id |
| `RegistryProperties.RegisteredReads` | internal/agent/pool.go:59-96 | a registered agent reads back as given, both times now and no sessions; every other agent reads as before |
| `RegistryProperties.BeatReads` | internal/agent/pool.go:188-215 | a beat changes the heartbeat that is read and nothing else of any agent |
| `RegistryProperties.CountReads` | internal/agent/pool.go:217-251 | counting n adds n to the counter that is read, unless the sum leaves 64 bits, and nothing else |
| `RegistryProperties.CountFailsAtTheEnd` | internal/agent/pool.go:228-230 | while the registry is in order, counting fails exactly if the sum leaves 64 bits |
| `RegistryProperties.UnregisteredIsGone` | internal/agent/pool.go:129-150 | an unregistered agent is not found, nor listed in its type's index or in that of the gateway it named; every other agent reads as before |
| `RegistryProperties.ListAgreesWithScan` | internal/agent/pool.go:164-186 | listing through the index is a full scan of the store and leaves exactly the live ids in the index |
| `RegistryProperties.GatewayIndexOutlivesAgents` | internal/agent/pool.go:82-89 | each live agent is in the index of the gateway it names, whose deadline is no earlier than the hash's |
| `RegistryProperties.UnregisterByGatewayComplete` | internal/agent/pool.go:253-283 | no live agent on that gateway remains, every member read is counted, agents not listed are untouched |
| `RegistryProperties.LookupIsFresh` | internal/agent/pool.go:188-215 | the stored heartbeat is the deadline less the lease, to the second, so it is never older than lease plus one second |
| `RegistryProperties.PutAgentSparesOthers` | internal/agent/pool.go:82-91 | registering one agent changes no other agent's hash nor its membership in any index |
| `RegistryProperties.UnregisterSparesOthers` | internal/agent/pool.go:129-150 | nor does unregistering one |
| `RegistryProperties.HeartbeatSparesOthers` | internal/agent/pool.go:188-215 | nor does a beat |
| `RegistryProperties.AddSessionsSparesOthers` | internal/agent/pool.go:217-251 | nor does counting a session |
| `RegistryProperties.ColonTypesInterfere` | internal/agent/pool.go:47-49 | a concrete pair of agents, one type with a colon, that share hash and index member |
| `RegistryProperties.UnnamedGatewayIndexLapses` | internal/agent/pool.go:206-208 | for an unnamed gateway, one beat is enough for the agent to outlive its gateway index |
| `RegistryProperties.BeatRenewsIndexExactly` | internal/agent/pool.go:206-208 | after a beat the index is leased as long as the hash exactly if the gateway has a name or the index already was |
| `SessionManager.Manager.CreateWithID` | internal/session/manager.go:65-95 | the whole new store and the returned info: hash under the composite id, lease, member of the agent's index |
| `SessionManager.Manager.Get` | internal/session/manager.go:97-107 | the parsed session, or not found exactly when there is none |
| `SessionManager.Manager.Touch` | internal/session/manager.go:109-131 | renews the session, or reports not found and changes nothing |
| `SessionManager.Manager.Delete` | internal/session/manager.go:133-148 | removes the session and its membership, or reports not found and changes nothing |
| `SessionManager.Manager.DeleteByAgent` | internal/session/manager.go:150-178 | the loop removes every session its index lists, then the index |
| `Sessions.CreateKeepsInv` | internal/session/manager.go:65-95 | creating or rebinding a session keeps the reverse index complete and the type in the hash equal to the one in the key |
| `Sessions.TouchKeepsInv` | internal/session/manager.go:109-131 | touching keeps the session invariant |
| `Sessions.DeleteKeepsInv` | internal/session/manager.go:133-148 | deleting keeps it, though indexes of earlier agents may still list the id |
| `Sessions.DeleteByAgentKeepsInv` | internal/session/manager.go:150-178 | deleting by agent keeps it |
| `Sessions.AdvanceKeepsInv` | internal/session/manager.go:78-89 | expiry keeps it |
| `Sessions.CreatedReads` | internal/session/manager.go:65-95 | a created session reads back as given, over any earlier binding; every other session reads as before |
| `Sessions.TouchedReads` | internal/session/manager.go:109-131 | touching changes the last activity that is read and nothing else of any session |
| `Sessions.DeletedReads` | internal/session/manager.go:133-148 | a deleted session is not found nor in its agent's index; every other session reads as before |
| `Sessions.DeleteByAgentComplete` | internal/session/manager.go:150-178 | no live session of the agent remains, its index is gone, and nothing the index did not list is removed |
| `Sessions.HeaderRoundTrip` | internal/session/manager.go:29-39 | the id of a live session is rebuilt from its stored type and the raw id cut from it: the client gets its header back |
| `GatewayForwarder.Forwarder.RegisterInstance` | internal/agent/forwarder.go:56-69 | the gateway's entry: found under its address, leased for the ttl |
| `GatewayForwarder.Forwarder.RefreshKeepalive` | internal/agent/forwarder.go:73-81 | renews the entry, or makes one without an address |
| `GatewayForwarder.Forwarder.LookupInstance` | internal/agent/forwarder.go:86-95 | the advertised address, or not found exactly when the entry has none |
| `GatewayForwarder.Forwarder.UnregisterInstance` | internal/agent/forwarder.go:98-100 | the entry is gone |
| `Runs.Footprint` | internal/session/manager.go:53-59 | no operation but time reaches a key of another family: registry, sessions and addresses do not interfere |
| `Runs.StepKeepsInv` | internal/agent/pool.go:59-283 | every operation of every component keeps registry and session invariants together |
| `Runs.RunKeepsInv` | internal/agent/pool.go:59-283 | so they hold in every reachable store, over any interleaving of operations and time |
| `RunProperties.LeaseContinues` | internal/agent/pool.go:188-215 | an agent that beats within its lease keeps gateway, status and connection time through any run without a re-registration |
| `RunProperties.BeatingAgentStaysFound` | internal/agent/pool.go:59-96 | an agent registered in a pool whose beats are less than two heartbeat timeouts apart is found all through a run, with its gateway and status |
| `RunProperties.SilentAgentLapses` | internal/agent/pool.go:69-86 | one that nobody registers or beats for is not found two heartbeat timeouts after it registered, whatever else happens |
| `RunProperties.AffinityHolds` | internal/session/manager.go:65-131 | a session stays bound to its agent through any run that uses it in time and neither deletes nor rebinds it |
| `RunProperties.InstanceReads` | internal/agent/forwarder.go:56-100 | a registered gateway is found under its address, an unregistered one is not, others are untouched |
| `RunProperties.AddressIsAdvertised` | internal/agent/forwarder.go:56-95 | over any run a gateway is found only under the address it registered |
| `RunProperties.InstanceIsLeased` | internal/agent/forwarder.go:56-69 | a registration leases the entry for the ttl |
| `RunProperties.SilentGatewayIsForgotten` | internal/agent/forwarder.go:56-95 | over any run, a gateway that registered and neither registers nor refreshes for the ttl is not found |
| `RunProperties.RefreshedGatewayStaysFound` | internal/agent/forwarder.go:71-95 | one that refreshes within the ttl, and is not unregistered, stays found under its address |
| `RunProperties.LapsedAddressStaysLost` | internal/agent/forwarder.go:71-81 | a gateway whose entry lapsed is not found again until it registers, whatever it refreshes |
| `RunProperties.KeepaliveKnowsExactly` | internal/agent/forwarder.go:71-81 | a keepalive changes no lookup, and always leases the entry |
| `Routing.Router.Route` | internal/router/router.go:22-43 | an agent whose hash says online, with the fewest sessions of a full scan, with a fresh heartbeat, or none exactly if no live agent is online |
| `Routing.ColonTypeHasNone` | internal/agent/pool.go:51-53 | while the registry is in order there is no index and no agent for a type with a colon |
| `Routing.BestIsFresh` | internal/router/router.go:22-43 | no agent that may be chosen has a heartbeat older than the lease plus one second |
| `Balance.SpreadBounded` | internal/router/router.go:28-36 | choosing a least loaded agent never widens the spread beyond max(1, d) |
| `Balance.RebalancedAfter` | internal/router/router.go:28-36 | k counters with spread d are within one after (k-1)*(d-1) choices, whichever of equals is taken |
| `Balance.EvenFromZero` | internal/router/router.go:28-36 | from zero, n choices over k counters leave each at n/k rounded down or up, and the sum n |
| `Balance.DispatchesPick` | internal/handler/chat.go:116-126 | in the store, route-and-count requests are such choices on the online agents' counters, with beats, ticks within the leases, session and other operations between them |
| `Balance.RoutingRebalances` | internal/handler/chat.go:116-126 | the spread bound and the convergence bound for runs of requests on the store, amid beats, time within the leases and all else that leaves these agents alone |
| `Balance.FreshAgentsShareEvenly` | internal/handler/chat.go:116-126 | n requests over k fresh agents are shared evenly, in any iteration order of the index, amid the same |
| `Balance.OverlapBounded` | internal/handler/chat.go:116-126 | on counters alone: with at most m requests between choosing and counting, the spread stays within max(d, m), and is at most m after (k-1)*d choices |
| `Balance.OverlapIsTight` | internal/handler/chat.go:116-126 | m requests that choose before any is counted leave two idle agents m apart |
| `Balance.OverlapsMove` | internal/handler/chat.go:116-126 | in the store, listing and counting as two steps amid quiet operations are such moves on the online agents' counters |
| `Balance.OverlappingRequestsStayClose` | internal/handler/chat.go:116-126 | both bounds for overlapping requests on the store, amid all that leaves these agents alone |
| `Lease.WorldStepKeepsInv` | internal/agent/grpc_server.go:58-124 | every step of every connection, gateway and store operation keeps the lease invariant, under renewal in time |
| `Lease.LeaseIsExclusive` | internal/agent/grpc_server.go:76-117 | in every reachable state at most one connection per agent system-wide, its hash live and naming its gateway; no id need be unique |
| `Lease.TablesPointExactly` | internal/agent/grpc_server.go:90-108 | the tables name every connection that serves, all through any run, whatever its leases do, exactly if each slot was free when it was published in |
| `Lease.UniqueIDsFreeSlots` | internal/agent/grpc_server.go:90-92 | ids unique across types free the slots |
| `Lease.SharedIDTakesSlot` | internal/agent/grpc_server.go:90-92 | an agent of another type under the same id takes a serving connection's entry, no lease run out |
| `Lease.RequestReachesExactly` | internal/handler/chat.go:147-162 | in every state of every run, a request at any gateway reaches a connection of the agent it is for, in type and id, exactly if the entry it is sent by is of that type |
| `Lease.RequestsReachAgentsExactly` | internal/handler/chat.go:147-162 | all requests reach the very agents they are for, from every gateway and through a whole run, exactly if no gateway had an entry under an id whenever a connection was published |
| `Lease.UniqueIDsAreFree` | internal/agent/grpc_server.go:90-92 | ids unique across types meet that condition |
| `Lease.SharedIDTakesRequests` | internal/handler/chat.go:147-162 | from any state in order: an agent of another type under a serving agent's id, in a free slot on another gateway, gets the requests for it that come in there |
| `Lease.DisconnectSparesOthers` | internal/agent/grpc_server.go:106-117 | under the guards, leaving takes nothing from any other connection: hash, memberships, place in a table |
| `Evictions.LapsedConnectionEvictsSuccessor` | internal/agent/pool.go:129-150 | for any two gateways, the same one included: from an empty store, a lapsed connection removes its successor's registration |
| `Evictions.ReconnectIsEvicted` | internal/agent/grpc_server.go:106-114 | from any state where a connection's hash has lapsed: its agent connects again, on any gateway, and loses its registration when the old connection leaves, and its table entry too on the same gateway |
| `Evictions.DisconnectEvictsExactly` | internal/agent/grpc_server.go:106-114 | in any run, what a disconnect takes from another connection: its registration exactly if that one succeeded the leaver, which then has lapsed or had its live hash written over; its table entry exactly if published over |
| `Evictions.LeaveTakesExactly` | internal/agent/pool.go:129-150 | unregistering takes the hash of every connection with the same key that has one, and of no other |
| `Evictions.StepHistoryOk` | internal/agent/grpc_server.go:58-124 | any step keeps: a connection holds its agent live exactly if it has not lapsed nor been written over since it registered, and its hash then names its gateway; a hash live again after a missed beat is that of one who registered since; an entry is the last one published |
| `Evictions.BeatRenewsAnotherExactly` | internal/agent/grpc_server.go:163-166 | in any run, the heartbeat call of a beat renews another connection's lease exactly if that one registered the agent since; the beater then has lapsed or been written over, and this call leaves the hash with the gateway it names |
| `Evictions.BeatKeepsDeadGateway` | internal/agent/grpc_server.go:163-186 | a lapsed connection's beat keeps live a hash that names a gateway that has crashed |
| `Evictions.RenewTakesExactly` | internal/agent/grpc_server.go:167-177 | in any run, a registration after a missed beat takes the agent from another connection exactly if that one registered it since and has it, on another gateway; it never lapsed, registered after the miss, and could now evict the first by leaving |
| `Evictions.LateRenewTakes` | internal/agent/grpc_server.go:165-177 | such a run, from any state in order with a lapsed connection that serves: miss, connect elsewhere, publish, register again; then the new connection, never lapsed, evicts the old by leaving |
| `Evictions.LapseExplainsExactly` | internal/agent/pool.go:98-127 | all through a run only lapsed connections can evict by leaving, exactly if no registration after a missed beat meets a connection that holds the agent |
| `Evictions.LapseExplainsByTest` | internal/agent/pool.go:62-68 | for that it is enough that none meets a live hash, which Register tests before it writes; exact in runs without a crash |
| `Evictions.StaleIndexEvictsMovedAgent` | internal/agent/pool.go:253-283 | clearing the index of a stopped gateway can evict an agent from the gateway it moved to |
| `Evictions.ClearingTakesExactly` | internal/agent/pool.go:253-283 | clearing an index takes the hash of a connection, on whatever gateway, exactly if the index lists it |
| `Evictions.ClearingEvictsExactly` | internal/agent/pool.go:253-283 | it does exactly when the index lists a live agent that names another gateway |
| `Mux.StepKeepsInv` | internal/agent/grpc_server.go:126-251 | every critical section and channel operation keeps the multiplexer invariant |
| `Mux.ResponsesReachTheirCaller` | internal/agent/grpc_server.go:187-202 | in every interleaving, consumed ++ buffered ++ in hand is exactly what the one connection delivered for the request, and that connection bears the id asked for: at most 16 buffered, nothing lost, duplicated, reordered or crossed |
| `Mux.ConsumedIsAnswer` | internal/agent/grpc_server.go:187-202 | what a caller took is a prefix of its answer up to the first final response, and all of it once it took that |
| `Mux.RequestsAreConserved` | internal/agent/grpc_server.go:126-150 | accepted = sent ++ in hand ++ queue, the queue at most 64, and every response answers a request sent |
| `Mux.FailedSendChangesNoQueue` | internal/agent/grpc_server.go:224-239 | in every interleaving, a failing SendRequest has one of two reasons and leaves its request in no queue, no send loop's hand and on no stream |
| `Mux.SendRequestOutcome` | internal/agent/grpc_server.go:224-239 | it fails exactly if the agent is unknown or its queue holds 64; else the request is last in that queue and no other changes |
| `Mux.HandlersAreConserved` | internal/agent/grpc_server.go:241-251 | the handler table holds exactly the requests between register and unregister, so it is empty when none is in flight |
| `Mux.HandlersBelongToCallers` | internal/agent/grpc_server.go:241-251 | on any path a handler comes and goes by its own caller's steps only |
| `Mux.AskedAgent` | internal/agent/grpc_server.go:224-239 | a request queued on a connection is on one under the id it was addressed to |
| `Mux.LookupDecides` | internal/agent/grpc_server.go:224-239 | whatever happens after the lookup, a request that gets queued is at the agent asked for, in type and id, exactly if the entry found was of the type asked for |
| `Mux.FullBufferHoldsUp` | internal/agent/grpc_server.go:187-202 | in every reachable state a receive loop with a response in hand can push it exactly if the caller's buffer holds fewer than 16, and do nothing else before |
| `Mux.RequestCanBeAnswered` | internal/agent/grpc_server.go:126-251 | from every state where the agent's connection has nothing under way, a request can be queued, sent, answered and taken step by step |
| `AgentServer.GRPCServer.Publish` | internal/agent/grpc_server.go:83-92 | a new connection becomes the agent's, as the transition system says |
| `AgentServer.GRPCServer.Withdraw` | internal/agent/grpc_server.go:106-108 | the agent leaves the table |
| `AgentServer.GRPCServer.HasLocalAgent` | internal/agent/grpc_server.go:217-222 | whether a request looked up now would find a connection to send to, and that it bears this id |
| `AgentServer.GRPCServer.RegisterResponseHandler` | internal/agent/grpc_server.go:241-245 | takes the registering step |
| `AgentServer.GRPCServer.UnregisterResponseHandler` | internal/agent/grpc_server.go:247-251 | takes the unregistering step; exactly that id leaves the table |
| `AgentServer.GRPCServer.SendRequest` | internal/agent/grpc_server.go:224-239 | lookup and non-blocking offer: the outcome and the state each of the three ways |
| `AgentServer.GRPCServer.SendLoop` | internal/agent/grpc_server.go:126-150 | interleaved with everybody: requests go out in queue order, none skipped or repeated, also those accepted meanwhile; a failed send leaves its request in hand; it stops only on being told so once the connection is done, and then it does; left alone it drains the queue |
| `AgentServer.GRPCServer.RecvMessage` | internal/agent/grpc_server.go:152-160 | takes one response off the stream |
| `AgentServer.GRPCServer.LookupHandler` | internal/agent/grpc_server.go:187-202 | finds the request's own handler, or drops the response exactly if it has none |
| `AgentServer.GRPCServer.CallHandler` | internal/agent/grpc_server.go:194-196 | pushes into that caller's buffer only |
| `Callers.RegisterAndSend` | internal/agent/grpc_internal.go:45-55 | registers before it sends; queued last for that agent, or nowhere exactly if the agent is unknown or its queue full |
| `Callers.Leave` | internal/agent/grpc_internal.go:50 | the handler is gone on every way out, and nothing else is touched |
| `Relays.StepKeepsInv` | internal/agent/forwarder.go:122-137 | every step of the relays keeps: what passed ForwardRequest is what was taken there, in order, or a prefix once cut; nothing passes for a request refused there |
| `Relays.LookupDecides` | internal/agent/grpc_server.go:224-239 | within any run of multiplexer and relays, the one lookup of a queued request decides whether it is at the agent asked for |
| `Relays.ForwardingRefinesLocal` | internal/agent/grpc_internal.go:42-73 | in every reachable state a remote caller has seen a prefix of the answer, and all of it when the channel closes on an uncut relay whose request was not refused; of a refused one it has seen nothing |
| `Relays.ResponseCanBeRelayed` | internal/agent/grpc_internal.go:59-73 | a response buffered for a forwarded request can be passed on to its client step by step |
| `Forwarding.RelayToGateway` | internal/agent/grpc_internal.go:59-73 | interleaved with everybody: each response it takes from its own buffer is sent on in the turn it was taken, up to the first final one, or up to the first send that fails, which is not counted as sent and ends it with that status; left alone, exactly so from the front of the buffer |
| `Forwarding.RelayToCaller` | internal/agent/forwarder.go:122-137 | the goroutine pushes exactly the responses received up to the first final one |
| `Forwarding.RelaysCompose` | internal/agent/forwarder.go:122-137 | relaying a relayed prefix passes it on unchanged |
| `Forwarding.ForwardRequest` | internal/agent/grpc_internal.go:30-74 | each status exactly when it is due; each response taken sent on but one whose send failed; a path of the multiplexer made of its own and others' steps; handler gone at the end; what it sends is a beginning of the answer of the connection under the id in the metadata, and all of it if OK; that is of the model asked for exactly if the entry is |
| `OpenAI.FoldsAgree` | internal/handler/chat.go:217-237 | the reply without streaming is the streamed text followed by exactly the final response's own content |
| `OpenAI.DeltasCarryText` | internal/openai/converter.go:76-94 | leaving out empty deltas changes nothing a client concatenates |
| `OpenAI.ReplyJoinsContents` | internal/handler/chat.go:217-237 | the single reply joins the texts of all chunks in order and the body of a message that comes last |
| `OpenAI.StreamJoinsContents` | internal/openai/converter.go:76-94 | joining the deltas of a stream gives texts and reasoning of all chunks before the final response, in order |
| `OpenAI.FinishMarksDone` | internal/openai/converter.go:96-113 | a finish reason is on the last chunk, and exactly if a final response arrived; that chunk has an empty delta |
| `OpenAI.ChunksNameRequest` | internal/openai/converter.go:76-113 | every chunk bears the id made of the request it answers and the model asked for |
| `OpenAI.StreamCarriesReasoning` | internal/handler/chat.go:364-380 | the streamed reasoning is all of the answer's but the final response's |
| `Sse.FrameIsEvent` | internal/handler/chat.go:364-380 | one frame is one event with that payload, whatever follows (section 9.2 of the WHATWG HTML Standard) |
| `Sse.FramesAreEvents` | internal/handler/chat.go:332-380 | a stream of frames reads back as its payloads in order |
| `Answers.StreamParsesBack` | internal/handler/chat.go:332-380 | the body parses into exactly the emitted chunks and then one terminator |
| `Answers.LateSessionIsLost` | internal/handler/chat.go:343-356 | once a frame went out the session header a client sees is fixed |
| `Answers.SessionArrivesExactly` | internal/handler/chat.go:343-380 | a stream sends the session header as of its first frame, or as last set if it ends without one; so a client learns the agent's session exactly if something is sent and the session was reported by then, or was its own |
| `Answers.ReplyCarriesAnswer` | internal/openai/converter.go:45-73 | the single reply is one assistant message that decodes to the collected text, under the request's id |
| `Answers.StreamIsDelivered` | internal/handler/chat.go:323-396 | a streaming client gets no reply; the text added to the body reads as the emitted chunks and a terminator if the answer is over or the channel closed, as the chunks and no terminator otherwise; only a timeout is told as an error |
| `Answers.ReplyIsDelivered` | internal/handler/chat.go:190-254 | without streaming the body stays as it is; a reply exactly if the final response came, decoding to the collected text under model and request; else the error that goes with what ended it |
| `Answers.HeaderIsTold` | internal/handler/chat.go:203-215 | the session header afterwards is the first session the agent named, or as it was if it named none, or, without streaming, only the one the client sent; a single reply or error sends it so |
| `Chat.ChatHandler.ResolveAgent` | internal/handler/chat.go:98-129 | a live session of the model: its agent, the client's own raw id, renewed; otherwise a least loaded agent, counted, or an error exactly if none is online |
| `Chat.ChatHandler.EnsureSession` | internal/handler/chat.go:131-145 | binds the agent's session and names it to the client |
| `Chat.ChatHandler.CollectNonStreamResponse` | internal/handler/chat.go:190-254 | reply, errors, session written, header set and header sent, for every sequence of events |
| `Chat.ChatHandler.WriteStreamResponses` | internal/handler/chat.go:323-396 | body, errors, session written, header set and header sent, for every sequence of events |
| `Chat.ChatHandler.AwaitResponses` | internal/handler/chat.go:193-253 | interleaved with everybody: responses in buffer order up to a final one, or until the first turn that is the timer or the client leaving, told apart; left alone it takes what is buffered |
| `Chat.ChatHandler.ServeLocal` | internal/handler/chat.go:164-188 | handler registered before the request is sent and gone on every way out; error exactly if the queue has no room; else everything written, made of a beginning of the connection's answer; of the type asked for exactly if the entry is |
| `Chat.ChatHandler.ServeRemote` | internal/handler/chat.go:256-270 | error exactly if agent or gateway are not found or the dial fails; else everything written, from what arrives on the stream between the gateways |
| `Chat.ChatHandler.AwaitRelayed` | internal/agent/forwarder.go:121-137 | one response a wake, until the first that is the timer or the client leaving: the loop gets a beginning of what arrives on the stream up to a final response, all of it behind one, and a closed channel only if the stream ended without one |
| `Chat.ChatHandler.DialRemoteAgent` | internal/handler/chat.go:398-417 | the address of the gateway the agent's hash names, or why there is none |
| `Chat.ChatHandler.Handle` | internal/handler/chat.go:56-96 | one request end to end, every way out: target, store left, everything written to the client, local or remote, by field for a stream and for a single reply, header returned to a client that continues, handler gone; for a local agent a beginning of the connection's answer, that of the agent chosen exactly if the entry is of its type; for a remote one what arrived |
| `Chat.AtMostOneSession` | internal/handler/chat.go:203-215 | a request writes at most one session, bound to its agent, and touches no other |
| `Chat.SessionIsKeptExactly` | internal/handler/chat.go:203-215 | if the first session id the agent names is not the one the client sent, it is found afterwards, bound to that agent, type and gateway under a full lease; otherwise the store is unchanged |
| `Chat.SecondRequestReturns` | internal/handler/chat.go:98-129 | a client that sends that session back, after any run that keeps it, gets the same agent with the id the agent gave |
| `Chat.RoutedIsCounted` | internal/handler/chat.go:112-126 | a routed request goes to an online agent with the fewest sessions, which reads one session more afterwards, and every other agent as before |
| `Chat.RequestIsRun` | internal/handler/chat.go:98-145 | a request is a run of store operations, so all run properties hold across requests |
| `Chat.AffinityAcrossRequests` | internal/handler/chat.go:98-129 | after any run that keeps the session, a request carrying it goes to its agent with the same raw id; it is leased anew, and it and any new session stay bound there |
| `EndToEnd.ReplyIsTheAgentsAnswer` | internal/handler/chat.go:190-254 | in every reachable state of multiplexer and relays, a request with a final response was sent a reply that decodes to, and a stream that reads back as, exactly the answer of its connection, which is that of the agent asked for, in type and id, exactly if the entry looked up was of its type |
| `EndToEnd.StreamIsPrefix` | internal/handler/chat.go:323-396 | however a stream ends, its chunks and the text of its frames are a beginning of that answer's; one with the terminator reads back as just that, and without a finish chunk its relay was cut or its request refused by the agent's gateway: no such agent, or not queued |
| `EndToEnd.ReceivedIsFaithful` | internal/handler/chat.go:193-253 | what a receive loop is given, however it ends, is a beginning of the answer of the request's connection; its channel closes on it only if the relay was cut, or the request refused, of which it was given nothing |
| `EndToEnd.RequestsFindTheAgent` | internal/handler/chat.go:398-417 | for a connected agent and any gateway: kept there exactly if its table has the id, else the gateway the agent is on is dialed or not advertised; reached exactly if the entry is of its type, and always if ids were free |
| `Deployment.StepKeepsTied` | internal/agent/grpc_server.go:83-108 | every step of connections, multiplexers and relays keeps each gateway's table and connections those the connections of the system say |
| `Deployment.TestsAgree` | internal/agent/grpc_server.go:217-239 | in every state of every run, the entry that decides on a request is of the type asked for in the gateway's own table exactly if it is in the system's |
| `Deployment.LookupFinds` | internal/agent/grpc_server.go:224-239 | whatever happens after a lookup short of a crash there: a request that gets queued is on the connection the system had in that slot, and at the agent asked for exactly if that is of its type |
| `Deployment.AgentsAnswerTheirRequests` | internal/handler/chat.go:147-254 | in runs in order, a request for a connected agent from any gateway is looked up where it is connected and is on its connection or none; once its final response is received, reply and stream carry exactly what came over that connection |
| `Backoff.Run` | pkg/agentsdk/sdk.go:122-183 | each wait is the one its position since the last connect calls for; each way out of the loop |
| `Backoff.WaitsFollowRounds` | pkg/agentsdk/sdk.go:122-183 | one wait a round, counted from zero after a round that connected and else on from the one before |
| `Backoff.ExitFollowsRounds` | pkg/agentsdk/sdk.go:122-183 | each way out in the round it belongs to, with one wait in every round before |
| `Backoff.ClosedFormExactly` | pkg/agentsdk/sdk.go:149-180 | for every pair of settings, the j-th wait is min(2^j * start, cap) for all j exactly when they pass a test of start and cap |
| `Backoff.WaitsAreBounded` | pkg/agentsdk/sdk.go:149-180 | whatever the settings, no wait exceeds the larger; where the closed form holds, n in a row last at most (2^n - 1) * start |
| `Backoff.NegativeCapDiverges` | pkg/agentsdk/sdk.go:149-150 | a negative cap is doubled away from |

## Left out

- Command-level interleavings of `Pool`, `Manager` and `Forwarder` methods: their check-then-write windows break several of these invariants, so methods are steps.
- Interleaving inside one chat request: `Chat.ChatHandler.Handle` holds the clock and all other clients still; `Runs` interleaves the store operations it is made of (`Chat.RequestIsRun`).
- Aliasing of connections and channels: `AgentServer.GRPCServer` holds them as maps of values keyed by connection number and request id.
- Deadlock freedom, progress and total deadlines: they do not hold.
- Decoding the request body, and why opening the stream to another gateway fails: `Chat.ChatHandler.Handle` is told that it did.
- Interleaving of taking a response and writing it: `Chat.ChatHandler.ServeLocal` takes all its responses, then writes. The two touch nothing in common.
- The error body: an error is recorded beside the response, not as JSON within it.
- The branch of ensureSession that makes up a raw id (internal/handler/chat.go:134-137): none of its callers passes an empty one.
- Creating a session under a random id (internal/session/manager.go:61-63): it is CreateWithID with a fresh id.
- Redis errors, retries and pipelines that fail half way.
- Shapes of the OpenAI types beyond what the folds and the framing depend on, and translating requests (ToAgentRequest): branch-free copying.
- Authentication, tenants, configuration, logging, the models endpoint, error constructors: thin or single-branch.
- gRPC dialing and the connection cache, TLS, keepalive, generated protobuf code.
- The SDK beyond its reconnect loop: heartbeats, handlers and its response stream, which does not always send a final response.
- Demo agents, the Python example and deployment files.
