# A verified model of the R-Event broker

R-Event connects clients over gRPC. A client registers under an id with a list of queries it can answer, asks queries
that the broker forwards to a handler chosen round robin, answers queries, and publishes events that are stored and
broadcast. This project models that broker in Dafny and proves what its runs guarantee.

`dafny verify dfyconfig.toml` verifies everything.

## How the model is built

- **State machine.** `StateMachine.dfy` gives, as functions on values, what one client message, one tick of the
  background loop and one broadcast task do to the broker: its client table, handler index, ongoing requests,
  round-robin cursor, stored events and waiting broadcasts. A run is a list of `Step`s (`Receive`, `Tick`,
  `Broadcast`, `Advance` of the clock) from a fresh broker, and its trace lists every send with its result.
- **Mutable objects.** The source's objects are classes with the same fields: `RoundRobinStrategy`, `QueryHandler`,
  `EventRepository`, `State`, `SessionTask`. Each method is proved to change its object exactly as the state machine
  says, loops included.
- **Sends.** Every single send succeeds or fails as the step's `net` says, with no restriction, so a closed channel is
  one special case. `to` is the id a message concerns and `tx` the channel it is put on.
- **Hash tables.** The order in which a table is iterated is arbitrary: it is a parameter of the step, constrained only
  to list every element once.
- **Time.** The clock is an integer. Ticks are assumed at most `interval` apart; nothing else is assumed about them.
- **Events in the trace** besides sends: `Registered` and `Disconnected` mark a change of the client tables,
  `Dispatched` and `TimedOut` a change of the ongoing requests. The last three stand where the source writes a log line
  (src/domain/state.rs:299, src/domain/state.rs:470, src/domain/state.rs:483).

**Atomic steps.** Handlers of the source release their locks between sections. In the state machine one message, one tick or
one broadcast is atomic, and the properties of whole runs rest on that. `LockSections.dfy` models every lock section as
a step of its own and proves that a handler that is not interrupted is the atomic one. The other modules about interleaving
take up the promises about requests, client tables and the event log; time bounds, fairness, redelivery and sessions are
stated for atomic steps only. Non-empty lists, the event log (`InterleavedLog.dfy`) and a handler index that follows
the registrations (`InterleavedClients.dfy`) survive every interleaving. Four others survive exactly as long as no move
meets a guard that is readable before the move (`Interleavings.KeptExactly`): one request and one answer with an id at a time, one
registration or disconnection of a client at a time, no stale handler, and connected responders. For the first two
a move meets the guard exactly when some continuation that meets it no further does harm (`Races.dfy`,
`InterleavedClients.dfy`), and a stale handler is exactly what loses requests when everybody is at rest (`Losses.dfy`).
`Losses.dfy` adds the guard against swallowed retries and proves that without it and without desertions no request of a
connected client is lost; `EarlyAnswers.dfy` says which answers are dropped.

Sessions stamp their identity on what they send (`Sessions.MessagesCarryIdentity`), and an id that is connected is refused to
others (`Registrations.DuplicateClientIsRefused`).

## Where the code does not do what one would expect

- A client that declares a query twice is selected for ever once the cursor reaches it
  (`RoundRobin.FairExactlyWithoutRepeats` says when selection is fair). Two queries sharing the cursor disturb
  each other, except as `RoundRobin.ForeignSelectionHarmless` and `RoundRobin.SameTurnExactly` say.
- A session that registers a second id leaves the first one connected when it ends (`Sessions.AlwaysCoveredExactly` says
  exactly when), and a session can disconnect a client that is not its own: after its registration was refused, or after its
  client was evicted and the id taken by another session (`Sessions.OwnersAlwaysExactly` says exactly when).
- An event whose source has gone is stored but neither acknowledged nor broadcast (`EventLog.SavedIsAckedAndQueued`).
- Following `next` links is refused half-way when the last page starts beyond the maximum offset (`Paging.PageWalk`).
- JSON integers with more than 53 significant bits, and floats that are integers of 64 bits, do not survive the translation:
  each such payload shares its struct with another one (`Json.PayloadSurvives`, `Json.LossyPayloadsCollide`).
- Interleaved requests or answers with one id: an open id is dispatched again, or an ended request answered, only after two of
  them got past the same check, and after every such race that can happen (`Races.RacesAreWhatHarms`, `Races.EveryRaceCanHarm`).
- Interleaved registrations and disconnections of one client: both registrations are accepted, or the client ends up connected
  and unlisted or listed and unconnected (`InterleavedClients.CollisionsAreWhatParts`).
- Interleaved requests of connected clients get no word when their selected responder is disconnected before it is asked, when a responder is selected
  that is not connected, or when they repeat a request that was just answered or timed out and is not dropped yet; and
  otherwise not (`Losses.EveryRequestIsSettled`, `Losses.EveryDesertionHarms`, `Losses.EverySwallowingHarms`). A
  registration interrupted by a disconnection leaves a handler for which requests are lost later
  (`Losses.StaleHandlersAreWhatLoses`).
- An answer that arrives before its request is recorded is dropped, and the request stays open
  (`EarlyAnswers.AwaitedAnswerIsTakenUnlessEarly`).
- Responses are accepted from any client (`Requests.AnswerReachesRequester`), and a resent request is recognised without
  comparing its parameters (`Redelivery.RedeliveryIsInvisible`, `Redelivery.ReusedIdIsRefused`); the model does the same.

## Model

| member | source | states |
|---|---|---|
| `Ids.LeIsTotalOrder` | src/domain/mod.rs:15-16 | the derived order on client ids is total, antisymmetric and transitive |
| `Ids.LeIsLexicographic` | src/domain/mod.rs:15-16 | a client id comes before another if and only if its text is a prefix of the other or has the smaller character where they first differ |
| `Ids.SortForgetsOrder` | src/domain/mod.rs:92-93 | sorting candidates gives one result whatever their order |
| `RoundRobin.RoundRobinStrategy.Select` | src/domain/mod.rs:84-107 | selection and new cursor are those of the specification `Next`, empty candidates included |
| `RoundRobin.NextIsCandidate` | src/domain/mod.rs:84-107 | a selection is one of the candidates |
| `RoundRobin.FullRound` | src/domain/mod.rs:84-107 | from any cursor, as many selections as repeat-free candidates pick each once |
| `RoundRobin.EveryWindowIsFair` | src/domain/mod.rs:84-107 | so does every later window of that many selections |
| `RoundRobin.CountsBalanced` | src/domain/mod.rs:84-107 | after any number of selections no candidate is more than one ahead of another |
| `RoundRobin.RepeatStarvesOthers` | src/domain/mod.rs:96-98 | a client listed twice is selected for ever once the cursor is on it, because the first copy is found |
| `RoundRobin.FairExactlyWithoutRepeats` | src/domain/mod.rs:84-107 | every candidate is served within one round from every cursor if and only if no candidate is repeated or all are one client |
| `RoundRobin.SameTurnExactly` | src/domain/mod.rs:96-102 | two cursors give the same next selection if and only if they are equal or both make the round start again |
| `RoundRobin.ForeignSelectionHarmless` | src/domain/mod.rs:72-74 | another query that selects a client after a candidate was selected leaves the next selection unchanged if and only if it selects that candidate, or the round is complete and it selects no candidate |
| `QueryHandlers.QueryHandler.AddClientQueryHandler` | src/domain/query_handlers.rs:44-52 | the index afterwards is `AddAll` of the index before; no list becomes empty |
| `QueryHandlers.QueryHandler.DisconnectClient` | src/domain/query_handlers.rs:54-60 | the client is removed from every list and emptied queries from the index, nothing else |
| `QueryHandlers.QueryHandler.GetClientIdForQueryId` | src/domain/query_handlers.rs:63-80 | the selection and the new cursor; an unknown query leaves the cursor alone |
| `QueryHandlers.QueryHandler.GetQueryHandlersForClientId` | src/domain/query_handlers.rs:82-92 | lists exactly the queries whose list holds the client, each once |
| `QueryHandlers.QueryHandler.GetExpiredRequests` | src/domain/query_handlers.rs:104-115 | lists exactly the requests strictly older than the timeout, each once |
| `QueryHandlers.QueryHandler.HandleQueryRequestedEvent` | src/domain/query_handlers.rs:117-125 | files the request under its own id |
| `QueryHandlers.QueryHandler.RemoveOngoingRequest` | src/domain/query_handlers.rs:127-132 | removes the entry of the id and returns it |
| `QueryHandlers.LookupAfterAdd` | src/domain/query_handlers.rs:44-52 | a declared list appends the client to each query's list once per occurrence |
| `QueryHandlers.SelectReturnsMember` | src/domain/query_handlers.rs:63-80 | selection returns a member of the query's list, finds none exactly when there is none, and is never ResponderNotFound |
| `EventStore.EventRepository.SaveSourceEvent` | src/db/mod.rs:48-108 | one row is appended or nothing changes, and gap-freeness is kept |
| `EventStore.SaveAppendsNextRow` | src/db/mod.rs:62-107 | a saved row has the next clock, the generated id and the message's content; a failed save changes nothing |
| `EventStore.SaveSucceedsExactly` | src/db/mod.rs:48-108 | a save succeeds if and only if all three stages work, the aggregate type has 3 to 254 characters and the id is new; the row is dated as generated |
| `State.State.constructor` | src/domain/state.rs:35-48 | a fresh broker is empty |
| `State.State.HandleMessage` | src/domain/state.rs:168-192 | state and trace change as the state machine says, for every message |
| `State.State.HandleRegisterClient` | src/domain/state.rs:194-224 | refines `Register` |
| `State.State.HandleQueryRequest` | src/domain/state.rs:227-342 | refines `Request` |
| `State.State.AskResponder` | src/domain/state.rs:276-302 | the request is sent and recorded, or the requester told that there is no handler |
| `State.State.HandleQueryResponse` | src/domain/state.rs:344-385 | refines `Respond` |
| `State.State.HandleQueryHandlingError` | src/domain/state.rs:387-430 | refines `FailHandling` |
| `State.State.HandleRegisterSourceEvent` | src/domain/state.rs:432-465 | refines `Publish` |
| `State.State.HandleQueryTimedOut` | src/domain/state.rs:467-476 | drops the request and logs it if it was there |
| `State.State.HandleDisconnectedClient` | src/domain/state.rs:480-484 | refines `Disconnect` |
| `State.State.CollectOldClients` | src/domain/state.rs:105-119 | lists exactly the clients not seen for longer than the expiration, with their channels |
| `State.State.ProbeOldClients` | src/domain/state.rs:126-138 | probes every old client, in some order, as `ProbeAll` says, and leaves the ongoing requests alone |
| `State.State.DropExpired` | src/domain/state.rs:140-159 | lists every request open for longer than the timeout, each once, and refines `ExpireAll` for that order |
| `State.State.Tick` | src/domain/state.rs:123-161 | one turn of the loop visits all old clients and all expired requests in some order and refines `TickWith` for that order |
| `State.State.Broadcast` | src/domain/state.rs:454-464 | visits all connected clients in some order and refines `BroadcastWith` for that order |
| `StateMachine.MessagesSayWhatTheyCarry` | src/domain/state.rs:168-465 | whatever a message makes the broker send repeats its fields: asks its id, query and parameters, refusals its id and query to its sender, answers its id and content, registration replies its client on its channel |
| `Ticks.TickOrderIsIrrelevant` | src/domain/state.rs:123-161 | two ticks with equal send results end in the same state and say the same up to order, whatever order the tables are iterated in |
| `Ticks.ProbeAllBySet` | src/domain/state.rs:128-138 | after the probes, unreachable old clients are gone from both tables, reachable ones were seen now, all others are as before |
| `TickEvents.TickProbesExactly` | src/domain/state.rs:128-138 | about each client a tick says exactly: one heartbeat on its channel if it was not seen for longer than the expiration, then its disconnection if that failed |
| `TickEvents.TickExpiresExactly` | src/domain/state.rs:140-159 | about each request a tick says exactly: if it is older than the timeout, one notice to its requester if still connected after the probes, and its removal |
| `Registry.IndexRefinesRegistrations` | src/domain/query_handlers.rs:44-60 | after any steps both client tables are exactly those of the registrations in the trace, in registration order; a query has an entry exactly when somebody declared it |
| `Registry.HandlersDeclared` | src/domain/state.rs:194-224 | the handlers of a query are exactly the registered clients that declared it |
| `Registry.ListedIsConnected` | src/domain/state.rs:194-224 | a listed handler is connected and declared the query |
| `Registry.RegisterThenDisconnect` | src/domain/state.rs:194-224 | registering a new client with any list and disconnecting it restores the broker exactly |
| `Registry.FreshRequestIsNotLost` | src/domain/state.rs:259-341 | a fresh request becomes ongoing at a connected client that declared the query and was sent it, or its requester is sent QueryHandlerNotFound |
| `Registry.DeadBranches` | src/domain/state.rs:303-311 | a selected responder is always connected, and ResponderNotFound never happens |
| `Registrations.RegisteredExactlyWhenTold` | src/domain/state.rs:205-223 | in every run a client enters the tables exactly when it has just been told so, on the channel it will be reached on |
| `Registrations.NewClientIsWelcomed` | src/domain/state.rs:205-223 | a new client is sent its welcome on its own channel and registered with the time and its list exactly when that works; otherwise nothing changes |
| `Requests.TableFollowsTrace` | src/domain/state.rs:227-430 | in every run the ongoing requests are a function of the trace; an open id is never dispatched again; answers only go to the requester of the open request |
| `Requests.Conservation` | src/domain/state.rs:366-380 | per id: dispatches = delivered responses + delivered handling errors + timeouts + 1 if ongoing; dispatches = delivered requests |
| `Requests.CausalRouting` | src/domain/state.rs:344-430 | every answer goes to the client of the latest dispatch with that id, about its query, with no closing event in between |
| `Requests.AnswerHistory` | src/domain/state.rs:344-430 | every response or handling error closes the latest dispatch of its id, and comes from the step that took a message with that id and content |
| `Requests.EverySendIsExplained` | src/domain/state.rs:168-465 | every send of a run repeats the message taken by the step that made it, or is a heartbeat or timeout notice of a tick, or a copy of the event being broadcast |
| `Requests.AnswerReachesRequester` | src/domain/state.rs:344-430 | an answer to an open request, whoever it comes from, is sent once to its requester if connected, and closes the request exactly when that send works |
| `Channels.EverySendIsGenuine` | src/domain/state.rs:194-302 | in every run every send goes on the channel its addressee is registered with at that point of the trace, or on that of the registration it answers, and its recorded result is the network's |
| `Requests.EnabledTickLists` | src/domain/query_handlers.rs:104-115 | what a tick treats as expired are entries of the table, each once, strictly older than the timeout |
| `Timing.RequestLifetimeBounded` | src/domain/state.rs:140-159 | no ongoing request is ever older than the timeout plus the tick interval |
| `Timing.TickDropsExpired` | src/domain/state.rs:140-159 | a tick drops exactly the requests older than the timeout |
| `Timing.TimeoutsAreLate` | src/domain/state.rs:140-154 | QueryTimedOut is only sent by a tick, for a request strictly older than the timeout |
| `Timing.StalenessBounded` | src/domain/state.rs:128-138 | every connected client was seen within the expiration plus the tick interval |
| `Timing.TimeGoesOn` | src/domain/state.rs:123-161 | any run can go on to any later time by ticks alone, so the bounds never hold for want of runs |
| `Timing.OnlyTheSourceIsSeen` | src/domain/state.rs:169-174 | a message moves `last_seen` of its source or newly registered client to now, and nobody else's |
| `Timing.SilentClientIsRemoved` | src/domain/state.rs:130-137 | a client whose channel fails and who sends nothing is gone after the expiration plus a tick interval, unless another session got the id registered again |
| `Config.Validate` | src/config.rs:59-82 | reports each limit that is out of range, and nothing exactly when all are in range |
| `Config.ValidatedStaleness` | src/config.rs:61-68 | under accepted limits no connected client was last seen more than twice the expiration ago |
| `ExactlyOnce.ExactlyOneOutcome` | src/domain/state.rs:140-159 | a fresh request of a client that stays connected and reachable gets exactly one outcome or is still open, and exactly one once timeout plus interval have passed |
| `ExactlyOnce.RunKeepsBalance` | src/domain/state.rs:227-430 | along any such run, outcomes sent plus one if open never changes |
| `Fairness.FairDispatch` | src/domain/state.rs:259-263 | in any run in which a query is answered by one repeat-free handler set and selections for other queries leave its turn, its dispatches go round the handlers fairly, whatever else happens in between |
| `Redelivery.RedeliveryIsInvisible` | src/domain/state.rs:230-237 | resending an open request sends nothing, changes only `last_seen`, and no later tick-free run can tell |
| `Redelivery.RunsSame` | src/domain/state.rs:168-192 | brokers equal up to `last_seen` send the same messages in every tick-free run and stay equal |
| `Sessions.SessionTask.Handle` | src/api/grpc/control.rs:49-90 | one turn of the session loop refines `TakeTurn` |
| `Sessions.SessionTask.Finish` | src/api/grpc/control.rs:92-98 | leaving the loop disconnects the session's id, if any |
| `Sessions.PayloadEndsSessionExactly` | src/api/grpc/control.rs:70-90 | a payload ends the session if and only if it has an invalid id or is no registration and the session has none; then its client is disconnected |
| `Sessions.PayloadIsHandled` | src/api/grpc/transform.rs:85-178 | any other payload, of each of the six kinds, is handled as the message with its fields and the session's identity |
| `Sessions.SessionFollowsHistory` | src/api/grpc/control.rs:47-99 | in every history a session keeps its channel, its identity is the client of the last well-formed registration it received, and it runs exactly until it receives something that makes it leave |
| `Sessions.TurnKeepsCoverage` | src/api/grpc/control.rs:70-98 | a turn keeps every connected client held by a running session if and only if the session does not abandon an id that only it holds |
| `Sessions.AlwaysCoveredExactly` | src/api/grpc/control.rs:47-99 | in any history every connected client is at all times the identity of a running session if and only if no session ever abandons an id |
| `Sessions.NoLeakAcrossSessions` | src/api/grpc/control.rs:47-99 | if no session abandons an id, then when all have ended both client tables are empty, for any interleaving with sessions, ticks and broadcasts |
| `Sessions.OneIdIsNeverAbandoned` | src/api/grpc/control.rs:70-77 | sessions that each register at most one id abandon none |
| `Sessions.EndsSafelyExactly` | src/api/grpc/control.rs:92-98 | the end of any running session disconnects only clients on its own channel if and only if every running session whose id is connected is reached on its own channel |
| `Sessions.TurnKeepsOwners` | src/api/grpc/control.rs:70-98 | a turn keeps that if and only if it neither asks for an id connected on another channel nor is admitted under an id another running session still has |
| `Sessions.OwnersAlwaysExactly` | src/api/grpc/control.rs:47-99 | in any history it holds at all times if and only if no session ever takes an id over in that way |
| `EventLog.LogHoldsInEveryRun` | src/domain/state.rs:432-465 | clocks are 1..n in commit order; acknowledgements and broadcasts carry committed rows; each event reaches each client at most once, after its acknowledgement was attempted |
| `EventLog.BroadcastReachesEachClientOnce` | src/domain/state.rs:455-463 | a broadcast sends the event to each client connected then exactly once and to nobody else |
| `EventLog.SavedIsAckedAndQueued` | src/domain/state.rs:436-455 | an event is saved exactly when the store accepts it, connected source or not, and is acknowledged and queued exactly when it was saved and its source is connected |
| `EventLog.RowsComeFromPublications` | src/domain/state.rs:435-436 | every row was committed by a step that took a publication with its aggregate id, aggregate type and payload |
| `EventLog.BroadcastsComeFromPublications` | src/domain/state.rs:454-464 | so every broadcast event holds the content of a publication that was received |
| `Paging.GetConnectedClients` | src/domain/state.rs:50-82 | the requested slice of the clients sorted by id, and the population, whatever the table's iteration order |
| `Paging.GetClientsPage` | src/api/rest/clients_handler.rs:13-93 | the errors, or the page with its links, as specified by `PageFor` |
| `Paging.DivCeilCountsPages` | src/api/rest/clients_handler.rs:77-81 | rounding the quotient up is the number of pages it takes to show everybody |
| `Paging.PageWalk` | src/api/rest/mod.rs:59-79 | following `next` is accepted throughout if and only if the last page's offset is allowed; then it yields exactly `total_pages` pages whose contents are the sorted listing |
| `Paging.WalkHasReportedPages` | src/api/rest/clients_handler.rs:77-91 | an accepted walk has as many pages as each of its pages reports |
| `Paging.PageReports` | src/api/rest/mod.rs:38-79 | an accepted page reports the population, its size and the number of pages needed, holds the clients from its offset on, and links back and forth exactly when there is something |
| `Paging.RejectedExactly` | src/api/rest/clients_handler.rs:36-59 | a page is refused if and only if offset or limit is out of range, with one error for each |
| `Paging.PrevOfNextReturns` | src/api/rest/mod.rs:59-79 | `prev` of the `next` page is the page one came from |
| `Floats.RoundNatIsNearest` | src/api/grpc/mod.rs:128 | an integer becomes a 53-bit multiple of a power of two than which no other is nearer, and of two equally near the one with the even mantissa |
| `Floats.RoundNatKeeps` | src/api/grpc/mod.rs:128 | rounding keeps a number if and only if it is a 53-bit multiple of a power of two |
| `Json.AsF64IsNearest` | src/api/grpc/mod.rs:128 | no 64-bit float, fractions included, is nearer to an integer than the one it becomes |
| `Json.ValueOfEachKind` | src/api/grpc/mod.rs:111-136 | the protobuf value of each kind of JSON, element by element; anything but an object becomes an empty struct |
| `Json.PayloadSurvives` | src/api/grpc/mod.rs:111-136 | a payload can be read back from its struct if and only if it is an object whose integers have at most 53 significant bits and whose floats are no 64-bit integers |
| `Json.StructReadsBack` | src/api/grpc/mod.rs:111-136 | every struct is the translation of the payload read from it |
| `Json.LossyPayloadsCollide` | src/api/grpc/mod.rs:111-136 | every payload shares its struct with one object whose numbers all survive, which is another payload if and only if the payload itself does not survive |
| `Json.TranslationIsInjective` | src/api/grpc/mod.rs:111-136 | no two such payloads have the same struct |
| `LockSections.UninterruptedIsAtomic` | src/domain/state.rs:168-192 | a message handled without interruption, section by section, does exactly what the atomic step does |
| `LockSections.UninterruptedExpiryIsAtomic` | src/domain/state.rs:144-158 | an expiry handled without interruption does exactly what the tick does to one request |
| `LockSections.EveryInterleaving` | src/domain/query_handlers.rs:44-60 | under every interleaving of lock sections no handler list is empty, every ongoing entry is under its own id, and the log is gap-free |
| `LockSections.SelectionUnderInterleaving` | src/domain/query_handlers.rs:63-80 | under every interleaving a selection is a member of the current list and never ResponderNotFound |
| `Interleavings.KeptExactly` | src/domain/state.rs:194-485 | under every interleaving, each of "one request and one answer with an id at a time", "one registration or disconnection of a client at a time", "no stale handler" and "selected responders are connected" holds throughout if and only if no move meets its guard |
| `Interleavings.MoveKeepsOrderExactly` | src/domain/state.rs:230-257 | a move keeps requests and answers one at a time if and only if it does not take a second task with that id past the check |
| `Interleavings.MoveKeepsHandlersExactly` | src/domain/state.rs:217-223 | a move keeps every listed handler connected or leaving if and only if it does not end a registration whose client was disconnected meanwhile |
| `Interleavings.MoveKeepsRespondersExactly` | src/domain/state.rs:259-275 | a move keeps selected responders connected if and only if it neither disconnects one nor selects one that is not connected |
| `Interleavings.MoveKeepsEntriesExactly` | src/domain/state.rs:194-224 | a move keeps registrations and disconnections of a client one at a time if and only if it neither lets a registration in while its client is busy nor starts a disconnection while its client is being registered |
| `Interleavings.OrderlyPlaysAreAllowed` | src/domain/state.rs:227-430 | in every interleaving without races no open id is dispatched again and each answer is for an open request and goes to its requester |
| `Interleavings.OrderlyPlaysConserve` | src/domain/state.rs:366-380 | conservation of dispatched requests in every interleaving without races |
| `Interleavings.NoOverlapNoRace` | src/domain/state.rs:168-192 | if no request or answer is taken while another with its id is under way, no race happens |
| `Interleavings.AnswersFollowDispatches` | src/domain/state.rs:344-430 | under every interleaving, racing or not, an answer goes to the client of an earlier dispatch with its id, about its query |
| `InterleavedLog.LogHoldsUnderInterleaving` | src/domain/state.rs:432-465 | under every interleaving the event log keeps all it promises in atomic runs |
| `InterleavedClients.IndexFollowsTrace` | src/domain/query_handlers.rs:44-60 | under every interleaving the handler index is exactly that of the registrations in the trace, in registration order |
| `InterleavedClients.ClientsFollowTrace` | src/domain/state.rs:194-224 | in every interleaving without collisions the connected clients are those of the registrations in the trace, once each and on their own channels, apart from half-done ones |
| `InterleavedClients.TablesReflectAtRest` | src/domain/state.rs:480-484 | so at rest both client tables are what they are after an atomic run |
| `InterleavedClients.EveryCollisionCanHarm` | src/domain/state.rs:194-224 | after every collision it is enough that the two colliding tasks run for the client to be registered twice, connected but unregistered, or registered but unconnected |
| `InterleavedClients.CollisionsAreWhatParts` | src/domain/state.rs:194-224 | a move collides if and only if some continuation without further collisions parts the client table from the registrations |
| `EarlyAnswers.AwaitedAnswerIsTakenUnlessEarly` | src/domain/state.rs:277-298 | in every interleaving without races an answer to an asked, unanswered request finds it open if and only if the request is recorded already, and is dropped otherwise |
| `EarlyAnswers.FoundAnswerIsPassedOn` | src/domain/state.rs:344-430 | an answer that found its request goes to the requester if it can be reached, and is refused otherwise |
| `Races.EveryRaceCanHarm` | src/domain/state.rs:227-430 | after every race, with no further race and nothing new but registrations and disconnections, the racing task and one other task with the id can run so that this id is dispatched while open or answered after it ended |
| `Races.RacesAreWhatHarms` | src/domain/state.rs:227-430 | a move is a race if and only if some continuation without further races has a trace that no atomic run allows |
| `Races.RacingRequestsDispatchTwice` | src/domain/state.rs:230-298 | two requests with one id that arrive together: a play in which both are recorded, with neither an answer nor a timeout in it |
| `Races.RacingAnswersDeliverTwice` | src/domain/state.rs:345-380 | two answers to one request that arrive together: a play in which both are delivered |
| `Losses.EveryRequestIsSettled` | src/domain/state.rs:227-342 | in every interleaving without desertions and swallowed retries, a request taken from a connected requester ends sent to a responder and recorded, refused to its requester, or as a copy of one that still waits |
| `Losses.UnheardExactly` | src/domain/state.rs:230-311 | a request that found its requester connected ends with neither a recording nor a refusal if and only if its responder is gone or it repeats an open request |
| `Losses.EveryDesertionHarms` | src/domain/state.rs:303-311 | after every desertion a request is lost as soon as its task goes on |
| `Losses.EverySwallowingHarms` | src/domain/state.rs:230-237 | a retry that repeats a request about to be dropped is done at once, and after the drop its id is not open and nothing was sent |
| `Losses.RetryAfterNoticeIsLost` | src/domain/state.rs:144-158 | a play that meets none of the four guards in which a retry sent on a timeout notice gets no word |
| `Losses.StaleHandlersAreWhatLoses` | src/domain/state.rs:217-223 | while nobody is being disconnected, there is no stale handler if and only if no such continuation of registrations and disconnections ends with a fresh request of a connected client lost |
| `Losses.EveryStrayCanHarm` | src/domain/state.rs:217-223 | after every stray registration, with no further one, a fresh request of a connected client is lost while the handler is still stale |
| `Losses.InterruptedRegistrationLosesRequests` | src/domain/state.rs:217-223 | a play with a disconnection inside a registration that ends with a stray registration and loses a request of a connected client |
| `Plays.PlayMessage` | src/domain/state.rs:168-192 | the atomic step is a play: taking a message and running its sections one after the other |

## Left out

- gRPC and HTTP servers, tasks, channel capacity and shutdown: only that a send works or fails, and that a session leaves its loop.
- Malformed request and event ids: the source panics on them (src/api/grpc/transform.rs:121-123), which skips the final disconnect; ids are assumed well-formed.
- Length and whitespace rules of client, query and aggregate ids: an id that fails them arrives as `None`; error texts are not modelled.
- SQLite: a table of rows whose transaction may fail to begin, insert or commit, each without effect; the 64-bit range of clocks is unbounded here.
- `since`, the wall-clock time of a registration, and the JSON rendering of pages: a link is its offset and limit, not its text.
- `EventStore.EventRepository.SaveSourceEvent`: a commit that reports failure is taken to have had no effect.
- `State.State.Tick`: one tick is atomic and reads the clock once; in the source time passes while it runs.
- `Sessions.NoLeakAcrossSessions`: covers sessions that leave through the loop exit; a panic inside a session is not part of this model.
- `Json.PayloadSurvives`: minus zero is not distinguished from zero, and parsing of the stored bytes is not modelled.
- Interleavings: time bounds, fairness, redelivery and sessions are proved for atomic steps, not for interleaved lock sections.
- `LockSections.EveryInterleaving`: a send belongs to the lock section before it, and a tick is modelled as the messages and expiries it starts, at any time and without its heartbeat sends.
- `source_events_handler`, OpenAPI, actuator and telemetry: stubs and plumbing.
