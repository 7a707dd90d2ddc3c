# relay_builder: a model of the relay's subscription engine

This project models the parts of the `relay_builder` Nostr relay that decide who receives which
event, and proves what they promise:

- **The live-subscription engine.** `SubscriptionIndex` is an inverted index with five structures
  (authors, kinds, event ids, tags, match-all) that replaces a scan of every filter.
  `SubscriptionRegistry` keeps one index per scope, the live connections with their bounded
  channels, and the active-subscription counter. The index is shown to report exactly what the scan
  finds, sequentially and under any interleaving of concurrent distributions, and of a repeated
  event exactly what the last-seen markers let through, told from the operations alone. Whole runs
  of many clients (connecting, REQ, CLOSE, published events, slow and vanishing clients) are shown to
  leave every client's quota, subscriptions and queue as a reference without any index does, which
  is a function of what the clients do.
- **Historical REQ pagination.** The nested loops that page a store backward are proved against a
  recursive function, and that function against "filter by visibility, then take the newest", with
  exactly what earlier filters, equal timestamps, the attempt cap or a failing query take away, for
  every store and every filter list.
- **The middleware chain.** Position-based outbound routing, hook order, and end-to-end visibility
  of events for chains of any length.
- **The quota set** of a connection, which must cover its live subscriptions, over the same runs.
- **NIP-42 authentication** as a state machine over whole runs, and its host and subdomain matching.
- **The buffer of replaceable events**, which is last-writer-wins.

## How to read it

`Nostr` holds the shared values and the conjunctive filter match of NIP-01 ("From client to relay:
sending events and creating subscriptions"): an absent or empty constraint admits everything, and a
tag constraint looks at the first value of a tag. Files that the original updates step by step are
classes and loops here (`SubscriptionIndex`, `SubscriptionRegistry`, `SubscriptionCoordinator`,
`ConnectionState`, `Messaging`, `Nip42`, `ReplaceableBuffer`); each method is proved against a
function on values (`IndexModel`, `RegistryModel`, `Pagination`), and the theorems are about those
functions and about runs of them (`IndexRefinement`, `IndexHistory`, `Hearing`,
`ConcurrentDistribution`, `PaginationRefinement`, `PaginationWalk`, `PaginationFrontier`,
`PartialPaging`, `Quota`).
`RelayModel` is the reference for whole runs of many clients, a function of what they do, and
`RelayRuns` runs the objects against it.

Some predicates have the form `forall n {:trigger Unfold(n)} :: Unfold(n) ==> D` (or another
marker in the place of `Unfold`: `Look`, `Tally`, `Compare`, `Consult`, `Recall`, `Expand`,
`Review`). They mean `D`; the form only keeps the verifier from expanding `D` in proofs that do not
need it.

## Where code and documentation disagree

- `send_bypass` is documented as skipping the sender's own outbound processing
  (`src/nostr_middleware.rs:48-59`). It tags the message one position further *in*, so the sender's
  own middleware and the one inside it both process it (`BypassEntersFurtherIn`). At position 0,
  where the relay middleware sits, it is the same as `send`.
- `registry.add_subscription` treats a repeated id as a replacement in its own map and counter, but
  its index accumulates old and new filters. `AddStateOk` gives the exact condition under which an
  addition on its own is sound; the coordinator's remove-then-add always is.
- The last-seen markers are called deduplication (`src/subscription_index.rs:33-38`, `80-91`), but each
  remembers one event only: a repeated event is told again once another event came in between that
  the same filter matches (`ToldAgain`), and not if it was another filter's (`NotToldAgain`).
  `ReportsAreDue` and `TellsExactly` say exactly when.
- Paging does not send the newest visible matches in every case. `PagingSendsMet` gives exactly what
  a filter sends, for every store and whatever was sent before: the newest visible unsent ones of the
  matches its windows get past, which depend on the matches, the limit and the ids sent before only
  (`Met`). `SentExactly` says the same of each match, and `NothingLostExactly` when nothing is lost.
  Two things are lost:
  - The rest of a second. The next window starts below the second of the last unsent event of this
    one, so what follows in that second is skipped. A scan can lose a newer visible event in favour
    of an older one (`OlderInsteadExample`), or end on an empty window without it
    (`SameSecondExample`); in the second case what is lost shares its second with an event that was
    reached (`EmptyWindowMeansComplete`, and `EndsEmptyExactly` for when a scan ends that way).
  - What lies behind a window that was wholly sent for earlier filters: such a window does not move
    the bound, so it is queried again until the attempts are spent (`StuckSilent`), or, if it is the
    first one, the filter gives up at once (`GivesUpExactlyWhenSent`). With distinct timestamps this
    is all that is lost: `PagingIsFrontier`, `PagingStopsAtFirstRun` (the scan stops at the first run
    of already sent matches that fills a window), `NothingLostBeyondFrontier` and
    `NothingLostBeforeFirstRun`; fewer already sent matches than the limit are harmless
    (`FewOverlapsLoseNothing`). `OverlapExample` and `StallExample` are instances.
- A REQ that fails after its slot was reserved keeps the slot (`FailedReqKeepsItsSlot`), and so does
  every subscription of a connection that was cleaned up while its socket is open
  (`CleanupKeepsSlots`), over any later requests that do not touch the id. So the quota set covers
  the live subscriptions but need not equal them; `QuotaEqualsLiveExactly` says exactly when it does.
- Registering an id that is still live overwrites the connection; `RegisterConnection` states
  exactly when this keeps the registry consistent.

## Model

| member | source | states |
|---|---|---|
| IndexModel.LeastLetter | src/subscription_index.rs:363-368 | the tag constraint chosen is the first one in letter order |
| IndexModel.ChosenFieldFits | src/subscription_index.rs:338-372 | a filter is indexed only by a field whose constraint is present and non-empty |
| IndexModel.ChosenFieldExactly | src/subscription_index.rs:338-372 | a filter is indexed by its ids if they are constrained, or else its authors, or else its kinds, or else its first constrained tag letter, and otherwise by none |
| IndexModel.InsertBucket | src/subscription_index.rs:375-435 | adding a filter appends it to exactly the lists of its chosen field's keys |
| IndexModel.RemoveBucket | src/subscription_index.rs:438-513 | removing filters takes exactly them out of every list and keeps the order of the rest |
| IndexModel.AddSubscriptionValid | src/subscription_index.rs:161-216 | adding keeps the representation invariant: lists exact and by increasing id, none empty, ids unique and below the next id, groups partition the live filters |
| IndexModel.RemoveSubscriptionValid | src/subscription_index.rs:219-245 | removing keeps the representation invariant |
| IndexModel.MarkSeenValid | src/subscription_index.rs:264-326 | distributing keeps the representation invariant |
| IndexRefinement.CanonicalForm | src/subscription_index.rs:116-137 | every list of a valid index, order included, is determined by its live filters |
| IndexRefinement.AddThenRemove | src/subscription_index.rs:161-245 | adding under a new key and removing it again restores every map, list, group and marker |
| IndexRefinement.ContentsAdd | src/subscription_index.rs:161-216 | adding appends to the subscription's filter list and leaves all other lists alone |
| IndexRefinement.ContentsRemove | src/subscription_index.rs:219-245 | removing drops exactly that subscription's filter list |
| IndexRefinement.MatchIsCandidate | src/subscription_index.rs:516-586 | whichever field a filter is indexed by, an event it matches looks up one of its lists |
| IndexRefinement.FreshMatchesWithinScan | src/subscription_index.rs:264-319 | only subscriptions with a matching live filter are ever reported, repeated events included |
| IndexRefinement.FreshMatchesIsScan | tests/subscription_index_test.rs:601-621 | an event the markers do not hold is reported to exactly the subscriptions the linear scan finds |
| IndexRefinement.RepeatReportsNothing | src/subscription_index.rs:264-319 | distributing the same event again at once reports nothing |
| IndexRefinement.RunInvariant | src/subscription_index.rs:145-335 | every run reaches a valid index holding the reference's filter lists and marking only distributed events |
| IndexRefinement.RunRefinesScan | src/subscription_index.rs:248-335 | over whole runs, a new event is reported to exactly the subscriptions the scan of all live filters finds |
| IndexHistory.OwnedIsLive | src/subscription_index.rs:264-326 | over every run, a filter's marker is the last event distributed since its addition that it matches |
| IndexHistory.MarkerIsLastReported | src/subscription_index.rs:296-319 | over every run, a subscription's marker is the last event reported for it since it was last removed |
| IndexHistory.ReportsAreDue | src/subscription_index.rs:264-326 | after any run, repeated events included, a subscription is reported if and only if the event is not the last one reported for it and one of its live filters matches it whose last match is another event |
| IndexHistory.EveryReportIsDue | src/subscription_index.rs:264-326 | the same of every operation of a run: its report is determined by the operations and reports before it |
| SubscriptionIndexes.PushEach | src/subscription_index.rs:381-388 | the loop that pushes a filter under each key computes the one-step update of the whole structure |
| SubscriptionIndexes.RetainEach | src/subscription_index.rs:447-459 | the retain loop drops one filter from the lists of the given keys and the lists that become empty |
| SubscriptionIndexes.RemoveOwnKeysRemoves | src/subscription_index.rs:438-513 | cleaning only a filter's own keys removes it from the whole index |
| SubscriptionIndexes.SubscriptionIndex.AddSubscription | src/subscription_index.rs:161-216 | the object's new state is the value-level addition, its filter lists grow by the given filters |
| SubscriptionIndexes.SubscriptionIndex.RemoveSubscription | src/subscription_index.rs:219-245 | the object's new state is the value-level removal, whatever order the ids are visited in |
| SubscriptionIndexes.SubscriptionIndex.GetCandidateFilters | src/subscription_index.rs:516-586 | the candidates are exactly the live filters one of whose lists the event looks up, each once |
| SubscriptionIndexes.SubscriptionIndex.DistributeEvent | src/subscription_index.rs:248-335 | reports, without duplicates, exactly the unmarked groups with an unmarked matching filter: for a new event exactly the scan's result, for any event exactly the subscriptions to be told of it after what they heard; marks exactly these groups and all matching filters |
| IndexRuns.RunIndex | src/subscription_index.rs:145-335 | in any run of the index object every operation reports, once each, exactly the subscriptions due by the operations before it |
| Hearing.RecallsFresh | src/subscription_index.rs:264-326 | if every subscription got its filters at once, a distribution reports exactly those to be told of the event after the events they heard |
| Hearing.ToldExactly | src/subscription_index.rs:264-326 | where an id stands for one event, a subscription is told of an event if and only if one of its filters matches it whose last match among the events heard is another one |
| Hearing.ToldAgain | src/subscription_index.rs:66-71 | an event is not told twice in a row, but again once another one came in between that the same filter matches |
| Hearing.NotToldAgain | src/subscription_index.rs:283-290 | an event is not told again if what came in between matches only another filter of the subscription |
| ConcurrentDistribution.OwnStep | src/subscription_index.rs:264-319 | a task never finds its own event on a marker it checks, because only it writes that id |
| ConcurrentDistribution.InterleavedDistributionIsScan | src/subscription_index.rs:264-319 | under any interleaving, per lock acquisition, of distributions of different new events, each finished call reports exactly its own scan result, once each |
| ConcurrentDistribution.EnoughTurnsFinish | src/subscription_index.rs:264-326 | a call given four turns per candidate finishes whatever the others do |
| ConcurrentDistribution.SoloCallIsDistribution | src/subscription_index.rs:264-326 | a call that runs alone, one lock acquisition at a time, reports for any event what the index's own loop does and leaves exactly its markers |
| Messaging.Channel.TrySend | src/nostr_middleware.rs:32-46 | a message is queued exactly when the channel is connected and has room |
| Messaging.MessageSender.Send | src/nostr_middleware.rs:32-46 | a message is queued under the sender's own position |
| Messaging.MessageSender.SendBypass | src/nostr_middleware.rs:53-72 | a message is queued under the position one further in, or 0 |
| RegistryModel.TotalSplit | src/subscription_registry.rs:55-62 | the subscription count is the sum over connections, in any order |
| RegistryModel.AddStateOk | src/subscription_registry.rs:165-210 | an addition keeps agreement and count exactly when the id was not open, or open with no filter |
| RegistryModel.RemoveStateOk | src/subscription_registry.rs:217-252 | a removal keeps agreement, and the counter goes down by one |
| RegistryModel.RegisterStateOk | src/subscription_registry.rs:137-158 | registering keeps agreement and count exactly when no live connection with open subscriptions is overwritten |
| RegistryModel.CleanupStateOk | src/subscription_registry.rs:273-323 | a cleanup takes exactly the connection's own subscriptions out of its scope's index and off the counter |
| RegistryModel.ListScanIsConnectionScan | src/subscription_registry.rs:433-442 | the scan of a scope's index lists is the scan of its connections' open subscriptions |
| RegistryModel.BatchElements | src/subscription_registry.rs:433-461 | a connection's batch holds one EVENT per reported subscription of its own and nothing else |
| SubscriptionRegistries.SubscriptionRegistry.RegisterConnection | src/subscription_registry.rs:137-158 | the new connection map, and exactly when the invariant survives |
| SubscriptionRegistries.SubscriptionRegistry.AddSubscription | src/subscription_registry.rs:165-210 | the new connections, counter and index lists, and an error with no change for an unknown connection |
| SubscriptionRegistries.SubscriptionRegistry.RemoveSubscription | src/subscription_registry.rs:217-252 | the new connections; the agreement of every scope's index and the count are kept, absent subscriptions included |
| SubscriptionRegistries.SubscriptionRegistry.CleanupConnection | src/subscription_registry.rs:273-323 | the connection and all its subscriptions are gone from registry, index and count; a second cleanup changes nothing |
| SubscriptionRegistries.SubscriptionRegistry.SendReports | src/subscription_registry.rs:433-483 | every channel takes as much of its batch as it has room for; the connections with a refused send are exactly those whose batch exceeds their room |
| SubscriptionRegistries.SubscriptionRegistry.DistributeEvent | src/subscription_registry.rs:397-494 | an event is queued once per open subscription of the scope that is to be told of it after what it heard since it was opened: all that match, if none has heard it; no other scope's channel changes, and exactly the connections that refused are cleaned up |
| SubscriptionCoordinator.CloseThenOpen | src/subscription_coordinator.rs:335-349 | closing first makes every addition sound and yields the latest filter list |
| SubscriptionCoordinator.AddSubscription | src/subscription_coordinator.rs:335-349 | replacement: afterwards the index holds exactly the latest filter list |
| RelayRuns.BatchIsDue | src/subscription_registry.rs:433-461 | the batch sent to a connection is exactly the EVENT messages due to its reported subscriptions, once each |
| RelayRuns.FitsDelivered | src/subscription_registry.rs:433-489 | a client gets all that is due, or what its channel has room for and then loses its registration |
| RelayRuns.DoPublish | src/subscription_registry.rs:397-494 | publishing through the index does to every client what the reference does, for new and repeated events |
| RelayRuns.DoSubscribe | src/relay_middleware.rs:159-225 | a REQ gives its client the slot, the stored events, the end marker and the subscription that the reference gives it, and leaves all other clients alone |
| RelayRuns.ActiveIsOpenCount | src/subscription_registry.rs:198-203 | the counter equals the number of open subscriptions over all clients |
| RelayModel.OpenExactly | src/subscription_registry.rs:165-252 | a client's subscription is open with these filters if and only if some REQ opened it and no act since closed, dropped or replaced it |
| RelayModel.HeardSince | src/subscription_index.rs:264-326 | an open subscription has heard exactly what was published in its scope since the REQ that opened it |
| RelayModel.TellsExactly | src/subscription_registry.rs:397-494 | of every event published, repeated ones included, exactly those open subscriptions of the scope are told that have a filter matching it whose last match published since their REQ is another event |
| RelayModel.NewIsScanned | src/subscription_registry.rs:397-494 | an event not published before in the scope is told to exactly the subscriptions a scan of the open filters finds |
| RelayModel.NewOnlyRun | src/subscription_registry.rs:397-494 | if no event is published twice in a scope, every client ends as in the reference that scans all open filters |
| RelayModel.SlotsFollowActs | src/relay_middleware.rs:159-225 | in the reference, each client's slots and live subscriptions are those of the quota machine run on its own requests with their outcomes, closes and cleanups |
| RelayRuns.RunRelay | src/subscription_registry.rs:124-494 | after any run of many clients over the index, REQs, failing ones, repeated events and dropped clients included, every client's quota, subscriptions and queue are the reference's, a function of the acts alone; the counter is exact, and live ids hold slots within the limit |
| Pagination.SelectElements | src/subscription_coordinator.rs:581-585 | a store query selects exactly the matching events, in store order |
| Pagination.SortSorted | src/subscription_coordinator.rs:610-613 | the stable sort of a window already newest first changes nothing |
| Pagination.SendsElements | src/subscription_coordinator.rs:592-629 | a window sends, in order, the first of its visible events not sent yet, up to the limit |
| Pagination.PageSafe | src/subscription_coordinator.rs:560-655 | one filter sends only stored, new, visible events within its bounds, newest first across windows, at most the limit |
| Pagination.PageFiltersSafe | src/subscription_coordinator.rs:556-655 | for any filter list no event is sent twice, and each filter's part is stored, visible, matching with since and until, newest first and within the limit |
| PaginationRefinement.SelectBelow | src/subscription_coordinator.rs:639-641 | lowering the bound keeps exactly the matches at or below it |
| PaginationWalk.PagingSendsMet | src/subscription_coordinator.rs:544-655 | for any store and whatever was sent before, a filter sends exactly the newest L visible unsent ones of the matches its windows get past |
| PaginationWalk.ResumesBelowSecond | src/subscription_coordinator.rs:594-641 | the next window starts right below the second of the last unsent event of this one |
| PaginationWalk.SentExactly | src/subscription_coordinator.rs:544-655 | a match is sent if and only if it is visible, unsent and met, and fewer than L such matches come before it |
| PaginationWalk.NothingLostExactly | src/subscription_coordinator.rs:544-655 | the newest L visible unsent matches are sent if and only if each of those the windows miss has at least L newer ones |
| PaginationWalk.EndsEmptyExactly | src/subscription_coordinator.rs:587-590 | a scan ends on an empty window if and only if its windows run out of matches within the attempts without filling the limit |
| PaginationWalk.EmptyWindowMeansComplete | src/subscription_coordinator.rs:574-653 | a scan that ends on an empty window sends a visible unsent match if and only if it is met, and one it does not send shares its second with another unsent match that is met |
| PaginationWalk.PageFiltersExact | src/subscription_coordinator.rs:556-655 | for any filter list, exactly what each filter sends, given what was sent for those before it |
| PaginationWalk.OlderInsteadExample | src/subscription_coordinator.rs:625-641 | a scan that reaches its limit with an older visible event in place of a newer one that shares its second with a hidden one |
| PaginationFrontier.PagingIsFrontier | src/subscription_coordinator.rs:544-655 | with distinct timestamps and whatever was sent before, a filter sends exactly the newest L visible unsent ones of the matches its windows get past |
| PaginationWalk.StuckSilent | src/subscription_coordinator.rs:594-653 | a window wholly sent before is queried again until the attempts are spent, or ends the scan at once, and nothing more is sent |
| PaginationFrontier.PagingStopsAtFirstRun | src/subscription_coordinator.rs:561-654 | with distinct timestamps and short of the attempt cap, a filter sends its newest L visible unsent matches before the first run of L consecutive already sent ones |
| PaginationFrontier.NothingLostBeyondFrontier | src/subscription_coordinator.rs:561-654 | with distinct timestamps, nothing is lost if and only if the visible unsent matches before the frontier fill the limit or none lies beyond it |
| PaginationFrontier.NothingLostBeforeFirstRun | src/subscription_coordinator.rs:561-654 | with distinct timestamps, the same if-and-only-if seen from the first run of already sent matches |
| PaginationFrontier.FewOverlapsLoseNothing | src/subscription_coordinator.rs:594-597 | with distinct timestamps, if fewer already sent events than the limit match the filter, nothing is lost short of the attempt cap |
| PaginationFrontier.CapSuffices | src/subscription_coordinator.rs:646-652 | fifty attempts are enough for at most 25 (L + 1) matches, whatever was sent before |
| PaginationFrontier.StallExample | src/subscription_coordinator.rs:594-653 | a filter that stalls on its second window and never sends an older visible unsent match |
| PaginationFrontier.PagingIsNewestVisible | src/subscription_coordinator.rs:544-655 | with distinct timestamps, a single filter sends the newest L visible ones of the newest 50 L matches |
| PaginationRefinement.SameSecondExample | src/subscription_coordinator.rs:639-641 | of two events of one second with limit one, the visible one behind the hidden one is lost |
| PaginationRefinement.StalledSilent | src/subscription_coordinator.rs:639-641 | at timestamp zero the bound stops moving, and once the repeated window holds nothing to send, nothing is sent again |
| PaginationFrontier.GivesUpExactlyWhenSent | src/subscription_coordinator.rs:594-645 | a filter stops for want of a timestamp exactly when its newest window was already sent, and then sends nothing |
| PaginationFrontier.OverlapExample | src/subscription_coordinator.rs:594-645 | an overlapping filter that sends nothing although an older match is visible, unsent and within the limit |
| SubscriptionCoordinator.SmallestLimit | src/subscription_coordinator.rs:543-554 | the limit in force is the minimum of all requested limits and the configured maximum |
| SubscriptionCoordinator.PartsWithinLimit | src/subscription_coordinator.rs:615-629 | no filter of a REQ sends more events than the limit, whatever the store |
| SubscriptionCoordinator.SortOut | src/subscription_coordinator.rs:592-608 | the first inner loop picks the unsent visible events and tracks the oldest unsent timestamp |
| SubscriptionCoordinator.SendStored | src/subscription_coordinator.rs:615-629 | the second inner loop sends the first events the limit allows and records their ids, refused sends included |
| PartialPaging.AllTurns | src/subscription_coordinator.rs:556-655 | what the single queries send adds up to what the whole REQ sends |
| PartialPaging.FailedReqSendsPrefix | src/subscription_coordinator.rs:581-585 | a REQ ended by a failing query has sent a prefix of what it would have sent |
| SubscriptionCoordinator.ScanFilter | src/subscription_coordinator.rs:561-654 | the pagination loop of a filter sends exactly the specified events, query by query, and ends at the first failing one |
| SubscriptionCoordinator.ScanFilters | src/subscription_coordinator.rs:556-655 | the loop over the filters sends the specified events of every query before the first failing one |
| SubscriptionCoordinator.ProcessHistoricalEvents | src/subscription_coordinator.rs:534-668 | fails exactly at the first failing query or when the end marker finds no room; the channel has what it had room for of the events sent, and after a success one EOSE |
| SubscriptionCoordinator.HistoricEvents | src/subscription_coordinator.rs:534-668 | a REQ is answered under the least of the maximum and all limits asked for; its historical part fails exactly if a query does; without one the events sent are exactly those of the paging function under that limit, otherwise a prefix; it is complete exactly if there is room for the end marker after all of them |
| SubscriptionCoordinator.CompleteReply | src/subscription_coordinator.rs:534-668 | a complete REQ queues all stored events in order, each as an EVENT of the REQ's own subscription sent past one position, and after them its one EOSE |
| SubscriptionCoordinator.IncompleteReply | src/subscription_coordinator.rs:534-668 | any other REQ queues no EOSE and as many EVENTs as fit: of all stored events, or after a failing query of those of the queries before it |
| SubscriptionCoordinator.ResultExactly | src/subscription_coordinator.rs:502-532 | exactly when a REQ registers, fails for a query, fails for want of room, or finds no connection |
| SubscriptionCoordinator.HandleReq | src/subscription_coordinator.rs:502-532 | stored events, then EOSE, then live registration: the subscription is opened if and only if no query fails, all stored events leave room for one more message and the connection is there; the EOSE is then the last message queued, and otherwise no connection changes |
| MiddlewareChain.BuiltChain | src/middleware_chain.rs:122-139 | in every built and connected chain position k holds the k-th middleware added, with a sender of position k |
| MiddlewareChain.OutboundRouting | src/middleware_chain.rs:258-284 | a message tagged p is processed by exactly the positions from p outward, ascending, up to the first error |
| MiddlewareChain.BypassEntersFurtherIn | src/nostr_middleware.rs:48-61 | a bypassing send is processed by the middleware inside the sender's, and by the sender's own exactly if that one returns no error |
| MiddlewareChain.ConnectOrder | src/middleware_chain.rs:232-248 | connecting runs the hooks from the outermost inward, each on the state the one before left, up to the first error, and visits just these positions |
| MiddlewareChain.DisconnectOrder | src/middleware_chain.rs:286-303 | disconnecting runs the hooks from the innermost outward, each on the state the one before left, up to the first error, and visits just these positions |
| MiddlewareChain.DisconnectReversesConnect | src/middleware_chain.rs:232-303 | without errors the disconnect order is the reverse of the connect order |
| MiddlewareChain.RelaySendsFromZero | src/relay_builder.rs:513-517 | the relay middleware sends under position 0 in both ways |
| MiddlewareChain.RelayPassesOn | src/relay_middleware.rs:603-637 | behind the relay's check any outer middlewares process a visible EVENT and every other message unchanged; an invisible EVENT is dropped before them and a failing check is an error |
| MiddlewareChain.EventsOnTheSocketAreVisible | src/relay_middleware.rs:603-637 | behind outer middlewares that pass or drop, an EVENT reaches the socket only if the check answered yes; it is handed to them if it did, and dropped by the relay if and only if the check said no |
| ConnectionStates.ConnectionState.ReserveQuotaSlot | src/state.rs:333-361 | a slot is granted exactly to a held id or while the limit is not reached |
| ConnectionStates.ConnectionState.ReleaseQuotaSlot | src/state.rs:370-372 | exactly that slot is released |
| ConnectionStates.ConnectionState.SetAuthenticated | src/state.rs:166-178 | records the key, uses up the challenge, mirrors the key in the shared context |
| ConnectionStates.ConnectionState.GetChallengeEvent | src/state.rs:282-291 | a pending challenge is reused, otherwise the new one is recorded and sent |
| Quota.QuotaCoversRegistry | src/state.rs:333-372 | over every run of REQ, CLOSE and cleanup, failing REQs included, live ids hold slots and stay within the limit |
| Quota.QuotaIsHeldSlots | src/state.rs:333-372 | a slot is held exactly by the ids with an accepted REQ and no CLOSE of that id after it |
| Quota.LiveIsRegistered | src/relay_middleware.rs:477-497 | a subscription is live exactly with a registered REQ and neither a CLOSE of that id nor a cleanup after it |
| Quota.QuotaEqualsLiveExactly | src/state.rs:333-372 | which slots are idle, and that quota and live ids are equal if and only if every accepted REQ not closed since has a live registration |
| Quota.CleanupKeepsSlots | src/subscription_registry.rs:479-489 | after a cleanup, every id with an accepted REQ not closed before it holds an idle slot, over any later requests until the id is closed or requested again |
| Quota.FailedReqKeepsItsSlot | src/relay_middleware.rs:180-221 | after any run, a REQ that fails after reserving holds an idle slot until its id is closed or requested again |
| Quota.AnswerExactly | src/relay_middleware.rs:159-225 | exactly when a REQ is refused for its filters, refused for its quota, left without a coordinator, registered, or failed in each way |
| Quota.HandleSubscription | src/relay_middleware.rs:159-225 | a REQ moves quota and live ids as the machine does, in each of its outcomes |
| Quota.HandleClose | src/relay_middleware.rs:477-497 | a CLOSE releases the slot and removes the live subscription |
| Quota.HandleDisconnect | src/relay_middleware.rs:639-656 | a disconnection removes all live subscriptions of the connection |
| Subdomain.JoinSplit | src/subdomain.rs:23-29 | joining the parts of a split gives the string back |
| Subdomain.SplitAround | src/middlewares/nip42_auth.rs:95-97 | splitting at a separator splits both sides |
| Subdomain.ExtractRecoversPrefix | src/subdomain.rs:14-30 | the name put in front of a base domain is recovered, whatever dots either contains |
| Subdomain.ExtractExactly | src/subdomain.rs:14-30 | with or without a port, a host has the subdomain in front of a base of the given number of parts, and none if there is no such base or it is localhost or an address literal |
| Subdomain.BaseMatches | src/middlewares/nip42_auth.rs:95-118 | the base comparison holds exactly for the relay host or a name, a dot and the relay host |
| Subdomain.LocalUrlAccepted | src/middlewares/nip42_auth.rs:66-91 | a URL is judged by equality but for trailing slashes exactly if it or the relay's names this machine; any other two must both have a host |
| Subdomain.RelayUrlAccepted | src/middlewares/nip42_auth.rs:66-147 | with subdomain validation a named scope accepts exactly name.relay and the default scope exactly the relay host, address literals of both kinds spelled out |
| Subdomain.RelayUrlAcceptedInDomain | src/middlewares/nip42_auth.rs:114-123 | without subdomain validation exactly the hosts in the relay's domain are accepted |
| Nip42.VerdictExact | src/middlewares/nip42_auth.rs:202-357 | an AUTH passes all checks exactly when kind, signature, first challenge tag, first relay tag and age answer the pending challenge |
| Nip42.VerdictIsFirstFailure | src/middlewares/nip42_auth.rs:202-357 | a refusal names the first check that fails, in the order they are made |
| Nip42.ChallengesAreSpent | src/state.rs:166-178 | the pending challenge was issued to this connection, and successes never outnumber greetings |
| Nip42.AtMostOnce | src/middlewares/nip42_auth.rs:154-179 | a connection greeted once authenticates at most once |
| Nip42.AuthenticatedOnlyByAnswer | src/middlewares/nip42_auth.rs:181-376 | in every run the context mirrors the state, and the key is that of an earlier AUTH that answered a challenge issued to this connection before it |
| Nip42.AuthenticatedExactly | src/middlewares/nip42_auth.rs:154-376 | in every run the pending challenge is that of the first greeting since the last AUTH granted, and the state and context hold key p if and only if the last AUTH that answered the challenge pending at its index was p's |
| Nip42.AnswerAuthenticates | src/middlewares/nip42_auth.rs:358-362 | right after an AUTH that answers the pending challenge its key is authenticated in state and context, and no challenge is pending |
| Nip42.OnConnect | src/middlewares/nip42_auth.rs:154-179 | greets with the pending or a new challenge |
| Nip42.ProcessAuth | src/middlewares/nip42_auth.rs:181-376 | an AUTH that answers the pending challenge authenticates its key in state and context and uses up the challenge, even if the OK is refused; any other changes nothing; one OK is sent, positive exactly then |
| ReplaceableBuffer.ReplaceableEventsBuffer.Insert | src/subscription_coordinator.rs:129-143 | a replaceable event replaces its key's entry, any other event is skipped |
| ReplaceableBuffer.ReplaceableEventsBuffer.Flush | src/subscription_coordinator.rs:150-223 | the buffer is emptied and each of its events goes through signing, saving and broadcasting once |
| ReplaceableBuffer.BroadcastsAfterSave | src/subscription_coordinator.rs:186-211 | every broadcast directly follows the successful save of that event in that scope |
| ReplaceableBuffer.FlushInOrder | src/subscription_coordinator.rs:166-211 | in a flush every event that comes back signed is saved next in its scope and every one saved is broadcast next, and nothing else is saved or broadcast |
| ReplaceableBuffer.LastWriterWins | src/subscription_coordinator.rs:129-143 | over every run the buffer holds exactly the last replaceable event per author, kind and scope since the last flush |
| ReplaceableBuffer.FlushSubmitsLastWriters | src/subscription_coordinator.rs:150-223 | a flush submits, once each, exactly those events |

## Left out

- Last-seen markers are kept in maps beside the tracked filters instead of inside shared filter objects.
- Filter ids are unbounded; the 64-bit counter never wraps in the model.
- The free-text `search` field of filters is not part of the match.
- Registry calls are atomic steps. The window inside a cleanup between reading the ids and removing the connection is not interleaved.
- Yield points, lock fairness, timers and task scheduling are not modelled; progress is stated only as turns given to a task.
- The store answers from one fixed list of events, newest first, during a REQ. Which of its queries fail is a parameter; writes during a REQ and the LMDB layer are not modelled.
- The visibility check is a pure predicate during one REQ; in the chain it may depend on the shared state.
- Nobody receives from the channel while a REQ sends its stored events. With a concurrent receiver a refused event can be lost while the end marker is queued.
- RunRelay: whole runs compare a client's queue as a multiset, since deliveries visit the reported subscriptions in no fixed order; what a refused delivery leaves on the dropped client's channel is bounded, not fixed, until the client drains it.
- The clients of a run and their channels are given at its start, and an id that is still live is not registered again in a run (`RegisterStateOk` says when that would be sound).
- Pre-serialised JSON, parsing, hashing and signatures: a message is its content, a signature check is a boolean.
- Inbound processing of the chain, `Either` and identity wrappers, logging, metrics, rate limiting, NIP-40 and NIP-70 middlewares.
- URL parsing and recognition of address literals are parameters.
- RelayUrlAccepted: a host with both a colon and a dot is not covered, because the URL parser yields none: it cuts off the port, and writes bracketed literals without dots.
- The wording of OK messages is a parameter.
- Negentropy messages, COUNT, HTTP and websocket plumbing, diagnostics, and the command-line tools.
- `save_and_broadcast` for signed events and deletions: only the buffer's save-then-broadcast is modelled.
