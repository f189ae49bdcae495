# MiniPush verified

MiniPush stores events from a Kafka topic for their recipients, pushes each user's new head sequence
number to the user's websocket sessions, and lets clients fetch events and read states. This project
models its four stateful parts and proves what they promise over whole runs:

- **Ingestion** — `EventTables`, `EventStore`, `SeqTransactions`, `Ingest`, `IngestAlways`, `IngestSafety`,
  `IngestRuns`, `IngestProgress`, `ExactlyOnce`, `IngestNumbers`, `IngestViews`, `IngestEffects`, `Consumer`: one consumer fetches from one partition,
  filters, saves in a transaction that may fail at a query or at its commit, with or without effect, commits the
  offset, and may panic, crash, be handed messages again or fall back, while a cleaner deletes old events and clients
  mark events as read.
- **Flow control** — `HeadCache`, `FlowControl`, `PushTimes`: the cache that coalesces head numbers before they are pushed.
- **Sessions** — `Sessions`, `Selection`, `Standalone`, `SessionQuota`, `SessionStore`, `ClusterSessions`, `PushServer`,
  `OneHubCluster`, `Expiry`, `Hubs`, `HubProtocol`, `HubAgreement`, `HubSettles`, `Rejoining`, `Teardown`, `TeardownRuns`: the
  standalone server, the leader and its hubs, the per-user quota, and the life of one session under all its threads.
- **Read states and catch-up** — `Bits`, `ReadStates`, `Windows`, `CatchUp`: the bitmap the server packs and
  the client unpacks, the unread count, and the client's range requests.

Code that updates things in place is a class with methods, each proved against a specification function or
relation; the properties are then proved of those and, where they span operations, of all runs of a step
machine. Beside what never happens in a run stands what can happen: from every reachable state a message can be taken
in, a number given out, a hub brought into agreement, and for every cause for which sessions are closed there is a run.
`Iteration`, `Integers` and `Options` are small helpers.

Conventions. Instants are integers in nanoseconds, and session times in seconds. Local midnight is an abstract
idempotent floor function in the configuration. The comparison of a `DATETIME(3)` column with Unix seconds
(`store/event.go:298-302`) is read as the comparison of instants that it is meant to be. Clocks, the outcome
of every commit and of every network call, and the order in which a Go map is visited are parameters or free
choices. Create times may tie, and a sort then leaves the order open, so a selection is a relation.

Where the code is not what it seems, the model follows the code:

- The exactly-once promise does not hold for every timing: cleaning can remove an event that is still being
  retried. `ExactlyOnce.AtMostOnceIff` gives the exact condition, and `IngestNumbers.OrderedIff` the same
  one for numbers that follow the offsets. That nothing is lost holds for every timing (`IngestAlways.NothingIsLost`).
- A save that finds its offset stored reads the row back, and returns the duplicate key error when that query fails
  (`store/event.go:224-231`). The consumer takes it for a programming error and panics (`cluster/eventstore.go:284-286`).
  `IngestAlways.PanicsIff` shows that this is exactly when it panics, in any run, and `IngestRuns.PanicRun` is such a
  run. The other panic, in the put, is never reached.
- When the answer to a save is lost, the retry finds the message stored and reports no heads, so its recipients are told
  only with their next event. `IngestProgress.AnnouncedIff` shows that this is exactly when a stored head is not
  announced within a process, and `IngestProgress.UntoldRun` is such a run.
- The send loop of a session returns after it has appended its own error (`ws/handler.go:252-269`), so nobody takes the
  error from the channel. `TeardownRuns.ClosedForIff` shows that no session is ever closed for a failed write or ping, and
  `Teardown.FailedWriteStrands` that such a session is closed only when the server stops.
- The block split fires only on upward jumps (`store/util.go:29`) while rows arrive in descending order, so a
  gapped list is misread. `ReadStates.RoundTripIff` and, for stored rows, `Windows.WindowRoundTripIff` give the exact
  condition. `IngestViews.ReadStatesEndToEnd` shows that it is met when create times follow the log, and
  `IngestViews.GappedRun` is a run in which they do not and the client is misled.
- With equal create times the quota can hit an unkicked session while a kicked one lingers.
  `SessionQuota.TiesLeaveNobody` is a run that leaves a user with no session at all, and `SessionQuota.ExactIff`
  gives the exact condition for a given quota.
- A session is marked as kicked off even when the message to its hub could not be sent, because the test looks
  at an older variable (`cluster/server.go:251`).
- With cleaning off, the discard age is a 64-bit overflow of a 32-bit maximum of days. `IngestViews.FilterAge`
  says what remains of it.
- A hub that comes back under its id (`cluster/cluster.go:71`) before its old part was collected leaves closed
  sessions behind in the leader's table, because a sync only adds. `Rejoining.StaleRun` is such a run, and
  `HubAgreement.AgreesIff` gives the exact condition.
- `MakeGetReadStatesResp` takes lists of different lengths, and panics on some. `ReadStates.MakeGetReadStatesResp`
  says exactly when.

## Model

| member | source | states |
|---|---|---|
| `ExactlyOnce.ExactlyOnce` | cluster/eventstore.go:221-312 | over every run with crashes, panics, redelivery, failed or ambiguous commits, failed queries and cleaning, if saves are made in time: the put never panics, every offset below the committed one was inserted exactly once or refused by the filter, and an inserted offset gave each user as many rows as the message lists the user |
| `ExactlyOnce.AtMostOnceIff` | cluster/eventstore.go:257-299 | in every run each offset is inserted at most once if and only if every save attempt comes less than a day after its message passed the filter, or cleaning is off; otherwise a concrete run inserts one offset twice |
| `ExactlyOnce.LateRun` | store/event.go:295-318 | for every save delay of a day or more with cleaning on: a run that fetches, saves, loses the answer, cleans and saves again, and so has inserted exactly offset 0, twice |
| `IngestAlways.NothingIsLost` | cluster/eventstore.go:221-312 | over every run, panics included and however late messages are saved: the put never panics, and every offset below the committed one was inserted or refused by the filter, which refuses it still |
| `IngestAlways.StepKeeps` | cluster/eventstore.go:221-348 | every step, panics included, keeps the invariant behind it, without any bound on the delay of saves |
| `IngestAlways.PanicsIff` | cluster/eventstore.go:281-286 | over every run, with any timing: a step makes the consumer panic if and only if it is an attempt to save a stored offset whose row cannot be read back |
| `IngestAlways.LivesIff` | cluster/eventstore.go:246-299 | a part of a run is free of panics if and only if no attempt in it meets a stored row that it cannot read back |
| `IngestRuns.PanicRun` | store/event.go:224-231 | in every configuration, from any time on: a run in which a message is saved, the answer is lost, the retry cannot read the row back, and the consumer panics |
| `IngestProgress.AttemptIff` | cluster/eventstore.go:248-299 | over every run: an attempt gets its message past the save if and only if the commit succeeds and the message is stored already or fits; it is stored afterwards if and only if it was, or it fits and the database committed; otherwise the consumer goes on trying or panics |
| `IngestProgress.PutBeforeCommit` | cluster/eventstore.go:251-260 | over every run: after a save that reported heads, unless the process crashes, the offset is not committed and no other message fetched before just those heads were put |
| `IngestProgress.AnnouncedIff` | cluster/eventstore.go:251-255 | within a process, between messages: the number waiting for a user, or else pushed last, is the stored head if and only if the answer to the save that raised the head last was not lost |
| `IngestProgress.EverybodyIsTold` | cluster/eventstore.go:251-255 | within a process in which no answer was lost, between messages: every user who got a row since has the stored head waiting or pushed |
| `IngestProgress.UntoldRun` | store/event.go:224-231 | in every configuration, from any time on: a run after which a user has a row, the offset is committed, and nothing waits or was pushed for the user |
| `IngestProgress.CanIngest` | cluster/eventstore.go:221-312 | from every state between messages whose next message is new, accepted and fits, the run can go on so that it is stored, all new heads are put and the offset is committed |
| `IngestSafety.StepKeepsInv` | cluster/eventstore.go:221-348 | if saves are made in time: the ingestion invariant (tables twin to the never-cleaned tables, journal in order, refused stays refused, cutoffs old enough, consumer position covered, cache below the heads) is kept by every step |
| `IngestSafety.RunKeepsInv` | cluster/eventstore.go:221-348 | the invariant holds in every reachable state of runs that save in time |
| `IngestSafety.SavingIsStoredOrNew` | cluster/eventstore.go:327-329 | a message that passed the filter less than a day ago was either never stored or is still stored, so cleaning cannot make its retry insert again |
| `IngestNumbers.TablesOverRuns` | store/event.go:234-293 | over every run, however late messages are saved: stored numbers lie in 1 to the head, and are exactly 1 to the head when nothing was cleaned; if saves are made in time they also follow the offsets, and the numbers missing are exactly those whose event was cleaned |
| `IngestNumbers.NoReuse` | store/event.go:260-293 | over every run, with any timing: a number that was stored and is gone is never stored again, and the head stays at or above it |
| `IngestNumbers.OrderedIff` | store/event.go:234-293 | in every run each user's numbers follow the offsets if and only if every save attempt comes less than a day after its message passed the filter, or cleaning is off |
| `IngestNumbers.DisorderRun` | store/event.go:295-318 | for every save delay of a day or more with cleaning on: a run in which a cleaned message is saved again under a number above that of a later one |
| `IngestViews.CleaningInvisibleOverRuns` | store/event.go:295-318 | over every run that saves in time, heads, unread counts and read-state replies for windows opening after the latest cutoff are those of tables that were never cleaned |
| `IngestViews.ReadStatesEndToEnd` | store/event.go:155-185 | over every run that saves in time with create times in log order, the rows selected for a user are contiguous, the reply is at most one block, and the client's decode recovers exactly each row's read state |
| `IngestViews.GappedRun` | store/event.go:155-185 | in every configuration, from any time on: a run with create times out of log order whose window selects the numbers 3 and 1, so that the reply misleads some client |
| `IngestViews.PushesOverRuns` | cluster/eventstore.go:144-197 | over every run since process start, with any timing: pushed heads grow, are a second apart and never exceed the stored head, and every put is pushed or waiting |
| `IngestEffects.FilterOverRuns` | cluster/eventstore.go:327-348 | over every run: only well-formed messages within the size limit were inserted, the one being saved was young enough when fetched, and what was refused is malformed, too large or too old |
| `IngestEffects.CleanedIff` | store/event.go:295-318 | a clean removes an event if and only if a local midnight at least the time to live and a day back has passed since it was created; user events go with their event, the rest and the heads stay |
| `IngestEffects.CutoffsAreOldMidnights` | store/event.go:295-302 | over every run, every cutoff cleaned at is a local midnight that lies at least the time to live and a day back |
| `IngestEffects.ReadIff` | store/event.go:187-206 | over every run, a stored row is the one first stored, and it is read if and only if that very row was marked since |
| `IngestViews.FilterAge` | cluster/eventstore.go:327-329 | which ages the filter refuses, with the 64-bit wrap-around when cleaning is off |
| `Consumer.Consumer.ConsumeLoop` | cluster/eventstore.go:221-312 | for every outcome of its calls, with messages produced, events cleaned and marked, pushes, fallbacks of the reader and restarts between any two calls: the loop is a run of the ingestion machine and stops only when cancelled, panicking or out of calls; it panics if and only if an attempt met a stored row that it could not read back; every offset below the committed one is inserted or refused, panic or not; no offset is inserted twice if no single attempt was a day late, or cleaning is off; unless the process crashes, the heads of a save are put before its offset is committed |
| `Consumer.Consumer.SaveLoop` | cluster/eventstore.go:246-299 | retries until a save succeeds, puts the heads, then commits; stays on a run of the machine, stops early only when cancelled, says in which phase each exit leaves the consumer, ends in the duplicate key panic exactly if the run has a panic, and records no delay beyond its own; when it is done, the offset is committed, a save of it succeeded, and the heads that save reported were put |
| `Consumer.Consumer.ConsumeOne` | cluster/eventstore.go:229-300 | one turn: the message at the position is refused, or it is saved, its heads are put and its offset is committed, unless the turn is cancelled, dies or panics |
| `Consumer.Consumer.SaveOnce` | cluster/eventstore.go:248-286 | one attempt: it leads to put and commit when it succeeds, to the panic exactly on a duplicate key, and otherwise leaves the consumer saving |
| `Consumer.Consumer.CommitLoop` | cluster/eventstore.go:256-277 | commits until Kafka accepts; then the committed offset is the next one; the consumer is still committing exactly when it was cancelled (or no more calls are described), and idle otherwise |
| `Consumer.Consumer.TrySave` | cluster/eventstore.go:248-250 | one save is one attempt of the machine, its delay is recorded, and it fails with a duplicate key if and only if the offset is stored and cannot be read back |
| `Consumer.Consumer.PutHeads` | cluster/eventstore.go:251-255 | the put of the new heads does not panic, and just these heads are put |
| `Consumer.Consumer.FetchMessage` | cluster/eventstore.go:331-348 | the message at the position is accepted exactly if small enough, well formed and young enough |
| `Consumer.Consumer.CommitMessages` | cluster/eventstore.go:257-260 | the committed offset moves exactly if the broker stored it, whatever the call reports |
| `SeqTransactions.CommittedNumbers` | store/event.go:260-293 | for any number of interleaved transactions on one user, with first insert, lost insert race and rollbacks: the numbers returned by those that commit are distinct and exactly 1 to the stored head |
| `SeqTransactions.StepKeepsInv` | store/event.go:260-293 | every statement of any transaction keeps the lock discipline and the serial numbering |
| `SeqTransactions.CanFinish` | store/event.go:260-293 | over every run, wherever a transaction stands in its call, lost insert race included: when nobody else holds the row it can finish and commit, with the next number |
| `SeqTransactions.CanIncrement` | store/event.go:260-293 | over every run, at any time, a new transaction can get the number after the stored head and commit it |
| `EventTables.SaveInserts` | store/event.go:215-258 | a save of a new offset keeps the tables valid, inserts all rows or nothing, returns the new heads when it succeeds, and never fails with a duplicate key |
| `EventTables.SaveSucceedsIff` | store/event.go:215-258 | a save of a new offset succeeds if and only if the commit does and every recipient is valid with 32-bit numbers left; the event is stored if and only if they are and the database commits, answer lost or not; only a refusal of a recipient is reported as such |
| `EventTables.SaveAgain` | store/event.go:218-231 | saving a stored offset again changes nothing and reports no head; it is a duplicate key if and only if the row cannot be read back or differs from the event in payload or millisecond, and otherwise succeeds exactly if the commit does |
| `EventTables.AllocationExtends` | store/event.go:241-252 | a recipient list adds rows numbered on from each head, one per occurrence, and changes no old row |
| `EventTables.RefusedWhenOutOfNumbers` | store/event.go:241-252 | a recipient list is refused if and only if a user is invalid or runs out of 32-bit numbers |
| `EventTables.CleanKeepsValid` | store/event.go:295-318 | cleaning removes the user events with their event, keeps the tables valid and leaves the heads alone |
| `EventTables.SetReadKeepsValid` | store/event.go:187-206 | marking keeps the tables valid |
| `EventStore.EventStore.Save` | store/event.go:215-258 | the statements of the transaction, with rollback at a failing query and the read-back of a stored row, come to the save of the specification, of which `EventTables.SaveSucceedsIff` says when it succeeds |
| `EventStore.EventStore.IncSeq` | store/event.go:260-293 | the head grows by one and is returned, also on the first insert, where the update matches no row |
| `EventStore.EventStore.Deliver` | store/event.go:241-252 | one turn of the recipient loop allocates one row or reports why not |
| `EventStore.EventStore.DeliverAll` | store/event.go:241-252 | the recipient loop allocates for the whole list and records each user's last number |
| `EventStore.EventStore.DeleteOutdatedEvents` | store/event.go:295-318 | exactly the events up to the cutoff go, with their user events, and their number is returned |
| `EventStore.EventStore.SetRead` | store/event.go:187-206 | the row becomes read; `changed` says whether it was unread |
| `EventStore.EventStore.Stats` | store/event.go:101-124 | the head, and the unread count when it is asked for |
| `EventStore.EventStore.GetReadStates` | store/event.go:155-185 | the blocks encode the runs of the selected rows |
| `EventStore.EventStore.ScanRows` | store/event.go:168-178 | the two lists hold the rows' numbers and read states in order |
| `HeadCache.HeadCache.Put` | cluster/eventstore.go:144-164 | panics exactly if a number is not above a cached one, and otherwise caches every number; `PushTimes.EntryIs` says what the entries then hold |
| `HeadCache.HeadCache.Check` | cluster/eventstore.go:166-197 | the due entries leave the cache and their heads are sent; nothing happens while another check sends |
| `FlowControl.FlowControl` | cluster/eventstore.go:144-197 | over every run of puts and checks: no panic, two pushes for a user are a second apart with growing heads, and puts equal counters pushed plus counters pending, with the largest put waiting or pushed last |
| `FlowControl.PutKeepsSteady` | cluster/eventstore.go:144-164 | a put that raises the heads does not panic and keeps spacing and conservation |
| `FlowControl.CheckKeepsSteady` | cluster/eventstore.go:166-197 | a check keeps spacing and conservation |
| `FlowControl.CheckLeavesTheBusy` | cluster/eventstore.go:178-187 | an entry that survives a check is unchanged, was raised more than once a second, and is no older than five seconds |
| `PushTimes.EntryIs` | cluster/eventstore.go:144-164 | over every run of puts and checks: a user has an entry if and only if some put was not pushed yet; it holds the number put last, the number of puts since the last push, and the time of the first of these |
| `PushTimes.PushesIff` | cluster/eventstore.go:166-197 | a check pushes to a user if and only if there was a put since the last push and the first of these lies more than five seconds back or there were no more of them than seconds since; it pushes the number put last |
| `PushTimes.NobodyWaitsLong` | cluster/eventstore.go:178-187 | after a check nobody waits whose first put since the last push lies more than five seconds back |
| `PushTimes.PutPanicsIff` | cluster/eventstore.go:148-154 | a put panics if and only if it does not raise the number last put for a user with a put not pushed yet |
| `Bits.BoolSliceToBytes` | store/util.go:61-75 | the bytes are the big-endian packing, with zero padding |
| `Bits.ByteArrayToBoolArray` | dev/demo/static/index.js:95-109 | every bit of every byte, most significant first |
| `Bits.UnpackUndoesPacking` | store/util.go:61-75 | unpacking and cutting to the length undoes packing, and the rest is zero |
| `Bits.PackingIsUnique` | store/util.go:59-60 | there is one packing of a list |
| `ReadStates.MakeGetReadStatesResp` | store/util.go:18-57 | for lists of any lengths: slicing panics exactly if the last block starts beyond the states; otherwise the blocks encode the parts into which the 32-bit split test cuts the lists, which for equal lengths are the runs |
| `ReadStates.MakeBlocks` | store/util.go:35-56 | cutting at the recorded positions gives one block per part, or the panic |
| `ReadStates.HandleGetReadStatesResp` | dev/demo/static/index.js:111-151 | the client's events take the states of the decoded pairs, in order, and unknown numbers are skipped |
| `ReadStates.DecodeBlock` | dev/demo/static/index.js:125-128 | a block decodes to its number and the states of its length |
| `ReadStates.ApplyRun` | dev/demo/static/index.js:128-145 | a run is applied downward from its number |
| `ReadStates.WireRoundTrip` | store/util.go:46-53 | decoding gives back exactly the runs that were encoded |
| `ReadStates.ClientSees` | dev/demo/static/index.js:128-130 | the numbers the client gives to the states, for every list |
| `ReadStates.RoundTripIff` | store/util.go:24-33 | for all lists the client recovers every (number, state) pair if and only if the list starts positive and goes down by one wherever the split test does not fire |
| `ReadStates.StatesRoundTrip` | store/util.go:18-57 | every list that starts positive keeps all its states in order |
| `ReadStates.GapsAreMisread` | store/util.go:29-31 | the descending list 9, 7 is misread |
| `ReadStates.AscendingBlocksAreRuns` | store/util_test.go:13-38 | on ascending positive lists below the 32-bit maximum the blocks are exactly the maximal runs of consecutive numbers |
| `ReadStates.DescendingIsOneBlock` | store/util.go:27-33 | a descending list is one block if and only if the 32-bit successor of its head does not wrap or it has one element |
| `Windows.UnreadCountIsZeroBits` | store/event.go:87-124 | for the same cutoff and a head number at or above the head, the zero bits within the declared lengths are as many as the unread count |
| `Windows.SetReadLowersTheCount` | store/event.go:187-206 | a change lowers the count by exactly one if the row is in the window, and there is a change exactly if the row was unread |
| `Windows.AtMostOneBlock` | store/event.go:155-185 | any window's reply is at most one block below the 32-bit maximum |
| `Windows.ConvexIsContiguous` | store/event.go:25-25 | rows without holes in the window are selected as consecutive descending numbers |
| `Windows.ConvexWindowRoundTrip` | store/event.go:155-185 | for rows without holes in the window the client ends with exactly the stored read states, and other events keep theirs |
| `Windows.WindowRoundTripIff` | store/event.go:155-185 | for any window, whatever read states the client has, it ends with exactly the stored ones and leaves other events alone if and only if the selected numbers go down by one wherever no block starts; below the 32-bit maximum, if and only if they have no gap |
| `Windows.CleaningIsInvisible` | store/event.go:24-31 | rows cleaned before a window opens change neither head, nor count, nor reply |
| `Windows.CleanAtTheCutoff` | store/event.go:24-31 | a clean at the very cutoff of a window removes from the count exactly the unread rows created at that instant |
| `CatchUp.RequestGetEvents` | dev/demo/static/index.js:268-304 | the ranges are disjoint, each at most the limit long, together exactly the numbers above the newest fetched up to the head, as few as possible; none when there is nothing new; it is a request step of the client's machine |
| `CatchUp.NothingIsMissed` | dev/demo/static/index.js:14-47 | over every run of a connection, with pushes and answers in any order, the requests ask for exactly 1 to the largest head heard, and once all are answered every kept row has arrived |
| `CatchUp.AsksOnlyForNewer` | dev/demo/static/index.js:268-304 | over every run, a request asks only for numbers above all those that have arrived, and for no more than the limit |
| `CatchUp.CoalescingLosesNothing` | cluster/eventstore.go:176-191 | a client that connects at any time, hears the head and then the coalesced pushes asks for every number put for its user once nothing waits in the cache |
| `Sessions.OverQuotaIsUnique` | cluster/sessionstore.go:83-96 | with distinct create times the selection is determined |
| `Selection.SortByCreateTime` | cluster/sessionstore.go:88-90 | sorted by create time, the same sessions, ties in any order |
| `Selection.PickOldest` | cluster/standalone.go:182-191 | as many sessions as exceed the quota, none newer than one that stays |
| `Selection.GroupByUser` | cluster/standalone.go:212-215 | each user's list holds exactly the user's sessions |
| `Selection.PickOldestOfAll` | cluster/standalone.go:217-231 | the same selection for every user at once |
| `Standalone.Standalone.Receive` | cluster/standalone.go:133-145 | the table and the kickoff list after one message are a step of the specification |
| `Standalone.Standalone.Tick` | cluster/standalone.go:129-132 | the table and the kickoff list after a cleaning are a step of the specification |
| `Standalone.Standalone.AddSessions` | cluster/standalone.go:240-246 | all sessions of the list are in the table, the last one winning |
| `Standalone.Standalone.GetUserSessionsToKickoff` | cluster/standalone.go:172-192 | the user's sessions over the quota, the oldest ones |
| `Standalone.Standalone.Kickoff` | cluster/standalone.go:160-169 | exactly the given sessions are marked and named |
| `Standalone.Standalone.CleanSession` | cluster/standalone.go:194-232 | a session stays if and only if it was not kicked off or at most 60 seconds ago, and the selection is made on what is left |
| `SessionQuota.QuotaOverRuns` | cluster/standalone.go:133-145 | over every run, syncs included, in which a user's sessions arrive with growing create times: kicked sessions are older than every unkicked one, and a user has more unkicked sessions than the quota only after a sync, until the next online or clean |
| `SessionQuota.SelectionKeepsNewest` | cluster/standalone.go:172-192 | lingering kicked sessions never cost a needed one: exactly the newest min(unkicked, quota) stay unkicked |
| `SessionQuota.OnlinePass` | cluster/standalone.go:137-141 | an online leaves the newest min(unkicked, quota) sessions of the user unkicked and other users alone |
| `SessionQuota.CleanPass` | cluster/standalone.go:194-232 | a clean leaves the newest min(unkicked, quota) sessions of every user unkicked |
| `SessionQuota.ExactIff` | cluster/standalone.go:182-191 | for a given quota every selection, however ties are sorted, leaves min(unkicked, quota) sessions if and only if the cut is clean: each unkicked session has as many before it as exceed the quota, or, when the unkicked ones do not fit, no kicked one lies beyond the cut |
| `SessionQuota.AlwaysExactIff` | cluster/standalone.go:187-191 | it does so for every quota if and only if kicked sessions are strictly older than unkicked ones |
| `SessionQuota.TieIsInexact` | cluster/standalone.go:187-191 | when a kicked session is not older than an unkicked one, some quota has a selection that takes the unkicked one, spares the kicked one, and leaves fewer unkicked sessions than it should |
| `SessionQuota.TiesLeaveNobody` | cluster/standalone.go:137-141 | a run with a quota of one in which three sessions of a user created in the same second leave the user with no unkicked session |
| `Expiry.StaysIff` | cluster/standalone.go:194-211 | over every run of the standalone server: while no message mentions a session and it is not kicked off, it stays, unchanged, if and only if no clean comes more than 60 seconds after its kickoff |
| `Expiry.KickedStaysIff` | cluster/standalone.go:160-211 | over every run: a session kicked off, and not mentioned or kicked off again since, is in the table if and only if every clean since came at most 60 seconds after the kickoff |
| `Expiry.LeaderKeepsUntil` | cluster/sessionstore.go:102-119 | over every run of leader and hubs: a session of which the leader hears nothing, and which it does not kick off again, stays known unchanged until a collection finds its hub gone or comes more than 60 seconds after its kickoff, and goes with that one |
| `SessionStore.SessionStore.Add` | cluster/sessionstore.go:36-46 | the entry is stored under its hub, tagged with it |
| `SessionStore.SessionStore.AddMany` | cluster/sessionstore.go:48-60 | all entries are stored under the hub, tagged with it |
| `SessionStore.SessionStore.Del` | cluster/sessionstore.go:62-68 | just that entry goes |
| `SessionStore.SessionStore.GetUserSessionsToKickoff` | cluster/sessionstore.go:71-97 | over all hubs, the user's sessions over the quota, none newer than one that stays |
| `SessionStore.SessionStore.Collect` | cluster/sessionstore.go:109-119 | an entry survives if and only if its hub is live and it was not kicked off or at most 60 seconds ago |
| `SessionStore.SessionStore.Gc` | cluster/sessionstore.go:102-145 | an entry survives, unchanged, if and only if its hub is live and it was not kicked off or at most 60 seconds ago; then the selection for every user on what is left |
| `ClusterSessions.RoutingConserves` | cluster/server.go:232-259 | kickoff messages to different hubs are disjoint, each session goes only to its own hub, together they are the selection restricted to connected hubs, and exactly those sessions get a kickoff time |
| `ClusterSessions.CollectorAgreesWithSelector` | cluster/sessionstore.go:121-145 | with distinct create times, what collection selects of a user is what the per-user selection chooses on the collected table |
| `ClusterSessions.AddKeepsValid` | cluster/sessionstore.go:36-46 | an entry at (hub, id) carries that hub and that id, and ids stay unique |
| `ClusterSessions.AddManyKeepsValid` | cluster/sessionstore.go:48-60 | the same for a list |
| `PushServer.PushServer.Receive` | cluster/server.go:87-95 | the table and the messages after one follower message are a step of the specification |
| `PushServer.PushServer.ServeStream` | cluster/server.go:60-95 | the life of a hub's stream: its messages are steps of the specification, each on the table and streams the one before left; at the end the hub has no stream, and no other hub lost its own unless a send found it gone |
| `PushServer.PushServer.CleanSessions` | cluster/server.go:225-228 | the same for the periodic cleaning |
| `PushServer.PushServer.Kickoff` | cluster/server.go:232-259 | the messages are the routing of the selection, exactly the sessions routed are marked, and a hub found gone loses its stream |
| `PushServer.PushServer.Targets` | cluster/server.go:235-238 | the selected sessions grouped by the hub that owns them |
| `PushServer.PushServer.SendAll` | cluster/server.go:248-258 | one message per connected hub, and its sessions marked whether or not it could be sent |
| `OneHubCluster.StepsMatch` | cluster/standalone.go:19-20 | from equal tables either server can take an action and kick off a set exactly when the other can, and the tables are equal again |
| `OneHubCluster.ClusterFollowsRun` | cluster/standalone.go:133-252 | every run of the standalone server is a run of the one-hub cluster: equal tables at every point, the same sessions kicked off and marked |
| `OneHubCluster.StandaloneFollowsRun` | cluster/server.go:225-259 | every run of the one-hub cluster is a run of the standalone server in the same sense |
| `Hubs.Hub.Online` | ws/hub.go:156-181 | the batches carry exactly the hub's sessions |
| `Hubs.Hub.DelHandler` | ws/hub.go:145-149 | only a call that finds the session reports it offline |
| `Hubs.Hub.AddHandler` | ws/hub.go:140-143 | the session is in the table and reported online |
| `Hubs.Hub.Del` | ws/hstore.go:22-30 | whether the session was there, and it is gone |
| `Hubs.Hub.GetByUid` | ws/hstore.go:39-50 | exactly the user's sessions |
| `Hubs.Hub.ShallowCopySessions` | ws/hstore.go:52-60 | exactly the hub's sessions |
| `Hubs.Hub.Kickoff` | ws/hub.go:69-76 | the named sessions that are here are told and forgotten, and the leader hears no offline |
| `Hubs.Hub.PushHeads` | ws/hub.go:77-85 | every session of a named user is told that user's head and nobody else is told anything |
| `HubAgreement.LeaderAgrees` | ws/hub.go:140-149 | over every run with hubs that join, leave and come back, two-phase online and offline, syncs, kickoffs and collection: what the leader will know of a hub once everything on the way has arrived differs from the hub's sessions only by sessions kicked off and by those left over from before the hub joined; what both have is the same session; a kicked session the hub still has is named in a message on its way |
| `HubAgreement.QuietHubMatches` | cluster/server.go:87-95 | when nothing is on the way the hub has exactly the sessions the leader knows, those kicked off or left over aside |
| `HubAgreement.LeaderStaysValid` | cluster/sessionstore.go:36-60 | over every run entries carry their hub and id, and no message brings an id another hub uses |
| `HubAgreement.StepKeepsInv` | cluster/sessionstore.go:36-119 | every step of leader or hub keeps the agreement |
| `HubAgreement.AgreesIff` | ws/hub.go:156-181 | over every run, leader and hub agree on all sessions not kicked off if and only if all that was left over from before the hub joined has been kicked off |
| `HubAgreement.StaleSinceJoining` | ws/hub.go:156-181 | sessions are left over only by a join: those of the part the leader kept that the hub no longer has; none for a hub without a part |
| `HubAgreement.KickedByLeader` | cluster/server.go:232-259 | sessions are kicked only when the leader selected them and gave them the kickoff time, or when their hub joins and they were marked before |
| `HubAgreement.SyncTells` | ws/hub.go:156-181 | after a sync the messages on the way make the leader know every session of the hub, whatever it knew |
| `HubSettles.CanSettle` | ws/hub.go:140-181 | from every state of every run, all that is on the way from and to a hub can arrive, and then the hub has exactly the sessions the leader knows, those kicked off or left over aside |
| `HubSettles.CanCollect` | cluster/sessionstore.go:102-119 | from every state of every run the leader can collect, and then knows nothing of hubs that are not connected |
| `Rejoining.StaleRun` | ws/hub.go:156-181 | for every hub, session and quota of at least one, a run after which nothing is on the way and the leader knows a closed session |
| `Teardown.CleanTeardown` | ws/handler.go:84-112 | under every interleaving of the session's threads no send meets a closed channel, the channel is closed at most once and keeps the order of its values, the leader hears one online, exactly once when the loops run, and after it at most one offline, and the session is in the store from its adding until its removal |
| `Teardown.OfflineMeansDeleted` | ws/hub.go:145-149 | an offline is reported only when a deletion found the session, which is then out of the store |
| `Teardown.CloseRemoves` | ws/handler.go:84-104 | under every interleaving: once the channel was closed for any cause but the stop of the server and the closer has let go of the lock, the session is out of the store, and a kickoff took it out or the offline is reported or about to be; after the stop of the server the close deletes nothing; a close that was begun is finished before the lock is free |
| `Teardown.AppendDelivers` | ws/handler.go:106-112 | an append that was begun puts its value into the channel, unless the session is closing |
| `Teardown.RemovalForgets` | ws/hub.go:69-76 | a kickoff or deletion that was begun takes the session out of the store for good |
| `Teardown.ErrorsClose` | ws/handler.go:244-260 | the thread that takes an error or a kickoff from the channel closes the session before it does anything else, or appends the error of a failed write |
| `Teardown.FailedWriteStrands` | ws/handler.go:252-269 | over every run: a send loop that returned while the session was open met a failed write or ping; then nothing is taken from the channel any more, and the session is closed only for the stop of the server |
| `TeardownRuns.ClosedForIff` | ws/handler.go:84-104 | there is a run that closes a session for a cause, with the reports that belong to it, if and only if the cause is neither a failed write nor a failed ping |
| `TeardownRuns.StrandedRun` | ws/handler.go:261-269 | a run in which a ping fails, after which the send loop has returned and the session is open, stored and known to the leader |
| `TeardownRuns.LeftRun` | ws/hub.go:128-132 | a run in which the peer closes the connection, and the session is deleted and reported before it is closed |
| `Teardown.StepKeepsInv` | ws/handler.go:84-112 | one instruction of any thread keeps the lock discipline and the reporting order for all threads |

## Left out

- gRPC, websocket, HTTP, Kafka and MySQL drivers, JSON, protobuf and base64: they appear only as outcomes of steps, and blocks carry bytes.
- GetEvents and its range limit (`ws/eventapi.go:53` subtracts the wrong way round and gives no bound): the client's limit is a parameter, and an answer holds at least the rows that are never cleaned.
- E2E messages, ServerShutdown, authentication, chat store, demo producer, leader election and configuration parsing.
- Delivery of pushes beyond the push channel to every hub, because hub and push server may read the same channel.
- Liveness: runs show what can happen, not that it does. So not that kicked sessions are eventually collected, that channels do not deadlock, or that events saved just before a crash are announced.
- Backoff arithmetic: the time that passes between attempts is arbitrary.
- Floating point in the push frequency: `counter / seconds <= 1` is the integer comparison `counter * second <= nanoseconds`.
- Rounding of `DATETIME(3)`: equal events are compared by milliseconds as in the code, and stored times are otherwise exact.
- Local midnight and daylight saving: any floor function.
- HeadCache.HeadCache.Check: one atomic step, although the code walks the map after releasing the lock.
- PushServer.PushServer.ServeStream: one hub's messages in a row, without those of other hubs, the collection or a second stream of the same hub between them.
- PushServer.PushServer.Receive: one atomic step, although messages of other hubs may be handled between adding, selecting and marking.
- Standalone.Standalone.Kickoff: sessions are values, so the sharing of session pointers between the standalone table and its hub is not modelled.
- Selection.SortByCreateTime: an insertion sort stands for the library's sort, on a sequence instead of in place.
- Teardown.CleanTeardown: the handler is a machine of threads over values and not a class, because several threads share it; which replies and errors the receive loop appends, and when, is free.
- IngestEffects.CleanedIff: assumes that later instants have no earlier local midnights.
- HubAgreement.LeaderAgrees: a hub joins only when its old stream is gone. A hub that reconnects before that loses its new stream when the old call ends, since streams are removed by hub id (`cluster/server.go:60-66`, `cluster/server.go:183-188`), and the next collection drops its sessions although it is connected; `HubProtocol.Joins` excludes this. Messages on the way, and reports not yet sent, are lost when a hub leaves; reporting all sessions is one atomic step, as are the messages of one leader step.
- CatchUp.NothingIsMissed: one connection, so requests lost with a connection are not modelled.
- ExactlyOnce.ExactlyOnce: one partition and an immutable log, and the time limit on saves is a parameter that the code does not enforce.
- Consumer.Consumer.ConsumeLoop: what happens meanwhile happens between calls, so a call into the database is one transaction with one outcome. A failing query before the commit is one outcome, whichever query it is.
