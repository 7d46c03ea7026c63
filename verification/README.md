# Verified models of the Hrana server and its clients

This project models the parts of the Hrana server (Go), its Go client and its TypeScript client whose
correctness is hardest to see from the code, and proves what they promise. It verifies with
`dafny verify dfyconfig.toml`.

## What is modelled

**Stream supersession and client retry.** `WsStreams` is the server side: the streams of a session, what each
request does to them, and `EvolveDatabase`; `WsRuns` tells from the history of a session which streams it has and
how it answers. `RetryClient` is the state a Go client connection guards with its
mutex, one method per critical section. `RetryProtocol` puts both, and a bag of messages that may be lost or
reordered, into one step machine: any number of connections, callers, cancellations, failing writes, retry
goroutines and database swaps in any order. `RetryInvariants`, `RetrySteps` and `RetryTheorems` prove at-most-once
execution, truthful answers, bounded retries, sends that never block, single-flight recovery and that nothing is
sent after a close, for every run in which no request takes an id that is still in use. `RetryProgress` and
`RetryLiveness` prove that steps run out and that nobody is left waiting, when the read loop has ended or when no
message is lost; `RetryAnswers` what a retry tells its caller and that a recovery closes before it opens;
`RetryUnderWay` and `RetrySuccess` that one request at a time succeeds through as many swaps as
retries are allowed.

**Batches and cursors.** `Executor` says what a statement, a batch and a cursor batch do to a database that may
fail anywhere, also after some rows. `Streams` has the loops of the executor, proved equal to it. `StatementLaws` and
`ScriptLaws` say what statements and scripts come to, value by value and call by call. `Cursors` pages
entries, decodes them and gives their grammar; `BatchCursor` proves that a decoded cursor says what the batch says
and when it does not; `Conditions` proves what conditions say, and what a batch means without its control flow.

**The blacklist.** `Blacklist` has the least-recently-used store as it is; `BlacklistTheorems` compares it with a
reference that keeps every strike time ever.

**Streams over HTTP.** `Pipelines` runs the requests of a pipeline, and `PipelineLaws` tells from its history what
is stored, which texts run and which calls are made; `HttpStreams` stores streams under batons, `HttpLaws` says what
one request leaves of all of them; `HttpTheorems` and `HttpRuns` keep account of connections, batons and idle streams over whole runs. `Intervals` is
the self-rescheduling timer behind the sweeps, and `HttpTimers` puts the two together from the start of the server.

**The TypeScript caches, pages, CSV and lazy rows.** `QueryCaches` has both cache levels, `CacheAges` bounds the
age of cached answers for any number of calls under way at once, `CacheCoherence` says when answers are current,
`CacheHistory` when there is a cached answer and which,
`Pagination` that following pages reads everything, `Csv` that printed tables read back, `LazyRows` that lazy
stages do what eager ones do. `Lists` holds what several of these need about keys kept in a list.

Where the code keeps state, a class has the fields and a method for each operation, each proved against a function
on values; the theorems are about these functions. Times are parameters. Databases, drivers, random sources,
network and storage are parameters too: any behaviour the types allow.

## Where the code falls short of its promise

Each of these is kept as the code has it, shown by a concrete case, and the exact condition is proved.

- `executeBatchCursor` does not look at the readonly mode (`executor.go:362`, unlike `executor.go:19`):
  `BatchCursor.ReadonlyCursorWrites` shows the write. `BatchCursor.CursorAgreesExactlyWhenPermitted`: cursor and
  batch agree exactly when no step of the batch comes to that guard with a write, its condition true and its
  arguments good. `BatchCursor.NothingToForbid` can be looked up before the call.
- `describe` does not look at the readonly mode either (`executor.go:320-324`, `http.go:293-305`):
  `PipelineLaws.ReadonlyDescribeWrites`. A pipeline on a readonly stream makes a call that is a write exactly when it
  comes to the description of one: `PipelineLaws.ReadonlyPipelineWrites`, `HttpLaws.ReadonlyStreamWrites`.
- The bound of the blacklist forgets addresses that are still blocked or still counted:
  `BlacklistTheorems.EvictionForgets`; exactly when it must evict one that does count:
  `BlacklistTheorems.AnswersAsTheReference`. With a bound even a question can be noticed, because it keeps its
  address from being evicted: `BlacklistTheorems.QuestionsShowWithABound`.
- When no new baton can be generated, a stream that came with a valid baton is closed but stays stored
  (`http.go:193-199`, `http.go:380-385`): `HttpRuns.ClosedStreamStaysStored` on any database, and exactly then:
  `HttpTheorems.RequestsKeepSound`.
- The in-memory cache of the TypeScript client outlives changes of the database: a write that takes effect and is
  reported as failed leaves it as it was (`clients/ts/src/client.ts:294-297`, `CacheCoherence.LostAcknowledgementIsStale`),
  and so does any statement given to `execute` that writes (`clients/ts/src/client.ts:245-287`,
  `CacheCoherence.WritingStatementIsStale`); such a statement does not even run while its answer is cached
  (`CacheCoherence.CachedWriteDoesNotRun`). `CacheCoherence.CurrentExactlyWhenClean`: the operations of a run are
  answered as without a cache exactly when every hit is of the same statement with no such change since its fetch.
- A result without columns and with rows prints like one with a column without a name: `Csv.NoColumnsPrintLikeOneEmpty`;
  exactly the results with the same texts, empty records filled up, print alike: `Csv.PrintingIsInjective`.
- Request ids are 32 bits wide and wrap (`clients/hranago/ws_conn.go:252`): `RetryTheorems.IdsComeRound` is a run that
  comes back to an id still in use. `RetryClient.ReusedIdLosesItsWaiter`: a waiter is lost exactly then. The theorems
  about a connection hold of every run that takes no id in use, and `RetryTheorems.FewCallsTakeFreeIds` says that no
  run of at most 2^32 - 1 requests does.
- `wsConn.Close` sets `closed` first, so its own `close_stream` request is always refused
  (`clients/hranago/ws_conn.go:141-156`): `RetryClient.WsConn.Close`, `RetryTheorems.CloseStreamIsRefused`, and nothing
  else is sent from then on: `RetryTheorems.NothingIsSentAfterClose`.

## Model

| member | source | states |
|---|---|---|
| WsStreams.FirstFreeIsFree | stream.go:155-179 | an assigned stream id is the first of the ids drawn that is not in use, and one is found exactly when some drawn id is free |
| WsStreams.HandleKeepsStreams | websocket.go:488-569 | every request keeps "superseded exactly when its generation is over"; a body runs only on the current generation; a superseded answer comes exactly for a stream of an earlier one, runs nothing and removes the stream |
| WsStreams.HandleNeverUnmarks | websocket.go:488-569 | no request changes a stream it leaves registered, so none loses its mark |
| WsStreams.SupersedeKeepsStreams | hrana.go:201-217 | a swap marks every registered stream, leaves it the generation it has, and moves the invariant to the next generation |
| WsStreams.Server.EvolveDatabase | hrana.go:201-217 | the nested loops mark the streams of every session, whatever the order of iteration, and keep the server's invariant |
| WsStreams.Server.SupersedeSession | hrana.go:206-215 | the inner loop does to one session what the swap is specified to do |
| WsStreams.Session.RunOnStream | websocket.go:524-546 | the guard and removal of a superseded stream, as specified |
| WsStreams.Session.Open | websocket.go:488-500 | opening under a given id, refused when the id is in use |
| WsStreams.Session.OpenAssigned | websocket.go:502-516 | the retry loop over random ids registers the first free one |
| WsStreams.Session.Remove | stream.go:188-195 | removes one stream and nothing else |
| WsStreams.Session.Close | websocket.go:518-522 | the stream is not registered any more, every other one is as it was, and the answer is success |
| WsRuns.RegistryTells | websocket.go:488-569 | after any requests, swaps and the end of the session, a stream is registered exactly when it was opened and not closed, found superseded or dropped since, with the generation of its opening and the mark exactly when a swap came since |
| WsRuns.StatementsAreAnswered | websocket.go:524-546 | by history: a statement runs exactly on a stream that lives and has seen no swap, is superseded exactly when it has seen one, and finds no stream otherwise |
| WsRuns.OpeningsAreAnswered | websocket.go:488-516 | by history: a stream is opened exactly when a connection can be had and its id is not in use, an assigned one under the first drawn id that is free |
| WsRuns.ClosedStreamIsGone | websocket.go:518-546 | after a close and without an opening since, nothing runs under the id, whatever else has happened |
| RetryClient.WsConn.RegisterRequest | clients/hranago/ws_conn.go:251-261 | takes the next id and a waiter unless the connection is closed; waiters stay on distinct empty channels |
| RetryClient.WsConn.ForgetRequest | clients/hranago/ws_conn.go:273-288 | gives up one waiter |
| RetryClient.WsConn.DispatchResult | clients/hranago/ws_conn.go:458-468 | an answer goes to its waiter's channel, which is empty, so the send cannot block |
| RetryClient.WsConn.TakeSuperseded | clients/hranago/ws_conn.go:370-381 | takes the waiter out, to be owned by one retry goroutine |
| RetryClient.WsConn.EndReadLoop | clients/hranago/ws_conn.go:305-319 | the drain tells every waiter once, in any order, no send in it can block, and nobody is left |
| RetryClient.WsConn.EnterRecovery | clients/hranago/ws_conn.go:412-422 | the first becomes leader, the others learn who leads |
| RetryClient.WsConn.LeaveRecovery | clients/hranago/ws_conn.go:424-456 | ends the recovery, with the new stream id if there is one |
| RetryClient.DrainTurn | clients/hranago/ws_conn.go:315-318 | one turn of the drain, for any waiter, does not change what the drain ends in |
| RetryClient.DrainTellsWhoWaits | clients/hranago/ws_conn.go:305-319 | whoever waits is told once that the reading failed, and nobody else anything |
| RetryClient.DispatchTellsItsWaiter | clients/hranago/ws_conn.go:458-468 | an answer reaches the waiter of its id, who waits no more, and nobody else; with no waiter it is dropped |
| RetryClient.ReusedIdLosesItsWaiter | clients/hranago/ws_conn.go:252-261 | starting a request on an open connection strands a waiter exactly when its id is still awaited, and then that waiter |
| RetryClient.WsConn.Close | clients/hranago/ws_conn.go:141-156 | the first `Close` marks the connection closed and so has its own `close_stream` request refused, without a waiter; later ones change nothing |
| RetryProtocol.WireIdsRepeat | clients/hranago/ws_conn.go:252 | two requests share an id exactly when a multiple of 2^32 lies between them |
| RetrySteps.NextKeeps | clients/hranago/ws_conn.go:251-468 | every step of the machine that takes no request id in use keeps the whole invariant of a connection |
| RetryTheorems.AfterIsOk | hrana.go:201-217 | after any events every registered stream is marked exactly when its generation is over, and no connection whose read loop has ended is open or has a waiter |
| RetryTheorems.InvAfter | clients/hranago/ws_conn.go:251-468 | after any events in which no request on a connection took an id in use, the connection is as the invariants say |
| RetryTheorems.FewCallsTakeFreeIds | clients/hranago/ws_conn.go:252 | no request of the first 2^32 - 1 of a connection takes an id in use |
| RetryTheorems.IdsComeRound | clients/hranago/ws_conn.go:252-261 | a run of 2^32 + 1 requests after which the first still waits and no waiter, goroutine or message will ever answer it |
| RetryTheorems.AtMostOnce | websocket.go:345-357 | in every run no logical request is executed twice across its retries, and each execution is on a stream of the generation then current |
| RetryTheorems.AnswersAreTrue | clients/hranago/ws_conn.go:370-410 | a call that returns data has run, and one that returns the superseded error never ran |
| RetryTheorems.AbandonedNeverRan | clients/hranago/ws_conn.go:393-396 | in every reached state a request given up after its retries has never been executed |
| RetryTheorems.BoundedAttempts | clients/hranago/ws_conn.go:393-404 | a logical request is sent at most once more than the retries allowed |
| RetryTheorems.SendsNeverBlock | clients/hranago/ws_conn.go:305-319 | no reply channel gets more than one value, and whoever is about to send finds it empty |
| RetryTheorems.NoWaiterAfterTheEnd | clients/hranago/ws_conn.go:305-319 | once the read loop has ended, pending is empty and stays empty whatever follows |
| RetryTheorems.NothingIsSentAfterClose | clients/hranago/ws_conn.go:251-261 | from the moment a connection is closed, whatever follows, every later call on it is refused on the spot, with no waiter and nothing in flight |
| RetryTheorems.CloseStreamIsRefused | clients/hranago/ws_conn.go:141-156 | the `close_stream` that `Close` goes on to send is one of them |
| RetryTheorems.CallersDo | clients/hranago/ws_conn.go:263-289 | a caller sends his own request under his own id; a failed write and an ended context give up the waiter, the latter for no retry |
| RetryTheorems.DeliveryTells | clients/hranago/ws_conn.go:340-381 | data and refusals reach the waiter as they are, a superseded answer hands the waiter to a goroutine |
| RetryTheorems.StreamsAreASession | websocket.go:488-569 | the streams of a connection change by its served requests, the swaps and the end of its session, each as for the sessions of `WsRuns`, and by nothing else |
| RetryAnswers.RecoveryClosesFirst | clients/hranago/ws_conn.go:431-442 | in every reached state a recovery that asks for a new stream has its request to close the superseded one returned |
| RetryAnswers.CallersHearTheTruth | clients/hranago/ws_conn.go:385-410 | what a retry goroutine has told: superseded when the retries were used up, a failed recovery when its own failed, and otherwise exactly what the next attempt was told |
| RetryAnswers.RetriesAreNotCancelled | clients/hranago/ws_conn.go:404 | a retry never returns as cancelled, and no goroutine passes a cancellation on |
| RetryAnswers.FollowersWait | clients/hranago/ws_conn.go:412-429 | one leads, the others wait exactly as long as it does, whatever comes of it, and the new stream is the client's at once |
| RetryTheorems.SingleFlightRecovery | clients/hranago/ws_conn.go:412-456 | at most one goroutine leads a recovery and no follower is waited for |
| RetryTheorems.RecoveryIsNeverSuperseded | clients/hranago/ws_conn.go:431-442 | the requests of a recovery are never answered as superseded, so a recovery never waits for itself |
| RetryTheorems.SupersededForGood | stream.go:32-46 | no event takes the mark off a stream |
| RetryTheorems.SupersededExactlyWhenOld | hrana.go:201-217 | in every reachable state a registered stream is superseded exactly when its generation is smaller than the server's |
| RetryProgress.RemainingFalls | clients/hranago/ws_conn.go:370-456 | every step of a caller, a retry goroutine, the server or the read loop that does anything leaves less to do, retries and recoveries still to come included |
| RetryProgress.NobodyIsStranded | clients/hranago/ws_conn.go:305-319 | after the read loop has ended the client's own steps run out, and when they have every call has returned and every retry goroutine has answered |
| RetryLiveness.StepsRunOut | clients/hranago/ws_conn.go:305-468 | whatever other connections do and however often the database is swapped, a connection asked for nothing new takes at most as many steps as were left to do |
| RetryLiveness.EveryCallReturns | clients/hranago/ws_conn.go:263-289 | with any number of requests outstanding and no message lost, a connection on which no step is left has answered everybody |
| RetryUnderWay.ServeGoesOn | websocket.go:488-569 | an able server keeps the request under way: its stream is there, or its recovery is |
| RetryUnderWay.AdvanceGoesOn | clients/hranago/ws_conn.go:385-456 | every step of the retry goroutine keeps the request under way, and within its retries |
| RetryUnderWay.SwapGoesOn | hrana.go:201-217 | a swap at any moment costs the request under way one retry at most |
| RetrySuccess.RequestSucceeds | clients/hranago/ws_conn.go:385-410 | asked on a connection at rest with its stream there, a request that sees no more swaps than retries has run and returned its data when the connection is at rest again, ready for the next one |
| RetrySuccess.OpenedIsReady | clients/hranago/ws_conn.go:424-456 | a connection that has opened its stream is such a connection |
| Executor.ValuesReadBack | executor.go:93-108 | a value given to the driver reads back as what was sent, and exactly those of an unknown type are refused |
| Executor.ArgsAreBound | executor.go:64-91 | the bound arguments are those sent, in order, named ones hiding positional ones and losing their prefix |
| Executor.ArgsAreRefused | executor.go:64-91 | the arguments of a statement are refused exactly when a value that would be bound is of an unknown type |
| StatementLaws.TextIsResolved | executor.go:46-62 | a statement's text is found exactly when one of text and id is given and names it |
| StatementLaws.ArgumentsStandForValues | executor.go:64-108 | every bound argument stands for the value sent, constructor by constructor, under its name less one mark |
| StatementLaws.FirstUnknownIsTold | executor.go:64-108 | of several values of unknown types the first is told |
| StatementLaws.ValuesStandFor | executor.go:189-212 | what a scanned value becomes, constructor by constructor, booleans and other types included |
| StatementLaws.RowsAreReported | executor.go:150-187 | a query succeeds exactly when every row was scanned and the iteration ended well, with every row there was and every value under its column; else the first failure is told |
| StatementLaws.RowsAreStreamed | executor.go:430-484 | the same of the entries of a cursor |
| StatementLaws.OneCallOrNone | executor.go:13-45 | a statement makes one call, of its own text and arguments and of the kind it asks for, and tells the reply field by field; or it is refused, and nothing happens |
| StatementLaws.CursorIgnoresTheMode | executor.go:362-487 | a cursor batch does the same in either mode |
| ScriptLaws.TrimmedIsTheMiddle | executor.go:304 | trimming drops white space at both ends, all of it there and nothing else |
| ScriptLaws.ScriptRunsItsTexts | executor.go:302-316 | a script runs its trimmed non-empty pieces in order, one call each, up to the first that fails or is forbidden; a readonly stream runs none that is a write |
| Streams.Stream.ExecuteStmt | executor.go:13-45 | a statement's outcome, effect and call, with its error paths, as specified |
| Streams.Stream.ReadRows | executor.go:150-187 | the scan loop: all rows, or the first scan error, or the error of the iteration |
| Streams.Stream.ExecuteBatch | executor.go:214-238 | the loop over result and error arrays equals the recursive meaning of a batch |
| Streams.Stream.ExecuteBatchCursor | executor.go:362-487 | the loop that appends entries equals the recursive meaning of a cursor batch |
| Streams.Stream.ExecuteCursorStmt | executor.go:384-484 | one step of a cursor batch, with its error paths |
| Streams.Stream.StreamRows | executor.go:430-484 | rows are emitted up to the first failure, then how they ended |
| Streams.Stream.ExecuteSequence | executor.go:302-316 | a script runs piece by piece up to the first failure |
| Streams.SplitLosesNothing | executor.go:303 | the pieces of a script hold no separator and joined again are the script |
| Streams.SequencesCompose | executor.go:302-316 | running `a;b` is running `a` and then, if it succeeded, `b`: same state, failure and calls |
| Streams.AFailureLasts | executor.go:221-225 | a batch that has failed as a whole does nothing more |
| Conditions.ConditionSees | executor.go:240-298 | a condition depends only on which of the steps it refers to have a result or an error |
| Conditions.AndOrMean | executor.go:269-288 | `and` is true exactly when every part is, and otherwise what the first part that is not true says; `or` is false exactly when every part is, and otherwise what the first part that is not false says |
| Conditions.StepConditionMeans | executor.go:242-260 | `ok` and `error` hold exactly when the step is there and has a result, an error; without a step they are errors |
| Conditions.NotMeans | executor.go:262-267 | `not` turns true and false round and passes errors on |
| Conditions.OtherConditionMeans | executor.go:290-297 | `is_autocommit` holds, and any other type is an error |
| Conditions.WellFormedNeverFails | executor.go:240-298 | a condition with all its parts never fails, whatever the batch has done |
| Conditions.OkMeansSucceeded | executor.go:242-260 | on a finished batch `ok` holds exactly when the step ran and succeeded, `error` exactly when it ran and failed |
| Conditions.DeMorgan | executor.go:261-288 | negating a conjunction is the disjunction of the negations, errors and short circuit included |
| Conditions.SlotsAreFinal | executor.go:218-235 | later steps leave the slots of earlier ones alone |
| Conditions.ConditionIsStable | executor.go:218-298 | a condition that looks back has the same value when its step comes up and at the end of the batch |
| Conditions.EveryStepIsAccountedFor | executor.go:214-238 | on a finished batch a step has neither result nor error exactly when its condition is false there, and otherwise exactly one of them |
| Conditions.BatchIsAPlainRun | executor.go:214-238 | a batch does what running, in a plain list, the statements whose conditions hold on its own finished result does |
| Conditions.UnconditionalBatchRunsAll | executor.go:214-238 | a batch without conditions runs all its statements in order, whatever becomes of each |
| Conditions.WhereABatchFails | executor.go:221-225 | a failed batch is the batch up to the step whose condition could not be evaluated, which its message names |
| Conditions.ABatchFailsByACondition | executor.go:221-225 | a batch fails as a whole exactly when a step it reaches has such a condition |
| Cursors.Cursor.Fetch | stream.go:115-124 | returns the next entries, as many as asked for if there are that many, and says exactly when none are left |
| Cursors.Cursor.FetchEach | stream.go:115-124 | for every list of counts the pages concatenate to exactly the prefix they ask for |
| Cursors.AllSoFar | stream.go:115-124 | all pages together are the first entries, as many as the counts add up to |
| Cursors.NothingAfterTheLast | stream.go:115-124 | after the page marked done every page is empty and marked done |
| BatchCursor.StatementsAgree | executor.go:384-484 | one statement does the same in a batch and in a cursor, and decodes to the same result or the same error |
| BatchCursor.MessagesMatch | executor.go:384-484 | where both fail, the message of the batch is that of the cursor, with the prefix of a scan or of an iteration exactly where the rows failed so |
| BatchCursor.RunsStayInStep | executor.go:362-487 | after every step both runs agree and later conditions see the same |
| BatchCursor.ReadonlyNeverWrites | executor.go:19-21 | on a readonly stream a batch never makes a call that writes |
| BatchCursor.CursorAgreesExactlyWhenPermitted | executor.go:362-487 | batch and cursor make the same calls in the same order and report the same, exactly when no step the batch reaches with its condition true is a write refused on a readonly stream whose arguments bind |
| BatchCursor.DecodedCursorIsTheBatch | executor.go:362-487 | on a stream that may write, or with nothing to write, the decoded entries are the batch result (section "Cursor entries" of the Hrana protocol, version 3), affected counts below 2^32 included, and a final error comes exactly when the batch fails |
| BatchCursor.ReadonlyCursorWrites | executor.go:362-487 | a cursor batch on a readonly stream makes the write a batch is refused |
| BatchCursor.CursorIsWellFormed | executor.go:362-487 | the entries are a word of steps opened and closed once, in strictly increasing order, rows as wide as their columns, with a failure only at the end |
| BatchCursor.FetchedPagesAreTheBatch | stream.go:103-124 | fetching a cursor with any counts up to done, and decoding all pages, gives the batch |
| Blacklist.MemoryBlacklist.IsBlocked | blacklist.go:153-169 | answers and moves the address to the front, as specified |
| Blacklist.MemoryBlacklist.Strike | blacklist.go:175-198 | decay, count, block and list order after a strike, as specified |
| Blacklist.MemoryBlacklist.GetOrCreateLocked | blacklist.go:203-221 | finds or adds an entry and evicts the last one when the bound is passed; map and list stay together |
| Blacklist.MemoryBlacklist.SweepExpired | blacklist.go:226-241 | the walk from the back removes exactly the expired entries and keeps the order of the rest |
| Blacklist.SurvivorsAre | blacklist.go:232-240 | what survives a sweep is what is not both unblocked and quiet |
| BlacklistTheorems.StreakIsLongest | blacklist.go:182-188 | the strike count of the reference is the longest suffix of strike times with no gap over the reset time |
| BlacklistTheorems.BlockFormula | blacklist.go:190-195 | the block is the initial one times a power of the multiplier, cut off at the longest |
| BlacklistTheorems.BlocksGrow | blacklist.go:250-262 | with a multiplier of at least 1 a longer streak never earns a shorter block |
| BlacklistTheorems.BlocksMultiply | blacklist.go:250-262 | each strike more multiplies the block once more, and the fraction dropped is less than one |
| BlacklistTheorems.BlockedWhileItLasts | blacklist.go:153-169 | by the history: blocked exactly while the block earned by the last strike lasts, and told how long that still is |
| BlacklistTheorems.SweepTakesTheExpired | blacklist.go:226-241 | a sweep takes exactly the addresses not struck within the reset time and not blocked, and leaves the others' entries as they are |
| BlacklistTheorems.AnswersAsTheReference | blacklist.go:153-241 | at every point of a run everything is answered as by the full history, exactly when every eviction was of an entry unblocked and quiet for longer than the reset time |
| BlacklistTheorems.AnswersFollowTheHistory | blacklist.go:153-241 | without a bound, or with no more addresses than it allows, every answer of every run is the one the history gives |
| BlacklistTheorems.SweepsAndQuestionsDoNotShow | blacklist.go:226-241 | a sweep or a question anywhere in a run changes no later answer, as long as the evictions with it and without it are harmless |
| BlacklistTheorems.QuestionsShowWithABound | blacklist.go:153-169 | with a bound a question can change a later answer: it keeps its address from being evicted |
| BlacklistTheorems.HarmCanBeNoticed | blacklist.go:213-218 | evicting an entry that still counts can be told at once by a strike or a question |
| BlacklistTheorems.EvictionForgets | blacklist.go:213-218 | a concrete run whose third strike counts as the first |
| BlacklistTheorems.ListIsByLastUse | blacklist.go:203-241 | after any run map and list hold the same addresses once each, within the bound, in order of last use |
| BlacklistTheorems.EvictedIsLeastRecentlyUsed | blacklist.go:213-218 | what is evicted was used before everything else tracked, and is never the address being struck |
| Pipelines.PipelineRun.DispatchStreamRequest | http.go:250-332 | each kind of request, with its missing payloads and error paths, the flags of a description included, run through the executor's own loops |
| Pipelines.PipelineRun.ExecutePipelineRequests | http.go:225-248 | the loop over requests equals the recursive meaning of a pipeline |
| Pipelines.PipelineCanBeCut | http.go:225-248 | without a close in its first part a pipeline can be cut in two: same results, same stored texts |
| Pipelines.NothingAfterClose | http.go:229-233 | after the first close nothing is dispatched and every later result is an error |
| Pipelines.StoredSqlIsKept | http.go:304-319 | a stored text stays as it is until it is closed; nothing replaces it |
| Pipelines.StoredSqlWasGiven | http.go:304-312 | every stored text was there before or was given by a request |
| PipelineLaws.StoredTextsAreTheHistory | http.go:307-321 | an id holds a text exactly when it held it before or an accepted `store_sql` of the pipeline stored it, and no `close_sql` came since |
| PipelineLaws.ClosedTextIsGone | http.go:317-321 | after `close_sql` the id is free, until it is stored again |
| PipelineLaws.DispatchStores | http.go:307-321 | a `store_sql` is accepted exactly when its id is free, a `close_sql` always; every other id stays as it is |
| PipelineLaws.StoredTextIsUsed | http.go:260-305 | wherever a request names a stored text it does what it would with the text itself |
| PipelineLaws.ExecutesAreAPlainRun | http.go:225-268 | a pipeline of `execute` requests runs its statements in turn and reports every one |
| PipelineLaws.ABatchIsItsStatements | http.go:270-278 | one `batch` without conditions does and reports what an `execute` for each step does |
| PipelineLaws.RequestsReport | http.go:280-305 | what a script and a description do and report, the kinds of text a description tells included |
| PipelineLaws.OthersAskNothing | http.go:250-332 | the other requests, and those without their payload or their text, leave the database alone |
| PipelineLaws.PipelineIsSeen | http.go:225-332 | the calls the database sees are those of the requests dispatched, in order |
| PipelineLaws.ReadonlyPipelineWrites | http.go:225-305 | on a readonly stream a pipeline makes a call that is a write exactly when it comes to the description of one |
| PipelineLaws.ReadonlyDescribeWrites | executor.go:320-324 | the description of a write on a readonly stream does |
| HttpStreams.HttpServer.PutBaton | baton.go:42-57 | exchanges the old baton for the new one, or changes nothing when none can be generated |
| HttpStreams.HttpServer.EvictAll | baton.go:95-105 | the loop over stored batons, in any order, closes exactly their streams and forgets exactly these batons |
| HttpStreams.HttpServer.SweepIdle | baton.go:95-105 | closes and forgets exactly the streams not seen for longer than the time to live |
| HttpStreams.HttpServer.CloseStore | baton.go:82-93 | closes every stored stream and empties the store |
| HttpStreams.HttpServer.ServePipeline | http.go:149-223 | resolving, running, rotating, closing and failing of a pipeline request, as specified |
| HttpStreams.HttpServer.ServeCursor | http.go:353-425 | the same for a cursor request, which rotates its baton first |
| HttpLaws.RefusalsSayWhy | http.go:173-194 | an unknown baton and a stream that cannot be opened are told, exactly then, and change nothing; an empty baton counts as none |
| HttpLaws.PipelineLeaves | http.go:149-223 | a pipeline runs in its stream's mode with its texts; which stream, baton and time of use are left in each of its three ends, and all other streams and batons as they were |
| HttpLaws.CursorLeaves | http.go:353-425 | the same of a cursor, and that nothing runs when its first line does not get out |
| HttpLaws.CursorIsABatchRequest | http.go:353-425 | a cursor leaves the same server as a pipeline with its steps as a batch, and decodes to what that reports |
| HttpLaws.ModeStays | http.go:192 | a stream keeps the mode of the request that opened it |
| HttpLaws.ReadonlyStreamWrites | http.go:149-223 | a pipeline on a stream opened readonly calls the database for a write exactly when it describes one |
| HttpLaws.ClosedStreamDoesNothing | http.go:196-199 | a request about a stream that is stored but closed changes nothing in the database |
| HttpTheorems.ConnectionsBalance | baton.go:42-105 | open connections are at most the stored batons, and exactly as many when every stored stream is open |
| HttpTheorems.RequestsKeepSound | http.go:149-223 | every open stream stays stored under exactly one baton, and every stored stream stays open exactly when no request fails to replace a valid baton |
| HttpTheorems.ShutdownClosesEverything | baton.go:82-93 | a shutdown closes every open connection |
| HttpTheorems.SweepAfterShutdown | interval_func.go:36-39 | a sweep already under way when the store is closed changes nothing |
| HttpRuns.EveryConnectionIsAccountedFor | http.go:173-216 | after any run every open stream is stored, and if no baton failed to be generated connections opened less connections closed are the stored batons |
| HttpRuns.ClosedStreamStaysStored | http.go:380-385 | two requests, the second without a new baton, leave a closed stream stored, on any database |
| HttpRuns.AnsweredBatonIsSpent | http.go:193-215 | a request is refused exactly when its baton is unknown, and an answered one takes its baton out of the store |
| HttpRuns.SpentBatonsStaySpent | baton.go:42-57 | a baton that has left the store never resolves again |
| HttpRuns.PipelineAcrossRotation | http.go:149-223 | two pipelines under rotated batons give the results of one, and the same server in the end |
| HttpRuns.OthersLeaveItAlone | baton.go:95-105 | requests about other batons leave a stored stream as it is, and a sweep closes it exactly when it is idle |
| HttpRuns.IdleStreamIsClosedInTime | baton.go:95-105 | with sweeps at most half the time to live apart, an abandoned stream is closed strictly after its time to live and no later than half of it more |
| HttpTimers.SweepsAreOnSchedule | baton.go:26-37 | the sweeps a started server makes, with timers that fire when due and take no time, are on that schedule |
| HttpTimers.AbandonedStreamIsClosedInTime | baton.go:26-37 | so from the start of the server an abandoned stream is closed strictly after its time to live and no later than half of it more, with nothing assumed of the sweeps |
| HttpTimers.LastRequestStartsTheClock | baton.go:26-57 | the same, counted from the last request that kept the stream |
| Intervals.Handle.MayRun | interval_func.go:26-32 | lets the callback run exactly when the interval is not stopped |
| Intervals.Handle.Rearm | interval_func.go:38-43 | sets the timer again unless stopped meanwhile |
| Intervals.Handle.StopIt | interval_func.go:52-62 | stops once, and says whether this call prevented a callback |
| Intervals.NeverTwoAtOnce | interval_func.go:18-50 | the timer is set only while no callback runs, and never after a stop |
| Intervals.AtMostOneAfterStop | interval_func.go:52-62 | after a stop at most one callback begins, and only one that had been let through |
| Intervals.RegularRounds | interval_func.go:18-50 | in every possible run whose timers fire when due and whose callbacks take no time, the k-th callback begins at k delays after the start |
| QueryCaches.QueryCache.Lookup | clients/ts/src/client.ts:115-123 | serves up to and at the expiry, removes what is past it |
| QueryCaches.QueryCache.Put | clients/ts/src/client.ts:126-134 | makes room by removing the first inserted entry, and stays within max(1, maxSize) |
| QueryCaches.SetKeepsConsistent | clients/ts/src/client.ts:126-134 | whatever is set, the cache holds at most max(1, maxSize) entries |
| QueryCaches.PersistentCache.Lookup | clients/ts/src/persistent_cache.ts:285-293 | the in-memory form serves up to and at the expiry |
| QueryCaches.PersistentCache.InvalidateGroup | clients/ts/src/persistent_cache.ts:159-167 | removes exactly the entries of a group |
| QueryCaches.PersistentCache.PurgeExpired | clients/ts/src/persistent_cache.ts:170-182 | removes and counts exactly what is past its expiry, and in IndexedDB what is at it, too |
| CacheAges.StepKeeps | clients/ts/src/client.ts:245-287 | every step between two awaits of every call keeps the ages of both levels and of calls under way in bounds |
| CacheAges.BeginLooksInMemory | clients/ts/src/client.ts:257-262 | a call is answered from memory exactly while its entry is in its time |
| CacheAges.CheckLooksAtTheTime | clients/ts/src/persistent_cache.ts:109-124 | the persistent level answers exactly while its entry is in its time, and deletes it after |
| CacheAges.EndingFillsMemory | clients/ts/src/client.ts:262-286 | what a call leaves in memory, for the time to live it was given or the default |
| CacheAges.PersistingIsDated | clients/ts/src/persistent_cache.ts:127-140 | what a call leaves in the persistent level, for the time to live it was given or that level's default |
| CacheAges.ForgettingIsPerLevel | clients/ts/src/persistent_cache.ts:159-167 | what is forgotten is gone from its own level, and the other level stays as it is |
| CacheAges.CachedAnswersAreYoung | clients/ts/src/client.ts:245-287 | a cached answer is a fetch of the same key no older than both times to live together, and what calls rest on the way |
| CacheAges.BoundIsMet | clients/ts/src/client.ts:266-276 | a run that serves an answer at exactly that age |
| CacheCoherence.HranaClient.Execute | clients/ts/src/client.ts:245-287 | the memory-only path for any statement, a writing one included: what is answered, what is stored, and exactly when an answer is marked as cached |
| CacheCoherence.HranaClient.Run | clients/ts/src/client.ts:294-302 | a write clears the cache only when it is acknowledged |
| CacheHistory.CacheHoldsTheHistory | clients/ts/src/client.ts:114-150 | the cache holds, in the order of their fetches, exactly the results not cleared, invalidated, found too old, or crowded out as the first fetched of a full cache |
| CacheHistory.ServedFromHistory | clients/ts/src/client.ts:245-287 | a cached call is answered by operation j exactly when j fetched the same key, is held, and is within the time to live its own caller gave, or the default |
| CacheHistory.ClientAnswersFromHistory | clients/ts/src/client.ts:245-287 | so the client answers from its cache exactly then, with what that fetch was answered and without asking the database, and asks it otherwise |
| CacheCoherence.CleanRunsAreCurrent | clients/ts/src/client.ts:245-302 | when every hit is of the same statement with no effect since its fetch, every database gives every answer, and goes through every state, as without a cache |
| CacheCoherence.CurrentExactlyWhenClean | clients/ts/src/client.ts:245-302 | and only then: in every other run a database that counts effects shows an answer that is not current |
| CacheCoherence.CachedAnswersAreCurrent | clients/ts/src/client.ts:281-302 | with clearOnWrite, distinct keys, and every change made by a `run` that does not take effect when it fails, every answer is the uncached one on the current database |
| CacheCoherence.LostAcknowledgementIsStale | clients/ts/src/client.ts:294-297 | a write that only seems to have failed leaves a stale answer |
| CacheCoherence.WritingStatementIsStale | clients/ts/src/client.ts:245-287 | a statement that writes, given to `execute` between two cached reads, leaves the second stale |
| CacheCoherence.CachedWriteDoesNotRun | clients/ts/src/client.ts:254-262 | a cached statement that writes does not run again |
| Pagination.NextPageHoldsRows | clients/ts/src/client.ts:408-418 | there is a next page exactly when page * pageSize is less than the number of rows |
| Pagination.PageHoldsItsRows | clients/ts/src/client.ts:392-419 | a page holds exactly the rows of its place, has one before it exactly when it is not the first, and the pages are as many as it takes |
| Pagination.FollowingReadsEverything | clients/ts/src/client.ts:392-419 | following the next pages from page 1 takes the total number of pages, all but the last full, and reads the whole list in order |
| Csv.ResultSetToCsv | clients/ts/src/csv.ts:27-38 | the loops print the table of texts of the result |
| Csv.TextsAreInPlace | clients/ts/src/csv.ts:27-38 | the table has the column names first, then for every row each column's text in its place, nothing for what is missing or null |
| Csv.QuotedWhenNeeded | clients/ts/src/csv.ts:4-19 | a field is quoted exactly when it holds a comma, a quote or a line break |
| Csv.FieldReadsBack | clients/ts/src/csv.ts:4-19 | an escaped field reads back, whatever follows it |
| Csv.PrintedTablesReadBack | clients/ts/src/csv.ts:27-38 | a reader of the quoting rules recovers every record of every table |
| Csv.AllResultsReadBack | clients/ts/src/csv.ts:27-38 | what is printed of any result reads back as its texts, empty records filled up |
| Csv.PrintingIsInjective | clients/ts/src/csv.ts:27-38 | two results print alike exactly when their texts, empty records filled up, are the same |
| Csv.NoColumnsPrintLikeOneEmpty | clients/ts/src/csv.ts:30 | without columns printing is not injective |
| LazyRows.RowIterator.Next | clients/ts/src/rows.ts:46-84 | one pull gives the next row of the eager result, or says that there is none, and terminates |
| LazyRows.RowIterator.ToArray | clients/ts/src/rows.ts:95-98 | draining gives all that is left, and every call that was due has been made |
| LazyRows.Drain | clients/ts/src/rows.ts:46-98 | a chain of lazy stages gives what eager stages give, and each function is called once for every row that reaches it, in order, with its own running index |
| LazyRows.OneRow | clients/ts/src/rows.ts:46-84 | what a map and a filter give for one row at its index |
| LazyRows.RowByRow | clients/ts/src/rows.ts:46-84 | a stage gives for a list what it gives for its rows one after the other, the index running on |
| LazyRows.FirstStageFirst | clients/ts/src/rows.ts:46-84 | later stages work on what earlier ones leave |

## Left out

- Framing, routing, CORS, authentication, logging, codecs and `Value` marshalling: input and output around the logic.
- SQLite, `database/sql` and IndexedDB: databases are arbitrary functions that may fail, the persistent level of `CacheAges` is an abstract map.
- `Rows.Columns` and `Rows.ColumnTypes` failing, and query durations.
- Quoting of unknown type tags in error messages: messages carry the tag as it is given.
- `isWriteStatement`, `makeCacheKey`, `fnv1a`: uninterpreted; `CacheCoherence` assumes a collision-free key where it says so.
- Rounding and overflow in `scaledDuration`: reals and unbounded integers.
- Two steps where the code takes two: `OpenStream` and registering the stream, the check and the adding of an opened stream, lookup and send of an answer, a whole HTTP request and a sweep are one step each.
- Aliasing of the payload map that a retry edits in place: requests are values.
- The stored SQL and the open cursors of WebSocket sessions: maps with the same operations as those of HTTP streams.
- Objects inside collections (waiters, blacklist entries, stored streams) are values in a map or a table, identified by key or index.
- Cursors of more than 2^32 steps.
- Success of retried requests that are outstanding together: after the first superseded answer their stream is gone, and the others fail or follow its recovery; that they all return is proved.
- The superseded check of a WebSocket handler and its body are one step of the server; the code checks before it takes the stream's lock (`websocket.go:530-537`), so a swap may come between them.
- A call of `execute` that fails on the way: it changes nothing in the cache.
- HTTP streams are never superseded by a swap, in the code as in the model.
- Pagination.FollowingReadsEverything: the count and the page of a paginated query are read from one list of rows, because two queries say nothing together when a write comes between them.
- CacheAges.CachedAnswersAreYoung: bounds the age with the time calls rest between their own steps added, because the code reads the clock after each await.
- `clients/hranago/js-conn.go`, `clients/ts/src/ws.ts` and the Python clients: variants of the same retry design; the claim that nobody is stranded is about the Go client only.
