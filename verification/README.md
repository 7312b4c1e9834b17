# A verified model of wego's delivery protocols

This Dafny project models the parts of the repository whose correctness is not visible from any one
function: the reminder worker protocol over its table, the Pub/Sub retry, claim and dead-letter
protocol over Redis, the token-bucket limiter, rendezvous node selection, and the start and shutdown of
the runtime. `dafny verify dfyconfig.toml` checks the whole project.

Three of the five are protocols of several processes. Each of these is a state machine: a `Step`
datatype whose constructors are the atomic actions (one SQL statement, one Redis command or Lua script,
one critical section), `Enabled` and `Do`, and `Reaches` for finite runs. Crashes, stale workers and
arbitrary interleavings are ordinary steps. What holds in every run is proved on that machine. Beside
it stand classes with the fields, loops and branches of the Go code, whose methods are proved to take
exactly those steps; `Interference` marks the points where other processes act.

| files | model |
|---|---|
| `ReminderModel`, `ReminderProtocol`, `ReminderLaws`, `ReminderExclusive`, `ReminderQuery`, `ReminderBoundary`, `ReminderStore` | the reminder table, its workers, keyset pagination, and the code of store and service |
| `PubSubProtocol`, `PubSubWork`, `PubSubTight`, `PubSubPoison`, `PubSubDelivery`, `PubSubLog` | one topic with its groups: ranges, work bound and a run that attains it, poison bound, at-least-once delivery and retry timing |
| `Messages`, `Timestamp`, `Decimal`, `Text`, `RetrySet`, `PubSubShape`, `PubSubStore` | message and envelope codecs, the sorted set, and the code of store and service on raw Redis values |
| `TokenBucket` | the rate limiter |
| `Rendezvous` | FNV-1a scores, the pick, and the sticky part of node selection |
| `LifecycleProtocol`, `LifecycleRuns`, `Mesa` | Run, any number of Shutdown calls, registrations |
| `Common` | options, results, finite sums, bags |

Time is an integer number of nanoseconds (milliseconds in retry-set scores, as `UnixMilli` cuts them),
and tokens are real numbers. Timestamps follow section 5.6 of RFC 3339, cursors the unpadded alphabet of
sections 3.2 and 5 of RFC 4648 through an abstract codec.

## What the code does that its documentation does not say

- `encodeCursor` drops the error of `json.Marshal` (reminder/store.go:246-249). A page boundary whose
  time has a year outside 0 to 9999 yields an empty `NextCursor`, so paging ends early.
  `PaginationIsComplete` states exactly when it does not, and `PagingStopsEarly` shows a table on which
  it does.
- readme.md:363 calls `Shutdown` safe to call more than once. It is, unless its first lock is taken
  while `Run` is still starting things up: `Run` then sets `Running` whatever the state has become
  (mesa.go:182-184), or `finishStopped` closes `shutdownDone` before the leader closes it again
  (mesa.go:226-229), which panics. `ProvisoIsExact` shows that this is the only such case;
  `EarlyShutdownIsUndone` and `EarlyShutdownClosesTwice` are the two runs.
- `Shutdown` stops items in reverse order, but when an item fails to start `Run` stops the ones already
  started from the first to the last (mesa.go:167, mesa.go:176). `OrderlyRunsAreSafe` has both orders.
- readme.md:98 says that canceling a canceled reminder succeeds. It does if and only if `CancelByKey`
  already reads it as canceled, and its contract says so; `CancelRaceConflicts` is a run in which
  another cancel lands between its read and its update, and it answers `ErrStateConflict`.
- A claim whose delivery count cannot be read falls back to the stored attempt (pubsub/store.go:124-131),
  so each such blind claim can be worth one more handler call of a poison entry.
  `PoisonEntriesAreBounded` counts them, and `PoisonBoundIsAttained` has, for every limit and every number
  of blind claims, a run with exactly that many calls.
- readme.md:280 calls retry queues isolated by topic and group. The queues are; the retries are not:
  promotion adds them to the shared stream (pubsub/store.go:288-306), where every group reads them again,
  those that had handled the message included. With n groups and MaxDeliver M one message can so cost
  n * (1 + n + ... + n^(M-1)) handler calls. `HandlerCallsAreBounded` is that bound, and
  `WorkBoundIsAttained` has, for every n and M, a run that makes exactly that many.

## Model

| member | source | states |
|---|---|---|
| ReminderProtocol.RunKeepsInv | reminder/store.go:121-221 | in every run, whatever stale workers and crashes did, pending, processing and sent rows have 0 <= retry_count < max_retry, failed ones exactly max_retry, last_error is set iff retry_count > 0, sent_at iff sent, canceled_at iff canceled; keys stay unique; every live snapshot has the row's max_retry and attempts left |
| ReminderProtocol.FinalRowsNeverChange | reminder/store.go:201-221 | a sent or canceled row is the same row in every later state of every run |
| ReminderProtocol.RowsPersist | reminder/store.go:35-52 | no step deletes a row or changes its id, key, user, channel, payload, retry limit or creation time |
| ReminderProtocol.StepKeepsBudget | reminder/service.go:154-198 | every step, also of a stale worker, keeps: Notify calls so far plus max_retry - retry_count over the pending row and all live snapshots is at most max_retry times one plus requeues plus reschedules |
| ReminderProtocol.NotificationsAreBounded | reminder/service.go:154-198 | from the empty table, in every interleaving, the Notify calls for a reminder are at most max_retry * (1 + its stale requeues + its reschedules) |
| ReminderProtocol.ClaimsAreSeparated | reminder/store.go:157-188 | between two claims of one row, in any run, a step returned it to pending |
| ReminderLaws.DueWhenLastAsked | reminder/store.go:35-52 | in every run a reminder is due exactly when it was last asked to be: by its creation, an applied retry mark or a reschedule; no other step moves it |
| ReminderLaws.NoClaimIsEarly | reminder/store.go:167-169 | in every run no reminder is claimed before the time last asked for |
| ReminderLaws.RetryIsPostponed | reminder/service.go:190-191 | after a recorded failure, and until another retry mark or a reschedule, no claim comes before the retry's time, whatever the run does |
| ReminderLaws.ClaimHolds | reminder/store.go:177-199 | a claimed row stays in processing through every run without a mark of it or a requeue with a threshold at or after the claim, and exactly such thresholds can requeue it |
| ReminderLaws.LogIsExact | reminder/service.go:161 | over every run the events the bounds count are exactly the Notify calls, requeues, reschedules and returns to pending that happened |
| ReminderExclusive.DisciplineIsExact | reminder/store.go:190-199 | a step keeps every live snapshot equal to its row, and one per row, if and only if it does not requeue a row that some worker still holds |
| ReminderExclusive.MarksNeverConflict | reminder/store.go:201-235 | while processing is exclusive every mark finds its row in processing, so mutationResult reports no conflict |
| ReminderExclusive.TimelyRunsAreExclusive | reminder/service.go:216-226 | with many workers on a common clock whose dispatches end strictly within processingTTL of their claim, every run keeps exclusivity, and retry_count equals the failures recorded since creation or the last reschedule |
| ReminderExclusive.SingleRunsAreExclusive | reminder/service.go:118-136 | every run in which rows are requeued only while no snapshot is live keeps exclusivity and exact failure counts, with no assumption on time; ReminderStore.Service.Loop proves that a sole service is such a run |
| ReminderExclusive.UserRunsAreRuns | reminder/store.go:121-155 | what users do never touches what workers hold and is allowed in every regime |
| ReminderExclusive.StepKeepsCounts | reminder/store.go:208-221 | while processing is exclusive every step keeps retry_count equal to the recorded failures |
| ReminderQuery.OrderBy | reminder/store.go:109 | the ORDER BY of the queries: the same rows in ascending order of their keys |
| ReminderQuery.OrderIsByTimeThenId | reminder/store.go:109 | that order is by schedule_at, and at equal times by id |
| ReminderQuery.AscendingIsUnique | reminder/store.go:109 | that order determines the sequence |
| ReminderQuery.ValidStatusNames | reminder/store.go:239-245 | validStatus accepts exactly the five status names |
| ReminderQuery.ListIsExact | reminder/store.go:69-119 | List fails exactly on an unknown status or a bad cursor; otherwise it returns, in order, the first rows after the cursor that match every parameter asked for, 50 of them unless asked for less or up to 200, skipping none, and a NextCursor iff more remain and the last row can be marshalled |
| ReminderQuery.PaginationIsComplete | reminder/store.go:69-119 | on a fixed table following NextCursor ends, yields a prefix of the rows that match every parameter, in order, and yields all of them if and only if every page boundary can be marshalled |
| ReminderStore.ReachableTablesPaginate | reminder/store.go:69-119 | the same of the table of every state that a run of the protocol reaches: it is well-formed, so whether paging lists everything depends on the boundaries alone |
| ReminderBoundary.PagingStopsEarly | reminder/store.go:246-249 | with a lawful codec that refuses years above 9999, and two rows in the year 10000 read one to a page, following NextCursor yields the first row and stops |
| ReminderQuery.WalkAscends | reminder/store.go:101-117 | with arbitrary changes between the pages, the emitted positions strictly increase from the starting position on |
| ReminderQuery.WalkEmitsSteadyRowsOnce | reminder/store.go:101-117 | a row that matches throughout at one schedule time is never emitted twice, and a walk that ends emits it if and only if it did not stop before it at a boundary that cannot be marshalled |
| ReminderStore.BatchIsRun | reminder/store.go:177-179 | one UPDATE over a claimable batch is a run of single claims |
| ReminderStore.RequeueIsRun | reminder/store.go:190-199 | the one UPDATE of the requeue is a run of single requeues |
| ReminderStore.SelectDue | reminder/store.go:167-169 | the locking SELECT returns due pending rows that nobody locks, in order, at most limit, skipping none |
| ReminderStore.IdsOf | reminder/store.go:173-176 | the loop collects exactly the ids of the claimed items |
| ReminderStore.BringUpToDate | reminder/store.go:183-186 | the in-place loop makes every item the row that the UPDATE wrote |
| ReminderStore.Store.Insert | reminder/store.go:45-50 | the INSERT fails exactly on a taken key and burns an id either way |
| ReminderStore.Store.Create | reminder/store.go:35-52 | which error each input gives; success is one Create step with the trimmed, defaulted row, field by field |
| ReminderStore.Store.GetByKey | reminder/store.go:54-67 | the row with the trimmed key, ErrNotFound iff there is none, ErrInvalidReminder iff the key is blank |
| ReminderStore.Store.CancelByKey | reminder/store.go:121-139 | with arbitrary steps between its read and its update: nil means the row is canceled and final, an error means this call changed nothing; each error has its exact condition in terms of what was read and what was found, and a reminder found canceled gives nil if and only if it was read as canceled |
| ReminderStore.CancelRaceConflicts | reminder/store.go:126-138 | a run in which another cancel lands between the two statements, so that the row is canceled and the answer is ErrStateConflict |
| ReminderStore.Store.RescheduleByKey | reminder/store.go:141-155 | likewise: success is one Reschedule step of an open row, an error means nothing changed, and each of the three errors has its exact condition: blank key or zero time, no such key when read, not open when updated |
| ReminderStore.Store.ClaimDue | reminder/store.go:157-188 | at most limit due pending rows in (schedule_at, id) order, set to processing and updated at now in table and memory and otherwise as they were, nothing else changed, and no unlocked due row left behind that precedes a claimed one |
| ReminderStore.Store.RequeueStaleProcessing | reminder/store.go:190-199 | exactly the rows in processing not touched since the threshold return to pending, updated now and otherwise as they were; their number is reported |
| ReminderStore.Store.MarkSent | reminder/store.go:201-207 | the guarded write is the protocol's step on this snapshot, sets status, sent_at and updated_at and nothing else; ErrStateConflict iff the row is not in processing, and then nothing changes |
| ReminderStore.Store.MarkRetry | reminder/store.go:208-214 | likewise for a retry: pending, the snapshot's retry_count plus one, the given time and error |
| ReminderStore.Store.MarkFailed | reminder/store.go:215-221 | likewise for the last failure: failed, the snapshot's retry_count plus one, the error, the same time |
| ReminderStore.Service.Settle | reminder/service.go:162-198 | the branches after Notify take the one mark step that the outcome calls for |
| ReminderStore.Service.NotifyItem | reminder/service.go:154-161 | one Notify call on the worker's snapshot, then any steps of others; while only users act the mark that follows will apply |
| ReminderStore.Service.Dispatch | reminder/service.go:154-198 | one Notify call on the worker's snapshot, then after any steps of others one mark; if it applies the row reads sent, or pending again at now plus the delay for its retry_count plus one, or failed, with the trimmed error; an error iff that mark conflicted, and never for a sole worker, who lets go of exactly this snapshot |
| ReminderStore.Service.DispatchAll | reminder/service.go:144-151 | every claimed item is notified once, in order, and its outcome recorded by the one mark it calls for, one after the other, whatever the others return; the failures are the marks that conflicted; a sole worker ends with none and holding nothing |
| ReminderStore.Service.ProcessBatch | reminder/service.go:138-152 | the batch is what ClaimDue owes, and exactly its items are notified and settled |
| ReminderStore.Service.Tick | reminder/service.go:126-134 | one turn of the loop is a run of the protocol: exactly the stale rows are recovered, then the batch is what ClaimDue owes on the recovered table, and each of its items is notified and settled; a sole service starts and ends it holding nothing, with no failed mark |
| ReminderStore.Service.Loop | reminder/service.go:118-136 | any number of turns, one after the other with anything between them, each recovering what is stale and claiming what is due; the Notify calls are exactly what the turns claimed; for a sole service the whole is a run that requeues only between batches, and no mark ever fails |
| PubSubProtocol.AttemptsStayInRange | pubsub/message.go:73-99 | in every run every stream entry has 1 <= attempt <= max_deliver and every queued retry 2 <= attempt <= max_deliver, claims included |
| PubSubProtocol.StepKeepsInv | pubsub/service.go:193-254 | every step keeps these ranges, cursors inside the stream, pending counts positive and flights holding what the stream holds |
| PubSubWork.StepKeepsBudget | pubsub/store.go:288-306 | every step keeps: handler calls for a value plus the weighted potential of its unread, in-flight and queued copies are within G times its publishes plus its claims, each worth 1 + G + ... + G^(M-1); promotion into the shared stream and attempts lowered by claims included |
| PubSubWork.HandlerCallsAreBounded | pubsub/service.go:193-254 | over every run with n groups the handler calls for a value are at most (n * publishes + claims) * (1 + n + ... + n^(M-1)) |
| PubSubTight.WorkBoundIsAttained | pubsub/store.go:288-306 | for every number n of groups and every limit M there is a run with one publish and no claims that makes exactly n * (1 + n + ... + n^(M-1)) handler calls: promoted retries reach every group again |
| PubSubWork.OneGroupWithoutClaims | pubsub/service.go:227-244 | with one group and no claims a message published once is handed over at most MaxDeliver times |
| PubSubWork.TreeIsPowerSum | pubsub/service.go:227-244 | the weight W(a) = 1 + G * W(a + 1) sums to the geometric bound |
| PubSubPoison.StepKeepsPoison | pubsub/store.go:103-133 | every step keeps: calls of an entry in a group plus flights still callable are at most the smaller of deliveries and limit, plus blind reads; pending counts are delivery counts |
| PubSubPoison.PoisonEntriesAreBounded | pubsub/service.go:211-220 | with dead-lettering on, an entry reaches one group's handler at most MaxDeliver times plus once per claim whose count could not be read, however often consumers crash |
| PubSubPoison.LateClaimsAreBuried | pubsub/service.go:211-216 | with dead-lettering on, a claim of an entry already delivered MaxDeliver times cannot end in a handler call and can end in the dead-letter stream, whatever others do between claim, count and decision, if the entry is still pending when the count is read |
| PubSubPoison.PoisonBoundIsAttained | pubsub/store.go:124-131 | for every limit and every number of blind claims there is a run with exactly limit + blind claims calls |
| PubSubDelivery.StepKeepsAccounts | pubsub/service.go:193-254 | each step keeps every published message accounted for in every group |
| PubSubDelivery.NothingIsLost | pubsub/service.go:193-254 | at least once: in every reachable state every published message is, for every group, unread, pending or queued for a retry, unless that group handled it, has it in the dead-letter stream, or dropped it with dead-lettering off |
| PubSubDelivery.NothingIsMadeUp | pubsub/store.go:161-183 | whatever is on the stream, queued or buried was published as it is, limit and time included, and nothing is buried before its last attempt |
| PubSubDelivery.PromotableWhenDue | pubsub/service.go:264-279 | in any run a queued copy can be promoted exactly from the millisecond on in which its group's latest failure plus the backoff for its attempt falls |
| PubSubDelivery.RetriesAreNotEarly | pubsub/service.go:264-279 | so a copy is promoted only later than that failure plus the backoff minus one millisecond |
| PubSubLog.LogIsExact | pubsub/service.go:222 | over every run the events the bounds count are exactly the publishes, deliveries, blind reads, handler calls, successes and drops that happened |
| Messages.MessageRoundTrip | pubsub/message.go:69-151 | decoding an encoded message returns it with MaxDeliver defaulted, the time in UTC and the attempt |
| Messages.RetryHop | pubsub/store.go:161-183 | delivery, envelope, promotion and delivery again change only entry id, consumer, raw fields and attempt |
| Messages.NumbersAreRead | pubsub/message.go:106-118 | of all integers written into an entry, exactly the positive 64-bit ones are read as attempts and the non-negative ones as limits; no attempt reads as 1, no limit is malformed |
| Timestamp.ParseInvertsFormat | pubsub/message.go:120-123 | parsing inverts RFC3339Nano formatting on every timestamp of years 0 to 9999 |
| Decimal.AtoiInvertsItoa | pubsub/message.go:96-97 | parsing inverts printing on every 64-bit integer |
| RetrySet.AddIsExact | pubsub/store.go:277-280 | ZADD sets one member's score, keeps the (score, text) order, and leaves all other members alone |
| RetrySet.RemIsExact | pubsub/store.go:302 | ZREM takes out one text and nothing else |
| RetrySet.RangeIsPrefix | pubsub/store.go:289 | ZRANGEBYSCORE with LIMIT is the prefix of min(limit, due) members, and the due members are the first ones |
| RetrySet.SetInOrder | pubsub/store.go:289 | members are ordered by score, and at equal scores by text: a proper prefix first, else by the first character that differs |
| RetrySet.AddRepresents | pubsub/store.go:277-280 | as a map from copies to scores, ZADD of a copy's text is the map update |
| PubSubShape.EncodedFieldsCarry | pubsub/message.go:73-99 | the fields Publish writes carry the published value at attempt 1 |
| PubSubShape.ClaimedFieldsCarry | pubsub/store.go:126-129 | overwriting the attempt field with the delivery count changes the decoded attempt and nothing else |
| PubSubShape.PromotedFieldsCarry | pubsub/store.go:291-301 | what the Lua script writes for a queued text carries the value and attempt it stands for |
| PubSubShape.DeadFieldsCarry | pubsub/store.go:142-153 | a dead letter decodes to the message, time and attempt that died, and names its source group and entry id |
| PubSubStore.XAckRemoves | pubsub/store.go:93-101 | XACK of an id takes exactly the entry of that id off the pending list: ids name stream positions |
| PubSubStore.Store.Publish | pubsub/store.go:49-71 | an error iff the message has neither type nor data, a negative limit or a schedule; success adds one entry, whose id is returned, with the seven wire fields, and is one Publish step of the message with its own limit, or the default if it has none |
| PubSubStore.Store.ReadGroup | pubsub/store.go:73-91 | the next min(count, unread) entries in stream order, each with its own id and fields, each a new flight that holds what the stream holds |
| PubSubStore.Store.Ack | pubsub/store.go:93-101 | XACK is the protocol step that ends the flight |
| PubSubStore.Store.Claim | pubsub/store.go:110-117 | claiming a pending entry raises its delivery count by one and starts a flight |
| PubSubStore.Store.PendingRetryCount | pubsub/store.go:260-275 | the pending list's count, 0 for an entry acknowledged meanwhile, an error if unanswered or out of range |
| PubSubStore.Store.ReadCount | pubsub/store.go:124-131 | the entry handed on has the delivery count as its attempt if it could be read, the stored attempt otherwise |
| PubSubStore.Store.AutoClaim | pubsub/store.go:103-133 | one flight per chosen entry, each given to the worker under its own id at its flight's attempt, while others act between the reads |
| PubSubStore.Store.DLQAndAck | pubsub/store.go:282-286 | one step adds the dead letter and acknowledges |
| PubSubStore.Store.MoveToDLQ | pubsub/store.go:135-159 | the dead letter it builds is the one that step owes this flight, and it acknowledges the entry that the delivery's id names |
| PubSubStore.Store.RetryAndAck | pubsub/store.go:277-280 | one step queues the text and acknowledges |
| PubSubStore.Store.ScheduleRetry | pubsub/store.go:161-183 | the payload it builds is the text of the copy that step queues, and the score is its due time |
| PubSubStore.Store.PromoteFirst | pubsub/store.go:291-303 | one round of the script's loop is one Promote step |
| PubSubStore.Store.PromoteDueRetries | pubsub/store.go:185-200 | the script moves exactly the first min(limit, due) members by (score, text) to the end of the stream, one entry each, and leaves every other member and group alone; a limit below 1 counts as 1 |
| PubSubStore.Service.CloseFailed | pubsub/service.go:227-244 | after a handler error exactly the step the attempt calls for: dead-letter, drop, or queue the next attempt after its backoff |
| PubSubStore.Service.HandleEntry | pubsub/service.go:193-254 | the decision tree: the handler is called iff the entry decodes and is not past the limit with dead-lettering on, with the delivery of this flight, by id, group, consumer, message and attempt; then one closing step of the entry its id names, or the entry stays pending if Redis does not answer |
| PubSubStore.Service.HandleAll | pubsub/service.go:138-140 | each entry of a batch in turn is handed over if it is to be, in order, and gets the closing step it is owed, or stays pending if Redis does not answer, whatever became of the others |
| PubSubStore.Service.ConsumeTurn | pubsub/service.go:130-140 | one turn of consumeLoop is a run of the protocol that reads the next min(count, unread) entries and then brings each to its end as HandleAll does |
| PubSubStore.Service.ClaimTurn | pubsub/service.go:153-168 | one turn of claimLoop is a run of the protocol that claims the chosen entries and then brings each to its end as HandleAll does |
| PubSubStore.Store.LosesNothing | pubsub/service.go:122-191 | whatever has been done to a store, in whatever order, no message published to its topic is lost for any group |
| TokenBucket.FastFormIsExact | middleware/production.go:75-84 | on every ordered history the two-variable test admits a request if and only if admitting it keeps every window from an earlier request or from creation within burst + rate * elapsed |
| TokenBucket.GreedyAdmitsMost | middleware/production.go:75-84 | at every point of every run it has admitted at least as many requests as any limiter that keeps the windows |
| TokenBucket.WindowBound | middleware/production.go:75-84 | in any run at most burst + rate * (end - start) requests are admitted between any two instants |
| TokenBucket.RateWindowBound | middleware/production.go:64-84 | for the middleware's own rate, the requests admitted between two instants number at most burst plus rate times their distance in nanoseconds over 1,000,000,000 |
| TokenBucket.TokensStayInRange | middleware/production.go:76-84 | tokens stay in [0, burst] |
| TokenBucket.RateLevelIsRateTimesSeconds | middleware/production.go:76 | what accrues between two instants is rate times their distance in nanoseconds over 1,000,000,000 |
| TokenBucket.SecondBringsRate | middleware/production.go:76 | a billion nanoseconds bring exactly rate tokens |
| TokenBucket.RateLimiter.constructor | middleware/production.go:64-72 | rate <= 0 means unlimited, burst is at least rate, the bucket starts full |
| TokenBucket.RateLimiter.Request | middleware/production.go:73-91 | the closure allows a request iff one more admission fits every window, from creation and from each earlier request, into burst + rate * nanoseconds / 1,000,000,000; it keeps its tokens in range |
| Rendezvous.FnvConcat | transport/micro/selector.go:134-138 | hashing in pieces is hashing the concatenation |
| Rendezvous.FnvByteIsXorThenMultiply | transport/micro/selector.go:134 | each step is FNV-1a's: undoing the multiplication by the inverse of the prime leaves the word with the byte xored into its low eight bits |
| Rendezvous.FnvOfFoobar | transport/micro/selector.go:134 | the fold gives the published 64-bit FNV-1a value of "foobar" |
| Rendezvous.Hasher.Write | transport/micro/selector.go:134-137 | a write folds its bytes into the sum |
| Rendezvous.ScoreOf | transport/micro/selector.go:134-138 | three writes equal one FNV-1a fold over key, 0, id |
| Rendezvous.HrwPick | transport/micro/selector.go:129-145 | nil iff there are no nodes, otherwise the first node of maximal score |
| Rendezvous.PickIsUnique | transport/micro/selector.go:129-145 | that describes one node only |
| Rendezvous.RemovalKeepsPick | transport/micro/selector.go:129-145 | any subsequence that keeps the picked position picks it again: removing other nodes never moves a key |
| Rendezvous.InsertionMovesOnlyToNew | transport/micro/selector.go:129-145 | inserting nodes anywhere moves a key only to an inserted node |
| Rendezvous.OrderIrrelevant | transport/micro/selector.go:129-145 | with distinct scores the pick is independent of the node order |
| Rendezvous.TieFollowsOrder | transport/micro/selector.go:139-142 | distinctness is needed: two tied nodes swap the pick when they swap places |
| Rendezvous.AlicePicksThird | transport/micro/selector.go:129-145 | of nodes with ids node-1, node-2 and node-3 the key alice picks node-3 |
| Rendezvous.FirstNonEmpty | transport/micro/selector.go:147-154 | the first non-empty value, or empty if all are |
| Rendezvous.Select | transport/micro/selector.go:87-109 | no services is an error; a user id and at least one node give the sticky pick, which scores at least as high as every node of every service; otherwise the strategy gets the filtered services |
| LifecycleProtocol.StepKeepsInv | mesa.go:146-256 | every step but a Shutdown whose first lock falls into Starting keeps the state order, at most one leader, shutdownDone closed exactly once when Stopped, one error for all, the order in which items are stopped by the leader or by a failed start, and names in bijection with components |
| LifecycleProtocol.RegisterKeepsIndex | mesa.go:334-342 | registering a trimmed, new, non-empty name keeps index and component list in bijection |
| LifecycleRuns.OrderlyRunsAreSafe | mesa.go:146-256 | in every orderly run shutdownDone is closed at most once and exactly when Stopped, and all Shutdowns not cut off by their context return the same error; what has been stopped is a prefix of the stop order, unless a start failed, and then exactly the started items so far undone, in start order |
| LifecycleRuns.RunMovesOn | mesa.go:189-231 | a call's answer never changes, and once shutting down no other call becomes the leader |
| LifecycleRuns.OneLeader | mesa.go:207-219 | in one orderly run at most one Shutdown call stops items |
| LifecycleRuns.StopPlanAt | mesa.go:211-218 | the stop order is components from the last registered, then servers from the last |
| LifecycleRuns.StartPlanAt | mesa.go:158-181 | the start order is servers in order, then components in order of registration |
| LifecycleRuns.StopIsStartReversed | mesa.go:211-218 | the stop order is the start order reversed |
| LifecycleRuns.UncutLeaderStopsAll | mesa.go:233-244 | a leader whose context has not ended has stopped every item once, in that order |
| LifecycleRuns.ProvisoIsExact | mesa.go:182-184 | from a good state, a step makes an orderly run able to move the state backwards or close shutdownDone twice if and only if it is a Shutdown taking its first lock during the start |
| LifecycleRuns.EarlyShutdownIsUndone | mesa.go:182-184 | a run from a new runtime in which an early Shutdown's Stopping is turned back into Running |
| LifecycleRuns.EarlyShutdownClosesTwice | mesa.go:226-229 | a run from a new runtime with one server in which an early Shutdown and a failed start close shutdownDone twice |
| MesaRuntime.Mesa.RegisterComponent | mesa.go:324-345 | the items before the first refused one are registered and stay so; which error the refused one gives; names stay in bijection |
| MesaRuntime.Mesa.Lock | mesa.go:193-219 | the first critical section is one protocol step, and the leader's items are the stop order |
| MesaRuntime.Mesa.ReversedParts | mesa.go:212-214 | the loop from the last component builds the reversed list |
| MesaRuntime.Mesa.StopItems | mesa.go:233-244 | items are stopped in order up to the first at which the context has ended, and the result joins their errors and the context's |
| MesaRuntime.Mesa.LeadShutdown | mesa.go:221-230 | the leader publishes the joined error, sets Stopped and closes shutdownDone in one step |
| MesaRuntime.Mesa.LookAtSelect | mesa.go:202-206 | a waiting call returns the published error if shutdownDone is closed, its context's error if that has ended, either if both, and waits on otherwise |
| MesaRuntime.Mesa.Shutdown | mesa.go:189-231 | what each call returns, by the state its first lock finds: the published error, the leader's own joined error, or what its select gives |
| MesaRuntime.Mesa.UndoStarted | mesa.go:167 | after a failed start the items stopped are exactly those that had been started, in start order, whatever others do in between |
| MesaRuntime.Mesa.Run | mesa.go:146-185 | refused iff not New; starts servers in order, then components in order, up to the first that fails; then it has stopped exactly the ones before it, in start order, and leaves Stopped and shutdownDone closed; otherwise Running, having itself stopped nothing |
| MesaRuntime.Mesa.RunLast | mesa.go:185-186 | Run ends as a Shutdown call that its context cannot cut off |

## Left out

- ReminderStore.Store.Interference: stands for other processes by contract (any run of the protocol that leaves the caller's snapshots alone); its body does nothing. The same holds for PubSubStore.Store.Interference and MesaRuntime.Mesa.Interference.
- PubSubStore.Store.Publish: limits above 2^53 are excluded, because cjson holds numbers as doubles: promotion rounds a larger limit, and prints one of 10^17 or more with an exponent, which no longer decodes; so are times outside years 0 to 9999, which RFC 3339 cannot write.
- PubSubStore.Store.AutoClaim: which idle entries XAUTOCLAIM picks, and from where it scans on, is a parameter; idle times are not modelled.
- MesaRuntime.Mesa.Shutdown: a waiting call is followed up to one look at its select; that shutdownDone is eventually closed is a liveness property and not claimed.
- MesaRuntime.Mesa.Run: further Run calls, which are refused without any effect, are not listed as calls; Run's wait for its context is the gap between Run and RunLast.
- ReminderStore.Service.Tick: Start and Stop, which only guard the loop's goroutine, the ticker, and errors of the database are not modelled; a failed statement is a step that did not happen.
- Messages.MessageRoundTrip: header JSON, envelope JSON and base64 are abstract codecs with an inverse law; text is valid UTF-8, which JSON would otherwise change.
- Timestamp.ParseInvertsFormat: spellings beyond RFC 3339 that Go's parser also accepts, such as a comma before the fraction, are rejected by the model's parser; nothing in the repository writes them.
- TokenBucket.RateLimiter.Request: exact reals instead of IEEE floats, and a monotonic clock.
- Entry ids: stream positions in decimal instead of Redis's pairs of time and sequence number; of an id only which entry it names is used.
- Stream trimming by MAXLEN: assumed not to happen, since it can discard undelivered entries.
- Entries written by other programs: those that never decode are modelled; well-formed ones, and ones that are malformed only in their attempt field, are not.
- One topic: each topic is one instance of the model, provided no two Redis keys of its topics and groups coincide (pubsub/store.go:213-223). They can: a topic named like another plus the suffix ":dlq" has that topic's dead-letter stream as its own stream. A subscription's effective retry policy is a constant of its group.
- Handlers and notifiers are assumed not to change the Delivery or Reminder they are given: both are passed by reference, and handleEntry and dispatch read them again after the call.
- Store.PublishRetry, which nothing calls, and the Pub/Sub service's Start, which starts one goroutine per loop.
- ScheduleRetry's refusal of a zero due time: it concerns the year 1 only.
- Trace headers that Publish adds, metrics, logs and spans.
- PostgreSQL's rounding of times to microseconds and overflow of times and ids.
- The selector's cache, registry errors, filters and fallback strategies; nil entries in a node list.
- Component Start and Stop bodies, resource closing and telemetry shutdown: their errors are parameters.
- Option builders, configuration, dispatcher routing, HTTP and TCP servers, authentication: each is settled by reading one branch.
