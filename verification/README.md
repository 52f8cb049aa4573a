# Market Relay ingestion engine: a verified model

Market Relay collects end-of-day closes and fund NAVs from providers, keeps them in an append-only history and
publishes them under versioned policy decisions. This project models its ingestion engine and the read side that must
agree with it, and proves what the engine is built for: work is done at least once and takes effect exactly once.

`dafny verify dfyconfig.toml` checks everything.

## How the model is cut

| module | what it holds |
|---|---|
| `Domain`, `Wrappers` | the rows and values: jobs, cursors, observations, raw responses, decisions |
| `JobTable` | the statements the queue runs against the `jobs` table, each one atomic |
| `JobQueue` | the queue's use cases as a class over that table; the order of claims |
| `QueueProtocol` | any number of workers interleaving those statements, with crashes and old tokens, and the history of every job |
| `SharedWorkerName` | a run of two schedulers under the one worker name of the entry point |
| `RetrySpacing` | what the backoff guarantees between attempts |
| `ObservationTable`, `ObservationStore` | the append-only table, one write attempt as separate read and insert, and the retry loop |
| `RevisionRace` | any number of writers inside that loop at once |
| `Governance` | versioned policy decisions and the gates that read them |
| `Validation`, `Quota` | admission of a raw observation; the quota book |
| `StorageLoop`, `IngestionRunner` | storing one response, alone or with others at work; one run of `process` |
| `Scheduler`, `BatchInterruption` | one batch of claims with its catch-all and counters; a batch that a failure interrupts |
| `IngestionSystem`, `ExactlyOnce` | the whole engine as one transition system; what holds over its runs |
| `Planning`, `Replanning` | the recovery plan; what a later plan keeps of it |
| `DedupeKey`, `Dispatch`, `Redispatch` | the text that identifies a job; plan to jobs; dispatching again |
| `FirstBest`, `Selection`, `SelectionOrder`, `ObservationView` | folds that keep one row for each key; which row is published; when row order matters; the views built on that |
| `FakeProvider`, `EndToEnd` | the deterministic provider and calendar, for which every assumption about providers is proved; from a dispatched date to its row |

Three transition systems carry the results over whole runs. `QueueProtocol` has one step for each statement and keeps
the history of every job in the state, so a claim about all earlier steps is a predicate of one state. `RevisionRace`
has the read and the insert of `record` as separate steps of any number of writers. `IngestionSystem` puts queue, store
and policy log together and cuts `process` into its gate, its start, the provider call with the fence, every read and
every insert of the storage loop, and its verdict; between any two of them any other worker or reviewer may act.

## What the model takes as given

- Each guarded `UPDATE` is one step and visible at once. The claim together with its re-read is one step, and so are
  the two queries of `authorize_ingestion`. A transaction that rolls back counts as steps that did not happen.
- The unique constraints on `dedupe_key`, on natural key and revision, and on source, capability and version.
- A read after a conflict sees the rows committed by then; a stale read of the policy log sees a prefix of it.
- `max_attempts >= 1` and `max_sessions_per_chunk >= 1`. A fetch job has a listing.
- Observation values are exact rationals; dates are ordinals; instants are integers on one clock; ids are numbers, and
  a fresh id is any unused one.
- `date.isoformat` is a parameter: no colon, and one text per date; `DedupeKey.DecimalIsIso` gives such a text. The fake
  provider's SHA-256 price is a parameter of listing and date that is never below ten.
- A provider's reply is a parameter: any list of raw observations, or a failure.
- A worker's copy of a job row is loaded by its claim and kept over commits. An accepted transition makes it load its own
  row again, which it does at the fence; a refused one expires every copy of the session, so that later jobs of the same
  batch work on their rows as they then are. In `QueueProtocol` a worker may read its row again at any time.
- `FetchCursor.parse` is the `cursor` field of a job: `None` where the stored text does not parse.

## Where the code and its documentation differ

- `_current_publishable_by_source` documents each credential scope as a candidate of its own; the code keeps one row
  per source. The model follows the code (`Selection.CurrentPublishableBySource`). Two scopes that tie for the last
  retrieval of their source leave the choice to row order (`SelectionOrder.TieIsDecidedByRowOrder`), which the query does
  not fix; `SelectionOrder.RowOrderIrrelevantIff` is the exact condition, and `SelectionOrder.OneChampionEachIff` its
  form when every account has one external id for the listing.
- Transitions are documented as fenced by the claim's generation. After one job of a batch has lost its claim the other
  rows are read again, and the turns that follow work under whatever generation and owner they find:
  `Scheduler.RereadTurnHitsTheLiveOwner` says whom the catch-all of such a turn hits, and
  `SharedWorkerName.SharedNameLetsTheCatchAllFailAnotherClaim` gives a run in which it is another scheduler, under the one
  worker name that the entry point uses. The catch-all of a run that raised is fenced by the run's own token
  (`Scheduler.RaisedTokenIsTheRuns`).
- An unexpected failure is documented never to interrupt the batch. It does exactly if the token of the worker's copy no
  longer holds on the table that the catch-all finds (`Scheduler.TurnAbortsIff`, `Scheduler.BatchAbortsIff`): the
  stale-claim error is then raised inside the handler and ends the loop. `BatchInterruption.InterruptedBatch` is such a
  batch, of two jobs.
- Re-dispatching is documented as a no-op. A dispatch changes nothing exactly if each range of its plan has been asked
  for before, in whatever earlier dispatches (`Redispatch.DispatchAddsNothingIff`); with one calendar
  `Redispatch.RedispatchAddsNothingIff` turns that into arithmetic on the earlier cursors and days. A store that ends
  inside a chunk shifts all later chunks (`Replanning.CursorInsideChunkShiftsTheChunks`), as happens when a crypto chunk
  ends on a weekend; so does the next day's window with nothing stored (`Replanning.NextDayShiftsTheChunks`).
  `Replanning.LaterPlanKeepsChunkIff` is the exact condition for one chunk and two plans.
- The recovery cursor is documented as what was actually completed. It is the latest stored date: once a later date of
  a listing is stored, an earlier unrecorded one is never asked for again, whatever became of its job
  (`Redispatch.GapIsNeverAskedForAgain`); `Redispatch.StillPlannedIff` says exactly which dates a plan still holds.
- A retried job is expected to converge. A job with one malformed and one good row is DONE on its first run and fails
  on any rerun of the same response (`StorageLoop.PartlyMalformedJobCompletesOnlyOnce`), and one whose response gives two
  values for one date adds rows on every rerun. `StorageLoop.RerunCompletesIff` has both exact conditions.
- A claim does not look at `next_run_at` again, so a late claim can come before the backoff is over
  (`RetrySpacing.LateClaimIgnoresTheBackoff`). It is due as long as nobody has claimed the job since it was selected
  (`RetrySpacing.LateClaimIsDueUnlessClaimed`), and after someone else's failure it is early exactly before that failure
  plus its delay (`RetrySpacing.LateClaimIsEarlyIff`). Over whole sequences of claims the spacing holds exactly if each
  claim found the job due (`RetrySpacing.SpacedIffEachClaimWasDue`).
- The type of an observation is not compared with the type its job asks for. The fake provider answers NAV jobs with
  EOD closes, so the recovery cursor of a NAV listing never moves (`FakeProvider.NavRecoveryNeverAdvances`).
- The fake calendar expects a session for a crypto listing on weekends, and the fake provider has no price then
  (`FakeProvider.ExpectedDatesAreAnsweredOnWeekdays`).
- Nothing calls `mark_waiting_for_publication`, so `jobs_waiting` is always zero (`Scheduler.ClaimAndProcess`).

## Model

| member | source | states |
|---|---|---|
| QueueProtocol.StepKeepsInv | src/market_relay/domain/ingestion/queue.py:72-277 | Every step of any worker keeps the queue invariant: one job per dedupe key; owner and claim time set while owned and cleared when PENDING, waiting or FAILED (DONE keeps its owner); FAILED exactly at the attempt limit; claims and releases alternate with growing tokens; every live token's copy of the count is exact |
| QueueProtocol.RunKeepsInv | src/market_relay/domain/ingestion/queue.py:72-400 | Every state that any run reaches satisfies that invariant |
| QueueProtocol.RunExtends | src/market_relay/domain/ingestion/queue.py:153-400 | Over any run no job is lost, no generation goes back, DONE and FAILED rows never change again, and histories only grow |
| QueueProtocol.TokensAreUsedOnce | src/market_relay/domain/ingestion/queue.py:171-277 | No two claims of a job get the same token and at most one step ever consumes a token |
| QueueProtocol.ConsumedTokenIsDead | src/market_relay/domain/ingestion/queue.py:249-293 | After a token was consumed, in every later state every transition and the fence refuse it, whoever presents it and under whatever worker name |
| QueueProtocol.OnlyTheClaimantReleases | src/market_relay/domain/ingestion/queue.py:249-277 | A transition that ends a claim carries the token and the worker name of the claim just before it |
| QueueProtocol.AttemptCountIsExact | src/market_relay/domain/ingestion/queue.py:171-198 | In every reachable state `attempt_count` is the number of failure and lease-expiry steps of the job, and FAILED holds exactly when it has reached `max_attempts` |
| QueueProtocol.FailureLosesNoUpdate | src/market_relay/domain/ingestion/queue.py:368-400 | `mark_failed` writes an absolute count from an old copy, yet an accepted one adds exactly one to the stored count and a refused one changes nothing |
| QueueProtocol.CatchAllHitsTheLiveOwner | src/market_relay/domain/ingestion/scheduler_service.py:250-263 | A failure presented under a generation read from the row at that moment changes the table if and only if the job is then owned under the same worker name, whoever holds it, and then consumes that claim |
| SharedWorkerName.SharedNameLetsTheCatchAllFailAnotherClaim | src/market_relay/entrypoints/scheduler.py:28 | A reachable state of two schedulers under one name: the first has a batch of two, its transition on the one is refused, and its catch-all for the other, whose row it reads again, ends the second scheduler's live claim |
| JobTable.ReEnqueueIsNoOp | src/market_relay/domain/ingestion/queue.py:72-112 | After an enqueue and any later statements, enqueueing under the same key leaves the table as it is, whatever the job's status |
| JobQueue.JobQueue.EnqueueIdempotent | src/market_relay/domain/ingestion/queue.py:72-112 | Creates exactly when the key is new, under an unused id, and otherwise finds the existing job and changes nothing |
| JobQueue.JobQueue.RecoverExpired | src/market_relay/domain/ingestion/queue.py:171-198 | Exactly the owned jobs whose lease ran out are taken back, counted and given a new generation; every other row is unchanged |
| JobQueue.JobQueue.PromoteDueWaiting | src/market_relay/domain/ingestion/queue.py:153-169 | Exactly the due waiting jobs become claimable; every other row is unchanged |
| JobQueue.JobQueue.TryClaimOne | src/market_relay/domain/ingestion/queue.py:200-221 | Wins exactly when the job is PENDING, and then writes owner, claim time and the next generation |
| JobQueue.JobQueue.ClaimNext | src/market_relay/domain/ingestion/queue.py:114-151 | With no one else at work claims exactly the first `limit` eligible jobs in claim order after recovery and promotion; the cut at five times the limit costs nothing; no other row differs |
| JobQueue.OrderedIsSorted | src/market_relay/domain/ingestion/queue.py:133-138 | The claim order is strictly ascending by due time and then id |
| JobQueue.JobQueue.OwnedTransition | src/market_relay/domain/ingestion/queue.py:249-277 | Accepted exactly under the live token, owner name and an allowed status; refused means nothing changed |
| QueueProtocol.FencePassesIffLive | src/market_relay/domain/ingestion/queue.py:279-293 | In every state satisfying the invariant the fence passes for a worker and generation exactly if that is the last claim of the job and nothing has consumed it |
| RetrySpacing.BackoffMonotoneAndCapped | src/market_relay/domain/ingestion/queue.py:48-53 | For all inputs the delay is monotone and within the cap, and at the cap from the eighth attempt on |
| RetrySpacing.RetrySpacingBound | src/market_relay/domain/ingestion/queue.py:384-396 | The claim after k uninterleaved failures is at least 30(2^k - 1) seconds after the first one for k up to 7, and 3810 + 3600(k - 7) beyond |
| RetrySpacing.LateClaimIgnoresTheBackoff | src/market_relay/domain/ingestion/queue.py:140-151 | A worker that selected a job before another one claimed and failed it wins it 30 seconds early |
| RetrySpacing.LateClaimIsDueUnlessClaimed | src/market_relay/domain/ingestion/queue.py:133-151 | A job selected as due is still due and claimable, whatever others did, unless someone has claimed it since, which the generation shows |
| RetrySpacing.LateClaimIsEarlyIff | src/market_relay/domain/ingestion/queue.py:200-221 | After someone else's claim and failure the late claim wins, and comes before the backoff is over exactly if before that failure plus the delay of the attempts so far |
| RetrySpacing.SpacedIffEachClaimWasDue | src/market_relay/domain/ingestion/queue.py:384-396 | Over any sequence of claims that need only PENDING, the attempts are spaced by the backoff if and only if each claim found the job due |
| ObservationTable.RecordStepKeepsSound | src/market_relay/domain/observations/service.py:92-131 | Every single read or insert of any writer keeps each key's revisions at exactly 1..n with neighbours of different value, and only appends |
| ObservationTable.InsertExtendsChain | src/market_relay/domain/observations/service.py:99-128 | An insert the unique constraint accepts was based on the newest row, however long ago that was read |
| ObservationTable.LandIsTwoSteps | src/market_relay/domain/observations/service.py:92-131 | An uninterrupted call is one read step and one insert step, ends recorded, and leaves its value current |
| ObservationStore.ObservationStore.Attempt | src/market_relay/domain/observations/service.py:92-131 | One pass of the loop with others writing before the read and before the insert: what it returns, what it adds, and that a rejected insert means the key has grown |
| ObservationStore.ObservationStore.Record | src/market_relay/domain/observations/service.py:84-138 | For any interference: the result is current and has the asked value, the table is the rivals' rows plus at most this call's one row, giving up takes eight failed attempts each paid for by a rival row, and alone it needs one attempt |
| ObservationStore.InsertAfterRead | src/market_relay/domain/observations/service.py:119-128 | A rejected insert proves that the key has more rows than when it was read; an accepted one extends the chain by one |
| ObservationStore.ObservationStore.CurrentForKey | src/market_relay/domain/observations/service.py:167-190 | `None` exactly when the key has no row, otherwise a row of the key with the greatest revision |
| ObservationStore.LastCompletedSession | src/market_relay/domain/observations/service.py:192-212 | The greatest stored date of the listing, source, scope and type; `None` exactly when there is none |
| RevisionRace.RaceKeepsTheChain | src/market_relay/domain/observations/service.py:92-131 | However any number of writers interleave: no gap, no duplicate, no repeated value, no row changed |
| RevisionRace.ExhaustionNeedsEightRivalRows | src/market_relay/domain/observations/service.py:92-138 | A writer that gave up saw at least eight rows land on its key since it began, none of them its own |
| RevisionRace.FailedAttemptsArePaidFor | src/market_relay/domain/observations/service.py:119-128 | At every moment the failed attempts of a writer are covered by that many rows of others on its key |
| RevisionRace.AgreeingWritersAddOneRow | src/market_relay/domain/observations/service.py:92-131 | Any number of writers of one value add at most one row between them, and each is done within two attempts |
| Governance.DecideKeepsVersioned | src/market_relay/domain/governance/policy_gate.py:50-87 | Reviewers who race on a stale version still leave versions exactly 1..n for every source and capability, and change no decision |
| Governance.EffectiveIsNewest | src/market_relay/domain/governance/policy_gate.py:81-110 | The effective decision is the newest one, its version is the number of versions, and the next version is one more |
| Governance.DecideTakesEffect | src/market_relay/domain/governance/policy_gate.py:50-110 | A decision recorded without a race becomes effective at once, and for its own source and capability only |
| Governance.GrantedLasts | src/market_relay/domain/governance/policy_gate.py:134-155 | Decisions that once authorised an ingestion stay APPROVED RETRIEVE and STORE decisions of that source, whatever follows |
| Governance.PolicyGate.RecordDecision | src/market_relay/domain/governance/policy_gate.py:50-79 | Appends one decision, which is then effective, and keeps the versions |
| Governance.PolicyGate.Require | src/market_relay/domain/governance/policy_gate.py:112-127 | Succeeds exactly when nothing blocks and otherwise names exactly the blocking capabilities with their status |
| Governance.RevocationSilences | src/market_relay/domain/governance/policy_gate.py:157-178 | After a non-approval of STORE, DISPLAY or REDISTRIBUTE exactly the other sources' authorisations remain |
| Governance.ReinstatementRestores | src/market_relay/domain/governance/policy_gate.py:157-178 | Approving again restores exactly the earlier authorisations of every source |
| Validation.AdmittedValueIsNormal | src/market_relay/domain/ingestion/validation.py:28-49 | An admitted observation is stored as it was received: the store's upper-casing does not touch it |
| StorageLoop.StoreAllStores | src/market_relay/domain/ingestion/runner.py:140-179 | After the storage loop every valid row is in the store, the recorded count is the number of new rows, and a rejection was counted exactly if some row was invalid |
| StorageLoop.RerunCompletesIff | src/market_relay/domain/ingestion/runner.py:181-196 | Running any response again leaves the store as it is if and only if its admissible rows give one value per date and type, and completes if and only if no row is malformed or they do not |
| StorageLoop.PartlyMalformedJobCompletesOnlyOnce | src/market_relay/domain/ingestion/runner.py:181-196 | One good and one malformed row: DONE the first time, failed the second |
| StorageLoop.StoreRow | src/market_relay/domain/ingestion/runner.py:142-179 | One row with others writing around it: rejected exactly if malformed, stored with its value, or given up after eight rival rows on its key; every new row is a rival's but for at most the last, which is its own |
| StorageLoop.StoreResponse | src/market_relay/domain/ingestion/runner.py:140-179 | With others writing around every row: the recorded count is the number of rows the loop itself inserted, all others being rivals'; all admissible rows end up stored, or an exhausted race stops the loop and its key has grown by eight; with nobody else writing, the table and both counters are those of the row-by-row specification |
| IngestionRunner.IngestionRunner.Prepare | src/market_relay/domain/ingestion/runner.py:61-111 | Claim, policy, cursor and quota gates in order: which exit is taken under which condition, and the one transition it makes |
| IngestionRunner.IngestionRunner.Deliver | src/market_relay/domain/ingestion/runner.py:113-138 | With others at the job table during the call: a failed fetch costs an attempt, a lost token stops the run with nothing stored or spent, and a live one spends one unit of quota and goes on |
| IngestionRunner.IngestionRunner.Conclude | src/market_relay/domain/ingestion/runner.py:140-202 | With others at the job table and in the store: which verdict, and the one transition it makes on the table as the others left it |
| IngestionRunner.IngestionRunner.Process | src/market_relay/domain/ingestion/runner.py:61-202 | A run is its preparation followed, if that succeeds, by its delivery, with everybody else at work in between |
| IngestionRunner.StoringNeedsGatesAndFence | src/market_relay/domain/ingestion/runner.py:66-138 | A run that stored a row, spent quota or raised did so under a grant in effect when it began, with cursor and quota, RUNNING, and holding its own token after the provider call |
| IngestionRunner.CompletedMeansStored | src/market_relay/domain/ingestion/runner.py:181-202 | A completed run leaves a DONE job and every admissible row stored; its count is the number of rows it inserted itself, whatever others inserted, and without one nothing was malformed |
| IngestionRunner.FailingCountsOnce | src/market_relay/domain/ingestion/runner.py:123-135 | A failed fetch or a response without a usable row costs the job, as the others left it, exactly one attempt, with status and next run to match, and touches no other job |
| IngestionRunner.UndisturbedRunSettles | src/market_relay/domain/ingestion/runner.py:61-202 | With nobody else at the job table a claim never stays CLAIMED or RUNNING unless the run raised, and no other job changes |
| IngestionRunner.ProcessedEvolves | src/market_relay/domain/ingestion/runner.py:61-202 | However a run ends and whatever others do, no job is lost, no generation goes back and no finished job changes |
| Scheduler.ProcessOne | src/market_relay/domain/ingestion/scheduler_service.py:233-266 | One turn: `process` under the worker's copy of the row, and the catch-all when no provider exists or the revision race is lost |
| Scheduler.TurnAbortsIff | src/market_relay/domain/ingestion/scheduler_service.py:250-266 | Something raised interrupts the batch if and only if the token of the worker's copy does not hold on the table the catch-all finds, and otherwise costs the job an attempt |
| Scheduler.RaisedTokenIsTheRuns | src/market_relay/domain/ingestion/scheduler_service.py:250-263 | The catch-all of a run that raised presents the token under which the run itself passed the fence |
| Scheduler.UndisturbedTurnCloses | src/market_relay/domain/ingestion/scheduler_service.py:233-266 | With nobody else at the job table every turn closes its claim, whatever the provider does, and the catch-all costs exactly one attempt |
| Scheduler.ClaimAndProcess | src/market_relay/domain/ingestion/scheduler_service.py:201-289 | The first jobs in claim order are claimed and given their turns one after the other, each on the world the last one left, with the claimed copy of its row or, after a refused transition, the row as it is; the counters are those of the turns |
| Scheduler.BatchAbortsIff | src/market_relay/domain/ingestion/scheduler_service.py:233-266 | A batch is interrupted if and only if in some turn something was raised with the worker's token lost, and that turn is the last |
| Scheduler.EveryTurnCountsOnce | src/market_relay/domain/ingestion/scheduler_service.py:268-289 | Every turn is counted once or skipped as lost, except one that ends the batch, and the waiting counter never moves |
| Scheduler.CourseEvolves | src/market_relay/domain/ingestion/scheduler_service.py:233-289 | However a batch runs, no job is lost, no generation goes back and no finished job changes |
| Scheduler.UndisturbedBatch | src/market_relay/domain/ingestion/scheduler_service.py:201-289 | With nobody else at the table no job of the batch stays CLAIMED, RUNNING or waiting, each is counted as its row then is, none is skipped, and no other row is touched |
| Scheduler.RereadTurnHitsTheLiveOwner | src/market_relay/domain/ingestion/queue.py:272-276 | A turn after a lost claim works on the row as it then is: without a provider its catch-all fails the job exactly if it is owned under the same worker name, whoever claimed it |
| BatchInterruption.LapsedBatchAborts | src/market_relay/domain/ingestion/scheduler_service.py:233-266 | If the first call outlasts the lease and the second job has no provider, the batch ends with its second turn, one claim skipped and none counted |
| BatchInterruption.InterruptedBatch | src/market_relay/domain/ingestion/scheduler_service.py:233-266 | Such a batch of two jobs, from an empty queue |
| IngestionSystem.StepKeepsInv | src/market_relay/domain/ingestion/runner.py:61-202 | Every step of the whole engine keeps: queue invariant, chain of every key, versions, every run's progress, DONE jobs with a fully stored response, every row granted and asked for |
| IngestionSystem.StoreOnceIsSound | src/market_relay/domain/ingestion/runner.py:142-179 | One read, insert or rejection of the storage loop keeps store and run sound, and a new row is granted and inside the job's range |
| ExactlyOnce.RunKeepsInv | src/market_relay/domain/ingestion/scheduler_service.py:201-266 | Every state that any run of the engine reaches satisfies that invariant, whatever workers, schedulers and reviewers do |
| ExactlyOnce.RunExtends | src/market_relay/domain/observations/models.py:131-147 | No observation and no decision ever changes or disappears, and no job is lost or revived |
| ExactlyOnce.CoverageLasts | src/market_relay/domain/ingestion/queue.py:72-112 | A date that a job covers stays covered by that job in every later state |
| ExactlyOnce.DoneMeansStored | src/market_relay/domain/ingestion/runner.py:137-202 | A DONE job stays DONE, and every admissible observation of the response that concluded it is and stays in the store |
| ExactlyOnce.ProvenanceLasts | src/market_relay/domain/governance/policy_gate.py:134-155 | Every row forever names a RETRIEVE and a STORE decision of its own source, both APPROVED and both effective at one moment, and some job asked for its date |
| ExactlyOnce.RunStaysPinned | src/market_relay/domain/observations/service.py:155-165 | With a provider of fixed answers every row of every run has revision 1 and the answered value |
| ExactlyOnce.AtMostOneRowPerKey | src/market_relay/domain/ingestion/runner.py:137-179 | With a provider of fixed answers, under any interleaving, expiry, crash and stale writer, each natural key has at most one row, of revision 1 and the answered value |
| ExactlyOnce.DoneMeansExactlyOneRow | src/market_relay/domain/ingestion/runner.py:196-202 | And each admissible observation of a DONE job's response has exactly that one row |
| ExactlyOnce.DoneResponsesKeepThePromise | src/market_relay/domain/ingestion/runner.py:113-138 | What a provider promises of all its responses holds of the response that made a job DONE |
| Planning.Plan | src/market_relay/domain/ingestion/planning.py:77-145 | From the calendar's answer in any order, the loops compute the specified plan |
| Planning.SortingRestoresTheCalendar | src/market_relay/domain/ingestion/planning.py:106-111 | Sorting any arrangement of the calendar's answer gives the one in date order |
| Planning.DatesAreTheWindow | src/market_relay/domain/ingestion/planning.py:113-122 | Each class holds exactly the dates of the window with that expectation, ascending and without repetition |
| Planning.PlanPartitionsTheWindow | src/market_relay/domain/ingestion/planning.py:92-122 | Every date of the window, and no other, is expected, waiting or skipped, and only one of them |
| Planning.ChunksConcatenate | src/market_relay/domain/ingestion/planning.py:124-128 | The chunks concatenate to the expected dates: none lost, doubled or reordered |
| Planning.ChunkIsSlice | src/market_relay/domain/ingestion/planning.py:124-128 | Chunk k is the k-th slice, named by its first and last date; only the last chunk may be short |
| Planning.ChunkRangesAscend | src/market_relay/domain/ingestion/planning.py:124-128 | Chunk ranges are ascending and disjoint |
| Planning.ResumptionLosesNothing | src/market_relay/domain/ingestion/planning.py:130-145 | Planning again from `next_cursor` gives the same chunks, waiting dates and cursor; the cursor never moves back and passes no date that needs data |
| Planning.ReplanningContinuesAfterChunk | src/market_relay/domain/ingestion/planning.py:92-128 | Planning again the same day from the end of chunk k gives exactly the chunks after it |
| Replanning.LaterPlanKeepsChunkIff | src/market_relay/domain/ingestion/planning.py:92-128 | On the same or a later day, with whatever is stored by then, a chunk comes back if and only if whole chunks of expected dates left the window, none of them after it, and it is full or no expected date was added |
| Replanning.SameDayPlanRepeatsIff | src/market_relay/domain/ingestion/planning.py:92-128 | Planning again the same day asks only for earlier chunks if and only if nothing expected is left or a whole number of chunks has been passed |
| Replanning.CursorInsideChunkShiftsTheChunks | src/market_relay/domain/ingestion/planning.py:92-128 | A store that ends inside a chunk gives other chunks the same day |
| Replanning.NextDayShiftsTheChunks | src/market_relay/domain/ingestion/planning.py:92-96 | With nothing stored, the next day's chunks are cut elsewhere |
| DedupeKey.KeysAreInjective | src/market_relay/domain/ingestion/dispatch.py:69-97 | Keys agree only if source, scope, external id, type, both dates and the waiting mark agree; source and scope hold no colon, the external id may |
| DedupeKey.DecimalIsIso | src/market_relay/domain/ingestion/dispatch.py:69-72 | A date text as the keys need it exists: decimal digits have no colon and differ for different dates |
| DedupeKey.ColonInSourceCollides | src/market_relay/domain/ingestion/dispatch.py:69-72 | With a colon in the source two different accounts share a key |
| Dispatch.PlanAndEnqueue | src/market_relay/domain/ingestion/dispatch.py:33-109 | Afterwards there is a job for each chunk and for the waiting dates, new ones exactly for keys that were not there, and nothing else changed |
| Dispatch.DispatchedDatesStayCovered | src/market_relay/domain/ingestion/dispatch.py:60-107 | After a dispatch every expected and waiting date of the window lies in the range of some stored job, then and after whatever the workers do |
| Dispatch.RunKeepsDatesCovered | src/market_relay/domain/ingestion/dispatch.py:60-107 | From the empty table, through any interleaving of dispatches and workers: once all a dispatch asks for has been enqueued, each of its dates is in the range of some job from then on, and every key fits its job |
| Redispatch.RedispatchIsNoOp | src/market_relay/domain/ingestion/dispatch.py:60-107 | Dispatching the same plan again, after anything that happened to the jobs, changes nothing |
| Redispatch.DispatchAddsNothingIff | src/market_relay/domain/ingestion/dispatch.py:33-109 | From the empty table, through any dispatches of this and other targets and any workers' statements: a dispatch of the target changes nothing if and only if each range of its plan has been asked for in the run |
| Redispatch.RedispatchAddsNothingIff | src/market_relay/domain/ingestion/dispatch.py:33-109 | With one calendar and any earlier dispatches of the target, on any days and with any stored rows: the next one changes nothing if and only if each of its chunks stands in its place in some earlier plan, whole chunks having left since, full unless nothing was added, and some earlier plan had the same first and last waiting date |
| Redispatch.AskedBeforeAddsNothing | src/market_relay/domain/ingestion/dispatch.py:33-109 | That condition suffices whatever other jobs there are, as long as the earlier requests have theirs |
| Replanning.EarlierPlanHeldIff | src/market_relay/domain/ingestion/planning.py:92-128 | A chunk was asked for by a given earlier plan if and only if whole chunks have left the window since, it is that many chunks further on there, and it is full or nothing was added |
| Replanning.ChunkIsItsRange | src/market_relay/domain/ingestion/planning.py:124-128 | A chunk is known by its first and last date: it holds the expected dates between them |
| Redispatch.RedispatchAfterChunkCreatesNoChunkJob | src/market_relay/domain/ingestion/scheduler_service.py:163-185 | Once the stored rows reach the end of chunk k, the next dispatch of the day asks only for chunk jobs that exist already |
| Redispatch.StillPlannedIff | src/market_relay/domain/ingestion/planning.py:92-128 | A date is planned if and only if it is expected, within the look-back limit, and later than every stored date of its target |
| Redispatch.GapIsNeverAskedForAgain | src/market_relay/domain/observations/service.py:192-212 | Once a later date is stored, no dispatch of any later day asks for a range that reaches back to an earlier date |
| FirstBest.BestIs | src/market_relay/domain/observations/selection.py:127-145 | Both folds keep, for every key that occurs and no other, the first row of the greatest rank |
| Selection.LatestByAccount | src/market_relay/domain/observations/selection.py:127-132 | The first loop computes the first fold, in dictionary order |
| Selection.CurrentPublishableBySource | src/market_relay/domain/observations/selection.py:104-145 | Both loops compute the candidates, in dictionary order |
| Selection.CandidatesAreChampions | src/market_relay/domain/observations/selection.py:134-145 | Exactly one candidate for each authorised source with a matching row: of its accounts' highest revisions one retrieved no earlier than the others |
| Selection.Select | src/market_relay/domain/observations/selection.py:74-102 | Succeeds exactly if an enabled source is publishable; result and order of the alternatives are those of the folds |
| Selection.SelectedIsSelection | src/market_relay/domain/observations/selection.py:74-102 | The choice is the champion of the first publishable source, with exactly one champion of every other authorised source beside it |
| SelectionOrder.RowOrderIrrelevantIff | src/market_relay/domain/observations/selection.py:82-145 | Every order of the rows gives the same choice and the same alternatives if and only if every authorised source has a single champion |
| SelectionOrder.OneChampionEachIff | src/market_relay/domain/observations/selection.py:134-145 | With one external id per account that is so if and only if no two accounts of an authorised source tie for its last retrieval |
| SelectionOrder.TieIsDecidedByRowOrder | src/market_relay/domain/observations/selection.py:127-145 | Between two champions of an authorised source each has an order of the rows in which the folds select as specified, show it, and not the other |
| Selection.RevokedSourceDisappears | src/market_relay/domain/observations/selection.py:138-145 | After a revocation the source is neither selected nor among the alternatives, for any listing, date and type |
| Selection.ReinstatedSourceReturns | src/market_relay/domain/observations/selection.py:138-145 | Approving again brings back exactly the earlier selections |
| ObservationView.BuildObservationOut | src/market_relay/api/services/observation_view.py:73-124 | Available exactly if `select` succeeds, and then with the selected row's raw close; otherwise the calendar's reason |
| ObservationView.ShownValueIsAuthorised | src/market_relay/api/services/observation_view.py:88-124 | A shown value is a stored row of an enabled source authorised now; a shown discrepancy is a stored row of another authorised source with another close |
| ObservationView.FindLatestObservation | src/market_relay/api/services/observation_view.py:127-170 | Available if and only if some date of the eleven-day window is publishable, and then the greatest; otherwise the state of today |
| ObservationView.LatestPublishableSessionDate | src/market_relay/api/services/observation_view.py:173-218 | Exactly the greatest date at which `select` succeeds, and `None` exactly if it succeeds nowhere |
| ObservationView.LatestBothWays | src/market_relay/api/services/observation_view.py:127-218 | Asked together, both forms name the same date if and only if the greatest publishable date lies in the window; with none after today, the walk finds something exactly then |
| ObservationView.BuildObservationRange | src/market_relay/api/services/observation_view.py:221-249 | One view per date of the range, in order |
| Quota.QuotaBook.Consume | src/market_relay/adapters/fake/provider.py:96-101 | Refuses once spent, touches no other source, and stays within the limit exactly if the cost fits |
| FakeProvider.FetchRange | src/market_relay/adapters/fake/provider.py:133-156 | The loop answers the specified quotes |
| FakeProvider.QuotesAreTheWeekdays | src/market_relay/adapters/fake/provider.py:133-156 | Exactly the weekdays of the range, each with its own price |
| FakeProvider.SessionsInRange | src/market_relay/adapters/fake/provider.py:160-188 | The calendar answers every date of the range on its own, in order |
| FakeProvider.ExpectedDatesAreAnsweredOnWeekdays | src/market_relay/adapters/fake/provider.py:133-188 | A date the calendar expects is answered exactly on weekdays; only crypto listings expect more |
| FakeProvider.FetchIsFaithful | src/market_relay/adapters/fake/provider.py:67-78 | Every fetched observation is admissible and its value depends on its natural key alone |
| FakeProvider.FakeStoresEachWeekdayOnce | src/market_relay/adapters/fake/provider.py:133-156 | In every run each key has at most one row, a weekday's deterministic price |
| FakeProvider.DoneJobHasEachWeekdayOnce | src/market_relay/domain/ingestion/runner.py:61-202 | From end to end: in every run a DONE job has, for every weekday of its range, exactly one row of revision 1 with that day's price, and none for any other date |
| EndToEnd.DispatchedDateIsPricedOnce | src/market_relay/domain/ingestion/scheduler_service.py:109-198 | In every run whose jobs come from dispatches: each dispatched date is in the range of some job, and as soon as any such job is DONE a weekday has exactly one row, of revision 1 and that day's price |
| FakeProvider.NavRecoveryNeverAdvances | src/market_relay/domain/ingestion/scheduler_service.py:161-168 | In every run the recovery cursor of a NAV listing stays where it is, because the type of an answer is not checked |

## Left out

- Scheduler.ClaimAndProcess: nobody else acts between the selection and the claims of `claim_next`; late claims are in
  `RetrySpacing`, and claims as single steps in `QueueProtocol`.
- IngestionRunner.IngestionRunner.Conclude: what others do to the job table while the response is stored comes before the
  first row in this method, which cannot be told apart there, as the loop does not look at that table; in
  `IngestionSystem` it comes between any two statements.
- Dispatch.PlanAndEnqueue: the status `WAITING_FOR_PUBLICATION` is given to the new job in the insert itself, where the
  code assigns it in the same transaction just after.
- Redispatch.RedispatchAfterChunkCreatesNoChunkJob: speaks of the chunk jobs; for all jobs see
  `Redispatch.RedispatchAddsNothingIff`.
- DedupeKey.KeysAreInjective: the listing id is not part of the key, so two listings that share source, scope and
  external id share their jobs; the model keeps that.
- `refresh_and_dispatch`: the loops over sources and listings around `PlanAndEnqueue`, and its counters.
- `created_at`, `updated_at`, evidence and reviewer columns, `job_type` and error texts other than their presence.
- SQL, sessions, savepoints, dialect locking and the sleeps of the retry on a locked database.
- `run_with_deadline`: a timeout is one of the provider's failures.
- The JSON text of the cursor, the SHA-256 price, decimal rounding, NaN and infinity, and regular-expression corner
  cases of the currency check.
- HTTP, schemas, consumer authentication, settings, logging, error sanitising and error codes.
- Catalog search and discovery, the adapter registry, metrics and run records.
