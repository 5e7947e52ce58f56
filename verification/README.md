# idemio in Dafny

idemio is a gateway that lets many agents write to downstream systems safely. Every write
carries an idempotency key. The gateway claims the key in Postgres, records what the write
intends to touch, rejects it if it clashes with another agent's recent write, calls
downstream once, and records what became of the call. A sweeper settles the keys whose
caller died.

This project models that logic and proves what it promises.

## How the model is laid out

- `Schema`, `Database`, `Transactions`: the tables, what each SQL statement does to them, the
  invariant of the committed data, and the history of commits with the session each came from.
- `Protocol`, `Consistency`, `Guards`, `Safety`, `Runs`: the write path as a state machine
  with indivisible transactions, calls in flight, executions downstream, sweeps, probes and
  crashes. `Consistency` needs only that rows are retained, `Guards` the premises about
  recording, `Safety` every premise.
- `Statements`, `Refinement`, `Interleaving`, `Guarantees`: the same protocol statement by
  statement, under read committed with a lock per resource and one per row. Every
  interleaving refines the machine above, so its guarantees carry over.
- `Serial`: the other direction. Transactions that run one at a time are interleavings too.
- `Rejections`, `StaleRejection`, `Lifecycle`, `Causes`, `Replays`, `Retries`: when a
  rejection outlives its cause; how rows and stored results evolve over whole runs, where
  every outcome comes from, when a replay may change, and what becomes of a retry.
- `Contention`, `Queues`: who wins among contending writers of different agents, and how
  writes of one agent queue up.
- `Claims`, `Neighbours`, `Server`, `Reconcile`: the imperative code of the claim, the request
  handler and the sweeper, among other processes that commit in between. `Actions` shows
  that what they commit are the protocol's steps.
- `Conflict`, `Manifest`, `Downstream`, `ResultStore`, `Ledger`, `Latency`, `Config`,
  `Relay`: the components around it.
- `Paging`, `Cursor`, `Base64`, `Tokens`, `Digits`, `Calendar`, `Partitions`: the read
  endpoints' paging with its tokens, and partition maintenance.

Instants are integers, in the database's clock. A transaction's `now()` is its start. The
request hash is a free constructor, so equal hashes mean equal requests. The digest that
names stored objects is a parameter; where a result depends on it, the result says so.
The network, the clock, faults and the work of other processes are parameters or
nondeterministic steps.

## What holds only under a condition

- At-most-once execution rests on eight premises that the code relies on but does not
  enforce. They are the fields of `Protocol.Premises`. `Runs.AtMostOnceIffPremises` and
  `Serial.InterleavedAtMostOnceIff` show that the eight together are exactly what is needed,
  for indivisible transactions and for single statements. For each premise there is a run
  that executes a key twice once it is dropped.
- Stable replay rests on four of the premises, those about recording: executors record in
  time, sweeps run one at a time, completions report honestly, rows are retained. It also
  needs object names that tell keys apart. Without an object store retention alone is
  enough. `Replays.ReplayIsStableIff` and `Serial.InterleavedReplayIsStableIff` show that
  this is exactly what is needed, and for each condition there is a run that changes or
  loses a replay once it is dropped. The object is written before the guarded update, so a
  process that is late or not alone can overwrite the object of a settled key.
- Every other guarantee over runs needs one premise only, that rows are retained.
- A rejection can commit although its cause is gone by then
  (`StaleRejection.RejectionCanBeStale`). `Rejections.RejectionIsStaleIff` says exactly which
  completions between its window read and its commit make it so.
- The documentation draws one arrow out of `failed`, back to `pending`
  (docs/DATA_MODEL.md:53). In the code a retry can also go straight to `rejected`
  (`Retries.RetryCanBeRejected`). `Retries.RetryLeavesFailed` says exactly when a retry
  takes which way: to `pending` if and only if the write may proceed, to `rejected` if and
  only if conflicts are enforced and another agent's live intent clashes.
- A sweep's counters do not add up to the keys it scanned when somebody else settles one of
  them first and the sweep then gets its verdict and its update answered.
  `Reconcile.LosesCount` is such a sweep, and `Reconcile.CountersAddUpIff` says when they do.
- The configuration check is meant to keep sweeps behind calls. It multiplies a duration by
  three in 64 bits and can overflow (`Config.OverflowIsAccepted`).
  `Config.AcceptedBudgetsFitIff` and `Config.AcceptedRunsInTimeIff` say exactly when it does
  what it is meant to.
- The same check says nothing about recording, which comes after the call.
  `Config.LateRecordingIsAccepted` is an accepted configuration that records after its rows
  have turned stale, and `Config.RecordsInTimeIff` gives the exact bound.
- The relay's batch size is not validated. A batch of zero never drains anything, and a
  negative one fails every cycle (`Relay.DrainsIffBatchPositive`, `Relay.Outbox.Publish`).
- A paging token is read back exactly when its year has four digits and its identifier is
  a UUID (`Cursor.TokenRoundTripIff`). Folding the identifier to lower case is a parameter,
  of which `Cursor.IsFolding` assumes that no letter outside ASCII folds to a hexadecimal
  digit or a hyphen.

## Model

| member | source | states |
|---|---|---|
| Runs.AtMostOnceIffPremises | internal/claim/claim.go:163-214 | every reachable state of the protocol has executed every key at most once if and only if all eight premises hold |
| Runs.ExecutesAtMostOnce | internal/api/api.go:274-340 | under the premises each key is executed at most once, and with the request it was claimed for |
| Runs.ReachableKeepsInv | internal/claim/resolve.go:186-228 | the invariant of tables, calls, ledger and sweeps holds in every reachable state |
| Runs.LateRunRunsTwice | internal/reconcile/reconcile.go:50-55 | a request that executes after its row went stale leads to a second execution |
| Runs.LateRecordRunsTwice | internal/api/api.go:342-379 | an executor that records after its row went stale leads to a second execution |
| Runs.TwoSweepsRunTwice | internal/reconcile/reconcile.go:96-107 | two sweeps at once lead to a second execution |
| Runs.LostAckRunsTwice | internal/api/api.go:342-379 | retrying a completion whose commit succeeded but reported an error leads to a second execution |
| Runs.FalseDialRunsTwice | internal/downstream/downstream.go:117-126 | a failed dial that did send the request leads to a second execution |
| Runs.FalseDeclineRunsTwice | internal/downstream/downstream.go:128-144 | a not-executed status for a request that was executed leads to a second execution |
| Runs.FalseProbeRunsTwice | internal/reconcile/reconcile.go:130-160 | a probe that wrongly counts zero executions leads to a second execution |
| Runs.ExpiryRunsTwice | internal/maintenance/retention.go:42-52 | deleting a key row leads to a second execution |
| Consistency.StepKeepsConsistent | internal/claim/claim.go:163-214 | every step keeps tables, calls and ledger in agreement as long as rows are retained, whatever is late, lost or untrue |
| Runs.ReachableIsConsistent | internal/claim/resolve.go:186-228 | so every reachable state is consistent under retention alone |
| Runs.SomeRunExecutesTwice | internal/api/api.go:274-340 | without any one of the premises some run of transactions one at a time executes a key twice |
| Safety.StepKeepsInv | internal/claim/claim.go:163-214 | under all premises every one of the protocol's steps keeps the invariant |
| Safety.StaleKeyCannotRun | internal/reconcile/reconcile.go:50-55 | no call of a key that a sweep may pick can still execute |
| Safety.ClaimableKeyIsIdle | internal/claim/claim.go:106-112 | when a key may be claimed, none of its earlier calls has run or can run |
| Guards.StepKeepsGuards | internal/claim/resolve.go:186-228 | under the four premises about recording every step keeps it so that at most one process may record for a key, and only while the key is in flight |
| Guards.StaleKeyIsNotRecorded | internal/reconcile/reconcile.go:50-55 | no executor of a key that a sweep may pick can still record |
| Guards.ClaimableKeyIsQuiet | internal/claim/claim.go:106-112 | when a key may be claimed, none of its earlier calls can record, and no sweep is working on it |
| Guards.RecordableKeyIsNotSwept | internal/claim/resolve.go:168-172 | a key whose executor may still record is on no sweep's list |
| Protocol.InvIsSafe | internal/claim/claim.go:163-214 | the full invariant implies at-most-once execution with the claimed request |
| Protocol.ConsistentIsAsClaimed | internal/claim/claim.go:235-277 | whatever was executed carries the hash that its key was claimed with |
| Database.FreshKeyHasNoLiveIntent | internal/claim/claim.go:235-277 | a key that may be claimed has no live intent left from earlier attempts |
| Database.VoidingHasOneChoice | internal/claim/resolve.go:174-184 | voiding the latest live intent of a key in flight finds one, and it is the only one |
| Database.ClaimKeepsDb | internal/claim/claim.go:307-319 | a claim that is let through keeps the table invariant: counts, checks, exclusion, just losses |
| Database.RejectKeepsDb | internal/claim/resolve.go:62-100 | so does a rejected one |
| Database.CompleteKeepsDb | internal/claim/resolve.go:186-228 | and so does a completion, whichever outcome it records |
| Schema.OnlyLive | internal/claim/resolve.go:174-184 | a key with exactly one live intent has one position where it is |
| Refinement.MoveRefines | internal/claim/claim.go:163-214 | every statement-level move is one indivisible step of the protocol, or none, with no premise at all |
| Refinement.WindowStillPasses | internal/claim/claim.go:349-373 | a claim judged on rows read earlier still passes the whole check at its commit instant |
| Refinement.LockedResourcesDiffer | internal/claim/claim.go:216-233 | two transactions past the lock are on different resources |
| Interleaving.MoveKeepsSysInv | internal/claim/claim.go:163-214 | every move keeps what all open transactions rely on, under retention alone |
| Interleaving.ReclaimNeverMisses | internal/claim/claim.go:295-305 | the guarded update of a failed row always finds the row it just read |
| Guarantees.PlayRefines | internal/claim/claim.go:163-214 | every interleaved run of statements is a run of indivisible transactions, with late executors, several sweeps, wrong probes and lost answers included |
| Guarantees.AtMostOneExecution | internal/api/api.go:112-224 | under all premises no interleaving executes a key twice |
| Guarantees.ExecutionsAreAsClaimed | internal/claim/claim.go:235-277 | under retention alone, whatever is executed is the request its key was claimed for |
| Serial.InterleavedAtMostOnceIff | internal/api/api.go:274-340 | no interleaving executes a key twice if and only if all eight premises hold |
| Serial.InterleavedReplayIsStableIff | internal/api/api.go:410-457 | no interleaving changes or loses the replay of a done or rejected key if and only if, with an object store, the four premises about recording hold and no two keys share an object name, and, without one, rows are retained |
| Serial.OrderlyIsPlayed | internal/claim/claim.go:163-214 | every run of transactions one at a time, claims, rejections and completions alike, is a run of statements |
| Serial.StepIsPlayed | internal/claim/resolve.go:186-228 | each indivisible claim, rejection and completion is what its statements come to when they run alone; a rejection names the first row of another agent in its window read |
| Guarantees.LiveIntents | migrations/0001_init.sql:13-37 | in every state a key has as many intents as attempts, one live intent unless it failed or was rejected, and meets both CHECK constraints |
| Guarantees.ConflictExclusion | internal/claim/resolve.go:15-60 | in every state an enforced live intent is compatible with each earlier live intent of another agent within its window |
| Guarantees.RejectionsAreJust | internal/claim/resolve.go:62-100 | every rejection names an earlier claim of another agent that was let through and clashes with it |
| Guarantees.CallsMatchClaims | internal/api/api.go:202-223 | downstream calls and the claims that were let through correspond one to one |
| Guarantees.RowLifecycle | internal/claim/resolve.go:168-172 | over any run a row keeps its request, a settled row never changes and a failed one only with its attempt count |
| Guarantees.ReplaysAgree | internal/api/api.go:410-457 | under every interleaving, given the four premises about recording and object names that tell keys apart, a done or rejected key goes on answering the same request with the same body and any other with a mismatch |
| Guarantees.RejectionIsAnsweredAgain | internal/claim/resolve.go:62-100 | under every interleaving, given retention, the body of a rejection is what every later replay of its key answers |
| Guarantees.OutcomesAreCaused | internal/api/api.go:274-340 | under every interleaving, given retention, every outcome of a row has a cause in the run, as in `Causes.OutcomesHaveCauses` |
| Queues.SameAgentWritesQueue | internal/claim/resolve.go:135-165 | under every interleaving, if an enforced write was let through although an earlier live write of the same agent clashes with it, that one is settled |
| Queues.NewcomerIsBehind | internal/claim/resolve.go:47-59 | a claim that is let through leaves only settled keys of its own agent in its way |
| Guarantees.OneContenderWins | internal/claim/resolve.go:15-60 | under every interleaving the first of contending claims to commit is let through and all others are rejected in its favour |
| Guarantees.ClaimHoldsAtCommit | internal/claim/claim.go:235-277 | a committing claim would be granted by the whole check run at once at that instant, and writes the row that check computes |
| Guarantees.RejectionHitsOwnRow | internal/claim/resolve.go:62-100 | the unguarded update of a rejection finds the row as this transaction claimed it, and stores status and body in it |
| Guarantees.OwnKeyIsNeverInTheWay | internal/claim/claim.go:121-130 | no intent of the key itself is among the rows it is judged against |
| StaleRejection.RejectionCanBeStale | internal/claim/resolve.go:62-100 | a reachable run in which a rejection commits although the check would by then let the write through |
| Rejections.RejectionIsStaleIff | internal/claim/resolve.go:15-60 | the whole check would let a rejected write through at its commit if and only if, since its window was read, every row found of another agent had its key failed and every row found of the same agent had its key completed or settled before |
| Rejections.RejectionStands | internal/claim/resolve.go:62-100 | a rejection holds at its commit whenever the key it names does not fail in between |
| Rejections.StaleByEvents | internal/claim/resolve.go:62-100 | the same read off the tables: every row found of another agent was voided by a commit after the read |
| Rejections.StretchVoids | internal/claim/resolve.go:174-184 | over any stretch of a run a live intent is voided if and only if a failed completion of its key commits |
| Rejections.StretchUnpends | internal/claim/resolve.go:168-172 | over any stretch a live intent with its key in flight stops being so exactly by a completion of the key, and never becomes so again |
| Lifecycle.StepEvolvesRows | internal/claim/claim.go:93-112 | with rows retained every step moves every row along the life cycle of the code |
| Lifecycle.RunEvolvesRows | internal/claim/claim.go:93-112 | and so does every run |
| Lifecycle.StepKeepsStore | internal/resultstore/resultstore.go:55-68 | under the four premises about recording and object names that tell keys apart, whatever a row, an executor that may record or a sweep refers to in the object store is there and is its own result |
| Lifecycle.CompletionIsReplayed | internal/api/api.go:410-457 | given that, a completion in time and any completion by a sweep make a retry be answered with exactly the body that was recorded |
| Lifecycle.RejectionIsReplayed | internal/claim/claim.go:144-148 | the body that a rejected write is answered with is what a replay answers |
| Lifecycle.RejectionIsReplayedForEver | internal/api/api.go:410-457 | and what every later replay answers, given retention only |
| Lifecycle.ReplayIsStable | internal/api/api.go:459-481 | under the same conditions a settled key's row and replayed body stay the same over every later run |
| Lifecycle.StableReplay | internal/claim/claim.go:235-277 | under the same conditions, after any run and from then on, a done or rejected key answers the same request with the same body and any other request with a mismatch |
| Lifecycle.InlineReplayIsStable | internal/resultstore/resultstore.go:55-68 | without an object store retained rows alone keep every replay |
| Causes.OutcomesHaveCauses | internal/api/api.go:274-340 | in every run, whatever the premises, a done row goes back to a definitive reply or a probe that counted an execution, a failed one to a reply that was never sent or declined or to a count of zero, an indeterminate one to any other reply or an escalation, a rejected one to its rejection; where replays are kept a replay answers the body of that cause, and under the four premises about recording it is one of the same attempt |
| Causes.RunIsCaused | internal/reconcile/reconcile.go:130-160 | so does whatever an executor knows or a sweep has judged |
| Causes.VerdictHasCause | internal/reconcile/reconcile.go:130-171 | a sweep judges done exactly for a positive count, failed exactly for zero, and indeterminate exactly without a probe |
| Actions.TurnIsSteps | internal/reconcile/reconcile.go:130-190 | what a sweep commits for a key is the probe or escalation, the placement and the resolution of the protocol |
| Actions.IdleTurnIsSteps | internal/reconcile/reconcile.go:130-190 | a failed probe leaves the key alone, a key that somebody else settled keeps its row, and the sweep goes on |
| Actions.RecordingIsSteps | internal/api/api.go:342-379 | what the handler records of a reply is the answer, the placement and the completion of the protocol |
| Actions.ClaimIsStep | internal/claim/claim.go:163-214 | a committed claim or rejection is one step of the protocol |
| Actions.CrashIsFinal | internal/reconcile/reconcile.go:96-107 | an executor or a sweep that crashed sends, stores and records nothing in any later run |
| Replays.ReplayIsStableIff | internal/api/api.go:342-379 | no run changes or loses the replay of a done or rejected key if and only if, with an object store, the four premises about recording hold and no two keys share an object name, and, without one, rows are retained |
| Replays.LatePlaceChanges | internal/api/api.go:342-379 | an executor that stores its result after its row went stale changes the replay of the settled key |
| Replays.TwoSweepsChange | internal/reconcile/reconcile.go:173-190 | of two sweeps at once the slower one changes the replay of the key that the quicker one settled |
| Replays.LostAckChanges | internal/api/api.go:342-379 | retrying a completion whose commit succeeded but reported an error leads to a changed replay |
| Replays.SharedNameChanges | internal/resultstore/resultstore.go:40-42 | two keys of one object name change each other's replay |
| Replays.ExpiryChanges | internal/maintenance/retention.go:42-52 | deleting a key row loses its replay |
| Retries.RetryVerdict | internal/claim/resolve.go:15-60 | a failed key claimed again with its own hash is let through if and only if the write may proceed, rejected if and only if conflicts are enforced and another agent's live intent clashes, and told to wait otherwise |
| Retries.RetryLeavesFailed | internal/claim/claim.go:235-277 | and what it commits leaves the row pending, or rejected, exactly then, one attempt further |
| Retries.FailedRowLeaves | internal/claim/claim.go:93-112 | no other step of any run moves a failed row |
| Retries.RetryCanBeRejected | internal/claim/resolve.go:62-100 | a run in which a row goes from failed to rejected in one transaction |
| Contention.ExactlyOneWins | internal/claim/resolve.go:15-60 | among contending claims decided between two states the first to commit is let through and all others are rejected in its favour |
| Contention.RunExtends | internal/claim/claim.go:114-119 | over any run intents are only appended, and voided at most once |
| Transactions.RowsEvolve | internal/claim/claim.go:93-112 | between any two points of a history of commits every row has moved along its life cycle |
| Transactions.OverStaysOver | internal/claim/resolve.go:168-172 | an attempt of a key that is over stays over |
| Transactions.SettledRowStays | internal/claim/resolve.go:168-172 | a settled row is the same at every later point of the history |
| Claims.Postgres.Claim | internal/claim/claim.go:163-214 | the verdict is the one the whole check gives on the tables as they were; at most one thing is committed, what the verdict stands for; the new conflict rows are one per clashing live intent, newest first and at most ten, as observed, rejected or serialized; a rejection names the first intent of another agent and the first of these rows, and its body is in the row; a row in the way is handed back as it was |
| Claims.Postgres.TakeKey | internal/claim/claim.go:235-277 | insert, read and reclaim together decide as the specification does and touch only this key |
| Claims.Postgres.FinishClaim | internal/claim/claim.go:163-214 | from a taken key to the end: commit what the verdict stands for, with its conflict rows, or roll back to the tables before |
| Claims.Postgres.ConflictingIntents | internal/claim/claim.go:349-373 | the rows returned are exactly the live clashing ones in reach, newest first |
| Claims.Postgres.WindowRows | internal/claim/claim.go:121-130 | the window query returns exactly the live rows in reach but the excluded one, ordered |
| Claims.Postgres.SplitByAgent | internal/claim/resolve.go:15-60 | rows are divided by agent with nothing lost, and the first row of another agent is the first such row of the window |
| Claims.Postgres.FirstPending | internal/claim/resolve.go:136-166 | finds a key in flight among the same agent's rows if and only if there is one |
| Claims.Postgres.RecordConflicts | internal/claim/resolve.go:102-134 | one row for each of the first ten clashes, in their order, pairing the new intent with that one, and the first one's identifier is returned |
| Claims.Postgres.Reject | internal/claim/resolve.go:62-100 | the row is rejected and holds the encoded reason, which names the winner and the first conflict row; every clash is recorded as rejected and the new intent is voided |
| Claims.Postgres.ResolveConflicts | internal/claim/resolve.go:15-60 | the verdict follows the window read, only a rejection changes keys or intents, and the conflict rows left are those of the branch taken |
| Claims.Postgres.ResolveEnforced | internal/claim/resolve.go:35-59 | for an enforced write with clashes: rejected if another agent's is among them, told to wait if a pending one of its own is, and let through otherwise |
| Claims.Postgres.RecordAndCheck | internal/claim/claim.go:307-319 | from a freshly taken key the verdict, the new tables and the conflict rows are those that the tables before call for |
| Claims.Postgres.LatestLive | internal/claim/resolve.go:174-184 | finds the latest live intent of a key, or that there is none |
| Claims.Postgres.Complete | internal/claim/resolve.go:186-228 | updates exactly if the key is in flight; which faults are reported, and that only a lost answer hides a commit |
| Claims.JudgeWindow | internal/claim/claim.go:349-373 | reading with the new intent present finds exactly the earlier clashing claims that were let through |
| Claims.VerdictFollows | internal/claim/resolve.go:15-60 | the imperative verdict equals the specified one and enables the protocol's step |
| Claims.VerdictMeaning | internal/claim/resolve.go:15-60 | the verdict for every table and request, without the code's branches: a key with a row is answered from it unless it failed under the same hash; otherwise an enforced write is rejected if and only if a live write of another agent on the resource, less than a window ago, does not commute with it or overwrites a common field, waits if and only if only its own agent's are in the way and one is pending, and is let through in all other cases |
| Neighbours.Interfere | internal/claim/claim.go:163-214 | other processes claim, are rejected and complete, and commit only under their own sessions |
| Server.Handler.HandleWrite | internal/api/api.go:112-224 | the request is sent downstream exactly for a granted claim, once, after its commit. The answer, the status recorded and the stored body are those of the reply to that request, and if recording succeeded the row holds them. A rejected write is answered with the body now in its row, a known key from its row, another request with a mismatch. "Not executed" is answered only if nothing was committed or sent, and every failure has a reason |
| Server.Handler.ClaimWithSerialization | internal/api/api.go:237-254 | the final verdict is that of the whole check on the tables at the last try; this session commits at most once, at the end, and everything else is by others; giving up means that the deadline passed, a lookup failed, the lock was refused or the database failed |
| Server.Handler.WaitForTerminal | internal/api/api.go:256-272 | reports settled only before the deadline and with the blocking key out of flight, and gives up only at the deadline, on a failed lookup or when the client is gone, while others claim and complete |
| Server.Handler.Execute | internal/api/api.go:274-340 | sends once; the answer and whatever is recorded are what the reply to this request says, with its payload; at most one record if no answer is lost |
| Server.Handler.PersistOutcome | internal/api/api.go:342-379 | recorded if and only if a try was answered with the key in flight at that moment; the session's commits are the recorded one and the tries whose answer was lost; unanswered only if every try failed |
| Server.Handler.AwaitCompletion | internal/api/api.go:381-408 | hands back the given row, or a settled one that the table holds, within the configured wait and one poll; a pending one only at the deadline, on a failed lookup or when the client is gone |
| Server.Handler.WriteExisting | internal/api/api.go:410-481 | a done row is answered with its stored result or as unavailable, never as not executed; a rejected one with its body |
| Server.SettledAnswerStands | internal/api/api.go:410-457 | a settled key answers the same request the same way at every later point of the history |
| Server.RejectionIsAnsweredAgain | internal/claim/resolve.go:82-91 | the body that a rejected write was answered with is the answer to every later request for its key |
| Reconcile.Reconciler.StaleKeys | internal/reconcile/reconcile.go:109-128 | a batch of distinct stale keys, oldest first, leaving none out that is older |
| Reconcile.Reconciler.Resolve | internal/reconcile/reconcile.go:130-190 | records failed exactly for a count of zero, done exactly for a positive count and with the probe's result, indeterminate exactly if nothing could be found out, nothing on a failed probe; and counts the key under the heading of its fate |
| Reconcile.Reconciler.ResolveByLedger | internal/reconcile/reconcile.go:130-160 | against the downstream's own ledger: done exactly for an executed key, failed exactly for one that was not, indeterminate exactly if no probe is registered |
| Reconcile.AskLedger | internal/probe/probe.go:33-94 | a count above zero exactly for an executed key, and the text of the latest execution |
| Reconcile.Reconciler.Sweep | internal/reconcile/reconcile.go:96-107 | each counter is the number of candidates with that fate, and only those that others settled before their turn are counted nowhere; each selected attempt is over afterwards unless its probe or recording failed; the sweep commits completions of its candidates only, each as its answer means |
| Reconcile.CountersAddUpIff | internal/reconcile/reconcile.go:173-190 | the counters reach the number scanned if and only if no candidate was out of flight at its turn while its probe gave a verdict and its update was answered |
| Reconcile.LosesCount | internal/reconcile/reconcile.go:173-190 | a concrete sweep that scans one key and counts none |
| ResultStore.Store.Place | internal/resultstore/resultstore.go:55-68 | what was placed resolves to itself, at most one of the two columns is set, only a result above the cap is offloaded, one above the cap is inline only without an object store or if it refused, and no other object changes |
| ResultStore.RefsAreDistinct | internal/resultstore/resultstore.go:40-42 | under an injective digest two keys share an object name only if they are the same key |
| ResultStore.CorrelationTextIsInjective | internal/correlation/correlation.go:8-11 | the correlation text determines agent and key |
| Ledger.Book.Record | cmd/fakedownstream/ledger.go:42-62 | appends one entry with the next number, or nothing if it cannot be written |
| Ledger.Book.ByCorrelation | cmd/fakedownstream/ledger.go:64-74 | returns exactly the entries of the correlation in order |
| Ledger.ScanFinds | cmd/fakedownstream/ledger.go:64-74 | the scan finds an entry if and only if it is recorded under that correlation |
| Ledger.Book.Probe | internal/probe/probe.go:85-94 | not-executed if and only if the ledger has no entry for the correlation; otherwise their number and the latest one |
| Downstream.RecordedStatusMeaning | internal/downstream/downstream.go:85-115 | for a valid manifest: failed exactly if nothing was sent or the reply was declined, done exactly on a definitive reply, otherwise indeterminate |
| Downstream.ClassifiedAsRead | internal/downstream/downstream.go:117-144 | for any lists of statuses: done exactly for a definitive response, failed exactly if nothing was sent or a response that is not definitive says not executed; the result is the payload |
| Downstream.BranchOrderIsIrrelevant | internal/downstream/downstream.go:128-144 | swapping the two classification branches changes nothing exactly if no status is in both lists, which validation ensures |
| Manifest.Validate | internal/manifest/manifest.go:80-142 | reports no problem if and only if the manifest is well formed |
| Manifest.RangeProblems | internal/manifest/manifest.go:109-122 | reports no problem if and only if every range lies within the HTTP statuses |
| Manifest.OverlapProblems | internal/manifest/manifest.go:109-122 | reports no problem if and only if no definitive range meets a not-executed one |
| Manifest.SeparatedMeansUnambiguous | internal/manifest/manifest.go:28-34 | ranges that do not meet are the same as no status having two meanings |
| Manifest.FieldPathHasNoEmptySegment | internal/manifest/manifest.go:80-142 | a path is accepted if and only if none of its segments is empty |
| Conflict.ScopesDisjoint | internal/conflict/conflict.go:26-40 | true if and only if no path of one scope overlaps one of the other, and an empty scope overlaps everything |
| Conflict.OverlapIsSegmentPrefix | internal/conflict/conflict.go:42-46 | string overlap is exactly one path's segments being a prefix of the other's |
| Conflict.DottedPrefixIsSegmentPrefix | internal/conflict/conflict.go:42-46 | a dotted string prefix is exactly a proper prefix of segments |
| Conflict.JoinSegments | internal/conflict/conflict.go:42-46 | joining the segments of a path gives the path back |
| Conflict.ScopedMutatesShareNoField | internal/conflict/conflict.go:10-24 | two scoped mutations are compatible if and only if no field lies under both scopes |
| Conflict.CompatibleMeaning | internal/conflict/conflict.go:10-41 | for all pairs of operations: compatible if and only if both are append or mutate and no field is overwritten by both, a mutate without a scope overwriting every field and an append none |
| Conflict.CompatibleIsSymmetric | internal/conflict/conflict.go:10-24 | compatibility does not depend on who comes first |
| Latency.Tracker.Observe | internal/latency/latency.go:34-51 | the samples kept are the last 256 observations of the type, and other types are untouched |
| Latency.Tracker.RetryAfter | internal/latency/latency.go:53-66 | the advice is the clamped 95th percentile of those, or the default if there are none |
| Latency.Percentile | internal/latency/latency.go:53-66 | sorting a copy and indexing with the floating-point rank gives the order statistic of rank floor(0.95 (n-1)) |
| Latency.FloatRankIsExact | internal/latency/latency.go:53-66 | the binary64 product is never rounded across an integer, for every ring size |
| Latency.RingTurns | internal/latency/latency.go:34-51 | overwriting the oldest slot keeps the ring a rotation of the recent observations |
| Latency.SortInPlace | internal/latency/latency.go:53-66 | the copy ends sorted with the same elements |
| Latency.RankIsUnique | internal/latency/latency.go:53-66 | an order statistic has one value only |
| Config.RunsInTimeIff | internal/downstream/downstream.go:66-83 | calls that keep to their limits, the budget and the HTTP client's timeout, run before their rows turn stale if and only if lag and limit fit into the staleness bound |
| Config.AcceptedBudgetsFitIff | internal/config/config.go:138-146 | an accepted configuration leaves room for three budgets if and only if three budgets do not overflow a duration |
| Config.AcceptedRunsInTimeIff | internal/config/config.go:138-146 | for an accepted configuration calls within two budgets of their claim run in time if and only if three budgets do not overflow, or the call limit is short enough all the same; with a negative budget, if and only if the staleness bound is not negative |
| Config.OverflowIsAccepted | internal/config/config.go:138-146 | a concrete configuration that is accepted and lets calls run late |
| Config.RecordsInTimeIff | internal/api/api.go:342-379 | executors that keep to their limits record in time if and only if they make no try, or lag, call limit, placement, all tries and the doubling sleeps fit into the staleness bound |
| Config.TryingTimeIs | internal/api/api.go:342-379 | the tries and the sleeps between them in closed form |
| Config.SleepsOutgrowBounds | internal/api/api.go:342-379 | the doubled sleeps exceed every staleness bound before one of them overflows a duration |
| Config.LateRecordingIsAccepted | internal/config/config.go:138-146 | calls of one second with rows stale after six are accepted and recorded late |
| Config.DefaultsRecordInTime | internal/config/config.go:138-146 | with the default values recording is in time for a lag up to 278.85 seconds and no more |
| Config.AcceptedTicksIff | internal/config/config.go:143-146 | an accepted configuration has two sweeps between a claim and its row turning stale, however the ticks lie, if and only if twice the interval does not overflow a duration |
| Config.AcceptedWaitsEndFirst | internal/config/config.go:147-150 | an accepted wait for a pending key ends before a call that began with it has used up its timeout |
| Relay.Outbox.Publish | internal/relay/relay.go:58-90 | a successful cycle logs the oldest unpublished rows in order and marks exactly those, although rows arrive meanwhile; a failed one marks nothing, or exactly its batch if the answer was lost |
| Relay.Outbox.Unpublished | internal/relay/relay.go:92-113 | a batch of the oldest unpublished rows, none older left out |
| Relay.MarkingHitsBatch | internal/relay/relay.go:38-42 | marking by separate lists of identifiers and times marks exactly the rows of the batch |
| Relay.BacklogOfMarkAll | internal/relay/relay.go:38-42 | marking a batch shrinks the backlog by its size |
| Relay.Outbox.Drain | internal/relay/relay.go:58-90 | after n undisturbed cycles the backlog is down by n batches |
| Relay.DrainsInCeilCycles | internal/relay/relay.go:58-90 | a backlog is gone exactly from the rounded-up quotient of backlog and batch on |
| Relay.DrainsIffBatchPositive | internal/relay/relay.go:29-36 | every backlog drains eventually if and only if the batch is positive |
| Paging.PageMeaning | internal/api/reads.go:381-387 | a page is in order and below the cursor, and every matching row is on it or below the next cursor |
| Paging.WalkDescends | internal/api/reads.go:122-140 | following the cursor yields one strictly descending list over a changing table, each row read from the table of its page |
| Paging.PagingIsExact | internal/api/reads.go:237-270 | a finished walk holds every row present throughout exactly once |
| Paging.PagingRefinesOneRead | internal/api/reads.go:122-140 | on a table that does not change, any page size gives the one sorted read |
| Paging.WalkIsShort | internal/api/reads.go:381-387 | on a table that does not change a walk has no more pages than the rows fill |
| Paging.WalkExists | internal/api/reads.go:122-140 | from any cursor there is a walk to the last page |
| Tokens.TokenPagingIsExact | internal/api/reads.go:35-56 | following tokens to the end gives every row present throughout exactly once, newest first, whatever is inserted between the pages |
| Tokens.TokenPagingEnds | internal/api/reads.go:237-270 | on a fixed table following tokens ends after at most as many pages as the rows fill and has read the one sorted list |
| Tokens.PositionSurvivesIff | internal/api/reads.go:35-56 | an instant and an identifier survive encoding and decoding if and only if the instant lies before year 10000 |
| Tokens.InstantReadsBack | internal/api/reads.go:35-37 | writing an instant as a civil time and reading it back loses nothing |
| Cursor.TokenRoundTripIff | internal/api/reads.go:35-56 | decoding an encoded cursor gives it back, in UTC, if and only if its year has four digits and its identifier is a UUID, and never gives anything else |
| Cursor.AcceptedIsWellFormed | internal/api/reads.go:39-56 | whatever is decoded, in any zone and with any fraction, is a valid time with a bounded offset and a UUID |
| Cursor.TimeReadsBack | internal/api/reads.go:35-56 | parsing the RFC 3339 text of a time gives the time, with its trimmed fraction |
| Cursor.OtherYearsFail | internal/api/reads.go:39-56 | a year outside 0 to 9999 does not parse |
| Cursor.CheckUuid | internal/api/identity.go:32-50 | the loop accepts exactly 36 characters with hyphens at 8, 13, 18 and 23 and hexadecimal digits elsewhere |
| Cursor.FoldingIsIdle | internal/api/reads.go:39-56 | folding the identifier to lower case by Unicode first changes no decision |
| Base64.RoundTrip | internal/api/reads.go:35-37 | unpadded base64url decoding undoes encoding on every byte string |
| Base64.MalformedMeaning | internal/api/reads.go:39-56 | a text is refused exactly for a foreign character or one symbol too many |
| Partitions.Catalog.Extend | internal/maintenance/partitions.go:73-101 | terminates, adds a gapless run of partitions from the old upper bound to at least the horizon and no further than needed, and no statement is skipped or fails |
| Partitions.Catalog.EnsurePartitions | internal/maintenance/partitions.go:45-71 | extends every table, and changes nothing if all of them reach the horizon already |
| Partitions.Catalog.UpperBound | internal/maintenance/partitions.go:37-43 | the latest upper bound, or the start of the week for a table without partitions |
| Partitions.ContinuationIsApart | internal/maintenance/partitions.go:73-101 | the partition that continues a chain meets no existing range and shares no existing name |
| Partitions.NameIsFreeEverywhere | internal/maintenance/partitions.go:73-101 | nor does any other table's partition have its name |
| Partitions.ChainTiles | internal/maintenance/partitions.go:73-101 | every instant between the first and the last bound lies in exactly one partition |
| Partitions.ChainNamesAreDistinct | internal/maintenance/partitions.go:25-33 | no two partitions of a table share a name, whatever month ends are stepped over |
| Partitions.LabelsTellPeriodsApart | internal/maintenance/partitions.go:25-27 | two lower bounds get the same label if and only if they fall on the same day, or month |
| Partitions.NamesTellTablesApart | internal/maintenance/partitions.go:25-27 | a name determines its table and period |
| Partitions.TablesAreProper | internal/maintenance/partitions.go:29-33 | the three tables have distinct names and steps longer than their label's period |
| Partitions.TableSteps | internal/maintenance/partitions.go:29-33 | partitions of intents and conflicts end exactly seven days after they start, and those of the audit that start on the first of a month end on the first of the next |
| Calendar.AddingDaysIsExact | internal/maintenance/partitions.go:21-23 | adding days to a date adds exactly that many days across months, years and leap days |
| Calendar.AddingMonths | internal/maintenance/partitions.go:21-23 | adding months keeps the day if and only if the target month is long enough, and carries the excess over otherwise |
| Calendar.AddDateAdvances | internal/maintenance/partitions.go:21-23 | every non-empty step goes strictly forward |
| Calendar.EarlierMeansFewerDays | internal/maintenance/partitions.go:73-101 | comparing dates field by field is comparing day numbers |

## Left out

- The canonical form of a payload and SHA-256: the request hash is a constructor, so that different requests never collide.
- Postgres, Kafka, MinIO and net/http themselves: only what their statements and calls do to the modelled state, and how they may fail.
- Interleaving inside a transaction of `Claims`: there a transaction runs as a whole between others; `Statements` has the single statements.
- Rows of the conflicts table in the protocol's state; `Claims` models how they are written.
- Contention.ExactlyOneWins: states the atomic form; `Guarantees.OneContenderWins` is the one for interleavings.
- Lifecycle.StableReplay: states the atomic form; `Guarantees.ReplaysAgree` is the one for interleavings.
- Paging.PagingIsExact: passes the cursor as a value; `Tokens.TokenPagingIsExact` passes it through its token.
- The text of outcome details, logging, metrics and tracing.
- HTTP parsing, headers, roles, the audit trail, and the fields of responses other than the result.
- Loading manifests and configuration from files, and the conversion of configured milliseconds to nanoseconds.
- Retention, archiving and object deletion, except that deleting a key row is a step of the protocol, excluded by the premise `retained`.
- Neighbours.Interfere: others claim, are rejected and complete, and delete no row; that they commit under sessions of their own is how they are called.
- Resolution of a key by hand.
- The jsonb normalisation of stored results: a result is replayed as the value it was stored as.
- Scheduling delays beyond the limits the code sets: `Config` takes a sleep to last as long as asked for.
- The default upper end of a read window is the current time and moves from page to page; the model keeps the window fixed.
- Scanning result rows into structures: it copies fields.
- Partition bounds with fractions of a second: bounds are written in whole seconds and start that way.
- Range partitions detached by retention while their table still exists.
