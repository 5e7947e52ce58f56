/** Transactions that run one at a time are interleavings too: every orderly run of
    the protocol is a run of statements. So each premise is needed there as well. */
module Serial {
  import opened Schema
  import opened Database
  import opened Protocol
  import opened Runs
  import opened Statements
  import opened Guarantees
  import opened Lifecycle
  import opened Replays

  /** No transaction is open. */
  ghost function AtRest(s: State): Sys {
    Sys(s, map[], |s.db.intents|)
  }

  /** One transaction is open. */
  ghost function Alone(s: State, t: nat, tx: Tx, nextId: nat): Sys {
    Sys(s, map[t := tx], nextId)
  }

  // ---------------------------------------------------------------------
  // A claim, statement by statement
  // ---------------------------------------------------------------------

  ghost function ClaimAt(s: State, req: Request, phase: Phase): Tx {
    ClaimTx(req, s.clock, s.db.events, phase)
  }

  lemma ClaimIsLocked(setup: Setup, from: Sys, s: State, t: nat, req: Request, n: nat)
    requires Plays(setup, from, Sys(s, map[], n))
    ensures Plays(setup, from, Alone(s, t, ClaimAt(s, req, Locked), n))
  {
    var s0 := Sys(s, map[], n);
    PlaysMove(setup, from, s0, BeginClaim(t, req));
    var s1 := Then(setup, s0, BeginClaim(t, req));
    assert s1 == Alone(s, t, ClaimTx(req, s.clock, 0, Began), n);
    PlaysMove(setup, from, s1, TakeLock(t));
    assert Then(setup, s1, TakeLock(t)).txs == map[t := ClaimAt(s, req, Locked)];
  }

  /** A claim that is alone moves on. */
  lemma Advances(setup: Setup, from: Sys, mid: Sys, move: Move, s: State, t: nat, req: Request, phase: Phase, n: nat)
    requires Plays(setup, from, mid) && Possible(setup, mid, move)
    requires var after := Then(setup, mid, move);
             after.a == s && after.nextId == n && after.txs == map[t := ClaimAt(s, req, phase)]
    ensures Plays(setup, from, Alone(s, t, ClaimAt(s, req, phase), n))
  {
    PlaysMove(setup, from, mid, move);
  }

  lemma ClaimInserts(setup: Setup, from: Sys, s: State, t: nat, req: Request, n: nat)
    requires Plays(setup, from, Alone(s, t, ClaimAt(s, req, Locked), n)) && req.owner !in s.db.keys
    ensures Plays(setup, from, Alone(s, t, ClaimAt(s, req, HasKey(InsertedRow(req, s.clock))), n))
  {
    var mid := Alone(s, t, ClaimAt(s, req, Locked), n);
    Advances(setup, from, mid, Insert(t), s, t, req, HasKey(InsertedRow(req, s.clock)), n);
  }

  lemma ClaimSeesFailure(setup: Setup, from: Sys, s: State, t: nat, req: Request, n: nat)
    requires Plays(setup, from, Alone(s, t, ClaimAt(s, req, Locked), n)) && req.owner in s.db.keys
    requires s.db.keys[req.owner].hash == req.hash && s.db.keys[req.owner].status.Failed?
    ensures Plays(setup, from, Alone(s, t, ClaimAt(s, req, SawFailed), n))
  {
    var lost := Alone(s, t, ClaimAt(s, req, LostInsert), n);
    Advances(setup, from, Alone(s, t, ClaimAt(s, req, Locked), n), Insert(t), s, t, req, LostInsert, n);
    Advances(setup, from, lost, ReadKey(t), s, t, req, SawFailed, n);
  }

  lemma ClaimTakesOver(setup: Setup, from: Sys, s: State, t: nat, req: Request, n: nat)
    requires Plays(setup, from, Alone(s, t, ClaimAt(s, req, SawFailed), n)) && req.owner in s.db.keys
    requires s.db.keys[req.owner].status.Failed?
    ensures Plays(setup, from, Alone(s, t, ClaimAt(s, req, HasKey(ReclaimedRow(s.db.keys[req.owner], s.clock))), n))
  {
    var mid := Alone(s, t, ClaimAt(s, req, SawFailed), n);
    Advances(setup, from, mid, Reclaim(t), s, t, req, HasKey(ReclaimedRow(s.db.keys[req.owner], s.clock)), n);
  }

  /** The first statement inserts the row, or finds it failed and takes it over. */
  lemma ClaimTakesKey(setup: Setup, from: Sys, s: State, t: nat, req: Request, n: nat)
    requires Plays(setup, from, Sys(s, map[], n)) && Claims(s.db, req, s.clock)
    ensures Plays(setup, from, Alone(s, t, ClaimAt(s, req, HasKey(ClaimedRow(s.db, req, s.clock))), n))
  {
    ClaimIsLocked(setup, from, s, t, req, n);
    if req.owner in s.db.keys {
      ClaimSeesFailure(setup, from, s, t, req, n);
      ClaimTakesOver(setup, from, s, t, req, n);
    } else {
      ClaimInserts(setup, from, s, t, req, n);
    }
  }

  lemma ClaimRecords(setup: Setup, from: Sys, s: State, t: nat, req: Request, row: KeyRow, n: nat)
    requires Plays(setup, from, Alone(s, t, ClaimAt(s, req, HasKey(row)), n))
    ensures Plays(setup, from, Alone(s, t, ClaimAt(s, req, HasIntent(row, n)), n + 1))
  {
    Advances(setup, from, Alone(s, t, ClaimAt(s, req, HasKey(row)), n), RecordIntent(t), s, t, req, HasIntent(row, n), n + 1);
  }

  lemma ClaimReads(setup: Setup, from: Sys, s: State, t: nat, req: Request, row: KeyRow, n: nat, found: seq<nat>)
    requires Plays(setup, from, Alone(s, t, ClaimAt(s, req, HasIntent(row, n)), n + 1))
    requires IsWindowRead(found, Seen(s, req, n), req, s.clock, n)
    ensures Plays(setup, from, Alone(s, t, ClaimAt(s, req, HasWindow(row, n, found, s.db.events)), n + 1))
  {
    var mid := Alone(s, t, ClaimAt(s, req, HasIntent(row, n)), n + 1);
    Advances(setup, from, mid, ReadWindow(t, found), s, t, req, HasWindow(row, n, found, s.db.events), n + 1);
  }

  lemma ClaimReadsWindow(setup: Setup, from: Sys, s: State, t: nat, req: Request, n: nat, found: seq<nat>)
    requires Plays(setup, from, Sys(s, map[], n)) && Claims(s.db, req, s.clock)
    requires IsWindowRead(found, Seen(s, req, n), req, s.clock, n)
    ensures Plays(setup, from,
                  Alone(s, t, ClaimAt(s, req, HasWindow(ClaimedRow(s.db, req, s.clock), n, found, s.db.events)), n + 1))
  {
    var row := ClaimedRow(s.db, req, s.clock);
    ClaimTakesKey(setup, from, s, t, req, n);
    ClaimRecords(setup, from, s, t, req, row, n);
    ClaimReads(setup, from, s, t, req, row, n, found);
  }

  // ---------------------------------------------------------------------
  // The window query always has an answer
  // ---------------------------------------------------------------------

  ghost predicate IsSorted(intents: Intents, rows: seq<nat>) {
    && (forall k | 0 <= k < |rows| :: rows[k] < |intents|)
    && (forall j, k | 0 <= j < k < |rows| :: rows[j] != rows[k])
    && (forall j, k | 0 <= j < k < |rows| :: intents[rows[j]].emittedAt >= intents[rows[k]].emittedAt)
  }

  lemma {:induction false} Inserts(intents: Intents, rows: seq<nat>, i: nat) returns (more: seq<nat>)
    requires IsSorted(intents, rows) && i < |intents| && i !in rows
    ensures IsSorted(intents, more) && forall h :: h in more <==> h in rows || h == i
    decreases rows
  {
    if rows == [] || intents[rows[|rows| - 1]].emittedAt >= intents[i].emittedAt {
      more := rows + [i];
    } else {
      var front, last := rows[..|rows| - 1], rows[|rows| - 1];
      assert rows == front + [last];
      var less := Inserts(intents, front, i);
      assert last !in front;
      forall k | 0 <= k < |less| ensures intents[less[k]].emittedAt >= intents[last].emittedAt {
        assert less[k] in less;
      }
      more := less + [last];
    }
  }

  ghost predicate IsAnswer(rows: seq<nat>, intents: Intents, n: nat, req: Request, start: Instant, exclude: nat)
    requires n <= |intents|
  {
    && IsSorted(intents, rows)
    && (forall i :: i in rows <==>
          0 <= i < n && Live(intents[i]) && intents[i].id != exclude && Clashes(intents[i], req, start))
  }

  lemma {:induction false} AnswerExists(intents: Intents, n: nat, req: Request, start: Instant, exclude: nat) returns (rows: seq<nat>)
    requires n <= |intents|
    ensures IsAnswer(rows, intents, n, req, start, exclude)
  {
    if n == 0 {
      rows := [];
    } else {
      rows := AnswerExists(intents, n - 1, req, start, exclude);
      var last := intents[n - 1];
      if Live(last) && last.id != exclude && Clashes(last, req, start) {
        rows := Inserts(intents, rows, n - 1);
      }
    }
  }

  // ---------------------------------------------------------------------
  // The commit
  // ---------------------------------------------------------------------

  lemma FoundIsOld(s: State, req: Request, n: nat, found: seq<nat>, k: nat)
    requires IsWindowRead(found, Seen(s, req, n), req, s.clock, n) && k < |found|
    ensures found[k] < |s.db.intents|
    ensures Live(s.db.intents[found[k]]) && Clashes(s.db.intents[found[k]], req, s.clock)
  {
    assert found[k] in found && Seen(s, req, n)[found[k]].id != n;
  }

  /** The rows of the own agent are looked at once more. */
  lemma ClaimReadsStatuses(setup: Setup, from: Sys, s: State, t: nat, req: Request, n: nat, found: seq<nat>)
    requires Plays(setup, from, Sys(s, map[], n)) && CanClaim(s.db, req, s.clock, n, s.db.events)
    requires IsWindowRead(found, Seen(s, req, n), req, s.clock, n) && req.enforce && found != []
    ensures Plays(setup, from,
                  Alone(s, t, ClaimAt(s, req, HasStatuses(ClaimedRow(s.db, req, s.clock), n, found, s.db.events)), n + 1))
  {
    var row := ClaimedRow(s.db, req, s.clock);
    var phase := HasWindow(row, n, found, s.db.events);
    ClaimReadsWindow(setup, from, s, t, req, n, found);
    var sys := Alone(s, t, ClaimAt(s, req, phase), n + 1);
    forall k | 0 <= k < |found|
      ensures !IsOther(sys, sys.txs[t], found[k])
      ensures found[k] < |s.db.intents| ==> !InFlight(s.db.keys, s.db.intents[found[k]].owner)
    {
      FoundIsOld(s, req, n, found, k);
    }
    assert AllSame(sys, sys.txs[t], found) && NonePending(sys, found);
    Advances(setup, from, Alone(s, t, ClaimAt(s, req, phase), n + 1), ReadStatuses(t), s, t, req, HasStatuses(row, n, found, s.db.events), n + 1);
  }

  ghost predicate ReadyToCommit(s: State, tx: Tx, n: nat) {
    && tx.ClaimTx? && tx.start == s.clock && tx.lockedAt == s.db.events
    && CanClaim(s.db, tx.req, s.clock, n, s.db.events)
    && (tx.phase.HasWindow? || tx.phase.HasStatuses?)
    && tx.phase.row == ClaimedRow(s.db, tx.req, s.clock) && tx.phase.id == n
    && (tx.phase.HasWindow? ==> tx.phase.found == [] || !tx.req.enforce)
  }

  lemma ClaimCommits(setup: Setup, from: Sys, s: State, t: nat, tx: Tx, n: nat)
    requires ReadyToCommit(s, tx, n) && Plays(setup, from, Alone(s, t, tx, n + 1))
    ensures Plays(setup, from, Sys(Next(setup, s, Claim(tx.req, s.clock, n, s.db.events)), map[], n + 1))
  {
    var sys := Alone(s, t, tx, n + 1);
    PlaysMove(setup, from, sys, CommitClaimed(t));
    var sys' := Then(setup, sys, CommitClaimed(t));
    assert sys'.txs == map[];
    assert sys'.a == Next(setup, s, Claim(tx.req, s.clock, n, s.db.events));
  }

  lemma WindowHasAnswer(s: State, req: Request, n: nat) returns (found: seq<nat>)
    ensures IsWindowRead(found, Seen(s, req, n), req, s.clock, n)
  {
    found := AnswerExists(Seen(s, req, n), |Seen(s, req, n)|, req, s.clock, n);
  }

  lemma ClaimIsPlayed(setup: Setup, from: Sys, s: State, step: Step)
    requires Plays(setup, from, AtRest(s)) && Enabled(setup, s, step) && IsSerial(s, step) && step.Claim?
    ensures Plays(setup, from, AtRest(Next(setup, s, step)))
  {
    var req, n := step.req, |s.db.intents|;
    var found := WindowHasAnswer(s, req, n);
    var row := ClaimedRow(s.db, req, s.clock);
    if req.enforce && found != [] {
      ClaimReadsStatuses(setup, from, s, 0, req, n, found);
      ClaimCommits(setup, from, s, 0, ClaimAt(s, req, HasStatuses(row, n, found, s.db.events)), n);
    } else {
      ClaimReadsWindow(setup, from, s, 0, req, n, found);
      ClaimCommits(setup, from, s, 0, ClaimAt(s, req, HasWindow(row, n, found, s.db.events)), n);
    }
  }

  ghost function RejectAt(s: State, req: Request, found: seq<nat>): Tx
    requires Claims(s.db, req, s.clock)
  {
    ClaimAt(s, req, HasWindow(ClaimedRow(s.db, req, s.clock), |s.db.intents|, found, s.db.events))
  }

  lemma BlockerIsPrimary(s: State, req: Request, found: seq<nat>, k: nat, blocker: nat)
    requires Claims(s.db, req, s.clock) && Blocks(s, req, found, k, blocker)
    ensures IsPrimary(Alone(s, 0, RejectAt(s, req, found), |s.db.intents| + 1), RejectAt(s, req, found), found, k)
  {
  }

  lemma RejectPublishes(setup: Setup, s: State, step: Step, found: seq<nat>)
    requires step.Reject? && Enabled(setup, s, step)
    requires step.start == s.clock && step.id == |s.db.intents| && step.lockedAt == s.db.events
    ensures PublishedRejection(s, RejectAt(s, step.req, found), step.blocker, step.body) == Next(setup, s, step)
  {
  }

  lemma RejectCommits(setup: Setup, from: Sys, s: State, tx: Tx, k: nat, body: Json, n: nat)
    requires tx.ClaimTx? && tx.phase.HasWindow? && tx.req.enforce
    requires Plays(setup, from, Alone(s, 0, tx, n)) && IsPrimary(Alone(s, 0, tx, n), tx, tx.phase.found, k)
    ensures Plays(setup, from, Sys(PublishedRejection(s, tx, tx.phase.found[k], body), map[], n))
  {
    var sys := Alone(s, 0, tx, n);
    PlaysMove(setup, from, sys, CommitRejected(0, k, body));
    assert Then(setup, sys, CommitRejected(0, k, body)).txs == map[];
  }

  lemma RejectIsPlayed(setup: Setup, from: Sys, s: State, step: Step)
    requires Plays(setup, from, AtRest(s)) && Enabled(setup, s, step) && IsSerial(s, step) && step.Reject?
    ensures Plays(setup, from, AtRest(Next(setup, s, step)))
  {
    var found, k :| Blocks(s, step.req, found, k, step.blocker);
    ClaimReadsWindow(setup, from, s, 0, step.req, |s.db.intents|, found);
    BlockerIsPrimary(s, step.req, found, k, step.blocker);
    RejectCommits(setup, from, s, RejectAt(s, step.req, found), k, step.body, |s.db.intents| + 1);
    RejectPublishes(setup, s, step, found);
  }

  // ---------------------------------------------------------------------
  // A completion
  // ---------------------------------------------------------------------

  ghost function CompleteAt(s: State, author: Author, writing: Writing): Tx
    requires HasOutcome(s, author)
  {
    var tx := Beginning(AtRest(s), author);
    CompleteTx(author, tx.owner, tx.status, tx.placement, tx.start, writing)
  }

  lemma CompletionUpdates(setup: Setup, from: Sys, s: State, author: Author)
    requires Plays(setup, from, AtRest(s)) && HasOutcome(s, author)
    requires InFlight(s.db.keys, CompleteAt(s, author, Opened).owner)
    ensures Plays(setup, from, Alone(s, 0, CompleteAt(s, author, Updated), |s.db.intents|))
  {
    var s0 := AtRest(s);
    PlaysMove(setup, from, s0, BeginComplete(0, author));
    var s1 := Then(setup, s0, BeginComplete(0, author));
    assert s1 == Alone(s, 0, CompleteAt(s, author, Opened), |s.db.intents|);
    PlaysMove(setup, from, s1, UpdateKey(0));
    assert Then(setup, s1, UpdateKey(0)).txs == map[0 := CompleteAt(s, author, Updated)];
  }

  lemma CompletionPicks(setup: Setup, from: Sys, s: State, author: Author, pick: Option<nat>)
    requires Plays(setup, from, AtRest(s)) && HasOutcome(s, author)
    requires var tx := CompleteAt(s, author, Opened);
             InFlight(s.db.keys, tx.owner) && tx.status == Failed && PickOk(s.db.intents, tx.owner, Failed, pick)
    ensures Plays(setup, from, Alone(s, 0, CompleteAt(s, author, Picked(pick)), |s.db.intents|))
  {
    CompletionUpdates(setup, from, s, author);
    var s2 := Alone(s, 0, CompleteAt(s, author, Updated), |s.db.intents|);
    PlaysMove(setup, from, s2, PickIntent(0, pick));
    assert Then(setup, s2, PickIntent(0, pick)).txs == map[0 := CompleteAt(s, author, Picked(pick))];
  }

  ghost predicate ReadyToRecord(setup: Setup, s: State, author: Author, pick: Option<nat>, acked: bool) {
    && HasOutcome(s, author)
    && (setup.premises.timelyRecord ==> InTime(setup, s, author))
    && (setup.premises.honestError ==> acked)
    && var tx := CompleteAt(s, author, Opened);
    CanComplete(s.db, tx.owner, tx.status, tx.placement, pick)
  }

  ghost function WritingOf(status: Status, pick: Option<nat>): Writing {
    if status == Failed then Picked(pick) else Updated
  }

  lemma CompletionWrites(setup: Setup, from: Sys, s: State, author: Author, pick: Option<nat>, acked: bool)
    requires Plays(setup, from, AtRest(s)) && ReadyToRecord(setup, s, author, pick, acked)
    ensures var tx := CompleteAt(s, author, WritingOf(CompleteAt(s, author, Opened).status, pick));
            && Plays(setup, from, Alone(s, 0, tx, |s.db.intents|))
            && Possible(setup, Alone(s, 0, tx, |s.db.intents|), CommitComplete(0, acked))
  {
    if CompleteAt(s, author, Opened).status == Failed {
      CompletionPicks(setup, from, s, author, pick);
    } else {
      CompletionUpdates(setup, from, s, author);
    }
  }

  /** The state after a completion that ran alone. */
  ghost function AfterCompletion(s: State, author: Author, pick: Option<nat>): State
    requires HasOutcome(s, author)
    requires var tx := CompleteAt(s, author, Opened); CanComplete(s.db, tx.owner, tx.status, tx.placement, pick)
  {
    var tx := CompleteAt(s, author, Opened);
    s.(db := Completed(s.db, tx.owner, tx.status, tx.placement, s.clock, pick))
  }

  lemma CompletionPublishes(setup: Setup, s: State, author: Author, pick: Option<nat>, acked: bool)
    requires ReadyToRecord(setup, s, author, pick, acked)
    ensures var tx := CompleteAt(s, author, WritingOf(CompleteAt(s, author, Opened).status, pick));
            tx.owner in s.db.keys && PublishedOutcome(s, tx) == AfterCompletion(s, author, pick)
  {
  }

  lemma CompletionIsPlayed(setup: Setup, from: Sys, s: State, author: Author, pick: Option<nat>, acked: bool)
    requires Plays(setup, from, AtRest(s)) && ReadyToRecord(setup, s, author, pick, acked)
    ensures Plays(setup, from, AtRest(Heard(AfterCompletion(s, author, pick), author, acked)))
  {
    var tx := CompleteAt(s, author, WritingOf(CompleteAt(s, author, Opened).status, pick));
    var sys := Alone(s, 0, tx, |s.db.intents|);
    CompletionWrites(setup, from, s, author, pick, acked);
    CompletionPublishes(setup, s, author, pick, acked);
    PlaysMove(setup, from, sys, CommitComplete(0, acked));
    assert Then(setup, sys, CommitComplete(0, acked)).txs == map[];
  }

  lemma CompleteIsHeard(setup: Setup, s: State, step: Step)
    requires Enabled(setup, s, step) && IsSerial(s, step) && step.Complete?
    ensures ReadyToRecord(setup, s, Executor(step.call), step.pick, step.acked)
    ensures Next(setup, s, step) == Heard(AfterCompletion(s, Executor(step.call), step.pick), Executor(step.call), step.acked)
  {
    var i := step.call;
    assert s.calls[i := s.calls[i].(net := s.calls[i].net, exec := s.calls[i].exec)] == s.calls;
  }

  lemma ResolveIsHeard(setup: Setup, s: State, step: Step)
    requires Enabled(setup, s, step) && IsSerial(s, step) && step.Resolve?
    ensures ReadyToRecord(setup, s, Sweeper(step.sweep), step.pick, true)
    ensures Next(setup, s, step) == Heard(AfterCompletion(s, Sweeper(step.sweep), step.pick), Sweeper(step.sweep), true)
  {
  }

  /** A completion that finds its key settled ends at its first statement. */
  lemma MissIsPlayed(setup: Setup, from: Sys, s: State, author: Author)
    requires Plays(setup, from, AtRest(s)) && HasOutcome(s, author)
    requires !InFlight(s.db.keys, CompleteAt(s, author, Opened).owner)
    ensures Plays(setup, from, AtRest(Told(s, author)))
  {
    var s0 := AtRest(s);
    PlaysMove(setup, from, s0, BeginComplete(0, author));
    var s1 := Then(setup, s0, BeginComplete(0, author));
    assert s1 == Alone(s, 0, CompleteAt(s, author, Opened), |s.db.intents|);
    PlaysMove(setup, from, s1, UpdateKey(0));
    assert Then(setup, s1, UpdateKey(0)).txs == map[];
  }

  // ---------------------------------------------------------------------
  // All steps
  // ---------------------------------------------------------------------

  ghost predicate IsOutside(step: Step) {
    !step.Claim? && !step.Reject? && !step.Complete? && !step.CompleteMissed? && !step.Resolve? && !step.ResolveMissed?
  }

  lemma OutsideIsPlayed(setup: Setup, from: Sys, s: State, step: Step)
    requires Plays(setup, from, AtRest(s)) && Enabled(setup, s, step) && IsOutside(step)
    ensures Plays(setup, from, AtRest(Next(setup, s, step)))
  {
    PlaysMove(setup, from, AtRest(s), Env(step));
  }

  lemma StepIsPlayed(setup: Setup, from: Sys, s: State, step: Step)
    requires Plays(setup, from, AtRest(s)) && Enabled(setup, s, step) && IsSerial(s, step)
    ensures Plays(setup, from, AtRest(Next(setup, s, step)))
  {
    match step
    case Claim(_, _, _, _) => ClaimIsPlayed(setup, from, s, step);
    case Reject(_, _, _, _, _, _) => RejectIsPlayed(setup, from, s, step);
    case Complete(i, _, pick, acked) =>
      CompleteIsHeard(setup, s, step);
      CompletionIsPlayed(setup, from, s, Executor(i), pick, acked);
    case CompleteMissed(i) => MissIsPlayed(setup, from, s, Executor(i));
    case Resolve(j, _, pick) =>
      ResolveIsHeard(setup, s, step);
      CompletionIsPlayed(setup, from, s, Sweeper(j), pick, true);
    case ResolveMissed(j) => MissIsPlayed(setup, from, s, Sweeper(j));
    case _ => OutsideIsPlayed(setup, from, s, step);
  }

  /** Every orderly run of the protocol is an interleaved run, of a simple kind. */
  lemma {:induction false} OrderlyIsPlayed(setup: Setup, from: Sys, s: State, s': State, steps: seq<Step>)
    requires Plays(setup, from, AtRest(s)) && SerialAfter(setup, s, steps) == Some(s')
    ensures Plays(setup, from, AtRest(s'))
    decreases |steps|
  {
    if steps != [] {
      var front := steps[..|steps| - 1];
      var mid := SerialAfter(setup, s, front).value;
      OrderlyIsPlayed(setup, from, s, mid, front);
      StepIsPlayed(setup, from, mid, steps[|steps| - 1]);
    }
  }

  lemma PlaysRefl(setup: Setup, sys: Sys)
    ensures Plays(setup, sys, sys)
  {
    assert Played(setup, sys, []) == Some(sys);
  }

  /** Whatever an orderly run reaches is visited. */
  lemma OrderlyIsVisited(setup: Setup, s: State)
    requires Orderly(setup, START, s)
    ensures Visited(setup, AtRest(s))
  {
    var steps :| SerialAfter(setup, START, steps) == Some(s);
    PlaysRefl(setup, QUIET);
    OrderlyIsPlayed(setup, QUIET, START, s, steps);
    assert Start(QUIET);
  }

  /** The guarantee, exactly, for statements: no interleaving executes a key twice if
      and only if all premises hold. */
  lemma InterleavedAtMostOnceIff(setup: Setup)
    requires setup.stale >= 0
    ensures setup.premises.All() <==> forall sys | Visited(setup, sys) :: AtMostOnce(sys.a.ledger)
  {
    if setup.premises.All() {
      forall sys | Visited(setup, sys) ensures AtMostOnce(sys.a.ledger) {
        AtMostOneExecution(setup, sys);
      }
    } else {
      SomeRunExecutesTwice(setup);
      var s :| Orderly(setup, START, s) && !AtMostOnce(s.ledger);
      OrderlyIsVisited(setup, s);
      assert !AtMostOnce(AtRest(s).a.ledger);
    }
  }

  /** Stable replays under every interleaving. */
  ghost predicate InterleavedReplaysAreStable(setup: Setup) {
    forall sys, sys', owner | Visited(setup, sys) && Plays(setup, sys, sys') && IsAnswered(sys.a, owner) ::
      KeepsReplay(setup, sys.a, sys'.a, owner)
  }

  /** The same for replays: no interleaving changes or loses one exactly under the
      conditions of the orderly runs. */
  lemma InterleavedReplayIsStableIff(setup: Setup)
    requires setup.stale >= 0
    ensures InterleavedReplaysAreStable(setup) <==> KeepsReplays(setup)
  {
    if KeepsReplays(setup) {
      ReplaysStayStable(setup);
      forall sys, sys', owner | Visited(setup, sys) && Plays(setup, sys, sys') && IsAnswered(sys.a, owner)
        ensures KeepsReplay(setup, sys.a, sys'.a, owner)
      {
        PlaysLeads(setup, sys, sys');
      }
    } else {
      SomeReplayChangesWithout(setup);
      var s, s', owner :| Changed(setup, s, s', owner);
      OrderlyIsVisited(setup, s);
      PlaysRefl(setup, AtRest(s));
      var steps :| SerialAfter(setup, s, steps) == Some(s');
      OrderlyIsPlayed(setup, AtRest(s), s, s', steps);
      assert !KeepsReplay(setup, AtRest(s).a, AtRest(s').a, owner);
    }
  }
}
