/** What the statement-level protocol guarantees over whole runs, under every
    interleaving. */
module Guarantees {
  import opened Conflict
  import opened Schema
  import opened Database
  import opened ResultStore
  import opened Protocol
  import opened Runs
  import opened Lifecycle
  import opened Causes
  import opened Contention
  import opened Statements
  import opened Refinement
  import opened Interleaving

  ghost function Played(setup: Setup, sys: Sys, moves: seq<Move>): Option<Sys> {
    if moves == [] then Some(sys)
    else
      var mid := Played(setup, sys, moves[..|moves| - 1]);
      var last := moves[|moves| - 1];
      if mid.Some? && Possible(setup, mid.value, last) then Some(Then(setup, mid.value, last)) else None
  }

  ghost predicate Plays(setup: Setup, sys: Sys, sys': Sys) {
    exists moves :: Played(setup, sys, moves) == Some(sys')
  }

  ghost predicate Visited(setup: Setup, sys: Sys) {
    exists start :: Start(start) && Plays(setup, start, sys)
  }

  /** Nothing has happened yet. */
  const QUIET := Sys(START, map[], 0)

  lemma PlaysMove(setup: Setup, sys: Sys, mid: Sys, move: Move)
    requires Plays(setup, sys, mid) && Possible(setup, mid, move)
    ensures Plays(setup, sys, Then(setup, mid, move))
  {
    var moves :| Played(setup, sys, moves) == Some(mid);
    var more := moves + [move];
    assert more[..|moves|] == moves;
    assert Played(setup, sys, more) == Some(Then(setup, mid, move));
  }

  /** A run of statements is a run of indivisible transactions: there are steps of
      the protocol that lead from its first committed state to its last. Nothing
      is assumed about clocks, sweeps, probes or acknowledgements. */
  lemma {:induction false} PlayRefines(setup: Setup, sys: Sys, moves: seq<Move>)
    requires setup.premises.retained && SysInv(sys) && Played(setup, sys, moves).Some?
    ensures SysInv(Played(setup, sys, moves).value)
    ensures Leads(setup, sys.a, Played(setup, sys, moves).value.a)
  {
    if moves == [] {
      LeadsRefl(setup, sys.a);
    } else {
      var front, last := moves[..|moves| - 1], moves[|moves| - 1];
      PlayRefines(setup, sys, front);
      MoveExtends(setup, sys.a, Played(setup, sys, front).value, last);
    }
  }

  lemma MoveExtends(setup: Setup, a: State, mid: Sys, move: Move)
    requires setup.premises.retained && SysInv(mid) && Possible(setup, mid, move) && Leads(setup, a, mid.a)
    ensures SysInv(Then(setup, mid, move)) && Leads(setup, a, Then(setup, mid, move).a)
  {
    MoveKeepsSysInv(setup, mid, move);
    MoveRefines(setup, mid, move);
    var image := Image(setup, mid, move);
    if image.Some? {
      LeadsStep(setup, a, mid.a, image.value);
    }
  }

  lemma VisitedIsReachable(setup: Setup, sys: Sys)
    requires setup.premises.retained && Visited(setup, sys)
    ensures SysInv(sys) && Reachable(setup, sys.a)
  {
    var start :| Start(start) && Plays(setup, start, sys);
    var moves :| Played(setup, start, moves) == Some(sys);
    assert Consistent(start.a);
    PlayRefines(setup, start, moves);
  }

  lemma PlaysLeads(setup: Setup, sys: Sys, sys': Sys)
    requires setup.premises.retained && Visited(setup, sys) && Plays(setup, sys, sys')
    ensures Reachable(setup, sys.a) && Leads(setup, sys.a, sys'.a)
  {
    VisitedIsReachable(setup, sys);
    var moves :| Played(setup, sys, moves) == Some(sys');
    PlayRefines(setup, sys, moves);
  }

  // ---------------------------------------------------------------------
  // Safety
  // ---------------------------------------------------------------------

  /** The guarantee of the system: over every interleaving of statements, sends,
      executions, completions, sweeps, probes and crashes, a key is executed at
      most once. */
  lemma AtMostOneExecution(setup: Setup, sys: Sys)
    requires setup.premises.All() && Visited(setup, sys)
    ensures AtMostOnce(sys.a.ledger)
  {
    VisitedIsReachable(setup, sys);
    ExecutesAtMostOnce(setup, sys.a);
  }

  /** Whatever is executed, however often, is the request its key was claimed for. */
  lemma ExecutionsAreAsClaimed(setup: Setup, sys: Sys)
    requires setup.premises.retained && Visited(setup, sys)
    ensures AsClaimed(sys.a)
  {
    VisitedIsReachable(setup, sys);
    ConsistentIsAsClaimed(sys.a);
  }

  /** One live intent per key while the write may have happened and none once it
      provably did not; as many intents as attempts; both CHECK constraints. */
  lemma LiveIntents(setup: Setup, sys: Sys, owner: KeyId)
    requires setup.premises.retained && Visited(setup, sys) && owner in sys.a.db.keys
    ensures var row := sys.a.db.keys[owner];
            && Recorded(sys.a.db.intents, owner) == row.attempts
            && LiveCount(sys.a.db.intents, owner) == (if row.status.Failed? || row.status.Rejected? then 0 else 1)
            && RowChecks(row)
  {
    VisitedIsReachable(setup, sys);
    assert RowOk(sys.a.db, owner);
  }

  /** Conflict exclusion in every state: whoever was let through under enforcement
      is compatible with every earlier live intent of another agent in reach. */
  lemma ConflictExclusion(setup: Setup, sys: Sys, i: nat, j: nat)
    requires setup.premises.retained && Visited(setup, sys)
    requires i < j < |sys.a.db.intents|
    ensures |sys.a.db.intents| == |sys.a.db.notes|
    ensures var earlier, later, note := sys.a.db.intents[i], sys.a.db.intents[j], sys.a.db.notes[j];
            Live(earlier) && Live(later) && note.enforce
            && earlier.resource == later.resource && earlier.owner.agent != later.owner.agent
            && earlier.emittedAt > later.emittedAt - note.window
            ==> Compatible(later.declared, earlier.declared)
  {
    VisitedIsReachable(setup, sys);
    assert Apart(sys.a.db, i, j);
  }

  /** Every rejection names an earlier claim of another agent that was let through
      and that really clashes. */
  lemma RejectionsAreJust(setup: Setup, sys: Sys, j: nat)
    requires setup.premises.retained && Visited(setup, sys)
    requires j < |sys.a.db.intents|
    ensures |sys.a.db.intents| == |sys.a.db.notes| && JustlyLost(sys.a.db, j)
  {
    VisitedIsReachable(setup, sys);
  }

  /** Downstream is called only on behalf of a claim that committed and was let
      through, and once per such claim: calls and winning intents correspond one
      to one. */
  lemma CallsMatchClaims(setup: Setup, sys: Sys)
    requires setup.premises.retained && Visited(setup, sys)
    ensures |sys.a.db.intents| == |sys.a.db.notes|
    ensures forall i | 0 <= i < |sys.a.calls| ::
              && sys.a.calls[i].intent < |sys.a.db.notes|
              && sys.a.db.notes[sys.a.calls[i].intent].verdict == Won(i)
              && sys.a.db.intents[sys.a.calls[i].intent].owner == sys.a.calls[i].owner
    ensures forall n | 0 <= n < |sys.a.db.notes| && sys.a.db.notes[n].verdict.Won? ::
              sys.a.db.notes[n].verdict.call < |sys.a.calls| && sys.a.calls[sys.a.db.notes[n].verdict.call].intent == n
  {
    VisitedIsReachable(setup, sys);
    forall i | 0 <= i < |sys.a.calls|
      ensures && sys.a.calls[i].intent < |sys.a.db.notes|
              && sys.a.db.notes[sys.a.calls[i].intent].verdict == Won(i)
              && sys.a.db.intents[sys.a.calls[i].intent].owner == sys.a.calls[i].owner
    {
      assert CallOk(sys.a.db, sys.a.calls, i);
    }
  }

  // ---------------------------------------------------------------------
  // Over time
  // ---------------------------------------------------------------------

  /** Rows over whole runs: the request of a key never changes, a done,
      indeterminate or rejected row never changes at all, and a failed row
      changes only together with its attempt count. */
  lemma RowLifecycle(setup: Setup, sys: Sys, sys': Sys, owner: KeyId)
    requires setup.premises.retained && Visited(setup, sys) && Plays(setup, sys, sys')
    ensures Later(RowOf(sys.a.db.keys, owner), RowOf(sys'.a.db.keys, owner))
  {
    PlaysLeads(setup, sys, sys');
    var steps :| After(setup, sys.a, steps) == Some(sys'.a);
    RunEvolvesRows(setup, sys.a, steps, owner);
  }

  /** Once a key is done or rejected, every later request is answered from its row
      and with the same body, under every interleaving. */
  lemma ReplaysAgree(setup: Setup, sys: Sys, sys': Sys, req: Request, start: Instant)
    requires setup.premises.Recording() && Collisionless(setup.layout.digest)
    requires Visited(setup, sys) && Plays(setup, sys, sys')
    requires req.owner in sys.a.db.keys
    requires sys.a.db.keys[req.owner].status.Done? || sys.a.db.keys[req.owner].status.Rejected?
    ensures req.owner in sys'.a.db.keys
    ensures Replay(setup, sys.a, req.owner).Some?
    ensures Replay(setup, sys'.a, req.owner) == Replay(setup, sys.a, req.owner)
    ensures ClaimKey(RowOf(sys'.a.db.keys, req.owner), req, start)
         == if req.hash == sys.a.db.keys[req.owner].hash then Existing else Mismatch
  {
    PlaysLeads(setup, sys, sys');
    StableReplay(setup, sys.a, sys'.a, req, start);
  }

  /** No mutual defeat under any interleaving: of the contending claims exactly the
      one decided first is let through, and every other one lost to it. */
  lemma OneContenderWins(setup: Setup, sys: Sys, sys': Sys, resource: Resource, some: nat) returns (winner: nat)
    requires setup.premises.retained && Visited(setup, sys) && Plays(setup, sys, sys')
    requires Contend(sys.a.db, sys'.a.db, resource)
    requires Decided(sys'.a.db, |sys.a.db.intents|, resource, some)
    ensures First(sys'.a.db, |sys.a.db.intents|, resource, winner)
    ensures forall j: nat | Decided(sys'.a.db, |sys.a.db.intents|, resource, j) ::
              if j == winner then sys'.a.db.notes[j].verdict.Won? else sys'.a.db.notes[j].verdict == Lost(winner)
  {
    PlaysLeads(setup, sys, sys');
    winner := ExactlyOneWins(setup, sys.a, sys'.a, resource, some);
  }

  // ---------------------------------------------------------------------
  // Claims
  // ---------------------------------------------------------------------

  /** A claim that commits as claimed would also be claimed by the whole check run
      at once at its commit instant, although completions ran between its reads;
      in particular no clashing live intent of its own agent has a key in flight
      then. Its transaction writes the very row the check computes. */
  lemma ClaimHoldsAtCommit(setup: Setup, sys: Sys, t: nat)
    requires setup.premises.retained && Visited(setup, sys) && Possible(setup, sys, CommitClaimed(t))
    ensures var tx, db := sys.txs[t], sys.a.db;
            && ClaimKey(RowOf(db.keys, tx.req.owner), tx.req, tx.start) == Fresh(tx.phase.row)
            && MayProceed(db.keys, db.intents, tx.req, tx.start)
            && var step := Claim(tx.req, tx.start, tx.phase.id, tx.lockedAt);
            Enabled(setup, sys.a, step) && Then(setup, sys, CommitClaimed(t)).a == Next(setup, sys.a, step)
  {
    VisitedIsReachable(setup, sys);
    assert TxOk(sys, sys.txs[t]);
    ClaimedRefines(setup, sys, t);
  }

  /** The update that rejects a key has no guard on the row's status. It needs
      none: the row is still as it was when this transaction claimed it. */
  lemma RejectionHitsOwnRow(setup: Setup, sys: Sys, t: nat, primary: nat, body: Json)
    requires setup.premises.retained && Visited(setup, sys) && Possible(setup, sys, CommitRejected(t, primary, body))
    ensures var tx := sys.txs[t];
            && ClaimKey(RowOf(sys.a.db.keys, tx.req.owner), tx.req, tx.start) == Fresh(tx.phase.row)
            && RowOf(Then(setup, sys, CommitRejected(t, primary, body)).a.db.keys, tx.req.owner)
            == Some(tx.phase.row.(status := Rejected, result := Some(body), completedAt := Some(tx.start)))
  {
    VisitedIsReachable(setup, sys);
    assert TxOk(sys, sys.txs[t]);
  }

  /** The body of a rejection is what every later replay answers, under every
      interleaving. */
  lemma RejectionIsAnsweredAgain(setup: Setup, sys: Sys, t: nat, primary: nat, body: Json, sys': Sys)
    requires setup.premises.retained && Visited(setup, sys) && Possible(setup, sys, CommitRejected(t, primary, body))
    requires Plays(setup, Then(setup, sys, CommitRejected(t, primary, body)), sys')
    ensures sys.txs[t].req.owner in sys'.a.db.keys
    ensures Replay(setup, sys'.a, sys.txs[t].req.owner) == Some(body)
  {
    var move := CommitRejected(t, primary, body);
    VisitedIsReachable(setup, sys);
    RejectedRefines(setup, sys, t, primary, body);
    var start :| Start(start) && Plays(setup, start, sys);
    PlaysMove(setup, start, sys, move);
    PlaysLeads(setup, Then(setup, sys, move), sys');
    RejectionIsReplayedForEver(setup, sys.a, Image(setup, sys, move).value, sys'.a);
  }

  /** Every outcome has a cause, under every interleaving: the run refines one of
      indivisible transactions that contains it. */
  lemma OutcomesAreCaused(setup: Setup, sys: Sys, owner: KeyId) returns (init: State, steps: seq<Step>, attempt: nat, body: Json)
    requires setup.premises.retained && Visited(setup, sys)
    requires owner in sys.a.db.keys && !sys.a.db.keys[owner].status.Pending?
    ensures Init(init) && After(setup, init, steps) == Some(sys.a)
    ensures Caused(setup, init, steps, owner, attempt, sys.a.db.keys[owner].status, body)
    ensures KeepsReplays(setup) && Settled(sys.a.db.keys[owner].status) ==> Replay(setup, sys.a, owner) == Some(body)
    ensures setup.premises.Recording() ==> attempt == sys.a.db.keys[owner].attempts
  {
    VisitedIsReachable(setup, sys);
    init :| Init(init) && Leads(setup, init, sys.a);
    steps :| After(setup, init, steps) == Some(sys.a);
    attempt, body := OutcomesHaveCauses(setup, init, steps, owner);
  }

  /** Neither the intent just recorded nor any earlier attempt of the same key is
      ever among the rows a claim is judged against. */
  lemma OwnKeyIsNeverInTheWay(setup: Setup, sys: Sys, t: nat, found: seq<nat>)
    requires setup.premises.retained && Visited(setup, sys) && Possible(setup, sys, ReadWindow(t, found))
    ensures forall k | 0 <= k < |found| ::
              found[k] < |sys.a.db.intents| && sys.a.db.intents[found[k]].owner != sys.txs[t].req.owner
  {
    VisitedIsReachable(setup, sys);
    WindowReadIsOk(setup, sys, t, found);
  }
}
