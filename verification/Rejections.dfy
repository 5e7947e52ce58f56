/** When a rejection still holds at its commit instant: decided by what was
    completed since the window was read. */
module Rejections {
  import opened Schema
  import opened Database
  import opened Protocol
  import opened Contention
  import opened Lifecycle
  import opened Statements
  import opened Refinement
  import opened Interleaving
  import opened Guarantees

  // ---------------------------------------------------------------------
  // What one step does to a row that blocks
  // ---------------------------------------------------------------------

  /** The key that a step completes, and with which status. */
  ghost function Completion(s: State, step: Step): Option<(KeyId, Status)> {
    match step
    case Complete(i, _, _, _) =>
      if i < |s.calls| && s.calls[i].exec.Stored? then Some((s.calls[i].owner, s.calls[i].exec.status)) else None
    case Resolve(j, _, _) =>
      if Busy(s, j) && s.sweeps[j].stage.Kept? then Some((s.sweeps[j].todo[0], s.sweeps[j].stage.status)) else None
    case _ => None
  }

  /** The tables after a completion: its key's live intent is voided exactly if it
      failed, and every other one is left alone. */
  lemma CompletionVoids(db: Db, owner: KeyId, status: Status, placement: Placement, at: Instant, pick: Option<nat>, i: nat)
    requires DbOk(db) && CanComplete(db, owner, status, placement, pick)
    requires i < |db.intents| && Live(db.intents[i])
    ensures var db' := Completed(db, owner, status, placement, at, pick);
            Live(db'.intents[i]) <==> !(db.intents[i].owner == owner && status == Failed)
  {
    if status == Failed {
      VoidingHasOneChoice(db, owner, pick);
    }
  }

  lemma OtherStepsVoidNothing(setup: Setup, s: State, step: Step, i: nat)
    requires setup.premises.retained && Enabled(setup, s, step) && !step.Complete? && !step.Resolve?
    requires i < |s.db.intents|
    ensures i < |Next(setup, s, step).db.intents| && Next(setup, s, step).db.intents[i] == s.db.intents[i]
  {
  }

  lemma CompleteVoids(setup: Setup, s: State, step: Step, i: nat)
    requires DbOk(s.db) && Enabled(setup, s, step) && step.Complete?
    requires i < |s.db.intents| && Live(s.db.intents[i])
    ensures i < |Next(setup, s, step).db.intents|
    ensures Live(Next(setup, s, step).db.intents[i]) <==> Completion(s, step) != Some((s.db.intents[i].owner, Failed))
  {
    var c := s.calls[step.call];
    CompletionVoids(s.db, c.owner, c.exec.status, c.exec.placement, step.at, step.pick, i);
  }

  lemma ResolveVoids(setup: Setup, s: State, step: Step, i: nat)
    requires DbOk(s.db) && Enabled(setup, s, step) && step.Resolve?
    requires i < |s.db.intents| && Live(s.db.intents[i])
    ensures i < |Next(setup, s, step).db.intents|
    ensures Live(Next(setup, s, step).db.intents[i]) <==> Completion(s, step) != Some((s.db.intents[i].owner, Failed))
  {
    var sweep := s.sweeps[step.sweep];
    CompletionVoids(s.db, sweep.todo[0], sweep.stage.status, sweep.stage.placement, step.at, step.pick, i);
  }

  /** A live intent is voided by a failed completion of its key and nothing else. */
  lemma StepVoids(setup: Setup, s: State, step: Step, i: nat)
    requires setup.premises.retained && DbOk(s.db) && Enabled(setup, s, step)
    requires i < |s.db.intents| && Live(s.db.intents[i])
    ensures i < |Next(setup, s, step).db.intents|
    ensures Live(Next(setup, s, step).db.intents[i]) <==> Completion(s, step) != Some((s.db.intents[i].owner, Failed))
  {
    if step.Complete? {
      CompleteVoids(setup, s, step, i);
    } else if step.Resolve? {
      ResolveVoids(setup, s, step, i);
    } else {
      OtherStepsVoidNothing(setup, s, step, i);
    }
  }

  /** A key in flight is settled by a completion of it and nothing else. */
  lemma StepSettles(setup: Setup, s: State, step: Step, owner: KeyId)
    requires setup.premises.retained && Enabled(setup, s, step) && InFlight(s.db.keys, owner)
    ensures InFlight(Next(setup, s, step).db.keys, owner) <==>
              !(Completion(s, step).Some? && Completion(s, step).value.0 == owner)
  {
  }

  // ---------------------------------------------------------------------
  // The same for moves
  // ---------------------------------------------------------------------

  /** The move commits a completion of the key. */
  ghost predicate Completes(sys: Sys, move: Move, owner: KeyId) {
    move.CommitComplete? && InWriting(sys, move.t) && sys.txs[move.t].owner == owner
  }

  ghost predicate Fails(sys: Sys, move: Move, owner: KeyId) {
    Completes(sys, move, owner) && sys.txs[move.t].status == Failed
  }

  lemma ExecutorsCompletion(a: State, tx: Tx, pick: Option<nat>, acked: bool)
    requires tx.CompleteTx? && AuthorOk(a, tx) && tx.author.Executor?
    ensures Completion(a, Complete(tx.author.call, tx.start, pick, acked)) == Some((tx.owner, tx.status))
  {
  }

  lemma SweepersCompletion(a: State, tx: Tx, pick: Option<nat>)
    requires tx.CompleteTx? && AuthorOk(a, tx) && tx.author.Sweeper?
    ensures Completion(a, Resolve(tx.author.sweep, tx.start, pick)) == Some((tx.owner, tx.status))
  {
  }

  lemma CommitIsCompletion(setup: Setup, sys: Sys, t: nat, acked: bool)
    requires SysInv(sys) && Possible(setup, sys, CommitComplete(t, acked))
    ensures var image := Image(setup, sys, CommitComplete(t, acked));
            image.Some? && Completion(sys.a, image.value) == Some((sys.txs[t].owner, sys.txs[t].status))
  {
    var tx := sys.txs[t];
    AuthorsOutcome(sys, t);
    if tx.author.Executor? {
      ExecutorsCompletion(sys.a, tx, PickOf(tx), acked);
    } else {
      SweepersCompletion(sys.a, tx, PickOf(tx));
    }
  }

  lemma OthersCompleteNothing(setup: Setup, sys: Sys, move: Move)
    requires Possible(setup, sys, move) && !move.CommitComplete?
    ensures var image := Image(setup, sys, move); image.Some? ==> Completion(sys.a, image.value).None?
  {
  }

  lemma ImageCompletes(setup: Setup, sys: Sys, move: Move, owner: KeyId)
    requires SysInv(sys) && Possible(setup, sys, move)
    ensures var image := Image(setup, sys, move);
            && (Completes(sys, move, owner) <==>
                  image.Some? && Completion(sys.a, image.value).Some? && Completion(sys.a, image.value).value.0 == owner)
            && (Fails(sys, move, owner) <==> image.Some? && Completion(sys.a, image.value) == Some((owner, Failed)))
  {
    if move.CommitComplete? {
      CommitIsCompletion(setup, sys, move.t, move.acked);
    } else {
      OthersCompleteNothing(setup, sys, move);
    }
  }

  lemma MoveVoids(setup: Setup, sys: Sys, move: Move, i: nat)
    requires setup.premises.retained && SysInv(sys) && Possible(setup, sys, move)
    requires i < |sys.a.db.intents| && Live(sys.a.db.intents[i])
    ensures i < |Then(setup, sys, move).a.db.intents|
    ensures Live(Then(setup, sys, move).a.db.intents[i]) <==> !Fails(sys, move, sys.a.db.intents[i].owner)
  {
    MoveRefines(setup, sys, move);
    ImageCompletes(setup, sys, move, sys.a.db.intents[i].owner);
    var image := Image(setup, sys, move);
    if image.Some? {
      StepVoids(setup, sys.a, image.value, i);
    }
  }

  lemma MoveSettles(setup: Setup, sys: Sys, move: Move, owner: KeyId)
    requires setup.premises.retained && SysInv(sys) && Possible(setup, sys, move) && InFlight(sys.a.db.keys, owner)
    ensures InFlight(Then(setup, sys, move).a.db.keys, owner) <==> !Completes(sys, move, owner)
  {
    MoveRefines(setup, sys, move);
    ImageCompletes(setup, sys, move, owner);
    var image := Image(setup, sys, move);
    if image.Some? {
      StepSettles(setup, sys.a, image.value, owner);
    }
  }

  /** Intents keep their owners, a voided one stays voided, a settled row stays. */
  lemma MoveIsMonotone(setup: Setup, sys: Sys, move: Move, i: nat)
    requires setup.premises.retained && SysInv(sys) && Possible(setup, sys, move) && i < |sys.a.db.intents|
    ensures var db, db' := sys.a.db, Then(setup, sys, move).a.db;
            && i < |db'.intents| && db'.intents[i].owner == db.intents[i].owner
            && (!Live(db.intents[i]) ==> !Live(db'.intents[i]))
            && Evolves(RowOf(db.keys, db.intents[i].owner), RowOf(db'.keys, db.intents[i].owner))
  {
    MoveRefines(setup, sys, move);
    var image := Image(setup, sys, move);
    if image.Some? {
      StepExtends(setup, sys.a, image.value);
      assert sys.a.db.intents[i].owner
          == Next(setup, sys.a, image.value).db.intents[i].(voidedAt := sys.a.db.intents[i].voidedAt).owner;
      StepEvolvesRows(setup, sys.a, image.value, sys.a.db.intents[i].owner);
    }
  }

  // ---------------------------------------------------------------------
  // And for whole stretches of a run
  // ---------------------------------------------------------------------

  /** Some move on the way commits a completion of the key. */
  ghost predicate CompletedOn(setup: Setup, sys: Sys, moves: seq<Move>, owner: KeyId) {
    && moves != []
    && var front, last := moves[..|moves| - 1], moves[|moves| - 1];
    || CompletedOn(setup, sys, front, owner)
    || (Played(setup, sys, front).Some? && Completes(Played(setup, sys, front).value, last, owner))
  }

  /** Some move on the way commits a failed completion of the key. */
  ghost predicate FailedOn(setup: Setup, sys: Sys, moves: seq<Move>, owner: KeyId) {
    && moves != []
    && var front, last := moves[..|moves| - 1], moves[|moves| - 1];
    || FailedOn(setup, sys, front, owner)
    || (Played(setup, sys, front).Some? && Fails(Played(setup, sys, front).value, last, owner))
  }

  /** A live intent is voided on the way exactly if its key fails on the way. */
  lemma {:induction false} StretchVoids(setup: Setup, sys: Sys, moves: seq<Move>, i: nat)
    requires setup.premises.retained && SysInv(sys) && Played(setup, sys, moves).Some?
    requires i < |sys.a.db.intents| && Live(sys.a.db.intents[i])
    ensures var db' := Played(setup, sys, moves).value.a.db;
            && i < |db'.intents| && db'.intents[i].owner == sys.a.db.intents[i].owner
            && (Live(db'.intents[i]) <==> !FailedOn(setup, sys, moves, sys.a.db.intents[i].owner))
  {
    if moves != [] {
      var front, last := moves[..|moves| - 1], moves[|moves| - 1];
      StretchVoids(setup, sys, front, i);
      PlayRefines(setup, sys, front);
      var mid := Played(setup, sys, front).value;
      MoveIsMonotone(setup, mid, last, i);
      if Live(mid.a.db.intents[i]) {
        MoveVoids(setup, mid, last, i);
      }
    }
  }

  /** An intent that is live with its key in flight. */
  ghost predicate Pends(db: Db, i: nat) {
    i < |db.intents| && Live(db.intents[i]) && InFlight(db.keys, db.intents[i].owner)
  }

  /** Once it does not pend it never does again: a live intent of a settled key
      stays with a settled key. */
  lemma MoveUnpends(setup: Setup, sys: Sys, move: Move, i: nat)
    requires setup.premises.retained && SysInv(sys) && Possible(setup, sys, move) && i < |sys.a.db.intents|
    ensures Pends(Then(setup, sys, move).a.db, i) <==>
              Pends(sys.a.db, i) && !Completes(sys, move, sys.a.db.intents[i].owner)
  {
    var owner := sys.a.db.intents[i].owner;
    MoveIsMonotone(setup, sys, move, i);
    if Pends(sys.a.db, i) {
      MoveVoids(setup, sys, move, i);
      MoveSettles(setup, sys, move, owner);
    } else if Live(sys.a.db.intents[i]) {
      LiveMeansNotFailed(sys.a.db, i);
    }
  }

  lemma LiveMeansNotFailed(db: Db, i: nat)
    requires DbOk(db) && i < |db.intents| && Live(db.intents[i])
    ensures db.intents[i].owner in db.keys && LiveWanted(db.keys[db.intents[i].owner].status) == 1
  {
    assert IntentOk(db, i);
    var owner := db.intents[i].owner;
    assert RowOk(db, owner);
    if LiveCount(db.intents, owner) == 0 {
      NoneLive(db.intents, owner);
    }
  }

  lemma {:induction false} StretchUnpends(setup: Setup, sys: Sys, moves: seq<Move>, i: nat)
    requires setup.premises.retained && SysInv(sys) && Played(setup, sys, moves).Some? && i < |sys.a.db.intents|
    ensures var db' := Played(setup, sys, moves).value.a.db;
            && i < |db'.intents| && db'.intents[i].owner == sys.a.db.intents[i].owner
            && (Pends(db', i) <==> Pends(sys.a.db, i) && !CompletedOn(setup, sys, moves, sys.a.db.intents[i].owner))
  {
    if moves != [] {
      var front, last := moves[..|moves| - 1], moves[|moves| - 1];
      StretchUnpends(setup, sys, front, i);
      PlayRefines(setup, sys, front);
      var mid := Played(setup, sys, front).value;
      MoveIsMonotone(setup, mid, last, i);
      MoveUnpends(setup, mid, last, i);
    }
  }

  // ---------------------------------------------------------------------
  // Rejections
  // ---------------------------------------------------------------------

  /** A row in the window that stands in the way. */
  ghost predicate Blocks(db: Db, tx: Tx, i: nat)
    requires tx.ClaimTx?
  {
    && i < |db.intents| && Live(db.intents[i])
    && (db.intents[i].owner.agent != tx.req.owner.agent || InFlight(db.keys, db.intents[i].owner))
  }

  /** The whole check looks at the rows of the window and at no others. */
  lemma WindowDecides(sys: Sys, t: nat)
    requires SysInv(sys) && InPhase(sys, t, (p: Phase) => p.HasWindow?) && sys.txs[t].req.enforce
    ensures var tx := sys.txs[t];
            MayProceed(sys.a.db.keys, sys.a.db.intents, tx.req, tx.start) <==>
              forall k | 0 <= k < |tx.phase.found| :: !Blocks(sys.a.db, tx, tx.phase.found[k])
  {
    var tx, db := sys.txs[t], sys.a.db;
    assert TxOk(sys, tx);
    assert WindowOk(db, tx, tx.phase.found, tx.phase.readAt);
    if !MayProceed(db.keys, db.intents, tx.req, tx.start) {
      var i :| 0 <= i < |db.intents| && Live(db.intents[i]) && Clashes(db.intents[i], tx.req, tx.start)
               && !(db.intents[i].owner.agent == tx.req.owner.agent && !InFlight(db.keys, db.intents[i].owner));
      assert i in tx.phase.found;
      var k :| 0 <= k < |tx.phase.found| && tx.phase.found[k] == i;
      assert Blocks(db, tx, tx.phase.found[k]);
    }
  }

  /** The same read off the tables at the commit instant: a rejection is stale if
      and only if every row found of another agent was voided by a commit after
      the read, and every row found of the same agent is voided or settled. */
  lemma StaleByEvents(setup: Setup, sys: Sys, t: nat, primary: nat, body: Json)
    requires setup.premises.retained && Visited(setup, sys) && Possible(setup, sys, CommitRejected(t, primary, body))
    ensures |sys.a.db.intents| == |sys.a.db.notes|
    ensures forall k | 0 <= k < |sys.txs[t].phase.found| :: sys.txs[t].phase.found[k] < |sys.a.db.intents|
    ensures var tx, db := sys.txs[t], sys.a.db;
            MayProceed(db.keys, db.intents, tx.req, tx.start) <==>
              forall k | 0 <= k < |tx.phase.found| :: VoidedSince(db, tx, tx.phase.found[k])
  {
    VisitedIsReachable(setup, sys);
    WindowDecides(sys, t);
    var tx, db := sys.txs[t], sys.a.db;
    assert TxOk(sys, tx);
    forall k | 0 <= k < |tx.phase.found|
      ensures tx.phase.found[k] < |db.intents|
      ensures VoidedSince(db, tx, tx.phase.found[k]) <==> !Blocks(db, tx, tx.phase.found[k])
    {
      assert IntentOk(db, tx.phase.found[k]);
    }
  }

  ghost predicate VoidedSince(db: Db, tx: Tx, i: nat)
    requires tx.ClaimTx? && tx.phase.HasWindow? && i < |db.intents| == |db.notes|
  {
    if db.intents[i].owner.agent != tx.req.owner.agent then
      db.notes[i].voidEvent.Some? && db.notes[i].voidEvent.value >= tx.phase.readAt
    else !Live(db.intents[i]) || !InFlight(db.keys, db.intents[i].owner)
  }

  /** What has to be committed after the read for one row to be out of the way. */
  ghost predicate ClearedOn(setup: Setup, sys: Sys, moves: seq<Move>, tx: Tx, i: nat)
    requires tx.ClaimTx? && i < |sys.a.db.intents|
  {
    var owner := sys.a.db.intents[i].owner;
    if owner.agent != tx.req.owner.agent then FailedOn(setup, sys, moves, owner)
    else !InFlight(sys.a.db.keys, owner) || CompletedOn(setup, sys, moves, owner)
  }

  lemma ClearedMeansUnblocked(setup: Setup, sys: Sys, moves: seq<Move>, tx: Tx, i: nat)
    requires setup.premises.retained && SysInv(sys) && Played(setup, sys, moves).Some?
    requires tx.ClaimTx? && i < |sys.a.db.intents| && Live(sys.a.db.intents[i])
    ensures ClearedOn(setup, sys, moves, tx, i) <==> !Blocks(Played(setup, sys, moves).value.a.db, tx, i)
  {
    StretchVoids(setup, sys, moves, i);
    StretchUnpends(setup, sys, moves, i);
  }

  lemma FreshWindowIsLive(setup: Setup, sys: Sys, t: nat, found: seq<nat>, k: nat)
    requires SysInv(sys) && Possible(setup, sys, ReadWindow(t, found)) && k < |found|
    ensures found[k] < |sys.a.db.intents| && Live(sys.a.db.intents[found[k]])
  {
    WindowReadIsOk(setup, sys, t, found);
    assert IntentOk(sys.a.db, found[k]);
  }

  /** A rejection whose window was read at `sys` and that commits after `moves` is
      stale -- the whole check, run at the commit instant, would let the write
      through -- if and only if in between every row found of another agent had
      its key failed, and every row found of the same agent had its key completed
      unless it was settled before. */
  lemma RejectionIsStaleIff(setup: Setup, sys: Sys, t: nat, found: seq<nat>, moves: seq<Move>, primary: nat, body: Json)
    requires setup.premises.retained && Visited(setup, sys) && Possible(setup, sys, ReadWindow(t, found))
    requires var read := Then(setup, sys, ReadWindow(t, found));
             && Played(setup, read, moves).Some?
             && Possible(setup, Played(setup, read, moves).value, CommitRejected(t, primary, body))
             && Played(setup, read, moves).value.txs[t] == read.txs[t]
    ensures forall k | 0 <= k < |found| :: found[k] < |sys.a.db.intents|
    ensures var read := Then(setup, sys, ReadWindow(t, found));
            var db := Played(setup, read, moves).value.a.db;
            MayProceed(db.keys, db.intents, sys.txs[t].req, sys.txs[t].start) <==>
              forall k | 0 <= k < |found| :: ClearedOn(setup, read, moves, sys.txs[t], found[k])
  {
    VisitedIsReachable(setup, sys);
    var read := Then(setup, sys, ReadWindow(t, found));
    var last := Played(setup, read, moves).value;
    ReadWindowKeepsSysInv(setup, sys, t, found);
    PlayRefines(setup, read, moves);
    WindowDecides(last, t);
    forall k | 0 <= k < |found|
      ensures found[k] < |sys.a.db.intents|
      ensures ClearedOn(setup, read, moves, sys.txs[t], found[k]) <==> !Blocks(last.a.db, last.txs[t], found[k])
    {
      FreshWindowIsLive(setup, sys, t, found, k);
      ClearedMeansUnblocked(setup, read, moves, sys.txs[t], found[k]);
    }
  }

  /** So a rejection stands whenever the key it names does not fail between the
      window read and the commit. */
  lemma RejectionStands(setup: Setup, sys: Sys, t: nat, found: seq<nat>, moves: seq<Move>, primary: nat, body: Json)
    requires setup.premises.retained && Visited(setup, sys) && Possible(setup, sys, ReadWindow(t, found))
    requires var read := Then(setup, sys, ReadWindow(t, found));
             && Played(setup, read, moves).Some?
             && Possible(setup, Played(setup, read, moves).value, CommitRejected(t, primary, body))
             && Played(setup, read, moves).value.txs[t] == read.txs[t]
    requires primary < |found| && found[primary] < |sys.a.db.intents|
    requires !FailedOn(setup, Then(setup, sys, ReadWindow(t, found)), moves, sys.a.db.intents[found[primary]].owner)
    ensures var db := Played(setup, Then(setup, sys, ReadWindow(t, found)), moves).value.a.db;
            !MayProceed(db.keys, db.intents, sys.txs[t].req, sys.txs[t].start)
  {
    var read := Then(setup, sys, ReadWindow(t, found));
    var last := Played(setup, read, moves).value;
    RejectionIsStaleIff(setup, sys, t, found, moves, primary, body);
    VisitedIsReachable(setup, sys);
    ReadWindowKeepsSysInv(setup, sys, t, found);
    FreshWindowIsLive(setup, sys, t, found, primary);
    StretchVoids(setup, read, moves, found[primary]);
    assert IsOther(last, last.txs[t], found[primary]);
    assert !ClearedOn(setup, read, moves, sys.txs[t], found[primary]);
  }
}
