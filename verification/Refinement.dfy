/** The statement-level protocol refines the protocol of indivisible transactions:
    every commit is a step that the whole check, run at once at the commit
    instant, allows as well. */
module Refinement {
  import opened Schema
  import opened Database
  import opened Protocol
  import opened Statements

  /** The indivisible step a move amounts to, if it changes anything committed. */
  ghost function Image(setup: Setup, sys: Sys, move: Move): Option<Step>
    requires Possible(setup, sys, move)
  {
    match move
    case Env(step) => Some(step)
    case CommitClaimed(t) =>
      var tx := sys.txs[t];
      Some(Claim(tx.req, tx.start, tx.phase.id, tx.lockedAt))
    case CommitRejected(t, primary, body) =>
      var tx := sys.txs[t];
      Some(Reject(tx.req, tx.start, tx.phase.id, tx.lockedAt, tx.phase.found[primary], body))
    case CommitComplete(t, acked) =>
      var tx := sys.txs[t];
      (match tx.author
       case Executor(i) => Some(Complete(i, tx.start, PickOf(tx), acked))
       case Sweeper(j) => Some(Resolve(j, tx.start, PickOf(tx))))
    case UpdateKey(t) =>
      var tx := sys.txs[t];
      if InFlight(sys.a.db.keys, tx.owner) then None
      else (match tx.author
            case Executor(i) => Some(CompleteMissed(i))
            case Sweeper(j) => Some(ResolveMissed(j)))
    case _ => None
  }

  ghost predicate Refines(setup: Setup, sys: Sys, move: Move)
    requires Possible(setup, sys, move)
  {
    var image := Image(setup, sys, move);
    var a' := Then(setup, sys, move).a;
    match image
    case None => a' == sys.a
    case Some(step) => Enabled(setup, sys.a, step) && a' == Next(setup, sys.a, step)
  }

  // ---------------------------------------------------------------------
  // Refinement of the single moves
  // ---------------------------------------------------------------------

  /** What was true of the rows in the window when they were read is enough for
      the whole check to pass now: completions that came in between only void
      intents and settle keys. */
  lemma WindowStillPasses(setup: Setup, sys: Sys, t: nat)
    requires SysInv(sys) && Possible(setup, sys, CommitClaimed(t))
    ensures MayProceed(sys.a.db.keys, sys.a.db.intents, sys.txs[t].req, sys.txs[t].start)
  {
    var tx := sys.txs[t];
    assert TxOk(sys, tx);
    forall i | 0 <= i < |sys.a.db.intents| && Live(sys.a.db.intents[i]) && Clashes(sys.a.db.intents[i], tx.req, tx.start)
      ensures !tx.req.enforce || (&& sys.a.db.intents[i].owner.agent == tx.req.owner.agent
                                  && !InFlight(sys.a.db.keys, sys.a.db.intents[i].owner))
    {
      assert i in tx.phase.found;
      if tx.phase.HasStatuses? {
        var k :| 0 <= k < |tx.phase.found| && tx.phase.found[k] == i;
        assert !IsOther(sys, tx, tx.phase.found[k]);
      }
    }
  }

  lemma ClaimedRefines(setup: Setup, sys: Sys, t: nat)
    requires SysInv(sys) && Possible(setup, sys, CommitClaimed(t))
    ensures Refines(setup, sys, CommitClaimed(t))
  {
    assert TxOk(sys, sys.txs[t]);
    WindowStillPasses(setup, sys, t);
  }

  lemma RejectedRefines(setup: Setup, sys: Sys, t: nat, primary: nat, body: Json)
    requires SysInv(sys) && Possible(setup, sys, CommitRejected(t, primary, body))
    ensures Refines(setup, sys, CommitRejected(t, primary, body))
  {
    assert TxOk(sys, sys.txs[t]);
  }

  /** The author of an open completion carries an outcome that may be recorded. */
  lemma AuthorsOutcome(sys: Sys, t: nat)
    requires SysInv(sys) && InWriting(sys, t)
    ensures IsOutcome(sys.txs[t].status) && PlacementOk(sys.txs[t].placement)
    ensures AuthorOk(sys.a, sys.txs[t]) && CompleteOk(sys, sys.txs[t])
  {
    var tx := sys.txs[t];
    assert TxOk(sys, tx);
    match tx.author
    case Executor(i) => assert ExecOk(sys.a.calls[i].exec);
    case Sweeper(j) => assert StageOk(sys.a.sweeps[j].stage);
  }

  ghost function PickOf(tx: Tx): Option<nat>
    requires tx.CompleteTx?
  {
    if tx.writing.Picked? then tx.writing.pick else None
  }

  lemma OutcomeIsCompletion(setup: Setup, sys: Sys, t: nat, acked: bool)
    requires SysInv(sys) && Possible(setup, sys, CommitComplete(t, acked))
    ensures var tx := sys.txs[t];
            && tx.owner in sys.a.db.keys
            && CanComplete(sys.a.db, tx.owner, tx.status, tx.placement, PickOf(tx))
            && PublishedOutcome(sys.a, tx)
            == sys.a.(db := Completed(sys.a.db, tx.owner, tx.status, tx.placement, tx.start, PickOf(tx)))
  {
    AuthorsOutcome(sys, t);
  }

  lemma ExecutorMayComplete(setup: Setup, sys: Sys, t: nat, acked: bool)
    requires SysInv(sys) && Possible(setup, sys, CommitComplete(t, acked)) && sys.txs[t].author.Executor?
    ensures Enabled(setup, sys.a, Complete(sys.txs[t].author.call, sys.txs[t].start, PickOf(sys.txs[t]), acked))
  {
    AuthorsOutcome(sys, t);
    OutcomeIsCompletion(setup, sys, t, acked);
  }

  lemma ExecutorRefines(setup: Setup, sys: Sys, t: nat, acked: bool)
    requires SysInv(sys) && Possible(setup, sys, CommitComplete(t, acked)) && sys.txs[t].author.Executor?
    ensures Refines(setup, sys, CommitComplete(t, acked))
  {
    ExecutorMayComplete(setup, sys, t, acked);
    AuthorsOutcome(sys, t);
    OutcomeIsCompletion(setup, sys, t, acked);
    var i := sys.txs[t].author.call;
    assert sys.a.calls[i := sys.a.calls[i].(net := sys.a.calls[i].net, exec := sys.a.calls[i].exec)] == sys.a.calls;
  }

  lemma SweeperMayResolve(setup: Setup, sys: Sys, t: nat, acked: bool)
    requires SysInv(sys) && Possible(setup, sys, CommitComplete(t, acked)) && sys.txs[t].author.Sweeper?
    ensures Enabled(setup, sys.a, Resolve(sys.txs[t].author.sweep, sys.txs[t].start, PickOf(sys.txs[t])))
  {
    AuthorsOutcome(sys, t);
    OutcomeIsCompletion(setup, sys, t, acked);
  }

  lemma SweeperRefines(setup: Setup, sys: Sys, t: nat, acked: bool)
    requires SysInv(sys) && Possible(setup, sys, CommitComplete(t, acked)) && sys.txs[t].author.Sweeper?
    ensures Refines(setup, sys, CommitComplete(t, acked))
  {
    SweeperMayResolve(setup, sys, t, acked);
    AuthorsOutcome(sys, t);
    OutcomeIsCompletion(setup, sys, t, acked);
  }

  lemma MissRefines(setup: Setup, sys: Sys, t: nat)
    requires SysInv(sys) && Possible(setup, sys, UpdateKey(t))
    ensures Refines(setup, sys, UpdateKey(t))
  {
    AuthorsOutcome(sys, t);
  }

  /** Moves that commit nothing, and steps of the environment. */
  lemma QuietRefines(setup: Setup, sys: Sys, move: Move)
    requires Possible(setup, sys, move)
    requires !move.CommitClaimed? && !move.CommitRejected? && !move.CommitComplete? && !move.UpdateKey?
    ensures Refines(setup, sys, move)
  {
  }

  lemma CompletionRefines(setup: Setup, sys: Sys, t: nat, acked: bool)
    requires SysInv(sys) && Possible(setup, sys, CommitComplete(t, acked))
    ensures Refines(setup, sys, CommitComplete(t, acked))
  {
    if sys.txs[t].author.Executor? {
      ExecutorRefines(setup, sys, t, acked);
    } else {
      SweeperRefines(setup, sys, t, acked);
    }
  }

  /** Every move is one indivisible step of the protocol, or none. */
  lemma MoveRefines(setup: Setup, sys: Sys, move: Move)
    requires SysInv(sys) && Possible(setup, sys, move)
    ensures Refines(setup, sys, move)
  {
    if move.CommitClaimed? {
      ClaimedRefines(setup, sys, move.t);
    } else if move.CommitRejected? {
      RejectedRefines(setup, sys, move.t, move.primary, move.body);
    } else if move.CommitComplete? {
      CompletionRefines(setup, sys, move.t, move.acked);
    } else if move.UpdateKey? {
      MissRefines(setup, sys, move.t);
    } else {
      QuietRefines(setup, sys, move);
    }
  }

  // ---------------------------------------------------------------------
  // Open transactions keep what they rely on
  // ---------------------------------------------------------------------

  /** Nothing committed changes, time passes. */
  lemma Unmoved(sys: Sys, sys': Sys, tx: Tx)
    requires |sys.a.db.intents| == |sys.a.db.notes| && TxOk(sys, tx)
    requires sys'.a.db == sys.a.db && sys.a.clock <= sys'.a.clock && sys.nextId <= sys'.nextId
    requires tx.CompleteTx? ==> AuthorOk(sys'.a, tx)
    ensures TxOk(sys', tx)
  {
    if tx.ClaimTx? && tx.phase.HasStatuses? {
      assert AllSame(sys', tx, tx.phase.found) by {
        forall k | 0 <= k < |tx.phase.found| ensures !IsOther(sys', tx, tx.phase.found[k]) {
          assert !IsOther(sys, tx, tx.phase.found[k]);
        }
      }
    }
  }

  /** The commit of the claim `x`, let through or rejected: one intent more, one
      row changed. */
  ghost predicate Appends(a: State, a': State, x: Tx) {
    && x.ClaimTx? && HoldsId(x.phase)
    && var db, db' := a.db, a'.db;
    && db'.keys.Keys == db.keys.Keys + {x.req.owner}
    && (forall k | k in db.keys && k != x.req.owner :: db'.keys[k] == db.keys[k])
    && |db'.intents| == |db.intents| + 1 && |db'.notes| == |db.notes| + 1
    && (forall i | 0 <= i < |db.intents| :: db'.intents[i] == db.intents[i])
    && (forall i | 0 <= i < |db.notes| :: db'.notes[i] == db.notes[i])
    && db'.intents[|db.intents|].id == x.phase.id
    && db'.intents[|db.intents|].owner == x.req.owner
    && db'.intents[|db.intents|].resource == x.req.Target()
    && db.events <= db'.events
    && a'.clock == a.clock
    && a'.sweeps == a.sweeps && a.calls <= a'.calls
  }

  /** `x` works on a key that has nothing to do with the resource `y` has locked. */
  ghost predicate Elsewhere(db: Db, x: Tx, y: Tx)
    requires x.ClaimTx? && y.ClaimTx?
  {
    && x.req.Target() != y.req.Target()
    && (forall i | 0 <= i < |db.intents| && db.intents[i].resource == y.req.Target() ::
          db.intents[i].owner != x.req.owner)
    && (y.phase.SawFailed? ==> y.req.owner != x.req.owner)
  }

  lemma LockedResourcesDiffer(sys: Sys, t: nat, u: nat)
    requires SysInv(sys) && t in sys.txs && u in sys.txs && t != u
    requires sys.txs[t].ClaimTx? && HoldsKey(sys.txs[t].phase) && HoldsLock(sys.txs[u])
    ensures Elsewhere(sys.a.db, sys.txs[t], sys.txs[u])
  {
    var x, y, db := sys.txs[t], sys.txs[u], sys.a.db;
    assert TxOk(sys, x) && TxOk(sys, y) && Coexist(x, y);
    forall i | 0 <= i < |db.intents| && db.intents[i].resource == y.req.Target()
      ensures db.intents[i].owner != x.req.owner
    {
      assert IntentOk(db, i);
      assert RowOk(db, db.intents[i].owner);
    }
  }

  lemma AppendKeepsWindow(a: State, a': State, x: Tx, y: Tx, found: seq<nat>, readAt: nat)
    requires |a.db.intents| == |a.db.notes| && Appends(a, a', x)
    requires y.ClaimTx? && WindowOk(a.db, y, found, readAt) && x.req.Target() != y.req.Target()
    ensures WindowOk(a'.db, y, found, readAt)
  {
  }

  lemma AppendKeepsClaim(sys: Sys, sys': Sys, x: Tx, y: Tx)
    requires |sys.a.db.intents| == |sys.a.db.notes| && Appends(sys.a, sys'.a, x) && sys'.nextId == sys.nextId
    requires y.ClaimTx? && ClaimOk(sys, y) && Coexist(x, y)
    requires HoldsLock(y) ==> Elsewhere(sys.a.db, x, y)
    ensures ClaimOk(sys', y)
  {
    if y.phase.HasWindow? || y.phase.HasStatuses? {
      AppendKeepsWindow(sys.a, sys'.a, x, y, y.phase.found, y.phase.readAt);
    }
    if y.phase.HasStatuses? {
      forall k | 0 <= k < |y.phase.found| ensures !IsOther(sys', y, y.phase.found[k]) {
        assert !IsOther(sys, y, y.phase.found[k]);
      }
    }
  }

  lemma AppendKeepsCompletion(sys: Sys, sys': Sys, x: Tx, y: Tx)
    requires Appends(sys.a, sys'.a, x)
    requires y.CompleteTx? && CompleteOk(sys, y) && Coexist(x, y)
    ensures CompleteOk(sys', y)
  {
    if y.writing.Picked? {
      assert KeyOf(x) != KeyOf(y);
    }
  }

  /** The commit of the completion `x`: its row settled, at most one of its intents
      voided by this very commit. */
  ghost predicate Settles(a: State, a': State, x: Tx) {
    && x.CompleteTx? && !x.writing.Opened?
    && var db, db' := a.db, a'.db;
    && InFlight(db.keys, x.owner)
    && db'.keys.Keys == db.keys.Keys
    && (forall k | k in db.keys && k != x.owner :: db'.keys[k] == db.keys[k])
    && !db'.keys[x.owner].status.Pending?
    && |db'.intents| == |db.intents| == |db'.notes| == |db.notes|
    && (forall i | 0 <= i < |db.intents| :: VoidedAtMost(db, db', i, x.owner))
    && db.events <= db'.events
    && a'.clock == a.clock
  }

  ghost predicate VoidedAtMost(db: Db, db': Db, i: nat, owner: KeyId)
    requires i < |db'.intents| == |db.intents| == |db'.notes| == |db.notes|
  {
    || (db'.intents[i] == db.intents[i] && db'.notes[i] == db.notes[i])
    || (&& db.intents[i].owner == owner && !Live(db'.intents[i])
        && db'.intents[i].(voidedAt := db.intents[i].voidedAt) == db.intents[i]
        && db'.notes[i].verdict == db.notes[i].verdict
        && db'.notes[i].voidEvent == Some(db.events))
  }

  lemma SettlingKeepsWindow(a: State, a': State, x: Tx, y: Tx, found: seq<nat>, readAt: nat)
    requires Settles(a, a', x)
    requires y.ClaimTx? && WindowOk(a.db, y, found, readAt)
    ensures WindowOk(a'.db, y, found, readAt)
  {
    var db, db' := a.db, a'.db;
    forall k | 0 <= k < |found|
      ensures Clashes(db'.intents[found[k]], y.req, y.start) && db'.intents[found[k]].owner != y.req.owner
      ensures db'.notes[found[k]].verdict.Won? && LiveSince(db', found[k], readAt)
    {
      assert VoidedAtMost(db, db', found[k], x.owner);
    }
    forall i | 0 <= i < |db'.intents| && Live(db'.intents[i]) && Clashes(db'.intents[i], y.req, y.start)
      ensures i in found
    {
      assert VoidedAtMost(db, db', i, x.owner);
    }
  }

  lemma SettlingKeepsClaim(sys: Sys, sys': Sys, x: Tx, y: Tx)
    requires |sys.a.db.intents| == |sys.a.db.notes| && Settles(sys.a, sys'.a, x) && sys'.nextId == sys.nextId
    requires y.ClaimTx? && ClaimOk(sys, y)
    ensures ClaimOk(sys', y)
  {
    if y.phase.HasWindow? || y.phase.HasStatuses? {
      SettlingKeepsWindow(sys.a, sys'.a, x, y, y.phase.found, y.phase.readAt);
    }
    var db, db' := sys.a.db, sys'.a.db;
    assert HoldsId(y.phase) ==> FreshId(db'.intents, y.phase.id) by {
      forall i | 0 <= i < |db'.intents| ensures db'.intents[i].id == db.intents[i].id {
        assert VoidedAtMost(db, db', i, x.owner);
      }
    }
    if y.phase.HasStatuses? {
      SettlingKeepsStatuses(sys, sys', x, y);
    }
  }

  lemma SettlingKeepsStatuses(sys: Sys, sys': Sys, x: Tx, y: Tx)
    requires |sys.a.db.intents| == |sys.a.db.notes| && Settles(sys.a, sys'.a, x)
    requires y.ClaimTx? && y.phase.HasStatuses? && ClaimOk(sys, y)
    ensures AllSame(sys', y, y.phase.found) && NonePending(sys', y.phase.found)
  {
    var found := y.phase.found;
    forall k | 0 <= k < |found|
      ensures !IsOther(sys', y, found[k])
      ensures !InFlight(sys'.a.db.keys, sys'.a.db.intents[found[k]].owner)
    {
      assert !IsOther(sys, y, found[k]);
      assert VoidedAtMost(sys.a.db, sys'.a.db, found[k], x.owner);
    }
  }

  lemma SettlingKeepsCompletion(sys: Sys, sys': Sys, x: Tx, y: Tx)
    requires Settles(sys.a, sys'.a, x)
    requires y.CompleteTx? && CompleteOk(sys, y) && Coexist(x, y) && AuthorOk(sys'.a, y)
    ensures CompleteOk(sys', y)
  {
    if y.writing.Picked? {
      assert KeyOf(x) != KeyOf(y);
      PickSurvives(sys.a.db, sys'.a.db, x.owner, y.owner, y.writing.pick);
    }
  }

  lemma PickSurvives(db: Db, db': Db, settled: KeyId, owner: KeyId, pick: Option<nat>)
    requires |db'.intents| == |db.intents| == |db'.notes| == |db.notes| && settled != owner
    requires forall i | 0 <= i < |db.intents| :: VoidedAtMost(db, db', i, settled)
    requires PickOk(db.intents, owner, Failed, pick)
    ensures PickOk(db'.intents, owner, Failed, pick)
  {
    forall i | 0 <= i < |db.intents| && (db.intents[i].owner == owner || db'.intents[i].owner == owner)
      ensures db'.intents[i] == db.intents[i]
    {
      assert VoidedAtMost(db, db', i, settled);
    }
  }
}
