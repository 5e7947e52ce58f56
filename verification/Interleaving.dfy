/** Every interleaving of statements keeps the invariant, so what holds of the
    protocol of indivisible transactions holds of the statement-level one. */
module Interleaving {
  import opened Schema
  import opened Database
  import opened Protocol
  import opened Consistency
  import opened Statements
  import opened Refinement

  /** All open transactions of `sys'` were open in `sys`. */
  ghost predicate Fewer(sys: Sys, sys': Sys) {
    forall u | u in sys'.txs :: u in sys.txs && sys'.txs[u] == sys.txs[u]
  }

  lemma CommittedSysInv(sys: Sys, sys': Sys)
    requires SysInv(sys) && Fewer(sys, sys') && Consistent(sys'.a)
    requires forall i | 0 <= i < |sys'.a.db.intents| :: sys'.a.db.intents[i].id < sys'.nextId
    requires forall u | u in sys'.txs :: TxOk(sys', sys'.txs[u])
    ensures SysInv(sys')
  {
  }

  // ---------------------------------------------------------------------
  // Commits
  // ---------------------------------------------------------------------

  lemma AppendKeepsOther(sys: Sys, sys': Sys, x: Tx, y: Tx)
    requires |sys.a.db.intents| == |sys.a.db.notes| && |sys'.a.db.intents| == |sys'.a.db.notes|
    requires Appends(sys.a, sys'.a, x) && sys'.nextId == sys.nextId
    requires TxOk(sys, y) && Coexist(x, y)
    requires HoldsLock(y) ==> Elsewhere(sys.a.db, x, y)
    ensures TxOk(sys', y)
  {
    if y.ClaimTx? {
      AppendKeepsClaim(sys, sys', x, y);
    } else {
      AppendKeepsCompletion(sys, sys', x, y);
    }
  }

  lemma AppendKeepsOthers(sys: Sys, sys': Sys, t: nat)
    requires SysInv(sys) && t in sys.txs && Fewer(sys, sys') && t !in sys'.txs
    requires Appends(sys.a, sys'.a, sys.txs[t]) && sys'.nextId == sys.nextId && |sys'.a.db.intents| == |sys'.a.db.notes|
    ensures forall u | u in sys'.txs :: TxOk(sys', sys'.txs[u])
  {
    forall u | u in sys'.txs ensures TxOk(sys', sys'.txs[u]) {
      OtherSurvivesAppend(sys, sys', t, u);
    }
  }

  ghost predicate IdsOk(sys: Sys) {
    forall i | 0 <= i < |sys.a.db.intents| :: sys.a.db.intents[i].id < sys.nextId
  }

  lemma AppendKeepsIds(sys: Sys, sys': Sys, x: Tx)
    requires IdsOk(sys) && Appends(sys.a, sys'.a, x) && x.phase.id < sys.nextId == sys'.nextId
    ensures IdsOk(sys')
  {
  }

  lemma OtherSurvivesAppend(sys: Sys, sys': Sys, t: nat, u: nat)
    requires SysInv(sys) && t in sys.txs && u in sys.txs && u != t
    requires Appends(sys.a, sys'.a, sys.txs[t]) && sys'.nextId == sys.nextId && |sys'.a.db.intents| == |sys'.a.db.notes|
    ensures TxOk(sys', sys.txs[u])
  {
    assert TxOk(sys, sys.txs[u]) && Coexist(sys.txs[t], sys.txs[u]);
    if HoldsLock(sys.txs[u]) {
      LockedResourcesDiffer(sys, t, u);
    }
    AppendKeepsOther(sys, sys', sys.txs[t], sys.txs[u]);
  }

  lemma ClaimedAppends(setup: Setup, sys: Sys, t: nat)
    requires SysInv(sys) && Possible(setup, sys, CommitClaimed(t))
    ensures Appends(sys.a, Then(setup, sys, CommitClaimed(t)).a, sys.txs[t])
  {
    assert TxOk(sys, sys.txs[t]);
  }

  lemma RejectedAppends(setup: Setup, sys: Sys, t: nat, primary: nat, body: Json)
    requires SysInv(sys) && Possible(setup, sys, CommitRejected(t, primary, body))
    ensures Appends(sys.a, Then(setup, sys, CommitRejected(t, primary, body)).a, sys.txs[t])
  {
    assert TxOk(sys, sys.txs[t]);
  }

  /** Telling one author leaves the others' business alone. */
  lemma ToldKeepsAuthor(a: State, author: Author, y: Tx)
    requires y.CompleteTx? && AuthorOk(a, y) && y.author != author
    ensures AuthorOk(Told(a, author), y)
  {
  }

  lemma CompletionSettles(a: State, x: Tx)
    requires x.CompleteTx? && !x.writing.Opened?
    requires CanComplete(a.db, x.owner, x.status, x.placement, PickOf(x))
    ensures Settles(a, a.(db := Completed(a.db, x.owner, x.status, x.placement, x.start, PickOf(x))), x)
  {
  }

  lemma OutcomeSettles(setup: Setup, sys: Sys, t: nat, acked: bool)
    requires SysInv(sys) && Possible(setup, sys, CommitComplete(t, acked))
    ensures sys.txs[t].owner in sys.a.db.keys
    ensures Settles(sys.a, Then(setup, sys, CommitComplete(t, acked)).a, sys.txs[t])
  {
    OutcomeIsCompletion(setup, sys, t, acked);
    CompletionSettles(sys.a, sys.txs[t]);
    assert Heard(PublishedOutcome(sys.a, sys.txs[t]), sys.txs[t].author, acked).db == PublishedOutcome(sys.a, sys.txs[t]).db;
  }

  lemma CompletionKeepsOther(sys: Sys, sys': Sys, x: Tx, y: Tx, acked: bool)
    requires |sys.a.db.intents| == |sys.a.db.notes| && |sys'.a.db.intents| == |sys'.a.db.notes|
    requires Settles(sys.a, sys'.a, x) && sys'.nextId == sys.nextId
    requires x.owner in sys.a.db.keys && sys'.a == Heard(PublishedOutcome(sys.a, x), x.author, acked)
    requires TxOk(sys, y) && Coexist(x, y)
    ensures TxOk(sys', y)
  {
    if y.ClaimTx? {
      SettlingKeepsClaim(sys, sys', x, y);
    } else {
      assert AuthorOk(PublishedOutcome(sys.a, x), y);
      ToldKeepsAuthor(PublishedOutcome(sys.a, x), x.author, y);
      SettlingKeepsCompletion(sys, sys', x, y);
    }
  }

  lemma CompletionKeepsOthers(setup: Setup, sys: Sys, t: nat, acked: bool)
    requires SysInv(sys) && Possible(setup, sys, CommitComplete(t, acked))
    requires var sys' := Then(setup, sys, CommitComplete(t, acked)); |sys'.a.db.intents| == |sys'.a.db.notes|
    ensures var sys' := Then(setup, sys, CommitComplete(t, acked)); forall u | u in sys'.txs :: TxOk(sys', sys'.txs[u])
  {
    var sys' := Then(setup, sys, CommitComplete(t, acked));
    var x := sys.txs[t];
    OutcomeSettles(setup, sys, t, acked);
    forall u | u in sys'.txs ensures TxOk(sys', sys'.txs[u]) {
      assert TxOk(sys, sys.txs[u]) && Coexist(x, sys.txs[u]);
      CompletionKeepsOther(sys, sys', x, sys.txs[u], acked);
    }
  }

  lemma CompletionKeepsIds(setup: Setup, sys: Sys, t: nat, acked: bool)
    requires SysInv(sys) && Possible(setup, sys, CommitComplete(t, acked))
    ensures var sys' := Then(setup, sys, CommitComplete(t, acked));
            forall i | 0 <= i < |sys'.a.db.intents| :: sys'.a.db.intents[i].id < sys'.nextId
  {
    var sys' := Then(setup, sys, CommitComplete(t, acked));
    OutcomeSettles(setup, sys, t, acked);
    forall i | 0 <= i < |sys'.a.db.intents| ensures sys'.a.db.intents[i].id < sys'.nextId {
      assert VoidedAtMost(sys.a.db, sys'.a.db, i, sys.txs[t].owner);
    }
  }

  /** The committed part stays sound whatever the move. */
  lemma MoveKeepsConsistent(setup: Setup, sys: Sys, move: Move)
    requires setup.premises.retained && SysInv(sys) && Possible(setup, sys, move)
    ensures Consistent(Then(setup, sys, move).a)
  {
    MoveRefines(setup, sys, move);
    var image := Image(setup, sys, move);
    if image.Some? {
      StepKeepsConsistent(setup, sys.a, image.value);
    }
  }

  lemma ClaimedKeepsSysInv(setup: Setup, sys: Sys, t: nat)
    requires setup.premises.retained && SysInv(sys) && Possible(setup, sys, CommitClaimed(t))
    ensures SysInv(Then(setup, sys, CommitClaimed(t)))
  {
    var sys' := Then(setup, sys, CommitClaimed(t));
    MoveKeepsConsistent(setup, sys, CommitClaimed(t));
    ClaimedAppends(setup, sys, t);
    AppendKeepsOthers(sys, sys', t);
    assert TxOk(sys, sys.txs[t]);
    AppendKeepsIds(sys, sys', sys.txs[t]);
    CommittedSysInv(sys, sys');
  }

  lemma RejectedKeepsSysInv(setup: Setup, sys: Sys, t: nat, primary: nat, body: Json)
    requires setup.premises.retained && SysInv(sys) && Possible(setup, sys, CommitRejected(t, primary, body))
    ensures SysInv(Then(setup, sys, CommitRejected(t, primary, body)))
  {
    var sys' := Then(setup, sys, CommitRejected(t, primary, body));
    MoveKeepsConsistent(setup, sys, CommitRejected(t, primary, body));
    RejectedAppends(setup, sys, t, primary, body);
    AppendKeepsOthers(sys, sys', t);
    assert TxOk(sys, sys.txs[t]);
    AppendKeepsIds(sys, sys', sys.txs[t]);
    CommittedSysInv(sys, sys');
  }

  lemma CompletionKeepsSysInv(setup: Setup, sys: Sys, t: nat, acked: bool)
    requires setup.premises.retained && SysInv(sys) && Possible(setup, sys, CommitComplete(t, acked))
    ensures SysInv(Then(setup, sys, CommitComplete(t, acked)))
  {
    var sys' := Then(setup, sys, CommitComplete(t, acked));
    MoveKeepsConsistent(setup, sys, CommitComplete(t, acked));
    CompletionKeepsIds(setup, sys, t, acked);
    CompletionKeepsOthers(setup, sys, t, acked);
    CommittedSysInv(sys, sys');
  }

  // ---------------------------------------------------------------------
  // Moves that commit nothing
  // ---------------------------------------------------------------------

  /** Steps of the environment leave the tables and the authors alone. */
  lemma EnvKeepsAuthor(setup: Setup, sys: Sys, step: Step, y: Tx)
    requires IsEnv(sys, step) && Enabled(setup, sys.a, step)
    requires y.CompleteTx? && AuthorOk(sys.a, y)
    requires exists u :: u in sys.txs && sys.txs[u] == y
    ensures AuthorOk(Next(setup, sys.a, step), y)
  {
    match y.author
    case Executor(i) =>
    case Sweeper(j) =>
  }

  lemma EnvKeepsTables(setup: Setup, sys: Sys, step: Step)
    requires setup.premises.retained && IsEnv(sys, step) && Enabled(setup, sys.a, step)
    ensures Next(setup, sys.a, step).db == sys.a.db && sys.a.clock <= Next(setup, sys.a, step).clock
  {
  }

  lemma EnvKeepsSysInv(setup: Setup, sys: Sys, step: Step)
    requires setup.premises.retained && SysInv(sys) && Possible(setup, sys, Env(step))
    ensures SysInv(Then(setup, sys, Env(step)))
  {
    var sys' := Then(setup, sys, Env(step));
    MoveKeepsConsistent(setup, sys, Env(step));
    EnvKeepsTables(setup, sys, step);
    forall u | u in sys'.txs ensures TxOk(sys', sys'.txs[u]) {
      assert TxOk(sys, sys.txs[u]);
      if sys.txs[u].CompleteTx? {
        EnvKeepsAuthor(setup, sys, step, sys.txs[u]);
      }
      Unmoved(sys, sys', sys.txs[u]);
    }
    CommittedSysInv(sys, sys');
  }

  /** The transaction `t` moves on (or opens), nothing else does. */
  lemma AdvanceKeepsSysInv(sys: Sys, sys': Sys, t: nat, tx: Tx)
    requires SysInv(sys) && sys'.a == sys.a && sys.nextId <= sys'.nextId
    requires sys'.txs == sys.txs[t := tx] && TxOk(sys', tx)
    requires forall u | u in sys.txs && u != t :: Coexist(tx, sys.txs[u]) && Coexist(sys.txs[u], tx)
    ensures SysInv(sys')
  {
    forall u | u in sys'.txs ensures TxOk(sys', sys'.txs[u]) {
      if u != t {
        assert TxOk(sys, sys.txs[u]);
        Unmoved(sys, sys', sys.txs[u]);
      }
    }
  }

  lemma EndKeepsSysInv(sys: Sys, t: nat)
    requires SysInv(sys)
    ensures SysInv(Ended(sys, t))
  {
    var sys' := Ended(sys, t);
    forall u | u in sys'.txs ensures TxOk(sys', sys'.txs[u]) {
      assert TxOk(sys, sys.txs[u]);
      Unmoved(sys, sys', sys.txs[u]);
    }
    CommittedSysInv(sys, sys');
  }

  /** The window query sees nothing of the reader's own key: not the intent it
      just recorded, and no earlier attempt. */
  lemma WindowReadIsOk(setup: Setup, sys: Sys, t: nat, found: seq<nat>)
    requires SysInv(sys) && Possible(setup, sys, ReadWindow(t, found))
    ensures WindowOk(sys.a.db, sys.txs[t], found, sys.a.db.events)
  {
    var tx, db := sys.txs[t], sys.a.db;
    assert TxOk(sys, tx);
    FreshKeyHasNoLiveIntent(db, tx.req, tx.start);
    var visible := db.intents + [OwnIntent(tx, tx.phase.id, None)];
    forall k | 0 <= k < |found|
      ensures found[k] < |db.intents| && Live(db.intents[found[k]]) && Clashes(db.intents[found[k]], tx.req, tx.start)
    {
      assert found[k] in found && visible[found[k]].id != tx.phase.id;
    }
    forall k | 0 <= k < |found| ensures db.notes[found[k]].verdict.Won? {
      assert JustlyLost(db, found[k]);
    }
    forall i | 0 <= i < |db.intents| && Live(db.intents[i]) && Clashes(db.intents[i], tx.req, tx.start)
      ensures i in found
    {
      assert visible[i] == db.intents[i];
    }
  }

  lemma TakeLockKeepsSysInv(setup: Setup, sys: Sys, t: nat)
    requires SysInv(sys) && Possible(setup, sys, TakeLock(t))
    ensures SysInv(Then(setup, sys, TakeLock(t)))
  {
    var sys' := Then(setup, sys, TakeLock(t));
    assert TxOk(sys, sys.txs[t]);
    forall u | u in sys.txs && u != t
      ensures Coexist(sys'.txs[t], sys.txs[u]) && Coexist(sys.txs[u], sys'.txs[t])
    {
      assert Coexist(sys.txs[t], sys.txs[u]);
    }
    AdvanceKeepsSysInv(sys, sys', t, sys'.txs[t]);
  }

  lemma InsertKeepsSysInv(setup: Setup, sys: Sys, t: nat)
    requires SysInv(sys) && Possible(setup, sys, Insert(t))
    ensures SysInv(Then(setup, sys, Insert(t)))
  {
    var sys' := Then(setup, sys, Insert(t));
    assert TxOk(sys, sys.txs[t]);
    forall u | u in sys.txs && u != t
      ensures Coexist(sys'.txs[t], sys.txs[u]) && Coexist(sys.txs[u], sys'.txs[t])
    {
      assert Coexist(sys.txs[t], sys.txs[u]);
    }
    AdvanceKeepsSysInv(sys, sys', t, sys'.txs[t]);
  }

  lemma ReadKeyKeepsSysInv(setup: Setup, sys: Sys, t: nat)
    requires SysInv(sys) && Possible(setup, sys, ReadKey(t))
    ensures SysInv(Then(setup, sys, ReadKey(t)))
  {
    var sys' := Then(setup, sys, ReadKey(t));
    assert TxOk(sys, sys.txs[t]);
    if t in sys'.txs {
      forall u | u in sys.txs && u != t
        ensures Coexist(sys'.txs[t], sys.txs[u]) && Coexist(sys.txs[u], sys'.txs[t])
      {
        assert Coexist(sys.txs[t], sys.txs[u]);
      }
      AdvanceKeepsSysInv(sys, sys', t, sys'.txs[t]);
    } else {
      EndKeepsSysInv(sys, t);
    }
  }

  /** The re-claim never misses: between the read of the failed row and its
      update only a claim of the same request could change it, and that one
      would need the lock. */
  lemma ReclaimNeverMisses(setup: Setup, sys: Sys, t: nat)
    requires SysInv(sys) && Possible(setup, sys, Reclaim(t))
    ensures var tx := sys.txs[t];
            && ClaimKey(RowOf(sys.a.db.keys, tx.req.owner), tx.req, tx.start).Fresh?
            && Then(setup, sys, Reclaim(t))
            == Advance(sys, t, HasKey(ClaimKey(RowOf(sys.a.db.keys, tx.req.owner), tx.req, tx.start).row))
  {
    assert TxOk(sys, sys.txs[t]);
  }

  lemma ReclaimKeepsSysInv(setup: Setup, sys: Sys, t: nat)
    requires SysInv(sys) && Possible(setup, sys, Reclaim(t))
    ensures SysInv(Then(setup, sys, Reclaim(t)))
  {
    var sys' := Then(setup, sys, Reclaim(t));
    ReclaimNeverMisses(setup, sys, t);
    assert TxOk(sys, sys.txs[t]);
    forall u | u in sys.txs && u != t
      ensures Coexist(sys'.txs[t], sys.txs[u]) && Coexist(sys.txs[u], sys'.txs[t])
    {
      assert Coexist(sys.txs[t], sys.txs[u]);
    }
    AdvanceKeepsSysInv(sys, sys', t, sys'.txs[t]);
  }

  lemma RecordKeepsSysInv(setup: Setup, sys: Sys, t: nat)
    requires SysInv(sys) && Possible(setup, sys, RecordIntent(t))
    ensures SysInv(Then(setup, sys, RecordIntent(t)))
  {
    var sys' := Then(setup, sys, RecordIntent(t));
    assert TxOk(sys, sys.txs[t]);
    forall u | u in sys.txs && u != t
      ensures Coexist(sys'.txs[t], sys.txs[u]) && Coexist(sys.txs[u], sys'.txs[t])
    {
      assert Coexist(sys.txs[t], sys.txs[u]) && TxOk(sys, sys.txs[u]);
    }
    AdvanceKeepsSysInv(sys, sys', t, sys'.txs[t]);
  }

  lemma ReadWindowKeepsSysInv(setup: Setup, sys: Sys, t: nat, found: seq<nat>)
    requires SysInv(sys) && Possible(setup, sys, ReadWindow(t, found))
    ensures SysInv(Then(setup, sys, ReadWindow(t, found)))
  {
    var sys' := Then(setup, sys, ReadWindow(t, found));
    assert TxOk(sys, sys.txs[t]);
    WindowReadIsOk(setup, sys, t, found);
    assert WindowOk(sys'.a.db, sys'.txs[t], found, sys'.txs[t].phase.readAt);
    forall u | u in sys.txs && u != t
      ensures Coexist(sys'.txs[t], sys.txs[u]) && Coexist(sys.txs[u], sys'.txs[t])
    {
      assert Coexist(sys.txs[t], sys.txs[u]) && Coexist(sys.txs[u], sys.txs[t]);
    }
    AdvanceKeepsSysInv(sys, sys', t, sys'.txs[t]);
  }

  lemma ReadStatusesKeepsSysInv(setup: Setup, sys: Sys, t: nat)
    requires SysInv(sys) && Possible(setup, sys, ReadStatuses(t))
    ensures SysInv(Then(setup, sys, ReadStatuses(t)))
  {
    var sys' := Then(setup, sys, ReadStatuses(t));
    var found := sys.txs[t].phase.found;
    assert TxOk(sys, sys.txs[t]);
    if NonePending(sys, found) {
      assert WindowOk(sys'.a.db, sys'.txs[t], found, sys'.txs[t].phase.readAt);
      forall k | 0 <= k < |found| ensures !IsOther(sys', sys'.txs[t], found[k]) {
        assert !IsOther(sys, sys.txs[t], found[k]);
      }
      forall u | u in sys.txs && u != t
        ensures Coexist(sys'.txs[t], sys.txs[u]) && Coexist(sys.txs[u], sys'.txs[t])
      {
        assert Coexist(sys.txs[t], sys.txs[u]) && Coexist(sys.txs[u], sys.txs[t]);
      }
      AdvanceKeepsSysInv(sys, sys', t, sys'.txs[t]);
    } else {
      EndKeepsSysInv(sys, t);
    }
  }

  lemma BeginKeepsSysInv(setup: Setup, sys: Sys, move: Move)
    requires SysInv(sys) && Possible(setup, sys, move) && (move.BeginClaim? || move.BeginComplete?)
    ensures SysInv(Then(setup, sys, move))
  {
    var sys' := Then(setup, sys, move);
    AdvanceKeepsSysInv(sys, sys', move.t, sys'.txs[move.t]);
  }

  lemma WriteKeepsSysInv(setup: Setup, sys: Sys, move: Move)
    requires SysInv(sys) && Possible(setup, sys, move)
    requires move.PickIntent? || (move.UpdateKey? && InFlight(sys.a.db.keys, sys.txs[move.t].owner))
    ensures SysInv(Then(setup, sys, move))
  {
    var sys' := Then(setup, sys, move);
    assert TxOk(sys, sys.txs[move.t]);
    forall u | u in sys.txs && u != move.t
      ensures Coexist(sys'.txs[move.t], sys.txs[u]) && Coexist(sys.txs[u], sys'.txs[move.t])
    {
      assert Coexist(sys.txs[move.t], sys.txs[u]) && Coexist(sys.txs[u], sys.txs[move.t]);
    }
    AdvanceKeepsSysInv(sys, sys', move.t, sys'.txs[move.t]);
  }

  lemma MissKeepsSysInv(setup: Setup, sys: Sys, t: nat)
    requires setup.premises.retained && SysInv(sys) && Possible(setup, sys, UpdateKey(t))
    requires !InFlight(sys.a.db.keys, sys.txs[t].owner)
    ensures SysInv(Then(setup, sys, UpdateKey(t)))
  {
    var sys' := Then(setup, sys, UpdateKey(t));
    MoveKeepsConsistent(setup, sys, UpdateKey(t));
    forall u | u in sys'.txs ensures TxOk(sys', sys'.txs[u]) {
      assert TxOk(sys, sys.txs[u]) && Coexist(sys.txs[t], sys.txs[u]);
      if sys.txs[u].CompleteTx? {
        ToldKeepsAuthor(sys.a, sys.txs[t].author, sys.txs[u]);
      }
      Unmoved(sys, sys', sys.txs[u]);
    }
    CommittedSysInv(sys, sys');
  }

  ghost predicate IsReading(move: Move) {
    move.TakeLock? || move.Insert? || move.ReadKey? || move.Reclaim?
    || move.RecordIntent? || move.ReadWindow? || move.ReadStatuses?
  }

  lemma ReadingKeepsSysInv(setup: Setup, sys: Sys, move: Move)
    requires SysInv(sys) && Possible(setup, sys, move) && IsReading(move)
    ensures SysInv(Then(setup, sys, move))
  {
    match move
    case TakeLock(t) => TakeLockKeepsSysInv(setup, sys, t);
    case Insert(t) => InsertKeepsSysInv(setup, sys, t);
    case ReadKey(t) => ReadKeyKeepsSysInv(setup, sys, t);
    case Reclaim(t) => ReclaimKeepsSysInv(setup, sys, t);
    case RecordIntent(t) => RecordKeepsSysInv(setup, sys, t);
    case ReadWindow(t, found) => ReadWindowKeepsSysInv(setup, sys, t, found);
    case ReadStatuses(t) => ReadStatusesKeepsSysInv(setup, sys, t);
  }

  lemma CommitKeepsSysInv(setup: Setup, sys: Sys, move: Move)
    requires setup.premises.retained && SysInv(sys) && Possible(setup, sys, move)
    requires move.CommitClaimed? || move.CommitRejected? || move.CommitComplete?
    ensures SysInv(Then(setup, sys, move))
  {
    match move
    case CommitClaimed(t) => ClaimedKeepsSysInv(setup, sys, t);
    case CommitRejected(t, primary, body) => RejectedKeepsSysInv(setup, sys, t, primary, body);
    case CommitComplete(t, acked) => CompletionKeepsSysInv(setup, sys, t, acked);
  }

  lemma MoveKeepsSysInv(setup: Setup, sys: Sys, move: Move)
    requires setup.premises.retained && SysInv(sys) && Possible(setup, sys, move)
    ensures SysInv(Then(setup, sys, move))
  {
    if IsReading(move) {
      ReadingKeepsSysInv(setup, sys, move);
    } else if move.CommitClaimed? || move.CommitRejected? || move.CommitComplete? {
      CommitKeepsSysInv(setup, sys, move);
    } else {
      match move
      case Env(step) => EnvKeepsSysInv(setup, sys, step);
      case BeginClaim(_, _) => BeginKeepsSysInv(setup, sys, move);
      case BeginComplete(_, _) => BeginKeepsSysInv(setup, sys, move);
      case UpdateKey(t) =>
        if InFlight(sys.a.db.keys, sys.txs[t].owner) { WriteKeepsSysInv(setup, sys, move); }
        else { MissKeepsSysInv(setup, sys, t); }
      case PickIntent(_, _) => WriteKeepsSysInv(setup, sys, move);
      case Rollback(t) => EndKeepsSysInv(sys, t);
    }
  }
}
