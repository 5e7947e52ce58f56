/** A run in which a claim is rejected that the whole check, run at once at its
    commit instant, would let through. */
module StaleRejection {
  import opened Conflict
  import opened Schema
  import opened Database
  import opened Manifest
  import opened Downstream
  import opened Protocol
  import opened Runs
  import opened Statements
  import opened Guarantees
  import opened Serial

  ghost function Windowed(s: State, n: nat, req: Request, found: seq<nat>): Tx {
    ClaimAt(s, req, HasWindow(InsertedRow(req, s.clock), n, found, s.db.events))
  }

  const INVOICE := Resource("invoice", "1")
  const FIRST := Request(KeyId("a", "1"), Hash("a", "set", "{}", INVOICE), Operation("replace", []), 1, true)
  const SECOND := Request(KeyId("b", "2"), Hash("b", "set", "{}", INVOICE), Operation("replace", []), 1, true)

  const ROW := KeyRow(FIRST.hash, INVOICE, Pending, None, None, 1, 0, None)
  const INTENT := Intent(0, FIRST.owner, INVOICE, FIRST.declared, 0, None)
  const TABLES := Db(map[FIRST.owner := ROW], [INTENT], [Note(1, 1, true, Won(0), 0, None)], 1)

  ghost function Working1(net: Net, exec: Exec): State {
    State(TABLES, [Call(0, FIRST.owner, FIRST.hash, 1, 0, net, exec)], [], map[], [], 0)
  }

  lemma ReachClaimed(setup: Setup)
    ensures Plays(setup, QUIET, Sys(Working1(Unsent, Working), map[], 1))
  {
    assert Played(setup, QUIET, []) == Some(QUIET);
    var step := Claim(FIRST, 0, 0, 0);
    assert QUIET == AtRest(START);
    StepIsPlayed(setup, QUIET, START, step);
    var after := Next(setup, START, step);
    assert after.db == TABLES;
    assert after.calls == Working1(Unsent, Working).calls;
  }

  const DOOMED := Stored(Failed, "", Placement(None, None))

  /** The first agent's write could not be sent, and its executor is about to
      record that. */
  lemma ReachUnrecorded(setup: Setup)
    requires setup.stale >= 0
    ensures Plays(setup, QUIET, Sys(Working1(Gone, DOOMED), map[], 1))
  {
    ReachClaimed(setup);
    var s2 := Sys(Working1(Unsent, Working), map[], 1);
    var answer := Env(Answer(0, ErrorClassification([], []), NotDialed));
    PlaysMove(setup, QUIET, s2, answer);
    var s3 := Then(setup, s2, answer);
    assert s3 == Sys(Working1(Gone, Knows(Failed, "")), map[], 1);
    PlaysMove(setup, QUIET, s3, Env(Place(0, true)));
    var s4 := Then(setup, s3, Env(Place(0, true)));
    assert s4 == Sys(Working1(Gone, DOOMED), map[], 1);
  }

  ghost function Completing(writing: Writing): Tx {
    CompleteTx(Executor(0), FIRST.owner, Failed, Placement(None, None), 0, writing)
  }

  /** The executor's completion begins while the second claim is open. */
  lemma CompletionOpens(setup: Setup, tx: Tx)
    requires tx.ClaimTx? && Plays(setup, QUIET, Sys(Working1(Gone, DOOMED), map[1 := tx], 2))
    ensures Plays(setup, QUIET, Sys(Working1(Gone, DOOMED), map[1 := tx, 2 := Completing(Opened)], 2))
  {
    var s0 := Sys(Working1(Gone, DOOMED), map[1 := tx], 2);
    PlaysMove(setup, QUIET, s0, BeginComplete(2, Executor(0)));
    assert Then(setup, s0, BeginComplete(2, Executor(0))).txs == map[1 := tx, 2 := Completing(Opened)];
  }

  lemma CompletionBegins(setup: Setup, tx: Tx)
    requires tx.ClaimTx? && KeyOf(tx) == SECOND.owner
    requires Plays(setup, QUIET, Sys(Working1(Gone, DOOMED), map[1 := tx], 2))
    ensures Plays(setup, QUIET, Sys(Working1(Gone, DOOMED), map[1 := tx, 2 := Completing(Updated)], 2))
  {
    CompletionOpens(setup, tx);
    var s1 := Sys(Working1(Gone, DOOMED), map[1 := tx, 2 := Completing(Opened)], 2);
    PlaysMove(setup, QUIET, s1, UpdateKey(2));
    assert Then(setup, s1, UpdateKey(2)).txs == map[1 := tx, 2 := Completing(Updated)];
  }

  lemma CompletionPicks(setup: Setup, tx: Tx)
    requires Plays(setup, QUIET, Sys(Working1(Gone, DOOMED), map[1 := tx, 2 := Completing(Updated)], 2))
    ensures Plays(setup, QUIET, Sys(Working1(Gone, DOOMED), map[1 := tx, 2 := Completing(Picked(Some(0)))], 2))
  {
    var s2 := Sys(Working1(Gone, DOOMED), map[1 := tx, 2 := Completing(Updated)], 2);
    assert IsLatestLive(TABLES.intents, FIRST.owner, 0);
    PlaysMove(setup, QUIET, s2, PickIntent(2, Some(0)));
    var s3 := Then(setup, s2, PickIntent(2, Some(0)));
    assert s3.txs == map[1 := tx, 2 := Completing(Picked(Some(0)))];
  }

  lemma CompletionCommits(setup: Setup, tx: Tx) returns (sys: Sys)
    requires setup.stale >= 0
    requires Plays(setup, QUIET, Sys(Working1(Gone, DOOMED), map[1 := tx, 2 := Completing(Picked(Some(0)))], 2))
    ensures Plays(setup, QUIET, sys) && sys.txs == map[1 := tx]
    ensures sys.a.db.intents == [INTENT.(voidedAt := Some(0))]
  {
    var s3 := Sys(Working1(Gone, DOOMED), map[1 := tx, 2 := Completing(Picked(Some(0)))], 2);
    PlaysMove(setup, QUIET, s3, CommitComplete(2, true));
    sys := Then(setup, s3, CommitComplete(2, true));
    assert sys.txs == map[1 := tx];
  }

  /** The intent that the second claim found in its window is voided before the
      claim commits, and the rejection stands all the same. */
  lemma RejectionCanBeStale(setup: Setup) returns (sys: Sys)
    requires setup.stale >= 0
    ensures Visited(setup, sys) && Possible(setup, sys, CommitRejected(1, 0, "{}"))
    ensures MayProceed(sys.a.db.keys, sys.a.db.intents, sys.txs[1].req, sys.txs[1].start)
  {
    ReachUnrecorded(setup);
    var s1 := Sys(Working1(Gone, DOOMED), map[], 1);
    SecondSeesFirst();
    ClaimReadsWindow(setup, QUIET, s1.a, 1, SECOND, 1, [0]);
    var tx := Windowed(s1.a, 1, SECOND, [0]);
    CompletionBegins(setup, tx);
    CompletionPicks(setup, tx);
    sys := CompletionCommits(setup, tx);
    assert IsOther(sys, tx, 0);
    assert Start(QUIET);
  }

  lemma SecondSeesFirst()
    ensures IsWindowRead([0], [INTENT, Intent(1, SECOND.owner, INVOICE, SECOND.declared, 0, None)], SECOND, 0, 1)
    ensures [INTENT] + [Intent(1, SECOND.owner, INVOICE, SECOND.declared, 0, None)]
         == [INTENT, Intent(1, SECOND.owner, INVOICE, SECOND.declared, 0, None)]
  {
    assert !Compatible(SECOND.declared, FIRST.declared);
  }
}
