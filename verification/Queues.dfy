/** Conflicting writes of one agent queue up: an enforced write goes ahead only once
    every earlier write of the same agent that it clashes with is settled for good. */
module Queues {
  import opened Conflict
  import opened Schema
  import opened Database
  import opened Protocol
  import opened Runs
  import opened Statements
  import opened Guarantees

  /** Two live writes of one agent on one resource, within the later one's window. */
  ghost predicate Meet(db: Db, i: nat, j: nat)
    requires i < j < |db.intents| == |db.notes|
  {
    var earlier, later := db.intents[i], db.intents[j];
    && Live(earlier) && Live(later)
    && earlier.resource == later.resource && earlier.owner.agent == later.owner.agent
    && later.emittedAt - earlier.emittedAt < db.notes[j].window
    && !Compatible(later.declared, earlier.declared)
  }

  ghost predicate Behind(db: Db, i: nat, j: nat)
    requires i < j < |db.intents| == |db.notes|
  {
    Meet(db, i, j) && db.notes[j].enforce ==>
      db.intents[i].owner in db.keys && Settled(db.keys[db.intents[i].owner].status)
  }

  ghost predicate Queued(db: Db) {
    && |db.intents| == |db.notes|
    && forall i, j | 0 <= i < j < |db.intents| :: Behind(db, i, j)
  }

  /** A live intent belongs to a key that is in flight or settled, and not rejected. */
  lemma LiveMeansOpenOrSettled(db: Db, i: nat)
    requires DbOk(db) && i < |db.intents| && Live(db.intents[i])
    ensures db.intents[i].owner in db.keys
    ensures InFlight(db.keys, db.intents[i].owner) || Settled(db.keys[db.intents[i].owner].status)
  {
    assert IntentOk(db, i);
    assert RowOk(db, db.intents[i].owner);
    NoneLive(db.intents, db.intents[i].owner);
  }

  /** The new intent of a claim is behind settled keys only. */
  lemma NewcomerIsBehind(db: Db, req: Request, start: Instant, id: nat, lockedAt: nat, call: nat, i: nat)
    requires DbOk(db) && CanClaim(db, req, start, id, lockedAt) && i < |db.intents| == |db.notes|
    ensures Behind(Claimed(db, req, start, id, lockedAt, call), i, |db.intents|)
  {
    var db' := Claimed(db, req, start, id, lockedAt, call);
    if Meet(db', i, |db.intents|) && req.enforce {
      LiveMeansOpenOrSettled(db, i);
      FreshKeyHasNoLiveIntent(db, req, start);
      assert Clashes(db.intents[i], req, start);
    }
  }

  lemma ClaimKeepsQueued(db: Db, req: Request, start: Instant, id: nat, lockedAt: nat, call: nat)
    requires DbOk(db) && Queued(db) && CanClaim(db, req, start, id, lockedAt)
    ensures Queued(Claimed(db, req, start, id, lockedAt, call))
  {
    var db' := Claimed(db, req, start, id, lockedAt, call);
    forall i, j | 0 <= i < j < |db'.intents| ensures Behind(db', i, j) {
      if j == |db.intents| {
        NewcomerIsBehind(db, req, start, id, lockedAt, call, i);
      } else {
        assert Behind(db, i, j);
      }
    }
  }

  /** A rejection adds no live intent. */
  lemma RejectKeepsQueued(db: Db, req: Request, start: Instant, id: nat, lockedAt: nat, blocker: nat, body: Json)
    requires DbOk(db) && Queued(db) && CanReject(db, req, start, id, lockedAt, blocker)
    ensures Queued(RejectedClaim(db, req, start, id, lockedAt, blocker, body))
  {
    var db' := RejectedClaim(db, req, start, id, lockedAt, blocker, body);
    forall i, j | 0 <= i < j < |db'.intents| ensures Behind(db', i, j) {
      if j < |db.intents| {
        assert Behind(db, i, j);
      }
    }
  }

  lemma CompleteKeepsQueued(db: Db, owner: KeyId, status: Status, placement: Placement, at: Instant, pick: Option<nat>)
    requires Queued(db) && CanComplete(db, owner, status, placement, pick)
    ensures Queued(Completed(db, owner, status, placement, at, pick))
  {
    var db' := Completed(db, owner, status, placement, at, pick);
    forall i, j | 0 <= i < j < |db'.intents| ensures Behind(db', i, j) {
      assert Behind(db, i, j);
    }
  }

  lemma StepKeepsQueued(setup: Setup, s: State, step: Step)
    requires setup.premises.retained && Consistent(s) && Queued(s.db) && Enabled(setup, s, step)
    ensures Queued(Next(setup, s, step).db)
  {
    match step
    case Claim(req, start, id, lockedAt) => ClaimKeepsQueued(s.db, req, start, id, lockedAt, |s.calls|);
    case Reject(req, start, id, lockedAt, blocker, body) =>
      RejectKeepsQueued(s.db, req, start, id, lockedAt, blocker, body);
    case Complete(i, at, pick, _) =>
      var c := s.calls[i];
      CompleteKeepsQueued(s.db, c.owner, c.exec.status, c.exec.placement, at, pick);
    case Resolve(j, at, pick) =>
      var sweep := s.sweeps[j];
      CompleteKeepsQueued(s.db, sweep.todo[0], sweep.stage.status, sweep.stage.placement, at, pick);
    case _ =>
  }

  lemma {:induction false} RunKeepsQueued(setup: Setup, s: State, steps: seq<Step>)
    requires setup.premises.retained && Consistent(s) && Queued(s.db) && After(setup, s, steps).Some?
    ensures Queued(After(setup, s, steps).value.db)
  {
    if steps != [] {
      var front := steps[..|steps| - 1];
      RunKeepsQueued(setup, s, front);
      AfterKeepsConsistent(setup, s, front);
      StepKeepsQueued(setup, After(setup, s, front).value, steps[|steps| - 1]);
    }
  }

  /** Under every interleaving: if an enforced write was let through although an earlier
      live write of the same agent clashes with it, that one is settled, and for good. */
  lemma SameAgentWritesQueue(setup: Setup, sys: Sys, i: nat, j: nat)
    requires setup.premises.retained && Visited(setup, sys) && i < j < |sys.a.db.intents|
    ensures |sys.a.db.intents| == |sys.a.db.notes|
    ensures var earlier, later, note := sys.a.db.intents[i], sys.a.db.intents[j], sys.a.db.notes[j];
            Live(earlier) && Live(later) && note.enforce
            && earlier.resource == later.resource && earlier.owner.agent == later.owner.agent
            && later.emittedAt - earlier.emittedAt < note.window
            && !Compatible(later.declared, earlier.declared)
            ==> earlier.owner in sys.a.db.keys && Settled(sys.a.db.keys[earlier.owner].status)
  {
    VisitedIsReachable(setup, sys);
    var init :| Init(init) && Leads(setup, init, sys.a);
    var steps :| After(setup, init, steps) == Some(sys.a);
    assert Consistent(init) && Queued(init.db);
    RunKeepsQueued(setup, init, steps);
    assert Behind(sys.a.db, i, j);
  }
}
