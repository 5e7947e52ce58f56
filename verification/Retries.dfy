/** The ways out of the status failed. The documentation draws one, back to pending;
    a retry that clashes with another agent's live write takes another, straight
    to rejected. */
module Retries {
  import opened Schema
  import opened Database
  import opened Transactions
  import opened Claims
  import opened Protocol
  import opened Runs

  /** The request is a new attempt of a key that failed. */
  ghost predicate IsRetry(db: Db, req: Request) {
    req.owner in db.keys && db.keys[req.owner].hash == req.hash && db.keys[req.owner].status.Failed?
  }

  /** Conflicts are enforced, and another agent's live intent clashes. */
  ghost predicate Blocked(db: Db, req: Request, start: Instant) {
    && req.enforce
    && exists i | 0 <= i < |db.intents| ::
         Live(db.intents[i]) && Clashes(db.intents[i], req, start) && db.intents[i].owner.agent != req.owner.agent
  }

  /** A retry is let through, rejected or told to wait, and exactly when. */
  lemma RetryVerdict(db: Db, req: Request, start: Instant)
    requires IsRetry(db, req)
    ensures VerdictOn(db, req, start) == ClaimedNow <==> MayProceed(db.keys, db.intents, req, start)
    ensures VerdictOn(db, req, start) == RejectedNow <==> Blocked(db, req, start)
    ensures VerdictOn(db, req, start) == Serialize <==>
            !MayProceed(db.keys, db.intents, req, start) && !Blocked(db, req, start)
  {
    if Blocked(db, req, start) {
      var i :| 0 <= i < |db.intents| && Live(db.intents[i]) && Clashes(db.intents[i], req, start)
        && db.intents[i].owner.agent != req.owner.agent;
      assert !MayProceed(db.keys, db.intents, req, start);
    }
  }

  /** Whatever a retry commits, the failed row is pending afterwards if and only if
      the write may proceed, and rejected if and only if it is blocked. Either way
      it is one attempt further. */
  lemma RetryLeavesFailed(db: Db, req: Request, start: Instant, commit: Commit, call: nat)
    requires IsRetry(db, req)
    requires CanCommit(db, commit) && CommitFor(commit, req, start, VerdictOn(db, req, start), call)
    ensures req.owner in Committed(db, commit).keys
    ensures var row := Committed(db, commit).keys[req.owner];
            && (row.status.Pending? <==> MayProceed(db.keys, db.intents, req, start))
            && (row.status.Rejected? <==> Blocked(db, req, start))
            && row.attempts == db.keys[req.owner].attempts + 1
  {
    RetryVerdict(db, req, start);
  }

  /** No other step of any run moves a failed row. A rejection may rest on an intent
      that was live since the lock was taken and is not any more. */
  lemma FailedRowLeaves(setup: Setup, s: State, step: Step, owner: KeyId)
    requires setup.premises.retained && Enabled(setup, s, step)
    requires owner in s.db.keys && s.db.keys[owner].status.Failed?
    requires RowOf(Next(setup, s, step).db.keys, owner) != RowOf(s.db.keys, owner)
    ensures step.Claim? || step.Reject?
    ensures step.req.owner == owner && IsRetry(s.db, step.req)
    ensures var row := Next(setup, s, step).db.keys[owner];
            if step.Claim? then row.status.Pending? && MayProceed(s.db.keys, s.db.intents, step.req, step.start)
            else
              && row.status.Rejected? && step.req.enforce
              && Clashes(s.db.intents[step.blocker], step.req, step.start)
              && s.db.intents[step.blocker].owner.agent != owner.agent
              && LiveSince(s.db, step.blocker, step.lockedAt)
  {
  }

  // ---------------------------------------------------------------------
  // A run that goes from failed to rejected
  // ---------------------------------------------------------------------

  const RIVAL := KeyId("rival", "key")
  const RETRY := Write(AGENT).(enforce := true)

  ghost predicate HasFailed(s: State) {
    && s.clock == 0 && Numbered(s.db) && |s.db.intents| == 1 && s.db.intents[0].voidedAt.Some?
    && IsRetry(s.db, RETRY) && s.db.keys.Keys == {AGENT}
  }

  /** The voiding statement finds the only intent there is. */
  lemma FailureVoids(db: Db)
    requires Held(db, AGENT) && db.keys.Keys == {AGENT}
    requires |db.intents| == 1 && Live(db.intents[0]) && db.intents[0].owner == AGENT
    ensures CanComplete(db, AGENT, Failed, Placement(None, None), Some(0))
    ensures var db' := Completed(db, AGENT, Failed, Placement(None, None), 0, Some(0));
            && Numbered(db') && |db'.intents| == 1 && db'.intents[0].voidedAt.Some?
            && IsRetry(db', RETRY) && db'.keys.Keys == {AGENT}
  {
  }

  lemma ClaimFirst(setup: Setup) returns (s: State)
    ensures Orderly(setup, START, s) && Held(s.db, AGENT) && s.clock == 0 && s.db.keys.Keys == {AGENT}
    ensures |s.db.intents| == 1 && Live(s.db.intents[0]) && s.db.intents[0].owner == AGENT
    ensures |s.calls| == 1 && s.calls[0].owner == AGENT && s.calls[0].claimedAt == 0
    ensures s.calls[0].net.Unsent? && s.calls[0].exec.Working?
  {
    OrderlyRefl(setup, START);
    var step := Claim(Write(AGENT), 0, 0, 0);
    s := Next(setup, START, step);
    OrderlyStep(setup, START, START, step);
  }

  /** The first attempt fails before anything is sent. */
  lemma FirstAttemptFails(setup: Setup) returns (s: State)
    requires setup.stale >= 0
    ensures Orderly(setup, START, s) && HasFailed(s)
  {
    OrderlyRefl(setup, START);
    var s1 := ClaimFirst(setup);
    var s2 := DialFails(setup, START, s1, 0);
    var s3 := StoreFailure(setup, START, s2, 0);
    FailureVoids(s3.db);
    var complete := Complete(0, 0, Some(0), true);
    s := Next(setup, s3, complete);
    OrderlyStep(setup, START, s3, complete);
  }

  /** The retry is blocked by the rival's intent. */
  ghost predicate IsRivalled(s: State) {
    && s.clock == 0 && Numbered(s.db) && |s.db.intents| == 2 && s.db.intents[0].voidedAt.Some?
    && s.db.intents[1] == Intent(1, RIVAL, HASH.resource, RETRY.declared, 0, None)
    && s.db.notes[1].verdict.Won?
    && IsRetry(s.db, RETRY)
  }

  lemma RivalClaims(setup: Setup, s: State) returns (s': State)
    requires Orderly(setup, START, s) && HasFailed(s)
    ensures Orderly(setup, START, s') && IsRivalled(s')
  {
    var step := Claim(Write(RIVAL), 0, 1, s.db.events);
    s' := Next(setup, s, step);
    OrderlyStep(setup, START, s, step);
  }

  lemma RivalBlocks(s: State)
    requires IsRivalled(s)
    ensures Blocks(s, RETRY, [1], 0, 1)
  {
    var seen := Seen(s, RETRY, 2);
    assert seen[0] == s.db.intents[0] && seen[1] == s.db.intents[1] && seen[2].id == 2;
    assert Clashes(seen[1], RETRY, 0);
    assert IsWindowRead([1], seen, RETRY, 0, 2);
  }

  lemma RetryIsRejected(setup: Setup, s: State) returns (step: Step)
    requires IsRivalled(s)
    ensures step.Reject? && step.req == RETRY
    ensures Enabled(setup, s, step) && IsSerial(s, step)
  {
    RivalBlocks(s);
    step := Reject(RETRY, 0, 2, s.db.events, 1, "");
  }

  /** The first attempt of a write fails before anything is sent, another agent claims
      the same resource, and the enforced retry is rejected: the row goes from
      failed to rejected without being pending in between. */
  lemma RetryCanBeRejected(setup: Setup) returns (s: State, s': State)
    requires setup.stale >= 0
    ensures Orderly(setup, START, s) && Orderly(setup, s, s')
    ensures AGENT in s.db.keys && s.db.keys[AGENT].status.Failed?
    ensures AGENT in s'.db.keys && s'.db.keys[AGENT].status.Rejected?
    ensures s'.db.keys[AGENT].attempts == s.db.keys[AGENT].attempts + 1
  {
    var s1 := FirstAttemptFails(setup);
    s := RivalClaims(setup, s1);
    var step := RetryIsRejected(setup, s);
    s' := Next(setup, s, step);
    OrderlyRefl(setup, s);
    OrderlyStep(setup, s, s, step);
  }
}
