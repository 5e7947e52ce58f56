/** Where the outcome of a key comes from: every outcome that a row shows, and every
    body that a replay answers, was read off a reply, counted by a probe, or decided by
    a rejection in the same run. */
module Causes {
  import opened Schema
  import opened Database
  import opened Downstream
  import opened Protocol
  import opened Guards
  import opened Runs
  import opened Lifecycle

  // ---------------------------------------------------------------------
  // Causes
  // ---------------------------------------------------------------------

  function AttemptsOf(db: Db, owner: KeyId): nat {
    if owner in db.keys then db.keys[owner].attempts else 0
  }

  /** The sweep is at work on this attempt of the key. */
  ghost predicate IsHead(s: State, j: nat, owner: KeyId, attempt: nat) {
    Busy(s, j) && s.sweeps[j].todo[0] == owner && AttemptsOf(s.db, owner) == attempt
  }

  /** The step settles what is to become of this attempt of the key. A reply counts as
      the lists of statuses read it. A probe means done exactly if it counted an
      execution, and failed otherwise; without a probe nothing is known. */
  ghost predicate IsCause(s: State, step: Step, owner: KeyId, attempt: nat, status: Status, body: Json) {
    match step
    case Answer(i, errors, reply) =>
      && i < |s.calls| && s.calls[i].owner == owner && s.calls[i].attempt == attempt
      && Reads(errors, reply, status) && body == Payload(reply)
    case Probe(j, count, found) =>
      && IsHead(s, j, owner, attempt)
      && if count > 0 then status.Done? && body == found else status.Failed? && body == ""
    case Escalate(j) =>
      IsHead(s, j, owner, attempt) && status.Indeterminate? && body == ""
    case Reject(req, _, _, _, _, rejection) =>
      req.owner == owner && attempt == AttemptsOf(s.db, owner) + 1 && status.Rejected? && body == rejection
    case _ => false
  }

  ghost predicate CausedAt(setup: Setup, init: State, steps: seq<Step>, k: nat, owner: KeyId, attempt: nat, status: Status, body: Json)
    requires k < |steps|
  {
    var s := After(setup, init, steps[..k]);
    s.Some? && IsCause(s.value, steps[k], owner, attempt, status, body)
  }

  ghost predicate Caused(setup: Setup, init: State, steps: seq<Step>, owner: KeyId, attempt: nat, status: Status, body: Json) {
    exists k | 0 <= k < |steps| :: CausedAt(setup, init, steps, k, owner, attempt, status, body)
  }

  lemma CauseStays(setup: Setup, init: State, steps: seq<Step>, step: Step, owner: KeyId, attempt: nat, status: Status, body: Json)
    requires Caused(setup, init, steps, owner, attempt, status, body)
    ensures Caused(setup, init, steps + [step], owner, attempt, status, body)
  {
    var k :| 0 <= k < |steps| && CausedAt(setup, init, steps, k, owner, attempt, status, body);
    assert (steps + [step])[..k] == steps[..k];
    assert CausedAt(setup, init, steps + [step], k, owner, attempt, status, body);
  }

  lemma CauseArises(setup: Setup, init: State, steps: seq<Step>, s: State, step: Step, owner: KeyId, attempt: nat, status: Status, body: Json)
    requires After(setup, init, steps) == Some(s) && IsCause(s, step, owner, attempt, status, body)
    ensures Caused(setup, init, steps + [step], owner, attempt, status, body)
  {
    assert (steps + [step])[..|steps|] == steps;
    assert CausedAt(setup, init, steps + [step], |steps|, owner, attempt, status, body);
  }

  // ---------------------------------------------------------------------
  // What executors and sweeps know has a cause
  // ---------------------------------------------------------------------

  ghost predicate HasOutcome(exec: Exec) {
    exec.Knows? || exec.Stored?
  }

  ghost predicate CallsCaused(setup: Setup, init: State, steps: seq<Step>, s: State) {
    forall i | 0 <= i < |s.calls| && HasOutcome(s.calls[i].exec) ::
      Caused(setup, init, steps, s.calls[i].owner, s.calls[i].attempt, s.calls[i].exec.status, s.calls[i].exec.body)
  }

  ghost predicate IsJudged(sweep: Sweep) {
    !sweep.stage.Idle? && sweep.todo != []
  }

  /** The verdict of a sweep has a cause, under the premises about recording one of the
      attempt that the key is on. */
  ghost predicate SweepCaused(setup: Setup, init: State, steps: seq<Step>, s: State, j: nat, attempt: nat)
    requires j < |s.sweeps| && IsJudged(s.sweeps[j])
  {
    var sweep := s.sweeps[j];
    && Caused(setup, init, steps, sweep.todo[0], attempt, sweep.stage.status, sweep.stage.body)
    && (setup.premises.Recording() ==> attempt == AttemptsOf(s.db, sweep.todo[0]))
  }

  ghost predicate SweepsCaused(setup: Setup, init: State, steps: seq<Step>, s: State) {
    forall j | 0 <= j < |s.sweeps| && IsJudged(s.sweeps[j]) ::
      exists attempt :: SweepCaused(setup, init, steps, s, j, attempt)
  }

  /** The outcome of a call was there before, or is what its reply just said. */
  lemma OutcomeIsOldOrRead(setup: Setup, s: State, step: Step, i: nat)
    requires Enabled(setup, s, step)
    requires i < |Next(setup, s, step).calls| && HasOutcome(Next(setup, s, step).calls[i].exec)
    ensures i < |s.calls|
    ensures var c, c' := s.calls[i], Next(setup, s, step).calls[i];
            && c'.owner == c.owner && c'.attempt == c.attempt
            && ((HasOutcome(c.exec) && c'.exec.status == c.exec.status && c'.exec.body == c.exec.body)
                || (step.Answer? && step.call == i && c'.exec == Knows(Reading(step.errors, step.reply), Classify(step.errors, step.reply).result)))
  {
  }

  lemma StepKeepsCallsCaused(setup: Setup, init: State, steps: seq<Step>, s: State, step: Step)
    requires After(setup, init, steps) == Some(s) && Enabled(setup, s, step) && CallsCaused(setup, init, steps, s)
    ensures CallsCaused(setup, init, steps + [step], Next(setup, s, step))
  {
    var s' := Next(setup, s, step);
    forall i | 0 <= i < |s'.calls| && HasOutcome(s'.calls[i].exec)
      ensures Caused(setup, init, steps + [step], s'.calls[i].owner, s'.calls[i].attempt, s'.calls[i].exec.status, s'.calls[i].exec.body)
    {
      OutcomeIsOldOrRead(setup, s, step, i);
      var c := s.calls[i];
      if step.Answer? && step.call == i {
        ClassifiedAsRead(step.errors, step.reply);
        CauseArises(setup, init, steps, s, step, c.owner, c.attempt, Reading(step.errors, step.reply), Payload(step.reply));
      } else {
        CauseStays(setup, init, steps, step, c.owner, c.attempt, c.exec.status, c.exec.body);
      }
    }
  }

  /** The verdict of a sweep was there before, or is what it just came to. */
  lemma VerdictIsOldOrNew(setup: Setup, s: State, step: Step, j: nat)
    requires Enabled(setup, s, step)
    requires j < |Next(setup, s, step).sweeps| && IsJudged(Next(setup, s, step).sweeps[j])
    ensures Busy(s, j) && Next(setup, s, step).sweeps[j].todo == s.sweeps[j].todo
    ensures var stage, stage' := s.sweeps[j].stage, Next(setup, s, step).sweeps[j].stage;
            || (IsJudged(s.sweeps[j]) && stage'.status == stage.status && stage'.body == stage.body)
            || ((step.Probe? || step.Escalate?) && step.sweep == j)
  {
  }

  /** What a sweep comes to is what its probe, or the lack of one, means. */
  lemma VerdictHasCause(setup: Setup, s: State, step: Step)
    requires Enabled(setup, s, step) && (step.Probe? || step.Escalate?)
    ensures var owner := s.sweeps[step.sweep].todo[0];
            var stage := Next(setup, s, step).sweeps[step.sweep].stage;
            IsCause(s, step, owner, AttemptsOf(s.db, owner), stage.status, stage.body)
  {
  }

  /** While a sweep is at work on a key, the key is on the same attempt. */
  lemma SweptKeyKeepsAttempts(setup: Setup, s: State, step: Step, j: nat)
    requires setup.premises.Recording() && Guarded(setup, s) && Enabled(setup, s, step) && Busy(s, j)
    ensures AttemptsOf(Next(setup, s, step).db, s.sweeps[j].todo[0]) == AttemptsOf(s.db, s.sweeps[j].todo[0])
  {
    var owner := s.sweeps[j].todo[0];
    assert SweepOk(setup, s, j);
    assert IsStale(setup, s.db, owner, s.clock);
    StepEvolvesRows(setup, s, step, owner);
  }

  lemma StepKeepsSweepCaused(setup: Setup, init: State, steps: seq<Step>, s: State, step: Step, j: nat) returns (attempt: nat)
    requires After(setup, init, steps) == Some(s) && Enabled(setup, s, step) && SweepsCaused(setup, init, steps, s)
    requires setup.premises.Recording() ==> Guarded(setup, s)
    requires j < |Next(setup, s, step).sweeps| && IsJudged(Next(setup, s, step).sweeps[j])
    ensures SweepCaused(setup, init, steps + [step], Next(setup, s, step), j, attempt)
  {
    VerdictIsOldOrNew(setup, s, step, j);
    var owner := s.sweeps[j].todo[0];
    if setup.premises.Recording() {
      SweptKeyKeepsAttempts(setup, s, step, j);
    }
    if (step.Probe? || step.Escalate?) && step.sweep == j {
      var stage := Next(setup, s, step).sweeps[j].stage;
      attempt := AttemptsOf(s.db, owner);
      VerdictHasCause(setup, s, step);
      CauseArises(setup, init, steps, s, step, owner, attempt, stage.status, stage.body);
    } else {
      attempt :| SweepCaused(setup, init, steps, s, j, attempt);
      CauseStays(setup, init, steps, step, owner, attempt, s.sweeps[j].stage.status, s.sweeps[j].stage.body);
    }
  }

  lemma StepKeepsSweepsCaused(setup: Setup, init: State, steps: seq<Step>, s: State, step: Step)
    requires After(setup, init, steps) == Some(s) && Enabled(setup, s, step) && SweepsCaused(setup, init, steps, s)
    requires setup.premises.Recording() ==> Guarded(setup, s)
    ensures SweepsCaused(setup, init, steps + [step], Next(setup, s, step))
  {
    var s' := Next(setup, s, step);
    forall j | 0 <= j < |s'.sweeps| && IsJudged(s'.sweeps[j])
      ensures exists attempt :: SweepCaused(setup, init, steps + [step], s', j, attempt)
    {
      var attempt := StepKeepsSweepCaused(setup, init, steps, s, step, j);
    }
  }

  // ---------------------------------------------------------------------
  // What rows show has a cause
  // ---------------------------------------------------------------------

  /** What keeps replays stable, as an invariant. */
  ghost predicate ReplayOk(setup: Setup, s: State) {
    if setup.layout.configured then Sound(setup, s) else AllInline(s)
  }

  lemma StepKeepsReplayOk(setup: Setup, s: State, step: Step)
    requires KeepsReplays(setup) && ReplayOk(setup, s) && Enabled(setup, s, step)
    ensures ReplayOk(setup, Next(setup, s, step))
  {
    if setup.layout.configured {
      StepKeepsGuards(setup, s, step);
      StepKeepsStore(setup, s, step);
    } else {
      StepKeepsRowsInline(setup, s, step);
      StepKeepsOutcomesInline(setup, s, step);
    }
  }

  /** The row shows what the cause says; if replays are kept, a replay answers the
      cause's body; under the premises about recording it is a cause of the row's own
      attempt. */
  ghost predicate RowCaused(setup: Setup, init: State, steps: seq<Step>, s: State, owner: KeyId, attempt: nat, body: Json)
    requires owner in s.db.keys
  {
    var row := s.db.keys[owner];
    && Caused(setup, init, steps, owner, attempt, row.status, body)
    && (KeepsReplays(setup) && Settled(row.status) ==> Replay(setup, s, owner) == Some(body))
    && (setup.premises.Recording() ==> attempt == row.attempts)
  }

  ghost predicate RowsCaused(setup: Setup, init: State, steps: seq<Step>, s: State) {
    forall owner | owner in s.db.keys && !s.db.keys[owner].status.Pending? ::
      exists attempt, body :: RowCaused(setup, init, steps, s, owner, attempt, body)
  }

  ghost predicate InvOk(setup: Setup, s: State) {
    && (setup.premises.Recording() ==> Guarded(setup, s))
    && (KeepsReplays(setup) ==> ReplayOk(setup, s))
  }

  /** An inline row replays the same wherever it is. */
  lemma InlineRowReplays(setup: Setup, s: State, s': State, owner: KeyId)
    requires owner in s.db.keys && s.db.keys[owner].ref.None?
    requires RowOf(s'.db.keys, owner) == RowOf(s.db.keys, owner)
    ensures Replay(setup, s', owner) == Replay(setup, s, owner)
  {
  }

  /** A row that a step leaves as it is replays as before. */
  lemma UnchangedRowReplays(setup: Setup, s: State, step: Step, owner: KeyId)
    requires KeepsReplays(setup) && ReplayOk(setup, s) && Enabled(setup, s, step)
    requires owner in s.db.keys && Settled(s.db.keys[owner].status)
    requires RowOf(Next(setup, s, step).db.keys, owner) == RowOf(s.db.keys, owner)
    ensures Replay(setup, Next(setup, s, step), owner) == Replay(setup, s, owner)
  {
    if setup.layout.configured {
      StepKeepsReplay(setup, s, step, owner);
    } else {
      InlineRowReplays(setup, s, Next(setup, s, step), owner);
    }
  }

  /** Which step wrote a row that changed and is not pending. */
  lemma WrittenBy(setup: Setup, s: State, step: Step, owner: KeyId)
    requires Enabled(setup, s, step) && owner in Next(setup, s, step).db.keys
    requires RowOf(Next(setup, s, step).db.keys, owner) != RowOf(s.db.keys, owner)
    requires !Next(setup, s, step).db.keys[owner].status.Pending?
    ensures var row := Next(setup, s, step).db.keys[owner];
            match step
            case Reject(req, _, _, _, _, _) =>
              req.owner == owner && row.status.Rejected? && row.attempts == AttemptsOf(s.db, owner) + 1
            case Complete(i, _, _, _) =>
              s.calls[i].owner == owner && row.status == s.calls[i].exec.status && row.attempts == AttemptsOf(s.db, owner)
            case Resolve(j, _, _) =>
              s.sweeps[j].todo[0] == owner && row.status == s.sweeps[j].stage.status && row.attempts == AttemptsOf(s.db, owner)
            case _ => false
  {
  }

  lemma CompletedRowReplays(setup: Setup, s: State, step: Step)
    requires KeepsReplays(setup) && ReplayOk(setup, s) && Enabled(setup, s, step) && step.Complete?
    ensures Replay(setup, Next(setup, s, step), s.calls[step.call].owner) == Some(s.calls[step.call].exec.body)
  {
    if setup.layout.configured {
      CompletedRowStored(setup, s, step);
    } else {
      assert IsInline(s.calls[step.call].exec.placement, s.calls[step.call].exec.body);
    }
  }

  lemma ResolvedRowReplays(setup: Setup, s: State, step: Step)
    requires KeepsReplays(setup) && ReplayOk(setup, s) && Enabled(setup, s, step) && step.Resolve?
    ensures Replay(setup, Next(setup, s, step), s.sweeps[step.sweep].todo[0]) == Some(s.sweeps[step.sweep].stage.body)
  {
    if setup.layout.configured {
      ResolvedRowStored(setup, s, step);
    } else {
      assert IsInline(s.sweeps[step.sweep].stage.placement, s.sweeps[step.sweep].stage.body);
    }
  }

  /** An executor that may record does so for the attempt that the key is on. */
  lemma RecorderIsCurrent(setup: Setup, s: State, step: Step)
    requires setup.premises.Recording() && Guarded(setup, s) && Enabled(setup, s, step) && step.Complete?
    ensures s.calls[step.call].attempt == AttemptsOf(s.db, s.calls[step.call].owner)
  {
    assert Fenced(setup, s.db, s.calls[step.call], s.clock);
  }

  lemma RejectedRowCaused(setup: Setup, init: State, steps: seq<Step>, s: State, step: Step, owner: KeyId)
    returns (attempt: nat, body: Json)
    requires After(setup, init, steps) == Some(s) && Enabled(setup, s, step) && step.Reject? && step.req.owner == owner
    ensures owner in Next(setup, s, step).db.keys
    ensures RowCaused(setup, init, steps + [step], Next(setup, s, step), owner, attempt, body)
  {
    attempt, body := AttemptsOf(s.db, owner) + 1, step.body;
    RejectionIsReplayed(setup, s, step);
    CauseArises(setup, init, steps, s, step, owner, attempt, Rejected, body);
  }

  lemma CompletedRowCaused(setup: Setup, init: State, steps: seq<Step>, s: State, step: Step)
    returns (attempt: nat, body: Json)
    requires After(setup, init, steps) == Some(s) && Enabled(setup, s, step) && step.Complete?
    requires CallsCaused(setup, init, steps, s) && InvOk(setup, s)
    ensures s.calls[step.call].owner in Next(setup, s, step).db.keys
    ensures RowCaused(setup, init, steps + [step], Next(setup, s, step), s.calls[step.call].owner, attempt, body)
  {
    var c := s.calls[step.call];
    attempt, body := c.attempt, c.exec.body;
    CauseStays(setup, init, steps, step, c.owner, attempt, c.exec.status, body);
    if setup.premises.Recording() {
      RecorderIsCurrent(setup, s, step);
    }
    if KeepsReplays(setup) {
      CompletedRowReplays(setup, s, step);
    }
  }

  lemma ResolvedRowCaused(setup: Setup, init: State, steps: seq<Step>, s: State, step: Step)
    returns (attempt: nat, body: Json)
    requires After(setup, init, steps) == Some(s) && Enabled(setup, s, step) && step.Resolve?
    requires SweepsCaused(setup, init, steps, s) && InvOk(setup, s)
    ensures s.sweeps[step.sweep].todo[0] in Next(setup, s, step).db.keys
    ensures RowCaused(setup, init, steps + [step], Next(setup, s, step), s.sweeps[step.sweep].todo[0], attempt, body)
  {
    var sweep := s.sweeps[step.sweep];
    body := sweep.stage.body;
    attempt :| SweepCaused(setup, init, steps, s, step.sweep, attempt);
    CauseStays(setup, init, steps, step, sweep.todo[0], attempt, sweep.stage.status, body);
    if KeepsReplays(setup) {
      ResolvedRowReplays(setup, s, step);
    }
  }

  lemma OldRowCaused(setup: Setup, init: State, steps: seq<Step>, s: State, step: Step, owner: KeyId)
    returns (attempt: nat, body: Json)
    requires After(setup, init, steps) == Some(s) && Enabled(setup, s, step) && RowsCaused(setup, init, steps, s) && InvOk(setup, s)
    requires owner in s.db.keys && !s.db.keys[owner].status.Pending?
    requires RowOf(Next(setup, s, step).db.keys, owner) == RowOf(s.db.keys, owner)
    ensures owner in Next(setup, s, step).db.keys
    ensures RowCaused(setup, init, steps + [step], Next(setup, s, step), owner, attempt, body)
  {
    attempt, body :| RowCaused(setup, init, steps, s, owner, attempt, body);
    CauseStays(setup, init, steps, step, owner, attempt, s.db.keys[owner].status, body);
    if KeepsReplays(setup) && Settled(s.db.keys[owner].status) {
      UnchangedRowReplays(setup, s, step, owner);
    }
  }

  lemma StepKeepsRowCaused(setup: Setup, init: State, steps: seq<Step>, s: State, step: Step, owner: KeyId)
    returns (attempt: nat, body: Json)
    requires After(setup, init, steps) == Some(s) && Enabled(setup, s, step) && InvOk(setup, s)
    requires CallsCaused(setup, init, steps, s) && SweepsCaused(setup, init, steps, s) && RowsCaused(setup, init, steps, s)
    requires owner in Next(setup, s, step).db.keys && !Next(setup, s, step).db.keys[owner].status.Pending?
    ensures RowCaused(setup, init, steps + [step], Next(setup, s, step), owner, attempt, body)
  {
    if RowOf(Next(setup, s, step).db.keys, owner) == RowOf(s.db.keys, owner) {
      attempt, body := OldRowCaused(setup, init, steps, s, step, owner);
    } else {
      WrittenBy(setup, s, step, owner);
      if step.Reject? {
        attempt, body := RejectedRowCaused(setup, init, steps, s, step, owner);
      } else if step.Complete? {
        attempt, body := CompletedRowCaused(setup, init, steps, s, step);
      } else {
        attempt, body := ResolvedRowCaused(setup, init, steps, s, step);
      }
    }
  }

  lemma StepKeepsRowsCaused(setup: Setup, init: State, steps: seq<Step>, s: State, step: Step)
    requires After(setup, init, steps) == Some(s) && Enabled(setup, s, step) && InvOk(setup, s)
    requires CallsCaused(setup, init, steps, s) && SweepsCaused(setup, init, steps, s) && RowsCaused(setup, init, steps, s)
    ensures RowsCaused(setup, init, steps + [step], Next(setup, s, step))
  {
    var s' := Next(setup, s, step);
    forall owner | owner in s'.db.keys && !s'.db.keys[owner].status.Pending?
      ensures exists attempt, body :: RowCaused(setup, init, steps + [step], s', owner, attempt, body)
    {
      var attempt, body := StepKeepsRowCaused(setup, init, steps, s, step, owner);
    }
  }

  // ---------------------------------------------------------------------
  // Whole runs
  // ---------------------------------------------------------------------

  ghost predicate AllCaused(setup: Setup, init: State, steps: seq<Step>, s: State) {
    && InvOk(setup, s)
    && CallsCaused(setup, init, steps, s) && SweepsCaused(setup, init, steps, s) && RowsCaused(setup, init, steps, s)
  }

  lemma StepKeepsInvOk(setup: Setup, s: State, step: Step)
    requires InvOk(setup, s) && Enabled(setup, s, step)
    ensures InvOk(setup, Next(setup, s, step))
  {
    if setup.premises.Recording() {
      StepKeepsGuards(setup, s, step);
    }
    if KeepsReplays(setup) {
      StepKeepsReplayOk(setup, s, step);
    }
  }

  lemma InitIsCaused(setup: Setup, init: State)
    requires Init(init)
    ensures AllCaused(setup, init, [], init)
  {
  }

  lemma StepKeepsAllCaused(setup: Setup, init: State, steps: seq<Step>, s: State, step: Step)
    requires After(setup, init, steps) == Some(s) && Enabled(setup, s, step) && AllCaused(setup, init, steps, s)
    ensures AllCaused(setup, init, steps + [step], Next(setup, s, step))
  {
    StepKeepsInvOk(setup, s, step);
    StepKeepsCallsCaused(setup, init, steps, s, step);
    StepKeepsSweepsCaused(setup, init, steps, s, step);
    StepKeepsRowsCaused(setup, init, steps, s, step);
  }

  lemma {:induction false} RunIsCaused(setup: Setup, init: State, steps: seq<Step>)
    requires Init(init) && After(setup, init, steps).Some?
    ensures AllCaused(setup, init, steps, After(setup, init, steps).value)
  {
    if steps == [] {
      InitIsCaused(setup, init);
    } else {
      var front, step := steps[..|steps| - 1], steps[|steps| - 1];
      RunIsCaused(setup, init, front);
      assert steps == front + [step];
      StepKeepsAllCaused(setup, init, front, After(setup, init, front).value, step);
    }
  }

  /** In every run, whatever the premises: a row that is done, failed, indeterminate or
      rejected has a cause in the run that says so. Where replays are kept, a replay of a
      settled row answers the body of that cause. Under the premises about recording the
      cause belongs to the row's own attempt. */
  lemma OutcomesHaveCauses(setup: Setup, init: State, steps: seq<Step>, owner: KeyId) returns (attempt: nat, body: Json)
    requires Init(init) && After(setup, init, steps).Some?
    requires var s := After(setup, init, steps).value; owner in s.db.keys && !s.db.keys[owner].status.Pending?
    ensures var s := After(setup, init, steps).value;
            var row := s.db.keys[owner];
            && Caused(setup, init, steps, owner, attempt, row.status, body)
            && (KeepsReplays(setup) && Settled(row.status) ==> Replay(setup, s, owner) == Some(body))
            && (setup.premises.Recording() ==> attempt == row.attempts)
  {
    RunIsCaused(setup, init, steps);
    attempt, body :| RowCaused(setup, init, steps, After(setup, init, steps).value, owner, attempt, body);
  }
}
