/** Every step keeps tables, calls and ledger in agreement as long as rows are
    retained, whatever is late, lost or untrue. */
module Consistency {
  import opened Schema
  import opened Database
  import opened Protocol

  /** Calls keep their identity. */
  ghost predicate SameCalls(calls: seq<Call>, calls': seq<Call>) {
    && |calls'| == |calls|
    && forall i | 0 <= i < |calls| ::
         calls'[i] == calls[i].(net := calls'[i].net, exec := calls'[i].exec)
  }

  lemma SameCallsKeepCallsOk(db: Db, calls: seq<Call>, calls': seq<Call>)
    requires CallsOk(db, calls) && SameCalls(calls, calls')
    ensures CallsOk(db, calls')
  {
    forall i | 0 <= i < |calls'| ensures CallOk(db, calls', i) {
      assert CallOk(db, calls, i);
    }
  }

  // ---------------------------------------------------------------------
  // Calls stay attached to their claims
  // ---------------------------------------------------------------------

  lemma ClaimKeepsCalls(setup: Setup, s: State, step: Step)
    requires CallsOk(s.db, s.calls) && DbOk(s.db) && Enabled(setup, s, step) && step.Claim?
    ensures CallsOk(Next(setup, s, step).db, Next(setup, s, step).calls)
  {
    var s' := Next(setup, s, step);
    forall i | 0 <= i < |s'.calls| ensures CallOk(s'.db, s'.calls, i) {
      if i < |s.calls| {
        assert CallOk(s.db, s.calls, i);
      }
    }
    forall i, j | 0 <= i < j < |s'.calls| && s'.calls[i].owner == s'.calls[j].owner
      ensures s'.calls[i].attempt != s'.calls[j].attempt
    {
      assert CallOk(s.db, s.calls, i);
    }
  }

  lemma RejectKeepsCalls(setup: Setup, s: State, step: Step)
    requires CallsOk(s.db, s.calls) && DbOk(s.db) && Enabled(setup, s, step) && step.Reject?
    ensures CallsOk(Next(setup, s, step).db, s.calls)
  {
    var s' := Next(setup, s, step);
    forall i | 0 <= i < |s.calls| ensures CallOk(s'.db, s.calls, i) {
      assert CallOk(s.db, s.calls, i);
    }
  }

  /** A completion leaves the calls attached to their claims. */
  lemma CompletionKeepsCalls(db: Db, calls: seq<Call>, owner: KeyId, status: Status, placement: Placement,
                             at: Instant, pick: Option<nat>)
    requires CallsOk(db, calls) && CanComplete(db, owner, status, placement, pick)
    ensures CallsOk(Completed(db, owner, status, placement, at, pick), calls)
  {
    var db' := Completed(db, owner, status, placement, at, pick);
    forall i | 0 <= i < |calls| ensures CallOk(db', calls, i) {
      assert CallOk(db, calls, i);
    }
  }

  // ---------------------------------------------------------------------
  // Outcomes
  // ---------------------------------------------------------------------

  ghost predicate IsCallStep(step: Step) {
    step.Send? || step.Run? || step.Answer? || step.Place? || step.CompleteMissed? || step.GiveUp?
  }

  ghost predicate IsSweepStep(step: Step) {
    step.Probe? || step.Escalate? || step.Keep? || step.ResolveMissed? || step.Skip? || step.SweepCrash?
  }

  lemma CallStepOutcome(setup: Setup, s: State, step: Step)
    requires OutcomesOk(s) && Enabled(setup, s, step) && IsCallStep(step)
    ensures ExecOk(Next(setup, s, step).calls[step.call].exec)
  {
    assert ExecOk(s.calls[step.call].exec);
  }

  lemma CallStepKeepsOutcomes(setup: Setup, s: State, step: Step)
    requires OutcomesOk(s) && Enabled(setup, s, step) && IsCallStep(step)
    ensures OutcomesOk(Next(setup, s, step))
  {
    CallStepOutcome(setup, s, step);
    var s' := Next(setup, s, step);
    forall i | 0 <= i < |s'.calls| ensures ExecOk(s'.calls[i].exec) {
      assert i != step.call ==> s'.calls[i] == s.calls[i];
    }
  }

  lemma SweepStepOutcome(setup: Setup, s: State, step: Step)
    requires OutcomesOk(s) && Enabled(setup, s, step) && IsSweepStep(step)
    ensures StageOk(Next(setup, s, step).sweeps[step.sweep].stage)
  {
    assert StageOk(s.sweeps[step.sweep].stage);
  }

  lemma SweepStepKeepsOutcomes(setup: Setup, s: State, step: Step)
    requires OutcomesOk(s) && Enabled(setup, s, step) && IsSweepStep(step)
    ensures OutcomesOk(Next(setup, s, step))
  {
    SweepStepOutcome(setup, s, step);
    var s' := Next(setup, s, step);
    forall j | 0 <= j < |s'.sweeps| ensures StageOk(s'.sweeps[j].stage) {
      assert j != step.sweep ==> s'.sweeps[j] == s.sweeps[j];
    }
  }

  // ---------------------------------------------------------------------
  // The steps
  // ---------------------------------------------------------------------

  lemma CallStepKeepsLedger(setup: Setup, s: State, step: Step)
    requires LedgerOk(s.calls, s.ledger) && Enabled(setup, s, step) && IsCallStep(step) && !step.Run?
    ensures LedgerOk(Next(setup, s, step).calls, Next(setup, s, step).ledger)
  {
    var s' := Next(setup, s, step);
    var i := step.call;
    assert s'.ledger == s.ledger && (s.calls[i].net.Ran? ==> s'.calls[i].net == s.calls[i].net);
    assert s'.calls[i].net.Ran? ==> s.calls[i].net == s'.calls[i].net;
  }

  lemma RunKeepsLedger(setup: Setup, s: State, i: nat)
    requires LedgerOk(s.calls, s.ledger) && Enabled(setup, s, Run(i))
    ensures LedgerOk(Next(setup, s, Run(i)).calls, Next(setup, s, Run(i)).ledger)
  {
  }

  lemma CallStepKeepsConsistent(setup: Setup, s: State, step: Step)
    requires Consistent(s) && Enabled(setup, s, step) && IsCallStep(step)
    ensures Consistent(Next(setup, s, step))
  {
    var s' := Next(setup, s, step);
    SameCallsKeepCallsOk(s.db, s.calls, s'.calls);
    CallStepKeepsOutcomes(setup, s, step);
    if step.Run? {
      RunKeepsLedger(setup, s, step.call);
    } else {
      CallStepKeepsLedger(setup, s, step);
    }
  }

  lemma SweepStepKeepsConsistent(setup: Setup, s: State, step: Step)
    requires Consistent(s) && Enabled(setup, s, step) && IsSweepStep(step)
    ensures Consistent(Next(setup, s, step))
  {
    SweepStepKeepsOutcomes(setup, s, step);
  }

  lemma ClaimKeepsConsistent(setup: Setup, s: State, step: Step)
    requires Consistent(s) && Enabled(setup, s, step) && step.Claim?
    ensures Consistent(Next(setup, s, step))
  {
    ClaimKeepsDb(s.db, step.req, step.start, step.id, step.lockedAt, |s.calls|);
    ClaimKeepsCalls(setup, s, step);
  }

  lemma RejectKeepsConsistent(setup: Setup, s: State, step: Step)
    requires Consistent(s) && Enabled(setup, s, step) && step.Reject?
    ensures Consistent(Next(setup, s, step))
  {
    RejectKeepsDb(s.db, step.req, step.start, step.id, step.lockedAt, step.blocker, step.body);
    RejectKeepsCalls(setup, s, step);
  }

  lemma CompleteKeepsConsistent(setup: Setup, s: State, step: Step)
    requires Consistent(s) && Enabled(setup, s, step) && step.Complete?
    ensures Consistent(Next(setup, s, step))
  {
    var s' := Next(setup, s, step);
    var c := s.calls[step.call];
    CompleteKeepsDb(s.db, c.owner, c.exec.status, c.exec.placement, step.at, step.pick);
    CompletionKeepsCalls(s.db, s.calls, c.owner, c.exec.status, c.exec.placement, step.at, step.pick);
    SameCallsKeepCallsOk(s'.db, s.calls, s'.calls);
  }

  lemma ResolveKeepsConsistent(setup: Setup, s: State, step: Step)
    requires Consistent(s) && Enabled(setup, s, step) && step.Resolve?
    ensures Consistent(Next(setup, s, step))
  {
    var owner, stage := s.sweeps[step.sweep].todo[0], s.sweeps[step.sweep].stage;
    CompleteKeepsDb(s.db, owner, stage.status, stage.placement, step.at, step.pick);
    CompletionKeepsCalls(s.db, s.calls, owner, stage.status, stage.placement, step.at, step.pick);
  }

  /** Retention is the only premise needed. */
  lemma StepKeepsConsistent(setup: Setup, s: State, step: Step)
    requires setup.premises.retained && Consistent(s) && Enabled(setup, s, step)
    ensures Consistent(Next(setup, s, step))
  {
    if IsCallStep(step) {
      CallStepKeepsConsistent(setup, s, step);
    } else if IsSweepStep(step) {
      SweepStepKeepsConsistent(setup, s, step);
    } else {
      match step
      case Claim(_, _, _, _) => ClaimKeepsConsistent(setup, s, step);
      case Reject(_, _, _, _, _, _) => RejectKeepsConsistent(setup, s, step);
      case Complete(_, _, _, _) => CompleteKeepsConsistent(setup, s, step);
      case Resolve(_, _, _) => ResolveKeepsConsistent(setup, s, step);
      case Select(_, _) =>
      case Tick(_) =>
    }
  }
}
