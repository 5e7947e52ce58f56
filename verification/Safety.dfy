/** Every step of the protocol keeps its invariant when all premises hold. */
module Safety {
  import opened Schema
  import opened Database
  import opened Protocol
  import opened Consistency
  import opened Guards

  // ---------------------------------------------------------------------
  // Requests belong to the current attempt
  // ---------------------------------------------------------------------

  /** The one call that a step touches. */
  lemma CallStepContains(setup: Setup, s: State, step: Step)
    requires setup.premises.All() && CallsContained(setup, s) && Enabled(setup, s, step) && IsCallStep(step)
    ensures Contained(setup, s.db, Next(setup, s, step).calls[step.call], s.clock)
  {
    assert Contained(setup, s.db, s.calls[step.call], s.clock);
  }

  lemma CallStepKeepsContained(setup: Setup, s: State, step: Step)
    requires setup.premises.All() && CallsContained(setup, s) && Enabled(setup, s, step) && IsCallStep(step)
    ensures CallsContained(setup, Next(setup, s, step))
  {
    var s' := Next(setup, s, step);
    CallStepContains(setup, s, step);
    forall j | 0 <= j < |s'.calls| ensures Contained(setup, s'.db, s'.calls[j], s'.clock) {
      assert j != step.call ==> s'.calls[j] == s.calls[j];
    }
  }

  lemma TickKeepsContained(setup: Setup, s: State, to: Instant)
    requires CallsContained(setup, s) && s.clock <= to
    ensures CallsContained(setup, s.(clock := to))
  {
    var s' := s.(clock := to);
    forall j | 0 <= j < |s'.calls| ensures Contained(setup, s'.db, s'.calls[j], s'.clock) {
      assert Contained(setup, s.db, s.calls[j], s.clock);
    }
  }

  /** No request of a key that may be claimed ran or can run. */
  lemma ClaimableKeyIsIdle(setup: Setup, s: State, req: Request, start: Instant)
    requires CallsContained(setup, s) && Claims(s.db, req, start)
    ensures forall i | 0 <= i < |s.calls| && s.calls[i].owner == req.owner ::
              !CanRun(setup, s.calls[i], s.clock) && !s.calls[i].net.Ran?
  {
    forall i | 0 <= i < |s.calls| && s.calls[i].owner == req.owner
      ensures !CanRun(setup, s.calls[i], s.clock) && !s.calls[i].net.Ran?
    {
      assert Contained(setup, s.db, s.calls[i], s.clock);
    }
  }

  lemma ClaimKeepsContained(setup: Setup, s: State, step: Step)
    requires CallsContained(setup, s) && Enabled(setup, s, step) && (step.Claim? || step.Reject?)
    ensures CallsContained(setup, Next(setup, s, step))
  {
    var s' := Next(setup, s, step);
    ClaimableKeyIsIdle(setup, s, step.req, step.start);
    forall i | 0 <= i < |s'.calls| ensures Contained(setup, s'.db, s'.calls[i], s'.clock) {
      if i < |s.calls| {
        assert Contained(setup, s.db, s.calls[i], s.clock);
      }
    }
  }

  lemma CompleteKeepsContained(setup: Setup, s: State, step: Step)
    requires setup.premises.All() && Inv(setup, s) && Enabled(setup, s, step) && step.Complete?
    ensures CallsContained(setup, Next(setup, s, step))
  {
    var s' := Next(setup, s, step);
    var i := step.call;
    assert Fenced(setup, s.db, s.calls[i], s.clock) && Contained(setup, s.db, s.calls[i], s.clock);
    forall j | 0 <= j < |s'.calls| ensures Contained(setup, s'.db, s'.calls[j], s'.clock) {
      assert Contained(setup, s.db, s.calls[j], s.clock);
    }
  }

  /** Nothing of a key that has turned stale can run. */
  lemma StaleKeyCannotRun(setup: Setup, s: State, owner: KeyId, i: nat)
    requires Inv(setup, s) && IsStale(setup, s.db, owner, s.clock)
    requires i < |s.calls| && s.calls[i].owner == owner
    ensures !CanRun(setup, s.calls[i], s.clock)
  {
    assert Contained(setup, s.db, s.calls[i], s.clock);
    assert CallOk(s.db, s.calls, i);
  }

  lemma ResolveKeepsContained(setup: Setup, s: State, step: Step)
    requires Inv(setup, s) && Enabled(setup, s, step) && step.Resolve?
    ensures CallsContained(setup, Next(setup, s, step))
  {
    var s' := Next(setup, s, step);
    var owner := s.sweeps[step.sweep].todo[0];
    assert SweepOk(setup, s, step.sweep);
    assert IsStale(setup, s.db, owner, s.clock);
    forall i | 0 <= i < |s'.calls| ensures Contained(setup, s'.db, s'.calls[i], s'.clock) {
      assert Contained(setup, s.db, s.calls[i], s.clock);
      if s.calls[i].owner == owner {
        StaleKeyCannotRun(setup, s, owner, i);
        if s.calls[i].net.Ran? {
          assert s.ledger[s.calls[i].net.entry].owner == owner;
        }
      }
    }
  }

  lemma StepKeepsContained(setup: Setup, s: State, step: Step)
    requires setup.premises.All() && Inv(setup, s) && Enabled(setup, s, step)
    ensures CallsContained(setup, Next(setup, s, step))
  {
    if IsCallStep(step) {
      CallStepKeepsContained(setup, s, step);
    } else {
      match step
      case Claim(_, _, _, _) => ClaimKeepsContained(setup, s, step);
      case Reject(_, _, _, _, _, _) => ClaimKeepsContained(setup, s, step);
      case Complete(_, _, _, _) => CompleteKeepsContained(setup, s, step);
      case Resolve(_, _, _) => ResolveKeepsContained(setup, s, step);
      case Tick(to) => TickKeepsContained(setup, s, to);
      case _ =>
    }
  }

  // ---------------------------------------------------------------------
  // Sweeps condemn only what did not run
  // ---------------------------------------------------------------------

  lemma RunKeepsVerdicts(setup: Setup, s: State, i: nat)
    requires setup.premises.All() && Inv(setup, s) && Enabled(setup, s, Run(i))
    ensures VerdictsOk(Next(setup, s, Run(i)))
  {
    var s' := Next(setup, s, Run(i));
    forall j | 0 <= j < |s'.sweeps| && Condemned(s'.sweeps[j]) ensures !Ledgered(s', s'.sweeps[j].todo[0]) {
      var head := s.sweeps[j].todo[0];
      assert SweepOk(setup, s, j);
      assert IsStale(setup, s.db, head, s.clock);
      if s.calls[i].owner == head {
        StaleKeyCannotRun(setup, s, head, i);
      }
    }
  }

  /** A sweep's verdict was there before, or is what its probe just counted. */
  lemma VerdictIsOldOrProbed(setup: Setup, s: State, step: Step, j: nat)
    requires Enabled(setup, s, step)
    requires j < |Next(setup, s, step).sweeps| && Condemned(Next(setup, s, step).sweeps[j])
    ensures j < |s.sweeps| && s.sweeps[j].todo != [] && s.sweeps[j].todo[0] == Next(setup, s, step).sweeps[j].todo[0]
    ensures Condemned(s.sweeps[j]) || (step.Probe? && step.sweep == j && step.count == 0)
  {
  }

  lemma StepKeepsVerdicts(setup: Setup, s: State, step: Step)
    requires setup.premises.All() && Inv(setup, s) && Enabled(setup, s, step)
    ensures VerdictsOk(Next(setup, s, step))
  {
    if step.Run? {
      RunKeepsVerdicts(setup, s, step.call);
    } else {
      var s' := Next(setup, s, step);
      assert s'.ledger == s.ledger;
      forall j | 0 <= j < |s'.sweeps| && Condemned(s'.sweeps[j]) ensures !Ledgered(s', s'.sweeps[j].todo[0]) {
        VerdictIsOldOrProbed(setup, s, step, j);
        assert Ledgered(s', s.sweeps[j].todo[0]) == Ledgered(s, s.sweeps[j].todo[0]);
      }
    }
  }

  lemma StepKeepsInv(setup: Setup, s: State, step: Step)
    requires setup.premises.All() && Inv(setup, s) && Enabled(setup, s, step)
    ensures Inv(setup, Next(setup, s, step))
  {
    StepKeepsGuards(setup, s, step);
    StepKeepsContained(setup, s, step);
    StepKeepsVerdicts(setup, s, step);
  }
}
