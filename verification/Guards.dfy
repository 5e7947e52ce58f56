/** Every step of the protocol keeps the guards on recording: at most one process
    may record for a key, and only while the key is in flight. Of the premises
    only those about recording are needed; what runs downstream, and what is
    reported about it, does not matter. */
module Guards {
  import opened Schema
  import opened Database
  import opened Protocol
  import opened Consistency

  // ---------------------------------------------------------------------
  // Steps that touch one call
  // ---------------------------------------------------------------------

  lemma CallStepKeepsFences(setup: Setup, s: State, step: Step)
    requires FencesOk(setup, s) && Enabled(setup, s, step) && IsCallStep(step)
    ensures FencesOk(setup, Next(setup, s, step))
  {
    var s' := Next(setup, s, step);
    forall j | 0 <= j < |s'.calls| ensures Fenced(setup, s'.db, s'.calls[j], s'.clock) {
      assert Fenced(setup, s.db, s.calls[j], s.clock);
    }
  }

  lemma CallStepKeepsSweeps(setup: Setup, s: State, step: Step)
    requires SweepsOk(setup, s) && Enabled(setup, s, step) && IsCallStep(step)
    ensures SweepsOk(setup, Next(setup, s, step))
  {
    UntouchedSweeps(setup, s, Next(setup, s, step));
  }

  /** Sweeps do not notice a step that leaves the rows they hold alone. */
  lemma UntouchedSweeps(setup: Setup, s: State, s': State)
    requires SweepsOk(setup, s)
    requires s'.sweeps == s.sweeps && s'.clock == s.clock
    requires forall j, k | 0 <= j < |s.sweeps| && 0 <= k < |s.sweeps[j].todo| ::
               RowOf(s'.db.keys, s.sweeps[j].todo[k]) == RowOf(s.db.keys, s.sweeps[j].todo[k])
    ensures SweepsOk(setup, s')
  {
    forall j | 0 <= j < |s'.sweeps| ensures SweepOk(setup, s', j) {
      assert SweepOk(setup, s, j);
      forall k | 0 <= k < |s.sweeps[j].todo| ensures IsStale(setup, s'.db, s.sweeps[j].todo[k], s.clock) {
        assert IsStale(setup, s.db, s.sweeps[j].todo[k], s.clock);
        assert RowOf(s'.db.keys, s.sweeps[j].todo[k]) == RowOf(s.db.keys, s.sweeps[j].todo[k]);
      }
    }
  }

  /** Nobody but a sweep may record for a key that has turned stale. */
  lemma StaleKeyIsNotRecorded(setup: Setup, s: State, owner: KeyId, i: nat)
    requires Guarded(setup, s) && IsStale(setup, s.db, owner, s.clock)
    requires i < |s.calls| && s.calls[i].owner == owner
    ensures !CanRecord(setup, s.calls[i], s.clock)
  {
    assert Fenced(setup, s.db, s.calls[i], s.clock);
    assert CallOk(s.db, s.calls, i);
  }

  // ---------------------------------------------------------------------
  // Steps that touch one sweep, and the clock
  // ---------------------------------------------------------------------

  lemma SweepStepKeepsSweeps(setup: Setup, s: State, step: Step)
    requires SweepsOk(setup, s) && Enabled(setup, s, step) && IsSweepStep(step)
    ensures SweepsOk(setup, Next(setup, s, step))
  {
    var s' := Next(setup, s, step);
    forall j | 0 <= j < |s'.sweeps| ensures SweepOk(setup, s', j) {
      assert SweepOk(setup, s, j);
    }
  }

  lemma SelectKeepsSweeps(setup: Setup, s: State, todo: seq<KeyId>, now: Instant)
    requires setup.premises.oneSweep && SweepsOk(setup, s) && Enabled(setup, s, Select(todo, now))
    ensures SweepsOk(setup, Next(setup, s, Select(todo, now)))
  {
    var s' := Next(setup, s, Select(todo, now));
    forall j | 0 <= j < |s'.sweeps| ensures SweepOk(setup, s', j) {
      if j < |s.sweeps| {
        assert SweepOk(setup, s, j);
      }
    }
  }

  lemma TickKeepsGuards(setup: Setup, s: State, to: Instant)
    requires FencesOk(setup, s) && SweepsOk(setup, s) && s.clock <= to
    ensures FencesOk(setup, s.(clock := to)) && SweepsOk(setup, s.(clock := to))
  {
    var s' := s.(clock := to);
    forall j | 0 <= j < |s'.calls| ensures Fenced(setup, s'.db, s'.calls[j], s'.clock) {
      assert Fenced(setup, s.db, s.calls[j], s.clock);
    }
    forall j | 0 <= j < |s'.sweeps| ensures SweepOk(setup, s', j) {
      assert SweepOk(setup, s, j);
    }
  }

  // ---------------------------------------------------------------------
  // Steps that touch the tables
  // ---------------------------------------------------------------------

  /** A key that may be claimed is in no sweep and no call of it may record. */
  lemma ClaimableKeyIsQuiet(setup: Setup, s: State, req: Request, start: Instant)
    requires Guarded(setup, s) && Claims(s.db, req, start)
    ensures forall i | 0 <= i < |s.calls| && s.calls[i].owner == req.owner :: !CanRecord(setup, s.calls[i], s.clock)
    ensures forall j, k | 0 <= j < |s.sweeps| && 0 <= k < |s.sweeps[j].todo| :: s.sweeps[j].todo[k] != req.owner
  {
    forall i | 0 <= i < |s.calls| && s.calls[i].owner == req.owner
      ensures !CanRecord(setup, s.calls[i], s.clock)
    {
      assert Fenced(setup, s.db, s.calls[i], s.clock);
    }
    forall j, k | 0 <= j < |s.sweeps| && 0 <= k < |s.sweeps[j].todo| ensures s.sweeps[j].todo[k] != req.owner {
      assert SweepOk(setup, s, j);
      assert IsStale(setup, s.db, s.sweeps[j].todo[k], s.clock);
    }
  }

  lemma ClaimKeepsFences(setup: Setup, s: State, step: Step)
    requires Guarded(setup, s) && Enabled(setup, s, step) && (step.Claim? || step.Reject?)
    ensures FencesOk(setup, Next(setup, s, step))
  {
    var s' := Next(setup, s, step);
    ClaimableKeyIsQuiet(setup, s, step.req, step.start);
    forall i | 0 <= i < |s'.calls| ensures Fenced(setup, s'.db, s'.calls[i], s'.clock) {
      if i < |s.calls| {
        assert Fenced(setup, s.db, s.calls[i], s.clock);
      }
    }
  }

  lemma ClaimKeepsSweeps(setup: Setup, s: State, step: Step)
    requires Guarded(setup, s) && Enabled(setup, s, step) && (step.Claim? || step.Reject?)
    ensures SweepsOk(setup, Next(setup, s, step))
  {
    ClaimableKeyIsQuiet(setup, s, step.req, step.start);
    UntouchedSweeps(setup, s, Next(setup, s, step));
  }

  /** The key of an executor that may still record is not in any sweep. */
  lemma RecordableKeyIsNotSwept(setup: Setup, s: State, i: nat)
    requires Guarded(setup, s) && i < |s.calls| && CanRecord(setup, s.calls[i], s.clock)
    ensures forall j, k | 0 <= j < |s.sweeps| && 0 <= k < |s.sweeps[j].todo| :: s.sweeps[j].todo[k] != s.calls[i].owner
  {
    forall j, k | 0 <= j < |s.sweeps| && 0 <= k < |s.sweeps[j].todo|
      ensures s.sweeps[j].todo[k] != s.calls[i].owner
    {
      assert SweepOk(setup, s, j);
      assert IsStale(setup, s.db, s.sweeps[j].todo[k], s.clock);
      if s.sweeps[j].todo[k] == s.calls[i].owner {
        StaleKeyIsNotRecorded(setup, s, s.calls[i].owner, i);
      }
    }
  }

  lemma CompleteKeepsFences(setup: Setup, s: State, step: Step)
    requires setup.premises.Recording() && Guarded(setup, s) && Enabled(setup, s, step) && step.Complete?
    ensures FencesOk(setup, Next(setup, s, step))
  {
    var s' := Next(setup, s, step);
    assert Fenced(setup, s.db, s.calls[step.call], s.clock);
    forall j | 0 <= j < |s'.calls| ensures Fenced(setup, s'.db, s'.calls[j], s'.clock) {
      assert Fenced(setup, s.db, s.calls[j], s.clock);
    }
  }

  lemma CompleteKeepsSweeps(setup: Setup, s: State, step: Step)
    requires setup.premises.Recording() && Guarded(setup, s) && Enabled(setup, s, step) && step.Complete?
    ensures SweepsOk(setup, Next(setup, s, step))
  {
    RecordableKeyIsNotSwept(setup, s, step.call);
    UntouchedSweeps(setup, s, Next(setup, s, step));
  }

  lemma ResolveKeepsFences(setup: Setup, s: State, step: Step)
    requires Guarded(setup, s) && Enabled(setup, s, step) && step.Resolve?
    ensures FencesOk(setup, Next(setup, s, step))
  {
    var s' := Next(setup, s, step);
    var owner := s.sweeps[step.sweep].todo[0];
    assert SweepOk(setup, s, step.sweep);
    assert IsStale(setup, s.db, owner, s.clock);
    forall i | 0 <= i < |s'.calls| ensures Fenced(setup, s'.db, s'.calls[i], s'.clock) {
      assert Fenced(setup, s.db, s.calls[i], s.clock);
      if s.calls[i].owner == owner {
        StaleKeyIsNotRecorded(setup, s, owner, i);
      }
    }
  }

  lemma ResolveKeepsSweeps(setup: Setup, s: State, step: Step)
    requires Guarded(setup, s) && Enabled(setup, s, step) && step.Resolve?
    ensures SweepsOk(setup, Next(setup, s, step))
  {
    var s' := Next(setup, s, step);
    var owner := s.sweeps[step.sweep].todo[0];
    forall j | 0 <= j < |s'.sweeps| ensures SweepOk(setup, s', j) {
      assert SweepOk(setup, s, j);
      forall k | 0 <= k < |s'.sweeps[j].todo| ensures IsStale(setup, s'.db, s'.sweeps[j].todo[k], s.clock) {
        if j == step.sweep {
          assert IsStale(setup, s.db, s.sweeps[j].todo[k + 1], s.clock);
        }
      }
    }
  }

  // ---------------------------------------------------------------------
  // All steps
  // ---------------------------------------------------------------------

  lemma StepKeepsFences(setup: Setup, s: State, step: Step)
    requires setup.premises.Recording() && Guarded(setup, s) && Enabled(setup, s, step)
    ensures FencesOk(setup, Next(setup, s, step))
  {
    if IsCallStep(step) {
      CallStepKeepsFences(setup, s, step);
    } else {
      match step
      case Claim(_, _, _, _) => ClaimKeepsFences(setup, s, step);
      case Reject(_, _, _, _, _, _) => ClaimKeepsFences(setup, s, step);
      case Complete(_, _, _, _) => CompleteKeepsFences(setup, s, step);
      case Resolve(_, _, _) => ResolveKeepsFences(setup, s, step);
      case Tick(to) => TickKeepsGuards(setup, s, to);
      case _ =>
    }
  }

  lemma StepKeepsSweeps(setup: Setup, s: State, step: Step)
    requires setup.premises.Recording() && Guarded(setup, s) && Enabled(setup, s, step)
    ensures SweepsOk(setup, Next(setup, s, step))
  {
    if IsSweepStep(step) {
      SweepStepKeepsSweeps(setup, s, step);
    } else if IsCallStep(step) {
      CallStepKeepsSweeps(setup, s, step);
    } else {
      match step
      case Claim(_, _, _, _) => ClaimKeepsSweeps(setup, s, step);
      case Reject(_, _, _, _, _, _) => ClaimKeepsSweeps(setup, s, step);
      case Complete(_, _, _, _) => CompleteKeepsSweeps(setup, s, step);
      case Select(todo, now) => SelectKeepsSweeps(setup, s, todo, now);
      case Resolve(_, _, _) => ResolveKeepsSweeps(setup, s, step);
      case Tick(to) => TickKeepsGuards(setup, s, to);
      case _ =>
    }
  }

  lemma StepKeepsGuards(setup: Setup, s: State, step: Step)
    requires setup.premises.Recording() && Guarded(setup, s) && Enabled(setup, s, step)
    ensures Guarded(setup, Next(setup, s, step))
  {
    StepKeepsConsistent(setup, s, step);
    StepKeepsFences(setup, s, step);
    StepKeepsSweeps(setup, s, step);
  }
}
