/** What the handler and the sweeper commit are the steps of the protocol. */
module Actions {
  import opened Schema
  import opened Manifest
  import opened Downstream
  import opened ResultStore
  import opened Transactions
  import opened Protocol
  import opened Runs
  import Server
  import Reconcile

  lemma {:induction false} AfterThree(setup: Setup, s: State, a: Step, b: Step, c: Step)
    requires Enabled(setup, s, a) && Enabled(setup, Next(setup, s, a), b)
    requires Enabled(setup, Next(setup, Next(setup, s, a), b), c)
    ensures After(setup, s, [a, b, c]) == Some(Next(setup, Next(setup, Next(setup, s, a), b), c))
  {
    assert [a, b, c][..2] == [a, b] && [a, b][..1] == [a] && [a][..0] == [];
    assert After(setup, s, []) == Some(s);
    assert After(setup, s, [a]) == Some(Next(setup, s, a));
    assert After(setup, s, [a, b]) == Some(Next(setup, Next(setup, s, a), b));
  }

  /** A committed claim, or rejection, is one step. */
  lemma ClaimIsStep(setup: Setup, s: State, commit: Commit)
    requires CanCommit(s.db, commit) && !commit.CompleteCommit? && commit.start <= s.clock
    requires commit.ClaimCommit? ==> commit.call == |s.calls|
    ensures var step := if commit.ClaimCommit? then Claim(commit.req, commit.start, commit.id, commit.lockedAt)
                        else Reject(commit.req, commit.start, commit.id, commit.lockedAt, commit.blocker, commit.body);
            Enabled(setup, s, step) && Next(setup, s, step).db == Committed(s.db, commit)
  {
  }

  /** The reply that comes in, and what is known and stored of it. */
  lemma ReplyIsStored(setup: Setup, s: State, i: nat, errors: ErrorClassification, reply: Reply, accepted: bool) returns (s': State)
    requires i < |s.calls| && s.calls[i].exec.Working? && ReplyPossible(setup.premises, s.calls[i].net, errors, reply)
    requires setup.premises.timelyRecord ==> Timely(setup, s.calls[i], s.clock)
    ensures Enabled(setup, s, Answer(i, errors, reply))
    ensures Enabled(setup, Next(setup, s, Answer(i, errors, reply)), Place(i, accepted))
    ensures s' == Next(setup, Next(setup, s, Answer(i, errors, reply)), Place(i, accepted))
    ensures s'.db == s.db && s'.clock == s.clock && |s'.calls| == |s.calls|
    ensures s'.objects == ObjectsAfter(setup.layout, s.objects, s.calls[i].owner, Payload(reply), accepted)
    ensures var c := s'.calls[i];
            && c.owner == s.calls[i].owner && c.claimedAt == s.calls[i].claimedAt && c.exec.Stored?
            && Reads(errors, reply, c.exec.status) && c.exec.body == Payload(reply)
            && c.exec.placement == PlacementOf(setup.layout, c.owner, Payload(reply), accepted)
  {
    ClassifiedAsRead(errors, reply);
    var mid := Next(setup, s, Answer(i, errors, reply));
    s' := Next(setup, mid, Place(i, accepted));
  }

  /** What the handler records of a reply is the protocol's answer, placement and
      completion. */
  lemma RecordingIsSteps(setup: Setup, s: State, i: nat, commit: Commit, errors: ErrorClassification, reply: Reply, accepted: bool)
    requires i < |s.calls| && s.calls[i].exec.Working? && ReplyPossible(setup.premises, s.calls[i].net, errors, reply)
    requires setup.premises.timelyRecord ==> Timely(setup, s.calls[i], s.clock)
    requires Server.Tells(commit, s.calls[i].owner, errors, reply, accepted, setup.layout)
    requires CanCommit(s.db, commit) && commit.at <= s.clock
    ensures var s' := After(setup, s, [Answer(i, errors, reply), Place(i, accepted), Complete(i, commit.at, commit.pick, true)]);
            && s'.Some? && s'.value.db == Committed(s.db, commit)
            && s'.value.objects == ObjectsAfter(setup.layout, s.objects, commit.owner, Payload(reply), accepted)
            && s'.value.calls[i].exec.Finished?
  {
    var mid := ReplyIsStored(setup, s, i, errors, reply, accepted);
    assert mid.calls[i].exec.status == commit.status;
    AfterThree(setup, s, Answer(i, errors, reply), Place(i, accepted), Complete(i, commit.at, commit.pick, true));
  }

  /** How the sweep comes to its verdict. */
  function JudgingStep(j: nat, answer: Reconcile.Answer): Step {
    if answer.Counted? then Probe(j, answer.executions, answer.result) else Escalate(j)
  }

  /** The verdict of a sweep, and what is kept of it. */
  lemma VerdictIsKept(setup: Setup, s: State, j: nat, answer: Reconcile.Answer, accepted: bool) returns (s': State)
    requires Busy(s, j) && s.sweeps[j].stage.Idle? && !answer.Failing?
    requires answer.Counted? && answer.executions == 0 && setup.premises.truthfulProbe ==> !Ledgered(s, s.sweeps[j].todo[0])
    ensures Enabled(setup, s, JudgingStep(j, answer))
    ensures Enabled(setup, Next(setup, s, JudgingStep(j, answer)), Keep(j, accepted))
    ensures s' == Next(setup, Next(setup, s, JudgingStep(j, answer)), Keep(j, accepted))
    ensures s'.db == s.db && s'.clock == s.clock && |s'.sweeps| == |s.sweeps|
    ensures s'.objects == ObjectsAfter(setup.layout, s.objects, s.sweeps[j].todo[0], Reconcile.FoundBy(answer), accepted)
    ensures var sweep := s'.sweeps[j];
            && sweep.todo == s.sweeps[j].todo && sweep.stage.Kept?
            && (sweep.stage.status.Done? <==> answer.Counted? && answer.executions > 0)
            && (sweep.stage.status.Failed? <==> answer.Counted? && answer.executions == 0)
            && (sweep.stage.status.Indeterminate? <==> !answer.Counted?)
            && sweep.stage.placement == PlacementOf(setup.layout, sweep.todo[0], Reconcile.FoundBy(answer), accepted)
  {
    var mid := Next(setup, s, JudgingStep(j, answer));
    s' := Next(setup, mid, Keep(j, accepted));
  }

  /** What a sweep commits for a key is the protocol's probe or escalation, what is kept
      of it, and the resolution; the sweep goes on to its next key. */
  lemma TurnIsSteps(setup: Setup, s: State, j: nat, commit: Commit, answer: Reconcile.Answer, accepted: bool)
    requires Busy(s, j) && s.sweeps[j].stage.Idle? && !answer.Failing?
    requires answer.Counted? && answer.executions == 0 && setup.premises.truthfulProbe ==> !Ledgered(s, s.sweeps[j].todo[0])
    requires CanCommit(s.db, commit) && commit.CompleteCommit? && commit.at <= s.clock
    requires Reconcile.Settles(commit, s.sweeps[j].todo[0], answer, accepted, setup.layout, commit.at)
    ensures var s' := After(setup, s, [JudgingStep(j, answer), Keep(j, accepted), Resolve(j, commit.at, commit.pick)]);
            && s'.Some? && s'.value.db == Committed(s.db, commit)
            && s'.value.objects == ObjectsAfter(setup.layout, s.objects, commit.owner, Reconcile.FoundBy(answer), accepted)
            && |s'.value.sweeps| == |s.sweeps| && s'.value.sweeps[j] == Sweep(s.sweeps[j].todo[1..], Idle)
  {
    var mid := VerdictIsKept(setup, s, j, answer, accepted);
    assert mid.sweeps[j].stage.status == commit.status;
    AfterThree(setup, s, JudgingStep(j, answer), Keep(j, accepted), Resolve(j, commit.at, commit.pick));
  }

  /** A turn that commits nothing: a failed probe leaves the key alone, and a key that
      somebody else settled keeps its row. Either way the sweep goes on to its next key. */
  lemma IdleTurnIsSteps(setup: Setup, s: State, j: nat, answer: Reconcile.Answer, accepted: bool)
    requires Busy(s, j) && s.sweeps[j].stage.Idle?
    requires answer.Failing? || !InFlight(s.db.keys, s.sweeps[j].todo[0])
    requires answer.Counted? && answer.executions == 0 && setup.premises.truthfulProbe ==> !Ledgered(s, s.sweeps[j].todo[0])
    ensures var s' := if answer.Failing? then After(setup, s, [Skip(j)])
                      else After(setup, s, [JudgingStep(j, answer), Keep(j, accepted), ResolveMissed(j)]);
            && s'.Some? && s'.value.db == s.db
            && |s'.value.sweeps| == |s.sweeps| && s'.value.sweeps[j] == Sweep(s.sweeps[j].todo[1..], Idle)
  {
    if answer.Failing? {
      assert [Skip(j)][..0] == [];
      assert After(setup, s, []) == Some(s);
    } else {
      var mid := VerdictIsKept(setup, s, j, answer, accepted);
      AfterThree(setup, s, JudgingStep(j, answer), Keep(j, accepted), ResolveMissed(j));
    }
  }

  // ---------------------------------------------------------------------
  // Crashes
  // ---------------------------------------------------------------------

  /** The process is over: it has nothing to send, store or record any more. */
  ghost predicate IsOver(s: State, author: Crash) {
    match author
    case OfExecutor(i) => i < |s.calls| && s.calls[i].exec.Finished?
    case OfSweep(j) => j < |s.sweeps| && s.sweeps[j] == Sweep([], Idle)
  }

  datatype Crash = OfExecutor(call: nat) | OfSweep(sweep: nat)

  function CrashStep(crash: Crash): Step {
    match crash
    case OfExecutor(i) => GiveUp(i)
    case OfSweep(j) => SweepCrash(j)
  }

  lemma StepKeepsOver(setup: Setup, s: State, step: Step, crash: Crash)
    requires IsOver(s, crash) && Enabled(setup, s, step)
    ensures IsOver(Next(setup, s, step), crash)
  {
  }

  /** A process that crashed takes no part in any later run: none of its steps is
      possible again. */
  lemma {:induction false} CrashIsFinal(setup: Setup, s: State, crash: Crash, steps: seq<Step>)
    requires Enabled(setup, s, CrashStep(crash)) && After(setup, Next(setup, s, CrashStep(crash)), steps).Some?
    ensures var s' := After(setup, Next(setup, s, CrashStep(crash)), steps).value;
            && IsOver(s', crash)
            && match crash
               case OfExecutor(i) =>
                 && !Enabled(setup, s', Send(i)) && (forall accepted :: !Enabled(setup, s', Place(i, accepted)))
                 && forall at, pick, acked :: !Enabled(setup, s', Complete(i, at, pick, acked))
               case OfSweep(j) =>
                 && (forall accepted :: !Enabled(setup, s', Keep(j, accepted)))
                 && forall at, pick :: !Enabled(setup, s', Protocol.Resolve(j, at, pick))
  {
    if steps != [] {
      var front := steps[..|steps| - 1];
      CrashIsFinal(setup, s, crash, front);
      StepKeepsOver(setup, After(setup, Next(setup, s, CrashStep(crash)), front).value, steps[|steps| - 1], crash);
    }
  }
}
