/** Whole runs of the protocol: at most one execution per key, exactly under the
    premises. */
module Runs {
  import opened Conflict
  import opened Schema
  import opened Database
  import opened Manifest
  import opened Downstream
  import opened Protocol
  import opened Consistency
  import opened Safety

  /** The state after a list of steps, if each of them is possible in turn. */
  ghost function After(setup: Setup, s: State, steps: seq<Step>): Option<State> {
    if steps == [] then Some(s)
    else
      var mid := After(setup, s, steps[..|steps| - 1]);
      var last := steps[|steps| - 1];
      if mid.Some? && Enabled(setup, mid.value, last) then Some(Next(setup, mid.value, last)) else None
  }

  ghost predicate Leads(setup: Setup, s: State, s': State) {
    exists steps :: After(setup, s, steps) == Some(s')
  }

  ghost predicate Reachable(setup: Setup, s: State) {
    exists init :: Init(init) && Leads(setup, init, s)
  }

  lemma {:induction false} AfterKeepsConsistent(setup: Setup, s: State, steps: seq<Step>)
    requires setup.premises.retained && Consistent(s) && After(setup, s, steps).Some?
    ensures Consistent(After(setup, s, steps).value)
  {
    if steps != [] {
      AfterKeepsConsistent(setup, s, steps[..|steps| - 1]);
      StepKeepsConsistent(setup, After(setup, s, steps[..|steps| - 1]).value, steps[|steps| - 1]);
    }
  }

  /** Late, lost and untrue messages included: only the retention of rows matters. */
  lemma ReachableIsConsistent(setup: Setup, s: State)
    requires setup.premises.retained && Reachable(setup, s)
    ensures Consistent(s)
  {
    var init :| Init(init) && Leads(setup, init, s);
    var steps :| After(setup, init, steps) == Some(s);
    assert Consistent(init);
    AfterKeepsConsistent(setup, init, steps);
  }

  lemma {:induction false} AfterKeepsInv(setup: Setup, s: State, steps: seq<Step>)
    requires setup.premises.All() && Inv(setup, s) && After(setup, s, steps).Some?
    ensures Inv(setup, After(setup, s, steps).value)
  {
    if steps != [] {
      AfterKeepsInv(setup, s, steps[..|steps| - 1]);
      StepKeepsInv(setup, After(setup, s, steps[..|steps| - 1]).value, steps[|steps| - 1]);
    }
  }

  lemma ReachableKeepsInv(setup: Setup, s: State)
    requires setup.premises.All() && Reachable(setup, s)
    ensures Inv(setup, s)
  {
    var init :| Init(init) && Leads(setup, init, s);
    var steps :| After(setup, init, steps) == Some(s);
    assert Inv(setup, init);
    AfterKeepsInv(setup, init, steps);
  }

  /** Under all premises no run executes a key twice, and what was executed is
      the request the key was first claimed for. */
  lemma ExecutesAtMostOnce(setup: Setup, s: State)
    requires setup.premises.All() && Reachable(setup, s)
    ensures AtMostOnce(s.ledger) && AsClaimed(s)
  {
    ReachableKeepsInv(setup, s);
    InvIsSafe(setup, s);
  }

  lemma LeadsRefl(setup: Setup, s: State)
    ensures Leads(setup, s, s)
  {
    assert After(setup, s, []) == Some(s);
  }

  lemma LeadsStep(setup: Setup, s: State, mid: State, step: Step)
    requires Leads(setup, s, mid) && Enabled(setup, mid, step)
    ensures Leads(setup, s, Next(setup, mid, step))
  {
    var steps :| After(setup, s, steps) == Some(mid);
    var more := steps + [step];
    assert more[..|steps|] == steps;
    assert After(setup, s, more) == Some(Next(setup, mid, step));
  }

  // ---------------------------------------------------------------------
  // Orderly runs: one transaction at a time
  // ---------------------------------------------------------------------

  /** The intents that a claim which has recorded its own one sees. */
  ghost function Seen(s: State, req: Request, n: nat): Intents {
    s.db.intents + [Intent(n, req.owner, req.Target(), req.declared, s.clock, None)]
  }

  /** The `k`-th row of a window read is its first one of another agent. */
  ghost predicate Blocks(s: State, req: Request, found: seq<nat>, k: nat, blocker: nat) {
    && IsWindowRead(found, Seen(s, req, |s.db.intents|), req, s.clock, |s.db.intents|)
    && k < |found| && found[k] == blocker < |s.db.intents|
    && s.db.intents[blocker].owner.agent != req.owner.agent
    && forall l | 0 <= l < k && found[l] < |s.db.intents| :: s.db.intents[found[l]].owner.agent == req.owner.agent
  }

  /** The step is what a transaction that runs alone from its first statement to
      its commit comes to. */
  ghost predicate IsSerial(s: State, step: Step) {
    match step
    case Claim(_, start, id, lockedAt) => start == s.clock && id == |s.db.intents| && lockedAt == s.db.events
    case Reject(req, start, id, lockedAt, blocker, _) =>
      && start == s.clock && id == |s.db.intents| && lockedAt == s.db.events
      && exists found, k :: Blocks(s, req, found, k, blocker)
    case Complete(_, at, _, _) => at == s.clock
    case Resolve(_, at, _) => at == s.clock
    case _ => true
  }

  ghost function SerialAfter(setup: Setup, s: State, steps: seq<Step>): Option<State> {
    if steps == [] then Some(s)
    else
      var mid := SerialAfter(setup, s, steps[..|steps| - 1]);
      var last := steps[|steps| - 1];
      if mid.Some? && Enabled(setup, mid.value, last) && IsSerial(mid.value, last) then Some(Next(setup, mid.value, last))
      else None
  }

  ghost predicate Orderly(setup: Setup, s: State, s': State) {
    exists steps :: SerialAfter(setup, s, steps) == Some(s')
  }

  lemma OrderlyRefl(setup: Setup, s: State)
    ensures Orderly(setup, s, s)
  {
    assert SerialAfter(setup, s, []) == Some(s);
  }

  lemma OrderlyStep(setup: Setup, s: State, mid: State, step: Step)
    requires Orderly(setup, s, mid) && Enabled(setup, mid, step) && IsSerial(mid, step)
    ensures Orderly(setup, s, Next(setup, mid, step))
  {
    var steps :| SerialAfter(setup, s, steps) == Some(mid);
    var more := steps + [step];
    assert more[..|steps|] == steps;
    assert SerialAfter(setup, s, more) == Some(Next(setup, mid, step));
  }

  lemma {:induction false} SerialIsRun(setup: Setup, s: State, steps: seq<Step>)
    requires SerialAfter(setup, s, steps).Some?
    ensures After(setup, s, steps) == SerialAfter(setup, s, steps)
  {
    if steps != [] {
      SerialIsRun(setup, s, steps[..|steps| - 1]);
    }
  }

  lemma OrderlyLeads(setup: Setup, s: State, s': State)
    requires Orderly(setup, s, s')
    ensures Leads(setup, s, s')
  {
    var steps :| SerialAfter(setup, s, steps) == Some(s');
    SerialIsRun(setup, s, steps);
  }

  // ---------------------------------------------------------------------
  // Each premise is needed: orderly runs that execute a key twice without it
  // ---------------------------------------------------------------------

  /** Identifiers are handed out in commit order. */
  ghost predicate Numbered(db: Db) {
    && |db.intents| == |db.notes|
    && forall i | 0 <= i < |db.intents| :: db.intents[i].id == i
  }

  const AGENT := KeyId("agent", "key")
  const HASH := Hash("agent", "set", "{}", Resource("invoice", "1"))

  function Write(owner: KeyId): Request {
    Request(owner, HASH, Operation("replace", []), 1, false)
  }

  ghost predicate Claimable(db: Db, owner: KeyId) {
    Numbered(db) && (owner in db.keys ==> db.keys[owner].hash == HASH && db.keys[owner].status.Failed?)
  }

  ghost predicate Held(db: Db, owner: KeyId) {
    Numbered(db) && InFlight(db.keys, owner) && db.keys[owner].hash == HASH
  }

  lemma ClaimNow(setup: Setup, s0: State, s: State, owner: KeyId) returns (s': State)
    requires Orderly(setup, s0, s) && Claimable(s.db, owner)
    ensures Orderly(setup, s0, s') && Held(s'.db, owner)
    ensures s' == s.(db := s'.db, calls := s'.calls)
    ensures s'.db.keys == s.db.keys[owner := s'.db.keys[owner]]
    ensures |s'.calls| == |s.calls| + 1 && s'.calls[..|s.calls|] == s.calls
    ensures var c := s'.calls[|s.calls|];
            c.owner == owner && c.hash == HASH && c.net.Unsent? && c.exec.Working? && c.claimedAt == s.clock
    ensures s'.db.keys[owner].claimedAt == s.clock
  {
    var step := Claim(Write(owner), s.clock, |s.db.intents|, s.db.events);
    s' := Next(setup, s, step);
    OrderlyStep(setup, s0, s, step);
  }

  lemma SendNow(setup: Setup, s0: State, s: State, i: nat) returns (s': State)
    requires Orderly(setup, s0, s)
    requires i < |s.calls| && s.calls[i].exec.Working? && s.calls[i].net.Unsent?
    ensures Orderly(setup, s0, s') && s' == Patched(s, i, OnWire, Working)
  {
    s' := Next(setup, s, Send(i));
    OrderlyStep(setup, s0, s, Send(i));
  }

  lemma RunNow(setup: Setup, s0: State, s: State, i: nat) returns (s': State)
    requires Orderly(setup, s0, s)
    requires i < |s.calls| && s.calls[i].net.OnWire?
    requires setup.premises.timelyRun ==> Timely(setup, s.calls[i], s.clock)
    ensures Orderly(setup, s0, s')
    ensures s' == Patched(s, i, Ran(|s.ledger|), s.calls[i].exec)
                    .(ledger := s.ledger + [Execution(s.calls[i].owner, s.calls[i].hash, i)])
  {
    s' := Next(setup, s, Run(i));
    OrderlyStep(setup, s0, s, Run(i));
  }

  /** Claim, send and execute, all at once. */
  lemma ClaimAndRun(setup: Setup, s0: State, s: State) returns (s': State)
    requires Orderly(setup, s0, s) && Claimable(s.db, AGENT) && setup.stale >= 0
    ensures Orderly(setup, s0, s') && Held(s'.db, AGENT)
    ensures s' == s.(db := s'.db, calls := s'.calls, ledger := s'.ledger)
    ensures |s'.calls| == |s.calls| + 1 && s'.calls[..|s.calls|] == s.calls
    ensures var c := s'.calls[|s.calls|];
            c.owner == AGENT && c.net.Ran? && c.exec.Working? && c.claimedAt == s.clock
    ensures s'.ledger == s.ledger + [Execution(AGENT, HASH, |s.calls|)]
    ensures s'.db.keys[AGENT].claimedAt == s.clock
  {
    var i := |s.calls|;
    var s1 := ClaimNow(setup, s0, s, AGENT);
    var s2 := SendNow(setup, s0, s1, i);
    s' := RunNow(setup, s0, s2, i);
  }

  lemma TickTo(setup: Setup, s0: State, s: State, to: Instant) returns (s': State)
    requires Orderly(setup, s0, s) && s.clock <= to
    ensures Orderly(setup, s0, s') && s' == s.(clock := to)
  {
    s' := Next(setup, s, Tick(to));
    OrderlyStep(setup, s0, s, Tick(to));
  }

  /** A failed completion always finds its row to void, or finds none. */
  lemma {:induction false} PickExists(intents: Intents, owner: KeyId) returns (pick: Option<nat>)
    ensures PickOk(intents, owner, Failed, pick)
  {
    if intents == [] {
      pick := None;
    } else {
      var n := |intents| - 1;
      var front := intents[..n];
      pick := PickExists(front, owner);
      assert forall i | 0 <= i < n :: front[i] == intents[i];
      if Live(intents[n]) && intents[n].owner == owner
         && (pick.None? || intents[pick.value].emittedAt <= intents[n].emittedAt) {
        pick := Some(n);
      }
    }
  }

  /** The executor `i` knows that its write failed, and stores that. */
  lemma StoreFailure(setup: Setup, s0: State, s: State, i: nat) returns (s': State)
    requires Orderly(setup, s0, s)
    requires i < |s.calls| && s.calls[i].exec == Knows(Failed, "")
    requires Timely(setup, s.calls[i], s.clock)
    ensures Orderly(setup, s0, s')
    ensures s' == Patched(s, i, s.calls[i].net, Stored(Failed, "", Placement(None, None)))
  {
    s' := Next(setup, s, Place(i, true));
    OrderlyStep(setup, s0, s, Place(i, true));
  }

  /** A failed completion makes the key claimable. */
  lemma FailureFrees(db: Db, at: Instant, pick: Option<nat>)
    requires Held(db, AGENT) && CanComplete(db, AGENT, Failed, Placement(None, None), pick)
    ensures Claimable(Completed(db, AGENT, Failed, Placement(None, None), at, pick), AGENT)
  {
  }

  lemma CompleteFailure(setup: Setup, s0: State, s: State, i: nat, acked: bool) returns (s': State)
    requires Orderly(setup, s0, s) && Held(s.db, AGENT)
    requires i < |s.calls| && s.calls[i].owner == AGENT && s.calls[i].exec == Stored(Failed, "", Placement(None, None))
    requires setup.premises.timelyRecord ==> Timely(setup, s.calls[i], s.clock)
    requires setup.premises.honestError ==> acked
    ensures Orderly(setup, s0, s') && Claimable(s'.db, AGENT)
    ensures s' == Patched(s, i, s.calls[i].net, if acked then Finished else s.calls[i].exec).(db := s'.db)
  {
    var pick := PickExists(s.db.intents, AGENT);
    var step := Complete(i, s.clock, pick, acked);
    FailureFrees(s.db, s.clock, pick);
    s' := Next(setup, s, step);
    OrderlyStep(setup, s0, s, step);
  }

  lemma SelectNow(setup: Setup, s0: State, s: State) returns (s': State)
    requires Orderly(setup, s0, s) && Held(s.db, AGENT)
    requires s.db.keys[AGENT].claimedAt + setup.stale < s.clock
    requires setup.premises.oneSweep ==> forall j | 0 <= j < |s.sweeps| :: s.sweeps[j].todo == []
    ensures Orderly(setup, s0, s')
    ensures s' == s.(sweeps := s.sweeps + [Sweep([AGENT], Idle)])
  {
    var select := Select([AGENT], s.clock);
    s' := Next(setup, s, select);
    OrderlyStep(setup, s0, s, select);
  }

  /** The probe counts zero executions, and that is kept. */
  lemma ProbeCountsZero(setup: Setup, s0: State, s: State, j: nat) returns (s': State)
    requires Orderly(setup, s0, s) && j < |s.sweeps| && s.sweeps[j] == Sweep([AGENT], Idle)
    requires setup.premises.truthfulProbe ==> !Ledgered(s, AGENT)
    ensures Orderly(setup, s0, s')
    ensures s' == s.(sweeps := s.sweeps[j := Sweep([AGENT], Kept(Failed, "", Placement(None, None)))])
  {
    var probe := Probe(j, 0, "");
    var mid := Next(setup, s, probe);
    OrderlyStep(setup, s0, s, probe);
    var keep := Keep(j, true);
    s' := Next(setup, mid, keep);
    OrderlyStep(setup, s0, mid, keep);
  }

  /** A sweep selects the key and its probe counts zero executions. */
  lemma SweepJudges(setup: Setup, s0: State, s: State) returns (s': State)
    requires Orderly(setup, s0, s) && Held(s.db, AGENT)
    requires s.db.keys[AGENT].claimedAt + setup.stale < s.clock
    requires setup.premises.oneSweep ==> forall j | 0 <= j < |s.sweeps| :: s.sweeps[j].todo == []
    requires setup.premises.truthfulProbe ==> !Ledgered(s, AGENT)
    ensures Orderly(setup, s0, s')
    ensures s' == s.(sweeps := s.sweeps + [Sweep([AGENT], Kept(Failed, "", Placement(None, None)))])
  {
    var s1 := SelectNow(setup, s0, s);
    assert Ledgered(s1, AGENT) <==> Ledgered(s, AGENT);
    s' := ProbeCountsZero(setup, s0, s1, |s.sweeps|);
  }

  lemma SweepFails(setup: Setup, s0: State, s: State, j: nat) returns (s': State)
    requires Orderly(setup, s0, s) && Held(s.db, AGENT)
    requires j < |s.sweeps| && s.sweeps[j] == Sweep([AGENT], Kept(Failed, "", Placement(None, None)))
    ensures Orderly(setup, s0, s') && Claimable(s'.db, AGENT)
    ensures s' == s.(db := s'.db, sweeps := s.sweeps[j := Sweep([], Idle)])
  {
    var pick := PickExists(s.db.intents, AGENT);
    var step := Resolve(j, s.clock, pick);
    assert s.sweeps[j].todo[1..] == [];
    FailureFrees(s.db, s.clock, pick);
    s' := Next(setup, s, step);
    OrderlyStep(setup, s0, s, step);
  }

  const START := State(EMPTY, [], [], map[], [], 0)

  ghost predicate RunsTwice(setup: Setup) {
    exists s :: Orderly(setup, START, s) && !AtMostOnce(s.ledger)
  }

  lemma Twice(setup: Setup, s: State, d: nat, e: nat)
    requires Orderly(setup, START, s) && d < e < |s.ledger| && s.ledger[d].owner == s.ledger[e].owner
    ensures RunsTwice(setup)
  {
  }

  /** A request that executes after its row was swept runs beside its successor. */
  lemma LateRunRunsTwice(setup: Setup)
    requires setup.stale >= 0 && !setup.premises.timelyRun
    ensures RunsTwice(setup)
  {
    OrderlyRefl(setup, START);
    var s1 := ClaimNow(setup, START, START, AGENT);
    var s2 := SendNow(setup, START, s1, 0);
    var s3 := TickTo(setup, START, s2, setup.stale + 1);
    var s4 := SweepJudges(setup, START, s3);
    var s5 := SweepFails(setup, START, s4, 0);
    var s6 := ClaimAndRun(setup, START, s5);
    assert s6.calls[0] == s2.calls[0];
    var s7 := RunNow(setup, START, s6, 0);
    Twice(setup, s7, 0, 1);
  }

  lemma DialFails(setup: Setup, s0: State, s: State, i: nat) returns (s': State)
    requires Orderly(setup, s0, s)
    requires i < |s.calls| && s.calls[i].exec.Working?
    requires s.calls[i].net.Unsent? || (!setup.premises.truthfulDial && s.calls[i].net.OnWire?)
    ensures Orderly(setup, s0, s')
    ensures s' == Patched(s, i, if s.calls[i].net.Unsent? then Gone else OnWire, Knows(Failed, ""))
  {
    var step := Answer(i, ErrorClassification([], []), NotDialed);
    s' := Next(setup, s, step);
    OrderlyStep(setup, s0, s, step);
  }

  /** A first attempt whose executor is about to record that it failed. */
  lemma FailedAndStored(setup: Setup) returns (s: State)
    requires setup.stale >= 0
    ensures Orderly(setup, START, s) && Held(s.db, AGENT)
    ensures s.clock == 0 && s.sweeps == [] && s.ledger == [] && |s.calls| == 1
    ensures s.db.keys[AGENT].claimedAt == 0
    ensures s.calls[0].owner == AGENT && s.calls[0].claimedAt == 0
    ensures s.calls[0].exec == Stored(Failed, "", Placement(None, None))
  {
    OrderlyRefl(setup, START);
    var s1 := ClaimNow(setup, START, START, AGENT);
    var s2 := DialFails(setup, START, s1, 0);
    s := StoreFailure(setup, START, s2, 0);
  }

  /** A failure recorded late lands on the attempt that followed. */
  lemma LateRecordRunsTwice(setup: Setup)
    requires setup.stale >= 0 && !setup.premises.timelyRecord
    ensures RunsTwice(setup)
  {
    var s3 := FailedAndStored(setup);
    var s4 := TickTo(setup, START, s3, setup.stale + 1);
    var s5 := SweepJudges(setup, START, s4);
    var s6 := SweepFails(setup, START, s5, 0);
    var s7 := ClaimAndRun(setup, START, s6);
    assert s7.calls[0] == s3.calls[0];
    var s8 := CompleteFailure(setup, START, s7, 0, true);
    var s9 := ClaimAndRun(setup, START, s8);
    Twice(setup, s9, 0, 1);
  }

  /** Two sweeps that judged the same key fail two different attempts of it. */
  lemma TwoSweepsRunTwice(setup: Setup)
    requires setup.stale >= 0 && !setup.premises.oneSweep
    ensures RunsTwice(setup)
  {
    OrderlyRefl(setup, START);
    var s1 := ClaimNow(setup, START, START, AGENT);
    var s2 := TickTo(setup, START, s1, setup.stale + 1);
    var s3 := SweepJudges(setup, START, s2);
    var s4 := SweepJudges(setup, START, s3);
    var s5 := SweepFails(setup, START, s4, 0);
    var s6 := ClaimAndRun(setup, START, s5);
    var s7 := SweepFails(setup, START, s6, 1);
    var s8 := ClaimAndRun(setup, START, s7);
    Twice(setup, s8, 0, 1);
  }

  /** A completion that committed and reported an error is tried again, on the
      attempt that followed. */
  lemma LostAckRunsTwice(setup: Setup)
    requires setup.stale >= 0 && !setup.premises.honestError
    ensures RunsTwice(setup)
  {
    var s3 := FailedAndStored(setup);
    var s4 := CompleteFailure(setup, START, s3, 0, false);
    assert s4.calls[0] == s3.calls[0];
    var s5 := ClaimAndRun(setup, START, s4);
    assert s5.calls[0] == s3.calls[0];
    var s6 := CompleteFailure(setup, START, s5, 0, true);
    var s7 := ClaimAndRun(setup, START, s6);
    Twice(setup, s7, 0, 1);
  }

  /** A dial reported as failed although the request went out. */
  lemma FalseDialRunsTwice(setup: Setup)
    requires setup.stale >= 0 && !setup.premises.truthfulDial
    ensures RunsTwice(setup)
  {
    OrderlyRefl(setup, START);
    var s1 := ClaimNow(setup, START, START, AGENT);
    var s2 := SendNow(setup, START, s1, 0);
    var s3 := DialFails(setup, START, s2, 0);
    var s4 := StoreFailure(setup, START, s3, 0);
    var s5 := CompleteFailure(setup, START, s4, 0, true);
    var s6 := ClaimAndRun(setup, START, s5);
    assert s6.calls[0] == s5.calls[0];
    var s7 := RunNow(setup, START, s6, 0);
    Twice(setup, s7, 0, 1);
  }

  /** A request executed and then declared not executed. */
  lemma FalseDeclineRunsTwice(setup: Setup)
    requires setup.stale >= 0 && !setup.premises.truthfulDecline
    ensures RunsTwice(setup)
  {
    OrderlyRefl(setup, START);
    var s1 := ClaimAndRun(setup, START, START);
    var errors := ErrorClassification([], [StatusRange(429, 429)]);
    assert errors.notExecuted[0].Contains(429);
    assert errors.IsNotExecuted(429);
    var step := Answer(0, errors, Response(429, ""));
    var s2 := Next(setup, s1, step);
    OrderlyStep(setup, START, s1, step);
    var s3 := StoreFailure(setup, START, s2, 0);
    var s4 := CompleteFailure(setup, START, s3, 0, true);
    var s5 := ClaimAndRun(setup, START, s4);
    Twice(setup, s5, 0, 1);
  }

  /** An executed request that the probe does not find. */
  lemma FalseProbeRunsTwice(setup: Setup)
    requires setup.stale >= 0 && !setup.premises.truthfulProbe
    ensures RunsTwice(setup)
  {
    OrderlyRefl(setup, START);
    var s1 := ClaimAndRun(setup, START, START);
    var s2 := TickTo(setup, START, s1, setup.stale + 1);
    var s3 := SweepJudges(setup, START, s2);
    var s4 := SweepFails(setup, START, s3, 0);
    var s5 := ClaimAndRun(setup, START, s4);
    Twice(setup, s5, 0, 1);
  }

  /** A key whose row was deleted is a new key. */
  lemma ExpiryRunsTwice(setup: Setup)
    requires setup.stale >= 0 && !setup.premises.retained
    ensures RunsTwice(setup)
  {
    OrderlyRefl(setup, START);
    var s1 := ClaimAndRun(setup, START, START);
    var s2 := Next(setup, s1, Expire(AGENT));
    OrderlyStep(setup, START, s1, Expire(AGENT));
    var s3 := ClaimAndRun(setup, START, s2);
    Twice(setup, s3, 0, 1);
  }

  /** Without any one of the premises some orderly run executes a key twice. */
  lemma SomeRunExecutesTwice(setup: Setup)
    requires setup.stale >= 0 && !setup.premises.All()
    ensures RunsTwice(setup)
  {
    var p := setup.premises;
    if !p.timelyRun { LateRunRunsTwice(setup); }
    else if !p.timelyRecord { LateRecordRunsTwice(setup); }
    else if !p.oneSweep { TwoSweepsRunTwice(setup); }
    else if !p.honestError { LostAckRunsTwice(setup); }
    else if !p.truthfulDial { FalseDialRunsTwice(setup); }
    else if !p.truthfulDecline { FalseDeclineRunsTwice(setup); }
    else if !p.truthfulProbe { FalseProbeRunsTwice(setup); }
    else { ExpiryRunsTwice(setup); }
  }

  /** The guarantee, exactly: for any staleness bound and any storage layout, no
      run executes a key twice if and only if all premises hold. */
  lemma AtMostOnceIffPremises(setup: Setup)
    requires setup.stale >= 0
    ensures setup.premises.All() <==> forall s | Reachable(setup, s) :: AtMostOnce(s.ledger)
  {
    if setup.premises.All() {
      forall s | Reachable(setup, s) ensures AtMostOnce(s.ledger) {
        ExecutesAtMostOnce(setup, s);
      }
    } else {
      SomeRunExecutesTwice(setup);
      var s :| Orderly(setup, START, s) && !AtMostOnce(s.ledger);
      OrderlyLeads(setup, START, s);
      assert Init(START) && Reachable(setup, s);
    }
  }
}
