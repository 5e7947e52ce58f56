/** How a key row may change over whole runs, and why a stored result is replayed
    unchanged for ever. */
module Lifecycle {
  import opened Schema
  import opened Database
  import opened ResultStore
  import opened Protocol
  import opened Guards
  import opened Runs

  // ---------------------------------------------------------------------
  // Rows
  // ---------------------------------------------------------------------

  /** With rows retained -- no other premise is needed -- every step moves every
      row along its life cycle. */
  lemma StepEvolvesRows(setup: Setup, s: State, step: Step, owner: KeyId)
    requires setup.premises.retained && Enabled(setup, s, step)
    ensures Evolves(RowOf(s.db.keys, owner), RowOf(Next(setup, s, step).db.keys, owner))
  {
  }

  lemma {:induction false} RunEvolvesRows(setup: Setup, s: State, steps: seq<Step>, owner: KeyId)
    requires setup.premises.retained && After(setup, s, steps).Some?
    ensures Later(RowOf(s.db.keys, owner), RowOf(After(setup, s, steps).value.db.keys, owner))
  {
    if steps != [] {
      var mid := After(setup, s, steps[..|steps| - 1]).value;
      RunEvolvesRows(setup, s, steps[..|steps| - 1], owner);
      StepEvolvesRows(setup, mid, steps[|steps| - 1], owner);
    }
  }

  // ---------------------------------------------------------------------
  // Results
  // ---------------------------------------------------------------------

  /** What a replay of the key answers. */
  ghost function Replay(setup: Setup, s: State, owner: KeyId): Option<Json>
    requires owner in s.db.keys
  {
    Resolved(setup.layout, s.objects, s.db.keys[owner].result, s.db.keys[owner].ref)
  }

  /** The placement gives the body back when it is resolved now. */
  ghost predicate Holds(setup: Setup, s: State, owner: KeyId, body: Json, placement: Placement) {
    && (placement.ref.Some? ==> placement.ref.value == Ref(setup.layout.digest, owner))
    && Resolved(setup.layout, s.objects, placement.inline, placement.ref) == Some(body)
  }

  ghost predicate RowStored(setup: Setup, s: State, owner: KeyId)
    requires owner in s.db.keys
  {
    var row := s.db.keys[owner];
    row.ref.Some? ==> row.ref.value == Ref(setup.layout.digest, owner) && Replay(setup, s, owner).Some?
  }

  ghost predicate StoreOk(setup: Setup, s: State) {
    && (forall owner | owner in s.db.keys :: RowStored(setup, s, owner))
    && (forall i | 0 <= i < |s.calls| && s.calls[i].exec.Stored? && CanRecord(setup, s.calls[i], s.clock) ::
          Holds(setup, s, s.calls[i].owner, s.calls[i].exec.body, s.calls[i].exec.placement))
    && (forall j | 0 <= j < |s.sweeps| && s.sweeps[j].stage.Kept? && s.sweeps[j].todo != [] ::
          Holds(setup, s, s.sweeps[j].todo[0], s.sweeps[j].stage.body, s.sweeps[j].stage.placement))
  }

  /** Storing a body for `owner` disturbs no object of another key. */
  lemma OtherObjectsStay(setup: Setup, s: State, s': State, owner: KeyId, body: Json, accepted: bool, other: KeyId, ref: Option<string>, inline: Option<Json>)
    requires Collisionless(setup.layout.digest) && other != owner
    requires s'.objects == ObjectsAfter(setup.layout, s.objects, owner, body, accepted)
    requires ref.Some? ==> ref.value == Ref(setup.layout.digest, other)
    ensures Resolved(setup.layout, s'.objects, inline, ref) == Resolved(setup.layout, s.objects, inline, ref)
  {
    assert Ref(setup.layout.digest, owner) != Ref(setup.layout.digest, other);
  }

  /** Only a body for a key still in flight is ever put into the object store, so
      a settled key's result stays what it is. */
  ghost function Writer(s: State, step: Step): Option<KeyId> {
    match step
    case Place(i, _) => if i < |s.calls| then Some(s.calls[i].owner) else None
    case Keep(j, _) => if Busy(s, j) then Some(s.sweeps[j].todo[0]) else None
    case _ => None
  }

  lemma WriterIsInFlight(setup: Setup, s: State, step: Step)
    requires setup.premises.timelyRecord && Guarded(setup, s) && Enabled(setup, s, step)
    ensures Writer(s, step).Some? ==> InFlight(s.db.keys, Writer(s, step).value)
  {
    match step
    case Place(i, _) => assert Fenced(setup, s.db, s.calls[i], s.clock);
    case Keep(j, _) =>
      assert SweepOk(setup, s, j);
      assert IsStale(setup, s.db, s.sweeps[j].todo[0], s.clock);
    case _ =>
  }

  /** A result that resolved before a step resolves to the same body after it,
      unless the step stores a new body for the same key. */
  lemma ResolutionStays(setup: Setup, s: State, step: Step, owner: KeyId, inline: Option<Json>, ref: Option<string>)
    requires Collisionless(setup.layout.digest) && Enabled(setup, s, step)
    requires ref.Some? ==> ref.value == Ref(setup.layout.digest, owner)
    requires Writer(s, step) != Some(owner)
    ensures Resolved(setup.layout, Next(setup, s, step).objects, inline, ref)
         == Resolved(setup.layout, s.objects, inline, ref)
  {
    var s' := Next(setup, s, step);
    match step
    case Place(i, accepted) =>
      OtherObjectsStay(setup, s, s', s.calls[i].owner, s.calls[i].exec.body, accepted, owner, ref, inline);
    case Keep(j, accepted) =>
      OtherObjectsStay(setup, s, s', s.sweeps[j].todo[0], s.sweeps[j].stage.body, accepted, owner, ref, inline);
    case _ =>
  }

  /** Rows of keys in flight hold no result yet. */
  ghost predicate PendingBare(s: State) {
    forall owner | owner in s.db.keys && s.db.keys[owner].status.Pending? ::
      s.db.keys[owner].result.None? && s.db.keys[owner].ref.None?
  }

  lemma StepKeepsPendingBare(setup: Setup, s: State, step: Step)
    requires PendingBare(s) && Enabled(setup, s, step)
    ensures PendingBare(Next(setup, s, step))
  {
  }

  lemma StepKeepsRowStored(setup: Setup, s: State, step: Step, owner: KeyId)
    requires setup.premises.Recording() && Collisionless(setup.layout.digest)
    requires Guarded(setup, s) && StoreOk(setup, s) && PendingBare(s) && Enabled(setup, s, step)
    requires owner in Next(setup, s, step).db.keys
    ensures RowStored(setup, Next(setup, s, step), owner)
  {
    var s' := Next(setup, s, step);
    var row := s'.db.keys[owner];
    WriterIsInFlight(setup, s, step);
    if owner in s.db.keys && s.db.keys[owner] == row {
      assert RowStored(setup, s, owner);
      if Writer(s, step) != Some(owner) {
        if row.ref.Some? {
          ResolutionStays(setup, s, step, owner, row.result, row.ref);
        }
      }
    } else {
      ChangedRowStored(setup, s, step, owner);
    }
  }

  /** The four steps that write a row. */
  lemma ChangedRowIsWritten(setup: Setup, s: State, step: Step, owner: KeyId)
    requires setup.premises.retained && Enabled(setup, s, step)
    requires RowOf(s.db.keys, owner) != RowOf(Next(setup, s, step).db.keys, owner)
    ensures match step
            case Claim(req, _, _, _) => owner == req.owner && Next(setup, s, step).db.keys[owner].ref.None?
            case Reject(req, _, _, _, _, _) => owner == req.owner && Next(setup, s, step).db.keys[owner].ref.None?
            case Complete(i, _, _, _) => owner == s.calls[i].owner
            case Resolve(j, _, _) => owner == s.sweeps[j].todo[0]
            case _ => false
  {
  }

  /** A row that changes comes bare from a claim, or with what its completion
      stored. */
  lemma ChangedRowStored(setup: Setup, s: State, step: Step, owner: KeyId)
    requires setup.premises.Recording() && StoreOk(setup, s) && Enabled(setup, s, step)
    requires owner in Next(setup, s, step).db.keys
    requires RowOf(s.db.keys, owner) != RowOf(Next(setup, s, step).db.keys, owner)
    ensures RowStored(setup, Next(setup, s, step), owner)
  {
    ChangedRowIsWritten(setup, s, step, owner);
    if step.Complete? {
      CompletedRowStored(setup, s, step);
    } else if step.Resolve? {
      ResolvedRowStored(setup, s, step);
    }
  }

  lemma CompletedRowStored(setup: Setup, s: State, step: Step)
    requires setup.premises.timelyRecord && StoreOk(setup, s) && Enabled(setup, s, step) && step.Complete?
    ensures RowStored(setup, Next(setup, s, step), s.calls[step.call].owner)
    ensures Replay(setup, Next(setup, s, step), s.calls[step.call].owner) == Some(s.calls[step.call].exec.body)
  {
    var c := s.calls[step.call];
    assert Holds(setup, s, c.owner, c.exec.body, c.exec.placement);
  }

  lemma ResolvedRowStored(setup: Setup, s: State, step: Step)
    requires StoreOk(setup, s) && Enabled(setup, s, step) && step.Resolve?
    ensures RowStored(setup, Next(setup, s, step), s.sweeps[step.sweep].todo[0])
    ensures Replay(setup, Next(setup, s, step), s.sweeps[step.sweep].todo[0]) == Some(s.sweeps[step.sweep].stage.body)
  {
    var sweep := s.sweeps[step.sweep];
    assert Holds(setup, s, sweep.todo[0], sweep.stage.body, sweep.stage.placement);
  }

  lemma PlacedHolds(setup: Setup, s: State, owner: KeyId, body: Json, accepted: bool)
    requires s.objects == ObjectsAfter(setup.layout, s.objects, owner, body, accepted)
    ensures Holds(setup, s, owner, body, PlacementOf(setup.layout, owner, body, accepted))
  {
  }

  lemma StepKeepsCallHolds(setup: Setup, s: State, step: Step, i: nat)
    requires setup.premises.Recording() && Collisionless(setup.layout.digest)
    requires Guarded(setup, s) && StoreOk(setup, s) && Enabled(setup, s, step)
    requires i < |Next(setup, s, step).calls|
    requires var s' := Next(setup, s, step); s'.calls[i].exec.Stored? && CanRecord(setup, s'.calls[i], s'.clock)
    ensures var s' := Next(setup, s, step);
            Holds(setup, s', s'.calls[i].owner, s'.calls[i].exec.body, s'.calls[i].exec.placement)
  {
    var s' := Next(setup, s, step);
    if step.Place? && step.call == i {
      assert s'.objects == ObjectsAfter(setup.layout, s'.objects, s.calls[i].owner, s.calls[i].exec.body, step.accepted);
      PlacedHolds(setup, s', s.calls[i].owner, s.calls[i].exec.body, step.accepted);
    } else {
      OtherCallsStand(setup, s, step, i);
      assert Holds(setup, s, s.calls[i].owner, s.calls[i].exec.body, s.calls[i].exec.placement);
      RecordersAreAlone(setup, s, step, i);
      ResolutionStays(setup, s, step, s.calls[i].owner, s.calls[i].exec.placement.inline, s.calls[i].exec.placement.ref);
    }
  }

  /** A call that has its body stored had it before. */
  lemma OtherCallsStand(setup: Setup, s: State, step: Step, i: nat)
    requires Enabled(setup, s, step) && i < |Next(setup, s, step).calls| && !(step.Place? && step.call == i)
    requires var s' := Next(setup, s, step); s'.calls[i].exec.Stored? && CanRecord(setup, s'.calls[i], s'.clock)
    ensures var s' := Next(setup, s, step);
            && i < |s.calls| && s.calls[i].owner == s'.calls[i].owner && s.calls[i].exec == s'.calls[i].exec
            && CanRecord(setup, s.calls[i], s.clock)
  {
  }

  /** While an executor may record, nobody else stores a body for its key. */
  lemma RecordersAreAlone(setup: Setup, s: State, step: Step, i: nat)
    requires setup.premises.Recording() && Guarded(setup, s) && Enabled(setup, s, step)
    requires i < |s.calls| && CanRecord(setup, s.calls[i], s.clock)
    requires !(step.Place? && step.call == i)
    ensures Writer(s, step) != Some(s.calls[i].owner)
  {
    assert Fenced(setup, s.db, s.calls[i], s.clock);
    match step
    case Place(j, _) =>
      assert Fenced(setup, s.db, s.calls[j], s.clock);
    case Keep(j, _) =>
      RecordableKeyIsNotSwept(setup, s, i);
    case _ =>
  }

  lemma StepKeepsSweepHolds(setup: Setup, s: State, step: Step, j: nat)
    requires setup.premises.Recording() && Collisionless(setup.layout.digest)
    requires Guarded(setup, s) && StoreOk(setup, s) && Enabled(setup, s, step)
    requires j < |Next(setup, s, step).sweeps|
    requires var s' := Next(setup, s, step); s'.sweeps[j].stage.Kept? && s'.sweeps[j].todo != []
    ensures var s' := Next(setup, s, step);
            Holds(setup, s', s'.sweeps[j].todo[0], s'.sweeps[j].stage.body, s'.sweeps[j].stage.placement)
  {
    var s' := Next(setup, s, step);
    if step.Keep? && step.sweep == j {
      assert s'.objects == ObjectsAfter(setup.layout, s'.objects, s.sweeps[j].todo[0], s.sweeps[j].stage.body, step.accepted);
      PlacedHolds(setup, s', s.sweeps[j].todo[0], s.sweeps[j].stage.body, step.accepted);
    } else {
      assert j < |s.sweeps| && s.sweeps[j] == s'.sweeps[j];
      assert Holds(setup, s, s.sweeps[j].todo[0], s.sweeps[j].stage.body, s.sweeps[j].stage.placement);
      SweepersAreAlone(setup, s, step, j);
      ResolutionStays(setup, s, step, s.sweeps[j].todo[0], s.sweeps[j].stage.placement.inline, s.sweeps[j].stage.placement.ref);
    }
  }

  lemma SweepersAreAlone(setup: Setup, s: State, step: Step, j: nat)
    requires setup.premises.Recording() && Guarded(setup, s) && Enabled(setup, s, step)
    requires Busy(s, j) && !(step.Keep? && step.sweep == j)
    ensures Writer(s, step) != Some(s.sweeps[j].todo[0])
  {
    match step
    case Place(i, _) =>
      RecordableKeyIsNotSwept(setup, s, i);
    case _ =>
  }

  lemma StepKeepsStore(setup: Setup, s: State, step: Step)
    requires setup.premises.Recording() && Collisionless(setup.layout.digest)
    requires Guarded(setup, s) && StoreOk(setup, s) && PendingBare(s) && Enabled(setup, s, step)
    ensures StoreOk(setup, Next(setup, s, step)) && PendingBare(Next(setup, s, step))
  {
    var s' := Next(setup, s, step);
    StepKeepsPendingBare(setup, s, step);
    forall owner | owner in s'.db.keys ensures RowStored(setup, s', owner) {
      StepKeepsRowStored(setup, s, step, owner);
    }
    forall i | 0 <= i < |s'.calls| && s'.calls[i].exec.Stored? && CanRecord(setup, s'.calls[i], s'.clock)
      ensures Holds(setup, s', s'.calls[i].owner, s'.calls[i].exec.body, s'.calls[i].exec.placement)
    {
      StepKeepsCallHolds(setup, s, step, i);
    }
    forall j | 0 <= j < |s'.sweeps| && s'.sweeps[j].stage.Kept? && s'.sweeps[j].todo != []
      ensures Holds(setup, s', s'.sweeps[j].todo[0], s'.sweeps[j].stage.body, s'.sweeps[j].stage.placement)
    {
      StepKeepsSweepHolds(setup, s, step, j);
    }
  }

  ghost predicate Sound(setup: Setup, s: State) {
    Guarded(setup, s) && StoreOk(setup, s) && PendingBare(s)
  }

  /** The answer a completion received is the answer a replay gives. */
  lemma CompletionIsReplayed(setup: Setup, s: State, step: Step)
    requires StoreOk(setup, s) && Enabled(setup, s, step)
    requires (step.Complete? && setup.premises.timelyRecord) || step.Resolve?
    ensures var owner := if step.Complete? then s.calls[step.call].owner else s.sweeps[step.sweep].todo[0];
            var body := if step.Complete? then s.calls[step.call].exec.body else s.sweeps[step.sweep].stage.body;
            Replay(setup, Next(setup, s, step), owner) == Some(body)
  {
    match step
    case Complete(_, _, _, _) => CompletedRowStored(setup, s, step);
    case Resolve(_, _, _) => ResolvedRowStored(setup, s, step);
  }

  /** The body a rejected write is answered with is the answer a replay gives. */
  lemma RejectionIsReplayed(setup: Setup, s: State, step: Step)
    requires Enabled(setup, s, step) && step.Reject?
    ensures IsAnswered(Next(setup, s, step), step.req.owner)
    ensures Replay(setup, Next(setup, s, step), step.req.owner) == Some(step.body)
  {
  }

  /** And it stays so for ever, as long as rows are retained: a rejection never
      refers to the object store. */
  lemma RejectionIsReplayedForEver(setup: Setup, s: State, step: Step, s': State)
    requires setup.premises.retained && Enabled(setup, s, step) && step.Reject?
    requires Leads(setup, Next(setup, s, step), s')
    ensures step.req.owner in s'.db.keys && s'.db.keys[step.req.owner].status.Rejected?
    ensures Replay(setup, s', step.req.owner) == Some(step.body)
  {
    var mid := Next(setup, s, step);
    var steps :| After(setup, mid, steps) == Some(s');
    RunEvolvesRows(setup, mid, steps, step.req.owner);
  }

  /** A settled key's replay survives any step. */
  lemma StepKeepsReplay(setup: Setup, s: State, step: Step, owner: KeyId)
    requires setup.premises.Recording() && Collisionless(setup.layout.digest)
    requires Sound(setup, s) && Enabled(setup, s, step)
    requires owner in s.db.keys && Settled(s.db.keys[owner].status)
    ensures var s' := Next(setup, s, step);
            && owner in s'.db.keys && s'.db.keys[owner] == s.db.keys[owner]
            && Replay(setup, s', owner) == Replay(setup, s, owner)
  {
    StepEvolvesRows(setup, s, step, owner);
    WriterIsInFlight(setup, s, step);
    assert RowStored(setup, s, owner);
    var row := s.db.keys[owner];
    ResolutionStays(setup, s, step, owner, row.result, row.ref);
  }

  lemma {:induction false} ReplayIsStable(setup: Setup, s: State, steps: seq<Step>, owner: KeyId)
    requires setup.premises.Recording() && Collisionless(setup.layout.digest)
    requires Sound(setup, s) && After(setup, s, steps).Some?
    requires owner in s.db.keys && Settled(s.db.keys[owner].status)
    ensures var s' := After(setup, s, steps).value;
            && Sound(setup, s')
            && owner in s'.db.keys && s'.db.keys[owner] == s.db.keys[owner]
            && Replay(setup, s', owner) == Replay(setup, s, owner)
  {
    if steps != [] {
      var front, step := steps[..|steps| - 1], steps[|steps| - 1];
      ReplayIsStable(setup, s, front, owner);
      var mid := After(setup, s, front).value;
      StepKeepsGuards(setup, mid, step);
      StepKeepsStore(setup, mid, step);
      StepKeepsReplay(setup, mid, step, owner);
    }
  }

  lemma {:induction false} RunsAreSound(setup: Setup, s: State, steps: seq<Step>)
    requires setup.premises.Recording() && Collisionless(setup.layout.digest)
    requires Sound(setup, s) && After(setup, s, steps).Some?
    ensures Sound(setup, After(setup, s, steps).value)
  {
    if steps != [] {
      var front, step := steps[..|steps| - 1], steps[|steps| - 1];
      RunsAreSound(setup, s, front);
      StepKeepsGuards(setup, After(setup, s, front).value, step);
      StepKeepsStore(setup, After(setup, s, front).value, step);
    }
  }

  /** Once a key is done or rejected, every later request with the same hash is
      answered from the row, and with the same result, whichever way the result
      was stored and whatever happens in between; a request with another hash is
      refused. No claim for the key ever succeeds again. */
  lemma StableReplay(setup: Setup, s: State, s': State, req: Request, start: Instant)
    requires setup.premises.Recording() && Collisionless(setup.layout.digest)
    requires Reachable(setup, s) && Leads(setup, s, s')
    requires req.owner in s.db.keys && (s.db.keys[req.owner].status.Done? || s.db.keys[req.owner].status.Rejected?)
    ensures req.owner in s'.db.keys
    ensures Replay(setup, s, req.owner).Some? && Replay(setup, s', req.owner) == Replay(setup, s, req.owner)
    ensures ClaimKey(RowOf(s'.db.keys, req.owner), req, start)
         == if req.hash == s.db.keys[req.owner].hash then Existing else Mismatch
  {
    var init :| Init(init) && Leads(setup, init, s);
    var before :| After(setup, init, before) == Some(s);
    assert Guarded(setup, init) && StoreOk(setup, init) && PendingBare(init);
    RunsAreSound(setup, init, before);
    var steps :| After(setup, s, steps) == Some(s');
    ReplayIsStable(setup, s, steps, req.owner);
    assert RowStored(setup, s, req.owner);
  }

  // ---------------------------------------------------------------------
  // Without an object store
  // ---------------------------------------------------------------------

  ghost predicate RowsInline(db: Db) {
    forall owner | owner in db.keys :: db.keys[owner].ref.None?
  }

  /** The placement is the body itself, or empty for an empty one. */
  predicate IsInline(placement: Placement, body: Json) {
    placement.ref.None? && body == (if placement.inline.Some? then placement.inline.value else "")
  }

  ghost predicate OutcomesInline(s: State) {
    && (forall i | 0 <= i < |s.calls| && s.calls[i].exec.Stored? ::
          IsInline(s.calls[i].exec.placement, s.calls[i].exec.body))
    && (forall j | 0 <= j < |s.sweeps| && s.sweeps[j].stage.Kept? ::
          IsInline(s.sweeps[j].stage.placement, s.sweeps[j].stage.body))
  }

  /** Nothing refers to an object. */
  ghost predicate AllInline(s: State) {
    RowsInline(s.db) && OutcomesInline(s)
  }

  lemma StepKeepsRowsInline(setup: Setup, s: State, step: Step)
    requires AllInline(s) && Enabled(setup, s, step)
    ensures RowsInline(Next(setup, s, step).db)
  {
  }

  lemma StepKeepsOutcomesInline(setup: Setup, s: State, step: Step)
    requires !setup.layout.configured && OutcomesInline(s) && Enabled(setup, s, step)
    ensures OutcomesInline(Next(setup, s, step))
  {
  }

  lemma {:induction false} RunsStayInline(setup: Setup, s: State, steps: seq<Step>)
    requires !setup.layout.configured && AllInline(s) && After(setup, s, steps).Some?
    ensures AllInline(After(setup, s, steps).value)
  {
    if steps != [] {
      RunsStayInline(setup, s, steps[..|steps| - 1]);
      StepKeepsRowsInline(setup, After(setup, s, steps[..|steps| - 1]).value, steps[|steps| - 1]);
      StepKeepsOutcomesInline(setup, After(setup, s, steps[..|steps| - 1]).value, steps[|steps| - 1]);
    }
  }

  // ---------------------------------------------------------------------
  // Stability
  // ---------------------------------------------------------------------

  ghost predicate IsAnswered(s: State, owner: KeyId) {
    owner in s.db.keys && (s.db.keys[owner].status.Done? || s.db.keys[owner].status.Rejected?)
  }

  /** A replay has an answer, and the same one later on. */
  ghost predicate KeepsReplay(setup: Setup, s: State, s': State, owner: KeyId)
    requires owner in s.db.keys
  {
    && Replay(setup, s, owner).Some?
    && owner in s'.db.keys && Replay(setup, s', owner) == Replay(setup, s, owner)
  }

  ghost predicate ReplaysAreStable(setup: Setup) {
    forall s, s', owner | Reachable(setup, s) && Leads(setup, s, s') && IsAnswered(s, owner) ::
      KeepsReplay(setup, s, s', owner)
  }

  /** Without an object store a row holds its own result, and retained rows keep it. */
  lemma InlineReplayIsStable(setup: Setup, s: State, s': State, owner: KeyId)
    requires setup.premises.retained && !setup.layout.configured
    requires Reachable(setup, s) && Leads(setup, s, s') && IsAnswered(s, owner)
    ensures KeepsReplay(setup, s, s', owner)
  {
    var init :| Init(init) && Leads(setup, init, s);
    var before :| After(setup, init, before) == Some(s);
    RunsStayInline(setup, init, before);
    var steps :| After(setup, s, steps) == Some(s');
    RunEvolvesRows(setup, s, steps, owner);
  }

  /** What keeps every replay stable. */
  ghost predicate KeepsReplays(setup: Setup) {
    if setup.layout.configured then setup.premises.Recording() && Collisionless(setup.layout.digest)
    else setup.premises.retained
  }

  lemma ReplaysStayStable(setup: Setup)
    requires KeepsReplays(setup)
    ensures ReplaysAreStable(setup)
  {
    forall s, s', owner | Reachable(setup, s) && Leads(setup, s, s') && IsAnswered(s, owner)
      ensures KeepsReplay(setup, s, s', owner)
    {
      if setup.layout.configured {
        StableReplay(setup, s, s', Write(owner), 0);
      } else {
        InlineReplayIsStable(setup, s, s', owner);
      }
    }
  }
}
