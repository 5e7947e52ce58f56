/** When a replay may change: one orderly run for each condition that keeps replays
    stable, and the exact condition. */
module Replays {
  import opened Schema
  import opened Database
  import opened Manifest
  import opened Downstream
  import opened ResultStore
  import opened Protocol
  import opened Runs
  import opened Lifecycle

  /** A body of this length goes to the object store whenever there is one. */
  ghost function Big(layout: Layout, c: char): Json {
    seq(if layout.inlineCap < 0 then 1 else layout.inlineCap + 1, _ => c)
  }

  lemma BigIsOffloaded(layout: Layout, c: char)
    requires layout.configured
    ensures Offloads(layout, Big(layout, c), true)
  {
  }

  lemma BigDiffers(layout: Layout)
    ensures Big(layout, 'a') != Big(layout, 'b')
  {
    assert Big(layout, 'a')[0] != Big(layout, 'b')[0];
  }

  // ---------------------------------------------------------------------
  // Steps that bring a body
  // ---------------------------------------------------------------------

  /** The downstream answers the sent request with a body. */
  lemma AnswerNow(setup: Setup, s0: State, s: State, i: nat, body: Json) returns (s': State)
    requires Orderly(setup, s0, s)
    requires i < |s.calls| && s.calls[i].exec.Working? && s.calls[i].net.OnWire?
    ensures Orderly(setup, s0, s') && s' == Patched(s, i, OnWire, Knows(Done, body))
  {
    var errors := ErrorClassification([StatusRange(200, 200)], []);
    assert errors.definitive[0].Contains(200);
    assert errors.IsDefinitive(200);
    var step := Answer(i, errors, Response(200, body));
    s' := Next(setup, s, step);
    OrderlyStep(setup, s0, s, step);
  }

  /** Claim, send, and receive a body. */
  lemma ClaimAndAnswer(setup: Setup, s0: State, s: State, owner: KeyId, body: Json) returns (s': State)
    requires Orderly(setup, s0, s) && Claimable(s.db, owner)
    ensures Orderly(setup, s0, s') && Held(s'.db, owner)
    ensures s' == s.(db := s'.db, calls := s'.calls)
    ensures s'.db.keys == s.db.keys[owner := s'.db.keys[owner]]
    ensures |s'.calls| == |s.calls| + 1 && s'.calls[..|s.calls|] == s.calls
    ensures var c := s'.calls[|s.calls|]; c.owner == owner && c.exec == Knows(Done, body) && c.claimedAt == s.clock
    ensures s'.db.keys[owner].claimedAt == s.clock
  {
    var i := |s.calls|;
    var s1 := ClaimNow(setup, s0, s, owner);
    var s2 := SendNow(setup, s0, s1, i);
    s' := AnswerNow(setup, s0, s2, i, body);
  }

  ghost function Offloaded(layout: Layout, owner: KeyId): Placement {
    Placement(None, Some(Ref(layout.digest, owner)))
  }

  /** An executor puts a body into the object store. */
  lemma PlaceNow(setup: Setup, s0: State, s: State, i: nat, c: char) returns (s': State)
    requires Orderly(setup, s0, s) && setup.layout.configured
    requires i < |s.calls| && s.calls[i].exec == Knows(Done, Big(setup.layout, c))
    requires setup.premises.timelyRecord ==> Timely(setup, s.calls[i], s.clock)
    ensures Orderly(setup, s0, s')
    ensures var call := s.calls[i];
            s' == Patched(s, i, call.net, Stored(Done, Big(setup.layout, c), Offloaded(setup.layout, call.owner)))
                    .(objects := s.objects[Ref(setup.layout.digest, call.owner) := Big(setup.layout, c)])
  {
    BigIsOffloaded(setup.layout, c);
    s' := Next(setup, s, Place(i, true));
    OrderlyStep(setup, s0, s, Place(i, true));
  }

  ghost predicate IsOffloaded(setup: Setup, s: State, owner: KeyId) {
    && owner in s.db.keys && s.db.keys[owner].status.Done?
    && s.db.keys[owner].ref == Some(Ref(setup.layout.digest, owner))
  }

  lemma OutcomeIsOffloaded(layout: Layout, db: Db, owner: KeyId, at: Instant)
    requires Held(db, owner)
    ensures CanComplete(db, owner, Done, Offloaded(layout, owner), None)
    ensures var db' := Completed(db, owner, Done, Offloaded(layout, owner), at, None);
            && Numbered(db') && db'.keys == db.keys[owner := db'.keys[owner]]
            && db'.keys[owner].status.Done? && db'.keys[owner].ref == Some(Ref(layout.digest, owner))
  {
  }

  lemma CompleteNow(setup: Setup, s0: State, s: State, i: nat, c: char) returns (s': State)
    requires Orderly(setup, s0, s)
    requires i < |s.calls| && Held(s.db, s.calls[i].owner)
    requires s.calls[i].exec == Stored(Done, Big(setup.layout, c), Offloaded(setup.layout, s.calls[i].owner))
    requires setup.premises.timelyRecord ==> Timely(setup, s.calls[i], s.clock)
    ensures Orderly(setup, s0, s') && IsOffloaded(setup, s', s.calls[i].owner) && Numbered(s'.db)
    ensures s' == Patched(s, i, s.calls[i].net, Finished).(db := s'.db)
    ensures s'.db.keys == s.db.keys[s.calls[i].owner := s'.db.keys[s.calls[i].owner]]
  {
    OutcomeIsOffloaded(setup.layout, s.db, s.calls[i].owner, s.clock);
    var step := Complete(i, s.clock, None, true);
    s' := Next(setup, s, step);
    OrderlyStep(setup, s0, s, step);
  }

  /** A whole write of a key that may be claimed. */
  lemma WriteNow(setup: Setup, s0: State, s: State, owner: KeyId, c: char) returns (s': State)
    requires Orderly(setup, s0, s) && Claimable(s.db, owner) && setup.layout.configured && setup.stale >= 0
    ensures Orderly(setup, s0, s') && IsOffloaded(setup, s', owner) && Numbered(s'.db)
    ensures s'.objects == s.objects[Ref(setup.layout.digest, owner) := Big(setup.layout, c)]
    ensures s'.db.keys == s.db.keys[owner := s'.db.keys[owner]]
    ensures |s'.calls| == |s.calls| + 1 && s'.calls[..|s.calls|] == s.calls
    ensures s'.clock == s.clock
  {
    var i := |s.calls|;
    var s1 := ClaimAndAnswer(setup, s0, s, owner, Big(setup.layout, c));
    var s2 := PlaceNow(setup, s0, s1, i, c);
    s' := CompleteNow(setup, s0, s2, i, c);
  }

  /** The probe finds an execution, with a body. */
  lemma ProbeNow(setup: Setup, s0: State, s: State, j: nat, body: Json) returns (s': State)
    requires Orderly(setup, s0, s) && j < |s.sweeps| && s.sweeps[j] == Sweep([AGENT], Idle)
    ensures Orderly(setup, s0, s')
    ensures s' == s.(sweeps := s.sweeps[j := Sweep([AGENT], Judged(Done, body))])
  {
    var step := Probe(j, 1, body);
    s' := Next(setup, s, step);
    OrderlyStep(setup, s0, s, step);
  }

  lemma KeepNow(setup: Setup, s0: State, s: State, j: nat, c: char) returns (s': State)
    requires Orderly(setup, s0, s) && setup.layout.configured
    requires j < |s.sweeps| && s.sweeps[j] == Sweep([AGENT], Judged(Done, Big(setup.layout, c)))
    ensures Orderly(setup, s0, s')
    ensures s' == s.(sweeps := s.sweeps[j := Sweep([AGENT], Kept(Done, Big(setup.layout, c), Offloaded(setup.layout, AGENT)))],
                     objects := s.objects[Ref(setup.layout.digest, AGENT) := Big(setup.layout, c)])
  {
    BigIsOffloaded(setup.layout, c);
    s' := Next(setup, s, Keep(j, true));
    OrderlyStep(setup, s0, s, Keep(j, true));
  }

  lemma ResolveNow(setup: Setup, s0: State, s: State, j: nat, c: char) returns (s': State)
    requires Orderly(setup, s0, s) && Held(s.db, AGENT)
    requires j < |s.sweeps|
    requires s.sweeps[j] == Sweep([AGENT], Kept(Done, Big(setup.layout, c), Offloaded(setup.layout, AGENT)))
    ensures Orderly(setup, s0, s') && IsOffloaded(setup, s', AGENT)
    ensures s' == s.(db := s'.db, sweeps := s.sweeps[j := Sweep([], Idle)])
  {
    OutcomeIsOffloaded(setup.layout, s.db, AGENT, s.clock);
    assert s.sweeps[j].todo[1..] == [];
    var step := Resolve(j, s.clock, None);
    s' := Next(setup, s, step);
    OrderlyStep(setup, s0, s, step);
  }

  /** A sweep settles the key with a body that it found. */
  lemma SweepSettles(setup: Setup, s0: State, s: State, j: nat, c: char) returns (s': State)
    requires Orderly(setup, s0, s) && Held(s.db, AGENT) && setup.layout.configured
    requires j < |s.sweeps| && s.sweeps[j] == Sweep([AGENT], Judged(Done, Big(setup.layout, c)))
    ensures Orderly(setup, s0, s') && IsOffloaded(setup, s', AGENT)
    ensures s' == s.(db := s'.db, sweeps := s.sweeps[j := Sweep([], Idle)],
                     objects := s.objects[Ref(setup.layout.digest, AGENT) := Big(setup.layout, c)])
  {
    var s1 := KeepNow(setup, s0, s, j, c);
    s' := ResolveNow(setup, s0, s1, j, c);
    assert s1.sweeps[j := Sweep([], Idle)] == s.sweeps[j := Sweep([], Idle)];
  }

  // ---------------------------------------------------------------------
  // Each condition is needed: orderly runs that change a replay without it
  // ---------------------------------------------------------------------

  ghost predicate Changed(setup: Setup, s: State, s': State, owner: KeyId) {
    && Orderly(setup, START, s) && Orderly(setup, s, s')
    && IsAnswered(s, owner) && !KeepsReplay(setup, s, s', owner)
  }

  ghost predicate SomeReplayChanges(setup: Setup) {
    exists s, s', owner :: Changed(setup, s, s', owner)
  }

  /** Another body lands in the object that a settled key refers to. */
  lemma Overwritten(setup: Setup, s: State, s': State, owner: KeyId)
    requires Orderly(setup, START, s) && Orderly(setup, s, s') && setup.layout.configured
    requires IsOffloaded(setup, s, owner) && owner in s'.db.keys && s'.db.keys[owner] == s.db.keys[owner]
    requires var ref := Ref(setup.layout.digest, owner);
             && ref in s.objects && s.objects[ref] == Big(setup.layout, 'a')
             && ref in s'.objects && s'.objects[ref] == Big(setup.layout, 'b')
    ensures SomeReplayChanges(setup)
  {
    BigDiffers(setup.layout);
    assert Changed(setup, s, s', owner);
  }

  /** An executor that is late overwrites what the sweep settled on. */
  lemma LatePlaceChanges(setup: Setup)
    requires setup.stale >= 0 && setup.layout.configured && !setup.premises.timelyRecord
    ensures SomeReplayChanges(setup)
  {
    OrderlyRefl(setup, START);
    var s1 := ClaimAndAnswer(setup, START, START, AGENT, Big(setup.layout, 'b'));
    var s2 := TickTo(setup, START, s1, setup.stale + 1);
    var s3 := SelectNow(setup, START, s2);
    var s4 := ProbeNow(setup, START, s3, 0, Big(setup.layout, 'a'));
    var s5 := SweepSettles(setup, START, s4, 0, 'a');
    OrderlyRefl(setup, s5);
    var s6 := PlaceNow(setup, s5, s5, 0, 'b');
    Overwritten(setup, s5, s6, AGENT);
  }

  /** Of two sweeps that found different bodies the slower one overwrites what the
      quicker one settled on. */
  lemma TwoSweepsChange(setup: Setup)
    requires setup.stale >= 0 && setup.layout.configured && !setup.premises.oneSweep
    ensures SomeReplayChanges(setup)
  {
    OrderlyRefl(setup, START);
    var s1 := ClaimNow(setup, START, START, AGENT);
    var s2 := TickTo(setup, START, s1, setup.stale + 1);
    var s3 := SelectNow(setup, START, s2);
    var s4 := SelectNow(setup, START, s3);
    var s5 := ProbeNow(setup, START, s4, 0, Big(setup.layout, 'a'));
    var s6 := ProbeNow(setup, START, s5, 1, Big(setup.layout, 'b'));
    var s7 := SweepSettles(setup, START, s6, 0, 'a');
    OrderlyRefl(setup, s7);
    var s8 := KeepNow(setup, s7, s7, 1, 'b');
    Overwritten(setup, s7, s8, AGENT);
  }

  /** A failure that committed and reported an error is recorded once more, on the
      second attempt, whose executor is then still about when the third one has
      settled the key. */
  lemma LostAckChanges(setup: Setup)
    requires setup.stale >= 0 && setup.layout.configured && !setup.premises.honestError
    ensures SomeReplayChanges(setup)
  {
    var s1 := FailedAndStored(setup);
    var s2 := CompleteFailure(setup, START, s1, 0, false);
    var s3 := ClaimAndAnswer(setup, START, s2, AGENT, Big(setup.layout, 'b'));
    assert s3.calls[0] == s2.calls[0] == s1.calls[0];
    var s4 := CompleteFailure(setup, START, s3, 0, true);
    assert s4.calls[1] == s3.calls[1];
    var s5 := WriteNow(setup, START, s4, AGENT, 'a');
    assert s5.calls[1] == s4.calls[1];
    OrderlyRefl(setup, s5);
    var s6 := PlaceNow(setup, s5, s5, 1, 'b');
    Overwritten(setup, s5, s6, AGENT);
  }

  /** Two keys of one object name overwrite each other. */
  lemma SharedNameChanges(setup: Setup)
    requires setup.stale >= 0 && setup.layout.configured && !Collisionless(setup.layout.digest)
    ensures SomeReplayChanges(setup)
  {
    var a: KeyId, b: KeyId :| Ref(setup.layout.digest, a) == Ref(setup.layout.digest, b) && a != b;
    OrderlyRefl(setup, START);
    var s1 := WriteNow(setup, START, START, a, 'a');
    OrderlyRefl(setup, s1);
    var s2 := WriteNow(setup, s1, s1, b, 'b');
    Overwritten(setup, s1, s2, a);
  }

  /** A deleted row replays nothing. */
  lemma ExpiryChanges(setup: Setup)
    requires setup.stale >= 0 && !setup.premises.retained
    ensures SomeReplayChanges(setup)
  {
    OrderlyRefl(setup, START);
    var s1 := ClaimAndAnswer(setup, START, START, AGENT, "");
    var place := Place(0, true);
    var s2 := Next(setup, s1, place);
    OrderlyStep(setup, START, s1, place);
    var complete := Complete(0, s2.clock, None, true);
    var s3 := Next(setup, s2, complete);
    OrderlyStep(setup, START, s2, complete);
    OrderlyRefl(setup, s3);
    OrderlyStep(setup, s3, s3, Expire(AGENT));
    assert Changed(setup, s3, Next(setup, s3, Expire(AGENT)), AGENT);
  }

  lemma SomeReplayChangesWithout(setup: Setup)
    requires setup.stale >= 0 && !KeepsReplays(setup)
    ensures SomeReplayChanges(setup)
  {
    var p := setup.premises;
    if !p.retained { ExpiryChanges(setup); }
    else if !p.timelyRecord { LatePlaceChanges(setup); }
    else if !p.oneSweep { TwoSweepsChange(setup); }
    else if !p.honestError { LostAckChanges(setup); }
    else { SharedNameChanges(setup); }
  }

  /** The guarantee, exactly. With an object store, no run ever changes or loses the
      replay of a key that is done or rejected if and only if the premises about
      recording hold and no two keys share an object name; without one, if and only
      if rows are retained. */
  lemma ReplayIsStableIff(setup: Setup)
    requires setup.stale >= 0
    ensures ReplaysAreStable(setup) <==> KeepsReplays(setup)
  {
    if KeepsReplays(setup) {
      ReplaysStayStable(setup);
    } else {
      SomeReplayChangesWithout(setup);
      var s, s', owner :| Changed(setup, s, s', owner);
      OrderlyLeads(setup, START, s);
      OrderlyLeads(setup, s, s');
      assert Init(START) && Reachable(setup, s);
    }
  }
}
