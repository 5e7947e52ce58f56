/** One sweep of the reconciler over the key table. */
module Reconcile {
  import opened Conflict
  import opened Schema
  import opened Database
  import opened ResultStore
  import Ledger
  import opened Transactions
  import opened Claims
  import opened Neighbours

  /** What the sweep learns about a stale key. An error leaves the key alone. */
  datatype Answer = NotRegistered | Failing | Unknown | Counted(executions: nat, result: Json)

  datatype Summary = Summary(scanned: nat, done: nat, failed: nat, indeterminate: nat, unresolved: nat)

  /** The result that a probe brought along. */
  function FoundBy(answer: Answer): Json {
    if answer.Counted? && answer.executions > 0 then answer.result else ""
  }

  /** The commit records what the answer means: failed exactly for a count of zero, done
      exactly for a positive one and with the result found, indeterminate exactly if
      nothing could be found out. */
  ghost predicate Settles(commit: Commit, owner: KeyId, answer: Answer, accepted: bool, layout: Layout, at: Instant) {
    && commit.CompleteCommit? && commit.owner == owner && commit.at == at
    && (commit.status.Failed? <==> answer.Counted? && answer.executions == 0)
    && (commit.status.Done? <==> answer.Counted? && answer.executions > 0)
    && (commit.status.Indeterminate? <==> answer.NotRegistered? || answer.Unknown?)
    && commit.placement == PlacementOf(layout, owner, FoundBy(answer), accepted)
  }

  ghost predicate Stale(keys: Keys, owner: KeyId, now: Instant, after: int) {
    InFlight(keys, owner) && keys[owner].claimedAt < now - after
  }

  ghost predicate NoYounger(keys: Keys, a: KeyId, b: KeyId) {
    a in keys && b in keys && keys[a].claimedAt <= keys[b].claimedAt
  }

  /** Stale keys, oldest first, up to the batch: no key twice, only stale ones, all of
      them if they fit, and otherwise none older is left out. */
  ghost predicate IsSelection(candidates: seq<KeyId>, keys: Keys, now: Instant, after: int, batch: nat) {
    && (forall i | 0 <= i < |candidates| :: Stale(keys, candidates[i], now, after))
    && (forall i, j | 0 <= i < j < |candidates| :: candidates[i] != candidates[j])
    && (forall i, j | 0 <= i < j < |candidates| :: NoYounger(keys, candidates[i], candidates[j]))
    && |candidates| <= batch
    && (forall k | Stale(keys, k, now, after) && k !in candidates ::
          |candidates| == batch && forall i | 0 <= i < |candidates| :: NoYounger(keys, candidates[i], k))
  }

  /** The outside world during a sweep, by the number of the candidate: the probe's
      answer, whether the object store takes the result, the database's faults, and
      what other processes commit before it. */
  datatype World = World(answer: nat -> Answer, accepted: nat -> bool, fault: nat -> Fault, others: nat -> seq<Act>)

  ghost predicate WorldOk(world: World) {
    forall k: nat, i | 0 <= i < |world.others(k)| :: ActOk(world.others(k)[i])
  }

  /** A candidate that is counted under no heading: the probe gave a verdict, the
      update was answered, and somebody else had settled the key already. */
  ghost predicate IsMissed(keys: Keys, owner: KeyId, answer: Answer, fault: Fault) {
    !answer.Failing? && fault != FailsAt(1) && !InFlight(keys, owner)
  }

  /** The probe or the database failed. */
  predicate IsExcused(answer: Answer, fault: Fault) {
    answer.Failing? || !fault.NoFault?
  }

  /** What becomes of a candidate. */
  datatype Fate = Missed | Unresolved | WasDone | WasFailed | WasIndeterminate

  /** The probe or the update failed; or somebody else was first; or the key was settled
      as the answer means. */
  ghost function FateOf(keys: Keys, owner: KeyId, answer: Answer, fault: Fault): Fate {
    if answer.Failing? || fault == FailsAt(1) then Unresolved
    else if !InFlight(keys, owner) then Missed
    else if fault == FailsAt(2) || fault == LosesAnswer then Unresolved
    else if !answer.Counted? then WasIndeterminate
    else if answer.executions > 0 then WasDone
    else WasFailed
  }

  function Tally(fates: seq<Fate>, fate: Fate): nat {
    if fates == [] then 0
    else Tally(fates[..|fates| - 1], fate) + (if fates[|fates| - 1] == fate then 1 else 0)
  }

  lemma TallyOfFate(fates: seq<Fate>, more: Fate, fate: Fate)
    ensures Tally(fates + [more], fate) == Tally(fates, fate) + (if more == fate then 1 else 0)
  {
    assert (fates + [more])[..|fates|] == fates;
  }

  /** Every fate is tallied under one heading, or missed. */
  lemma {:induction false} TalliesAddUp(fates: seq<Fate>)
    ensures Tally(fates, WasDone) + Tally(fates, WasFailed) + Tally(fates, WasIndeterminate) + Tally(fates, Unresolved)
          + Tally(fates, Missed) == |fates|
  {
    if fates != [] {
      TalliesAddUp(fates[..|fates| - 1]);
    }
  }

  lemma {:induction false} TallyIsZero(fates: seq<Fate>, fate: Fate)
    ensures Tally(fates, fate) == 0 <==> forall i | 0 <= i < |fates| :: fates[i] != fate
  {
    if fates != [] {
      TallyIsZero(fates[..|fates| - 1], fate);
    }
  }

  ghost function SummaryOf(scanned: nat, fates: seq<Fate>): Summary {
    Summary(scanned, Tally(fates, WasDone), Tally(fates, WasFailed), Tally(fates, WasIndeterminate), Tally(fates, Unresolved))
  }

  /** The one counter that the fate names goes up. */
  ghost predicate CountsFate(before: Summary, after: Summary, fate: Fate) {
    && after.scanned == before.scanned
    && after.done == before.done + (if fate.WasDone? then 1 else 0)
    && after.failed == before.failed + (if fate.WasFailed? then 1 else 0)
    && after.indeterminate == before.indeterminate + (if fate.WasIndeterminate? then 1 else 0)
    && after.unresolved == before.unresolved + (if fate.Unresolved? then 1 else 0)
  }

  function Total(summary: Summary): nat {
    summary.done + summary.failed + summary.indeterminate + summary.unresolved
  }

  ghost predicate WasExecuted(records: seq<Ledger.Entry>, id: string) {
    exists e | e in records :: e.correlation == id
  }

  /** The probe of the downstream's ledger: the number of executions under the
      identifier, and the text of the latest one. */
  method AskLedger(book: Ledger.Book, id: string, answers: bool, render: Ledger.Entry -> Json) returns (answer: Answer)
    requires book.Valid() && id != ""
    ensures answer.Failing? <==> !answers
    ensures answers ==> answer.Counted? && (answer.executions > 0 <==> WasExecuted(book.records, id))
    ensures answer.Counted? ==> answer.executions == |Ledger.Scan(book.records, id)|
    ensures answer.Counted? && answer.executions > 0 ==>
            exists e | e in book.records && e.correlation == id ::
              && answer.result == render(e)
              && forall d | d in book.records && d.correlation == id :: d.sequence <= e.sequence
  {
    var outcome := book.Probe(id, answers);
    Ledger.ScanFinds(book.records, id);
    Ledger.ScanIsEmptyIff(book.records, id);
    match outcome
    case Unreachable => return Failing;
    case NotExecuted => return Counted(0, "");
    case Executed(count, last) =>
      assert last in Ledger.Scan(book.records, id);
      return Counted(count, render(last));
  }

  class Reconciler {
    const db: Postgres
    const store: Store
    const staleAfter: int
    const batch: nat

    constructor (db: Postgres, store: Store, staleAfter: int, batch: nat)
      ensures this.db == db && this.store == store && this.staleAfter == staleAfter && this.batch == batch
    {
      this.db, this.store, this.staleAfter, this.batch := db, store, staleAfter, batch;
    }

    /** A longest-pending key among `left`. */
    method Oldest(left: set<KeyId>) returns (oldest: KeyId)
      requires left != {} && left <= db.keys.Keys
      ensures oldest in left
      ensures forall k | k in left :: NoYounger(db.keys, oldest, k)
    {
      oldest :| oldest in left;
      var rest := left - {oldest};
      while rest != {}
        invariant rest <= left && oldest in left
        invariant forall k | k in left && k !in rest :: NoYounger(db.keys, oldest, k)
        decreases |rest|
      {
        var k :| k in rest;
        if db.keys[k].claimedAt < db.keys[oldest].claimedAt {
          oldest := k;
        }
        rest := rest - {k};
      }
    }

    /** The query for stale keys. */
    method StaleKeys(now: Instant) returns (candidates: seq<KeyId>)
      ensures IsSelection(candidates, db.keys, now, staleAfter, batch)
    {
      var left := set k | k in db.keys && db.keys[k].status == Pending && db.keys[k].claimedAt < now - staleAfter;
      candidates := [];
      while left != {} && |candidates| < batch
        invariant forall k | k in left :: Stale(db.keys, k, now, staleAfter) && k !in candidates
        invariant forall k | Stale(db.keys, k, now, staleAfter) :: k in left || k in candidates
        invariant forall i | 0 <= i < |candidates| :: Stale(db.keys, candidates[i], now, staleAfter)
        invariant forall i, j | 0 <= i < j < |candidates| :: candidates[i] != candidates[j]
        invariant forall i, j | 0 <= i < j < |candidates| :: NoYounger(db.keys, candidates[i], candidates[j])
        invariant forall i, k | 0 <= i < |candidates| && k in left :: NoYounger(db.keys, candidates[i], k)
        invariant |candidates| <= batch
        decreases |left|
      {
        var k := Oldest(left);
        candidates := candidates + [k];
        left := left - {k};
      }
    }

    /** Places a result and records the outcome. A failed update is counted as
        unresolved. */
    method CompleteWith(owner: KeyId, status: Status, result: Json, accepted: bool, fault: Fault, now: Instant, before: Summary, ghost session: nat)
      returns (updated: bool, after: Summary, ghost commit: Option<Commit>)
      requires db.Valid() && IsOutcome(status)
      modifies db, store
      ensures db.Valid()
      ensures Resolved(store.layout, store.objects, PlacementOf(store.layout, owner, result, accepted).inline,
                       PlacementOf(store.layout, owner, result, accepted).ref) == Some(result)
      ensures commit.None? ==> db.log == old(db.log)
      ensures commit.Some? ==>
              && db.log == old(db.log) + [Entry(commit.value, session)] && InFlight(old(db.keys), owner)
              && commit.value.CompleteCommit? && commit.value.owner == owner && commit.value.at == now
              && commit.value.status == status && commit.value.placement == PlacementOf(store.layout, owner, result, accepted)
      ensures fault.NoFault? ==> !InFlight(db.keys, owner)
      ensures updated <==> InFlight(old(db.keys), owner) && fault !in {FailsAt(1), FailsAt(2), LosesAnswer}
      ensures !updated && (fault == FailsAt(1) || InFlight(old(db.keys), owner)) ==> after == before.(unresolved := before.unresolved + 1)
      ensures updated || (fault != FailsAt(1) && !InFlight(old(db.keys), owner)) ==> after == before
    {
      var placement, _, _ := store.Place(owner, result, accepted);
      var answer;
      answer, commit := db.Complete(owner, status, placement, now, fault, session);
      if answer.Err? {
        return false, before.(unresolved := before.unresolved + 1), commit;
      }
      return answer.value, before, commit;
    }

    /** Resolves one candidate and counts it, unless somebody else was first. */
    method Resolve(owner: KeyId, answer: Answer, accepted: bool, fault: Fault, now: Instant, before: Summary, ghost session: nat)
      returns (after: Summary, ghost commit: Option<Commit>)
      requires db.Valid()
      modifies db, store
      ensures db.Valid()
      ensures commit.None? ==> db.log == old(db.log)
      ensures commit.Some? ==>
              && db.log == old(db.log) + [Entry(commit.value, session)] && InFlight(old(db.keys), owner)
              && Settles(commit.value, owner, answer, accepted, store.layout, now)
              && Resolved(store.layout, store.objects, commit.value.placement.inline, commit.value.placement.ref)
              == Some(FoundBy(answer))
      ensures CountsFate(before, after, FateOf(old(db.keys), owner, answer, fault))
      ensures !IsExcused(answer, fault) ==> !InFlight(db.keys, owner)
    {
      commit := None;
      match answer
      case Failing => return before.(unresolved := before.unresolved + 1), commit;
      case Counted(_, _) => after, commit := Conclude(owner, answer, accepted, fault, now, before, session);
      case _ => after, commit := Escalate(owner, accepted, fault, now, before, session);
    }

    /** Records what a count of executions means. */
    method Conclude(owner: KeyId, answer: Answer, accepted: bool, fault: Fault, now: Instant, before: Summary, ghost session: nat)
      returns (after: Summary, ghost commit: Option<Commit>)
      requires db.Valid() && answer.Counted?
      modifies db, store
      ensures db.Valid()
      ensures commit.None? ==> db.log == old(db.log)
      ensures commit.Some? ==>
              && db.log == old(db.log) + [Entry(commit.value, session)] && InFlight(old(db.keys), owner)
              && Settles(commit.value, owner, answer, accepted, store.layout, now)
              && Resolved(store.layout, store.objects, commit.value.placement.inline, commit.value.placement.ref)
              == Some(FoundBy(answer))
      ensures CountsFate(before, after, FateOf(old(db.keys), owner, answer, fault))
      ensures fault.NoFault? ==> !InFlight(db.keys, owner)
    {
      var updated;
      if answer.executions == 0 {
        updated, after, commit := CompleteWith(owner, Failed, "", accepted, fault, now, before, session);
        after := if updated then after.(failed := after.failed + 1) else after;
      } else {
        updated, after, commit := CompleteWith(owner, Done, answer.result, accepted, fault, now, before, session);
        after := if updated then after.(done := after.done + 1) else after;
      }
    }

    /** Gives a key up that nothing can be found out about. */
    method Escalate(owner: KeyId, accepted: bool, fault: Fault, now: Instant, before: Summary, ghost session: nat)
      returns (after: Summary, ghost commit: Option<Commit>)
      requires db.Valid()
      modifies db, store
      ensures db.Valid()
      ensures commit.None? ==> db.log == old(db.log)
      ensures commit.Some? ==>
              && db.log == old(db.log) + [Entry(commit.value, session)] && InFlight(old(db.keys), owner)
              && Settles(commit.value, owner, Unknown, accepted, store.layout, now)
              && Resolved(store.layout, store.objects, commit.value.placement.inline, commit.value.placement.ref) == Some("")
      ensures CountsFate(before, after, FateOf(old(db.keys), owner, Unknown, fault))
      ensures fault.NoFault? ==> !InFlight(db.keys, owner)
    {
      var updated;
      updated, after, commit := CompleteWith(owner, Indeterminate, "", accepted, fault, now, before, session);
      after := if updated then after.(indeterminate := after.indeterminate + 1) else after;
    }

    /** `resolve` against the downstream's own ledger: looks the probe up, asks it, and
        records. If anything is recorded, it is done exactly for an executed key, failed
        exactly for one that was not, and indeterminate exactly if no probe is
        registered. */
    method ResolveByLedger(owner: KeyId, registered: bool, book: Ledger.Book, answers: bool, render: Ledger.Entry -> Json, accepted: bool, fault: Fault, now: Instant, before: Summary, ghost session: nat)
      returns (after: Summary, ghost commit: Option<Commit>)
      requires db.Valid() && book.Valid() && store.layout.digest(CorrelationText(owner)) != ""
      modifies db, store
      ensures db.Valid()
      ensures commit.None? ==> db.log == old(db.log)
      ensures commit.Some? ==>
              && db.log == old(db.log) + [Entry(commit.value, session)]
              && commit.value.CompleteCommit? && commit.value.owner == owner
              && var executed := WasExecuted(book.records, store.layout.digest(CorrelationText(owner)));
              && (commit.value.status.Done? <==> registered && executed)
              && (commit.value.status.Failed? <==> registered && !executed)
              && (commit.value.status.Indeterminate? <==> !registered)
      ensures (answers || !registered) && fault.NoFault? ==> !InFlight(db.keys, owner)
    {
      var answer := NotRegistered;
      if registered {
        answer := AskLedger(book, store.layout.digest(CorrelationText(owner)), answers, render);
      }
      after, commit := Resolve(owner, answer, accepted, fault, now, before, session);
    }

    /** The turn of candidate `i`, after whatever the others did meanwhile. `turn`
        commits precede it. */
    method ResolveNext(owner: KeyId, i: nat, world: World, now: Instant, before: Summary, ghost session: nat)
      returns (after: Summary, ghost turn: nat)
      requires db.Valid() && WorldOk(world)
      modifies db, store
      ensures db.Valid() && old(db.log) <= db.log && |old(db.log)| <= turn <= |db.log|
      ensures CountsFate(before, after, FateOf(TablesAt(db.log, turn).keys, owner, world.answer(i), world.fault(i)))
      ensures forall e | |old(db.log)| <= e < |db.log| && db.log[e].session == session ::
                Settles(db.log[e].commit, owner, world.answer(i), world.accepted(i), store.layout, now)
      ensures !IsExcused(world.answer(i), world.fault(i)) ==> !InFlight(db.keys, owner)
      ensures EndsWithCompletion(world.others(i), owner) ==> !InFlight(TablesAt(db.log, turn).keys, owner)
    {
      Interfere(db, world.others(i), now, session);
      turn := |db.log|;
      ghost var log1 := db.log;
      ghost var commit;
      after, commit := Resolve(owner, world.answer(i), world.accepted(i), world.fault(i), now, before, session);
      assert db.log[..turn] == log1;
    }

    /** A sweep. Each candidate is counted under the heading of its fate, except those
        that somebody else settled before their turn, which are counted nowhere. The
        attempt for which a candidate was selected is over afterwards, unless its
        probe or its recording failed. The sweep commits completions of its
        candidates, each as its answer means, and nothing else. */
    method Sweep(world: World, now: Instant, ghost session: nat)
      returns (summary: Summary, candidates: seq<KeyId>, ghost turns: seq<nat>, ghost fates: seq<Fate>)
      requires db.Valid() && WorldOk(world)
      modifies db, store
      ensures db.Valid() && old(db.log) <= db.log
      ensures IsSelection(candidates, old(db.keys), now, staleAfter, batch)
      ensures |turns| == |fates| == |candidates|
      ensures IsSwept(old(db.log), db.log, candidates, turns, fates, world, store.layout, now, summary, session)
    {
      candidates := StaleKeys(now);
      summary := Summary(|candidates|, 0, 0, 0, 0);
      turns, fates := [], [];
      for i := 0 to |candidates|
        invariant db.Valid() && old(db.log) <= db.log && |turns| == i
        invariant IsSwept(old(db.log), db.log, candidates, turns, fates, world, store.layout, now, summary, session)
      {
        ghost var log0, before := db.log, summary;
        ghost var turn;
        summary, turn := ResolveNext(candidates[i], i, world, now, summary, session);
        ghost var fate := FateOf(TablesAt(db.log, turn).keys, candidates[i], world.answer(i), world.fault(i));
        SweepGoesOn(old(db.log), log0, db.log, candidates, turns, fates, world, store.layout, now, before, session, turn, fate, summary);
        turns, fates := turns + [turn], fates + [fate];
      }
    }
  }

  // ---------------------------------------------------------------------
  // The account of a sweep
  // ---------------------------------------------------------------------

  /** One candidate, selected at `start` and dealt with by `log`; `turn` commits
      precede its turn. */
  ghost predicate TurnOk(start: seq<Entry>, log: seq<Entry>, owner: KeyId, turn: nat, fate: Fate, world: World, j: nat) {
    && IsLog(start) && IsLog(log) && |start| <= turn <= |log|
    && InFlight(Replayed(start).value.keys, owner)
    && fate == FateOf(TablesAt(log, turn).keys, owner, world.answer(j), world.fault(j))
    && (EndsWithCompletion(world.others(j), owner) ==> !InFlight(TablesAt(log, turn).keys, owner))
    && (IsExcused(world.answer(j), world.fault(j))
        || AttemptOver(Replayed(log).value.keys, owner, Replayed(start).value.keys[owner].attempts))
  }

  ghost predicate TurnsOk(start: seq<Entry>, log: seq<Entry>, candidates: seq<KeyId>, turns: seq<nat>, fates: seq<Fate>, world: World) {
    && |turns| == |fates| <= |candidates|
    && forall j | 0 <= j < |turns| ::
         TurnOk(start, log, candidates[j], turns[j], fates[j], world, j)
  }

  /** The session settles candidates, each as its answer means, and commits nothing
      else. */
  ghost predicate OnlySettles(log: seq<Entry>, base: nat, candidates: seq<KeyId>, world: World, layout: Layout, now: Instant, session: nat) {
    forall e | base <= e < |log| && log[e].session == session ::
      exists j | 0 <= j < |candidates| :: Settles(log[e].commit, candidates[j], world.answer(j), world.accepted(j), layout, now)
  }

  ghost predicate IsSwept(start: seq<Entry>, log: seq<Entry>, candidates: seq<KeyId>, turns: seq<nat>, fates: seq<Fate>, world: World, layout: Layout, now: Instant, summary: Summary, session: nat) {
    && TurnsOk(start, log, candidates, turns, fates, world)
    && OnlySettles(log, |start|, candidates, world, layout, now, session)
    && summary == SummaryOf(|candidates|, fates)
  }

  lemma TurnStands(start: seq<Entry>, log: seq<Entry>, more: seq<Entry>, owner: KeyId, turn: nat, fate: Fate, world: World, j: nat)
    requires TurnOk(start, log, owner, turn, fate, world, j) && IsLog(more) && log <= more
    ensures TurnOk(start, more, owner, turn, fate, world, j)
  {
    assert more[..turn] == log[..turn];
    if !IsExcused(world.answer(j), world.fault(j)) {
      OverStaysOverLater(log, more, owner, Replayed(start).value.keys[owner].attempts);
    }
  }

  lemma TurnsGoOn(start: seq<Entry>, log: seq<Entry>, more: seq<Entry>, candidates: seq<KeyId>, turns: seq<nat>, fates: seq<Fate>, world: World, turn: nat, fate: Fate)
    requires TurnsOk(start, log, candidates, turns, fates, world) && |turns| < |candidates|
    requires IsLog(log) && IsLog(more) && log <= more
    requires TurnOk(start, more, candidates[|turns|], turn, fate, world, |turns|)
    ensures TurnsOk(start, more, candidates, turns + [turn], fates + [fate], world)
  {
    forall j | 0 <= j < |turns|
      ensures TurnOk(start, more, candidates[j], turns[j], fates[j], world, j)
    {
      TurnStands(start, log, more, candidates[j], turns[j], fates[j], world, j);
    }
  }

  lemma SummaryGoesOn(scanned: nat, fates: seq<Fate>, fate: Fate, after: Summary)
    requires CountsFate(SummaryOf(scanned, fates), after, fate)
    ensures after == SummaryOf(scanned, fates + [fate])
  {
    TallyOfFate(fates, fate, WasDone);
    TallyOfFate(fates, fate, WasFailed);
    TallyOfFate(fates, fate, WasIndeterminate);
    TallyOfFate(fates, fate, Unresolved);
  }

  lemma SweepGoesOn(start: seq<Entry>, log: seq<Entry>, more: seq<Entry>, candidates: seq<KeyId>, turns: seq<nat>, fates: seq<Fate>, world: World, layout: Layout, now: Instant, before: Summary, session: nat, turn: nat, fate: Fate, after: Summary)
    requires IsSwept(start, log, candidates, turns, fates, world, layout, now, before, session) && |turns| < |candidates|
    requires IsLog(start) && IsLog(log) && IsLog(more) && start <= log <= more && |log| <= turn <= |more|
    requires var owner, i := candidates[|turns|], |turns|;
             && InFlight(Replayed(start).value.keys, owner)
             && fate == FateOf(TablesAt(more, turn).keys, owner, world.answer(i), world.fault(i))
             && (EndsWithCompletion(world.others(i), owner) ==> !InFlight(TablesAt(more, turn).keys, owner))
             && (!IsExcused(world.answer(i), world.fault(i)) ==> !InFlight(Replayed(more).value.keys, owner))
             && forall e | |log| <= e < |more| && more[e].session == session ::
                  Settles(more[e].commit, owner, world.answer(i), world.accepted(i), layout, now)
    requires CountsFate(before, after, fate)
    ensures IsSwept(start, more, candidates, turns + [turn], fates + [fate], world, layout, now, after, session)
  {
    var owner, i := candidates[|turns|], |turns|;
    if !IsExcused(world.answer(i), world.fault(i)) {
      OutOfFlightIsOver(start, more, owner);
    }
    TurnsGoOn(start, log, more, candidates, turns, fates, world, turn, fate);
    SummaryGoesOn(|candidates|, fates, fate, after);
  }

  /** The counters add up to the number of keys scanned if and only if no candidate
      had been settled by somebody else before its turn. */
  lemma CountersAddUpIff(start: seq<Entry>, log: seq<Entry>, candidates: seq<KeyId>, turns: seq<nat>, fates: seq<Fate>, world: World, layout: Layout, now: Instant, summary: Summary, session: nat)
    requires IsSwept(start, log, candidates, turns, fates, world, layout, now, summary, session) && |turns| == |candidates|
    ensures Total(summary) <= summary.scanned
    ensures Total(summary) == summary.scanned <==>
              forall j | 0 <= j < |candidates| ::
                !IsMissed(TablesAt(log, turns[j]).keys, candidates[j], world.answer(j), world.fault(j))
  {
    TalliesAddUp(fates);
    TallyIsZero(fates, Missed);
    assert forall j | 0 <= j < |turns| ::
        TurnOk(start, log, candidates[j], turns[j], fates[j], world, j);
  }

  const KEY := KeyId("agent", "key")
  const WRITE := Request(KEY, Hash("agent", "set", "{}", Resource("invoice", "1")), Operation("replace", []), 1, false)

  /** One key, claimed at instant 0. */
  method OneClaim(encode: Rejection -> Json) returns (db: Postgres)
    ensures fresh(db) && db.Valid() && db.keys.Keys == {KEY} && Stale(db.keys, KEY, 100, 10)
  {
    db := new Postgres(encode);
    assert VerdictOn(EMPTY, WRITE, 0) == ClaimedNow;
    var _, commit, found := db.Claim(WRITE, 0, true, NoFault, 0, 0);
  }

  lemma OnlyKeyIsSelected(keys: Keys, candidates: seq<KeyId>)
    requires keys.Keys == {KEY} && Stale(keys, KEY, 100, 10) && IsSelection(candidates, keys, 100, 10, 1)
    ensures candidates == [KEY]
  {
    assert KEY in candidates || |candidates| == 1;
    forall i | 0 <= i < |candidates| ensures candidates[i] == KEY {
      assert Stale(keys, candidates[i], 100, 10);
    }
  }

  /** They need not add up: a sweep of one key that its executor completes first. */
  method LosesCount(encode: Rejection -> Json) returns (summary: Summary)
    ensures summary.scanned == 1 && Total(summary) == 0
  {
    var db := OneClaim(encode);
    var store := new Store(Layout((text: string) => text, false, 0));
    var sweeper := new Reconciler(db, store, 10, 1);
    var done := TheirCompletion(KEY, Done, Placement(None, None), NoFault);
    var world := World(_ => Counted(0, ""), _ => true, _ => NoFault, _ => [done]);
    ghost var log, keys := db.log, db.keys;
    var candidates;
    ghost var turns, fates;
    summary, candidates, turns, fates := sweeper.Sweep(world, 100, 1);
    OnlyKeyIsSelected(keys, candidates);
    assert TurnOk(log, db.log, candidates[0], turns[0], fates[0], world, 0);
    assert fates == [Missed];
    TalliesAddUp(fates);
    assert Tally(fates[..0], Missed) == 0;
  }
}
