/** What a crowd of conflicting claims on one resource comes to. */
module Contention {
  import opened Conflict
  import opened Schema
  import opened Database
  import opened Protocol
  import opened Runs

  /** The intent log only grows: rows keep their content, a voided row stays
      voided by the same commit, and verdicts are final. */
  ghost predicate Extends(db: Db, db': Db) {
    && |db.intents| == |db.notes| <= |db'.intents| == |db'.notes|
    && db.events <= db'.events
    && (forall i | 0 <= i < |db.intents| ::
          && db'.intents[i].(voidedAt := db.intents[i].voidedAt) == db.intents[i]
          && db'.notes[i].(voidEvent := db.notes[i].voidEvent) == db.notes[i]
          && (!Live(db.intents[i]) ==> !Live(db'.intents[i]) && db'.notes[i].voidEvent == db.notes[i].voidEvent))
  }

  lemma CompletionExtends(db: Db, owner: KeyId, status: Status, placement: Placement, at: Instant, pick: Option<nat>)
    requires CanComplete(db, owner, status, placement, pick)
    ensures Extends(db, Completed(db, owner, status, placement, at, pick))
  {
  }

  lemma StepExtends(setup: Setup, s: State, step: Step)
    requires |s.db.intents| == |s.db.notes| && Enabled(setup, s, step)
    ensures Extends(s.db, Next(setup, s, step).db)
  {
    match step
    case Complete(i, at, pick, _) =>
      CompletionExtends(s.db, s.calls[i].owner, s.calls[i].exec.status, s.calls[i].exec.placement, at, pick);
    case Resolve(j, at, pick) =>
      CompletionExtends(s.db, s.sweeps[j].todo[0], s.sweeps[j].stage.status, s.sweeps[j].stage.placement, at, pick);
    case _ =>
  }

  lemma {:induction false} RunExtends(setup: Setup, s: State, steps: seq<Step>)
    requires |s.db.intents| == |s.db.notes| && After(setup, s, steps).Some?
    ensures Extends(s.db, After(setup, s, steps).value.db)
  {
    if steps != [] {
      var mid := After(setup, s, steps[..|steps| - 1]).value;
      RunExtends(setup, s, steps[..|steps| - 1]);
      StepExtends(setup, mid, steps[|steps| - 1]);
      ExtendsIsTransitive(s.db, mid.db, Next(setup, mid, steps[|steps| - 1]).db);
    }
  }

  lemma ExtendsIsTransitive(a: Db, b: Db, c: Db)
    requires Extends(a, b) && Extends(b, c)
    ensures Extends(a, c)
  {
    forall i | 0 <= i < |a.intents|
      ensures c.intents[i].(voidedAt := a.intents[i].voidedAt) == a.intents[i]
      ensures c.notes[i].(voidEvent := a.notes[i].voidEvent) == a.notes[i]
    {
      assert b.intents[i].(voidedAt := a.intents[i].voidedAt) == a.intents[i];
      assert c.intents[i].(voidedAt := b.intents[i].voidedAt) == b.intents[i];
      assert b.notes[i].(voidEvent := a.notes[i].voidEvent) == a.notes[i];
      assert c.notes[i].(voidEvent := b.notes[i].voidEvent) == b.notes[i];
    }
  }

  /** The claims on `resource` that were decided, either way, after the first
      `from` ones. */
  ghost predicate Decided(db: Db, from: nat, resource: Resource, j: nat) {
    from <= j < |db.intents| && db.intents[j].resource == resource
  }

  ghost predicate WithinReach(db: Db, i: nat, j: nat)
    requires i < |db.intents| && j < |db.intents| == |db.notes|
  {
    db.intents[i].emittedAt > db.intents[j].emittedAt - db.notes[j].window
  }

  /** The claims decided between two states all contend: they took the lock
      after the first state, under enforcement, by different agents, pairwise
      incompatible and started within one window of each other; nothing live was
      in reach of any of them before; and none of those let through has failed. */
  ghost predicate Contend(db: Db, db': Db, resource: Resource) {
    var n := |db.intents|;
    && n == |db.notes| <= |db'.intents| == |db'.notes|
    && (forall j: nat | Decided(db', n, resource, j) :: db'.notes[j].enforce && db'.notes[j].lockedAt >= db.events)
    && (forall i: nat, j: nat | Decided(db', n, resource, i) && Decided(db', n, resource, j) && i != j ::
          && db'.intents[i].owner.agent != db'.intents[j].owner.agent
          && !Compatible(db'.intents[i].declared, db'.intents[j].declared)
          && WithinReach(db', i, j))
    && (forall i: nat, j: nat | 0 <= i < n && db.intents[i].resource == resource && Live(db.intents[i]) && Decided(db', n, resource, j) ::
          !WithinReach(db', i, j))
    && (forall j: nat | Decided(db', n, resource, j) && db'.notes[j].verdict.Won? :: Live(db'.intents[j]))
  }

  ghost predicate First(db: Db, from: nat, resource: Resource, j: nat) {
    Decided(db, from, resource, j) && forall i: nat | Decided(db, from, resource, i) :: j <= i
  }

  lemma FirstExists(db: Db, from: nat, resource: Resource, j: nat) returns (first: nat)
    requires Decided(db, from, resource, j)
    ensures First(db, from, resource, first)
    decreases j
  {
    if i: nat :| Decided(db, from, resource, i) && i < j {
      first := FirstExists(db, from, resource, i);
    } else {
      first := j;
    }
  }

  lemma FirstWins(db: Db, db': Db, resource: Resource, first: nat)
    requires DbOk(db) && DbOk(db') && Extends(db, db') && Contend(db, db', resource)
    requires First(db', |db.intents|, resource, first)
    ensures db'.notes[first].verdict.Won?
  {
    if db'.notes[first].verdict.Lost? {
      LoserLostToNewcomer(db, db', resource, first);
    }
  }

  /** Whoever lost did so to another of the contenders. */
  lemma LoserLostToNewcomer(db: Db, db': Db, resource: Resource, j: nat)
    requires DbOk(db) && DbOk(db') && Extends(db, db') && Contend(db, db', resource)
    requires Decided(db', |db.intents|, resource, j) && db'.notes[j].verdict.Lost?
    ensures Decided(db', |db.intents|, resource, db'.notes[j].verdict.to)
    ensures db'.notes[j].verdict.to < j && db'.notes[db'.notes[j].verdict.to].verdict.Won?
  {
    var b := db'.notes[j].verdict.to;
    assert b < |db.intents| ==> IntentOk(db, b);
    assert JustlyLost(db', j);
    assert WithinReach(db', b, j);
  }

  /** No mutual defeat. Of any number of contending claims exactly one is let
      through: the one decided first, and every other one lost to it. */
  lemma ExactlyOneWins(setup: Setup, s: State, s': State, resource: Resource, some: nat) returns (winner: nat)
    requires setup.premises.retained && Reachable(setup, s) && Leads(setup, s, s')
    requires Contend(s.db, s'.db, resource)
    requires Decided(s'.db, |s.db.intents|, resource, some)
    ensures First(s'.db, |s.db.intents|, resource, winner)
    ensures forall j: nat | Decided(s'.db, |s.db.intents|, resource, j) ::
              if j == winner then s'.db.notes[j].verdict.Won? else s'.db.notes[j].verdict == Lost(winner)
  {
    ReachableIsConsistent(setup, s);
    var steps :| After(setup, s, steps) == Some(s');
    AfterKeepsConsistent(setup, s, steps);
    RunExtends(setup, s, steps);
    winner := FirstExists(s'.db, |s.db.intents|, resource, some);
    OneWins(s.db, s'.db, resource, winner);
  }

  lemma OneWins(db: Db, db': Db, resource: Resource, winner: nat)
    requires DbOk(db) && DbOk(db') && Extends(db, db') && Contend(db, db', resource)
    requires First(db', |db.intents|, resource, winner)
    ensures forall j: nat | Decided(db', |db.intents|, resource, j) ::
              if j == winner then db'.notes[j].verdict.Won? else db'.notes[j].verdict == Lost(winner)
  {
    FirstWins(db, db', resource, winner);
    forall j: nat | Decided(db', |db.intents|, resource, j) && j != winner
      ensures db'.notes[j].verdict == Lost(winner)
    {
      OthersLose(db, db', resource, winner, j);
    }
  }

  lemma OthersLose(db: Db, db': Db, resource: Resource, winner: nat, j: nat)
    requires DbOk(db) && DbOk(db') && Extends(db, db') && Contend(db, db', resource)
    requires First(db', |db.intents|, resource, winner) && db'.notes[winner].verdict.Won?
    requires Decided(db', |db.intents|, resource, j) && j != winner
    ensures db'.notes[j].verdict == Lost(winner)
  {
    WinnersAreApart(db, db', resource, winner, j);
    if db'.notes[j].verdict.Lost? {
      LoserLostToNewcomer(db, db', resource, j);
      var b := db'.notes[j].verdict.to;
      if b != winner {
        WinnersAreApart(db, db', resource, winner, b);
      }
    }
  }

  /** Two contenders are never both let through. */
  lemma WinnersAreApart(db: Db, db': Db, resource: Resource, i: nat, j: nat)
    requires DbOk(db') && Contend(db, db', resource)
    requires i < j && Decided(db', |db.intents|, resource, i) && Decided(db', |db.intents|, resource, j)
    ensures !(db'.notes[i].verdict.Won? && db'.notes[j].verdict.Won?)
  {
    assert WithinReach(db', i, j) && Apart(db', i, j);
    CompatibleIsSymmetric(db'.intents[i].declared, db'.intents[j].declared);
  }
}
