/** The committed tables and the three transactions that change them, each as
    one indivisible step: a claim that goes ahead, a claim that is rejected, and
    a completion. */
module Database {
  import opened Conflict
  import opened Schema

  /** How the claim that recorded an intent ended. A rejected claim names the
      intent it lost to; a successful one the downstream call it entitles to. */
  datatype Verdict = Won(call: nat) | Lost(to: nat)

  /** History kept beside each intent row, for stating properties only. The
      events are the commits, counted. */
  datatype Note = Note(
    attempt: nat,
    window: int,
    enforce: bool,
    verdict: Verdict,
    lockedAt: nat,
    voidEvent: Option<nat>)

  /** The intents are listed in the order in which they were committed. */
  datatype Db = Db(keys: Keys, intents: Intents, notes: seq<Note>, events: nat)

  const EMPTY := Db(map[], [], [], 0)

  ghost predicate FreshId(intents: Intents, id: nat) {
    forall i | 0 <= i < |intents| :: intents[i].id != id
  }

  // ---------------------------------------------------------------------
  // The three transactions
  // ---------------------------------------------------------------------

  /** The row the claim transaction writes before the conflict check. */
  ghost predicate Claims(db: Db, req: Request, start: Instant) {
    ClaimKey(RowOf(db.keys, req.owner), req, start).Fresh?
  }

  ghost function ClaimedRow(db: Db, req: Request, start: Instant): KeyRow
    requires Claims(db, req, start)
  {
    ClaimKey(RowOf(db.keys, req.owner), req, start).row
  }

  ghost predicate CanClaim(db: Db, req: Request, start: Instant, id: nat, lockedAt: nat) {
    && Claims(db, req, start)
    && MayProceed(db.keys, db.intents, req, start)
    && FreshId(db.intents, id)
    && lockedAt <= db.events
  }

  ghost function Claimed(db: Db, req: Request, start: Instant, id: nat, lockedAt: nat, call: nat): Db
    requires CanClaim(db, req, start, id, lockedAt)
  {
    var row := ClaimedRow(db, req, start);
    Db(db.keys[req.owner := row],
       db.intents + [Intent(id, req.owner, req.Target(), req.declared, start, None)],
       db.notes + [Note(row.attempts, req.window, req.enforce, Won(call), lockedAt, None)],
       db.events + 1)
  }

  /** A rejection needs somebody else's intent that clashes, that was not itself
      rejected, and that was live at some moment since the lock was taken. */
  ghost predicate CanReject(db: Db, req: Request, start: Instant, id: nat, lockedAt: nat, blocker: nat) {
    && Claims(db, req, start)
    && req.enforce
    && FreshId(db.intents, id)
    && lockedAt <= db.events
    && blocker < |db.intents| == |db.notes|
    && Clashes(db.intents[blocker], req, start)
    && db.intents[blocker].owner.agent != req.owner.agent
    && db.notes[blocker].verdict.Won?
    && LiveSince(db, blocker, lockedAt)
  }

  ghost predicate LiveSince(db: Db, i: nat, event: nat)
    requires i < |db.intents| == |db.notes|
  {
    Live(db.intents[i]) || (db.notes[i].voidEvent.Some? && db.notes[i].voidEvent.value >= event)
  }

  ghost function RejectedClaim(db: Db, req: Request, start: Instant, id: nat, lockedAt: nat, blocker: nat, body: Json): Db
    requires CanReject(db, req, start, id, lockedAt, blocker)
  {
    var row := ClaimedRow(db, req, start);
    Db(db.keys[req.owner := RejectedRow(row, body, start)],
       db.intents + [Intent(id, req.owner, req.Target(), req.declared, start, Some(start))],
       db.notes + [Note(row.attempts, req.window, req.enforce, Lost(blocker), lockedAt, Some(db.events))],
       db.events + 1)
  }

  /** The voiding statement runs only for a failed completion; it finds the
      latest live intent of the key, or none. */
  ghost predicate PickOk(intents: Intents, owner: KeyId, status: Status, pick: Option<nat>) {
    if status != Failed then pick.None?
    else match pick
      case Some(i) => IsLatestLive(intents, owner, i)
      case None => forall i | 0 <= i < |intents| :: !(Live(intents[i]) && intents[i].owner == owner)
  }

  predicate IsOutcome(status: Status) {
    status.Done? || status.Failed? || status.Indeterminate?
  }

  ghost predicate CanComplete(db: Db, owner: KeyId, status: Status, placement: Placement, pick: Option<nat>) {
    && InFlight(db.keys, owner)
    && IsOutcome(status)
    && PlacementOk(placement)
    && |db.intents| == |db.notes|
    && PickOk(db.intents, owner, status, pick)
  }

  ghost function Completed(db: Db, owner: KeyId, status: Status, placement: Placement, at: Instant, pick: Option<nat>): Db
    requires CanComplete(db, owner, status, placement, pick)
  {
    var keys := db.keys[owner := CompletedRow(db.keys[owner], status, placement, at)];
    match pick
    case None => Db(keys, db.intents, db.notes, db.events + 1)
    case Some(i) =>
      Db(keys, Voided(db.intents, i, at), db.notes[i := db.notes[i].(voidEvent := Some(db.events))], db.events + 1)
  }

  // ---------------------------------------------------------------------
  // What every committed state satisfies
  // ---------------------------------------------------------------------

  /** One live intent while the write may have happened, none once it provably
      did not. */
  function LiveWanted(status: Status): nat {
    if status.Failed? || status.Rejected? then 0 else 1
  }

  ghost predicate RowOk(db: Db, owner: KeyId)
    requires owner in db.keys
  {
    var row := db.keys[owner];
    && row.resource == row.hash.resource
    && RowChecks(row)
    && row.attempts >= 1
    && Recorded(db.intents, owner) == row.attempts
    && LiveCount(db.intents, owner) == LiveWanted(row.status)
  }

  ghost predicate RowsOk(db: Db) {
    forall owner | owner in db.keys :: RowOk(db, owner)
  }

  ghost predicate IntentOk(db: Db, i: nat)
    requires i < |db.intents| == |db.notes|
  {
    var intent, note := db.intents[i], db.notes[i];
    && intent.owner in db.keys
    && intent.resource == db.keys[intent.owner].resource
    && 1 <= note.attempt <= db.keys[intent.owner].attempts
    && (Live(intent) <==> note.voidEvent.None?)
    && (note.voidEvent.Some? ==> note.voidEvent.value < db.events)
    && note.lockedAt <= db.events
  }

  ghost predicate IntentsOk(db: Db) {
    && |db.intents| == |db.notes|
    && (forall i, j | 0 <= i < j < |db.intents| :: db.intents[i].id != db.intents[j].id)
    && (forall i | 0 <= i < |db.intents| :: IntentOk(db, i))
  }

  /** The later intent `j`, claimed under enforcement and still live, does not
      clash with the earlier live intent `i` of another agent. */
  ghost predicate Apart(db: Db, i: nat, j: nat)
    requires i < j < |db.intents| == |db.notes|
  {
    var earlier, later, note := db.intents[i], db.intents[j], db.notes[j];
    (&& Live(earlier) && Live(later) && note.enforce
     && earlier.resource == later.resource
     && earlier.owner.agent != later.owner.agent
     && earlier.emittedAt > later.emittedAt - note.window)
    ==> Compatible(later.declared, earlier.declared)
  }

  ghost predicate Exclusion(db: Db) {
    && |db.intents| == |db.notes|
    && forall i, j | 0 <= i < j < |db.intents| :: Apart(db, i, j)
  }

  /** A rejected claim lost to an earlier claim of another agent that went ahead,
      that really clashes, and that was live after the loser held the lock. */
  ghost predicate JustlyLost(db: Db, j: nat)
    requires j < |db.intents| == |db.notes|
  {
    var note, loser := db.notes[j], db.intents[j];
    note.verdict.Lost? ==>
      && !Live(loser) && note.enforce
      && note.verdict.to < j
      && var winner := db.intents[note.verdict.to];
      && db.notes[note.verdict.to].verdict.Won?
      && winner.owner.agent != loser.owner.agent
      && winner.resource == loser.resource
      && winner.emittedAt > loser.emittedAt - note.window
      && !Compatible(loser.declared, winner.declared)
      && LiveSince(db, note.verdict.to, note.lockedAt)
  }

  ghost predicate LossesOk(db: Db) {
    && |db.intents| == |db.notes|
    && forall j | 0 <= j < |db.intents| :: JustlyLost(db, j)
  }

  ghost predicate DbOk(db: Db) {
    RowsOk(db) && IntentsOk(db) && Exclusion(db) && LossesOk(db)
  }

  // ---------------------------------------------------------------------
  // How a row may change
  // ---------------------------------------------------------------------

  /** One commit's effect on one row. Failed is left only by another
      attempt, which is either let through or rejected in the same transaction. */
  ghost predicate Evolves(before: Option<KeyRow>, after: Option<KeyRow>) {
    match (before, after)
    case (None, None) => true
    case (Some(_), None) => false
    case (None, Some(new_)) => new_.attempts == 1 && (new_.status.Pending? || new_.status.Rejected?)
    case (Some(old_), Some(new_)) =>
      || new_ == old_
      || (&& new_.hash == old_.hash && new_.resource == old_.resource
          && (match old_.status
              case Pending =>
                && IsOutcome(new_.status)
                && new_.attempts == old_.attempts && new_.claimedAt == old_.claimedAt
              case Failed =>
                && (new_.status.Pending? || new_.status.Rejected?)
                && new_.attempts == old_.attempts + 1
              case _ => false))
  }

  predicate Settled(status: Status) {
    status.Done? || status.Indeterminate? || status.Rejected?
  }

  /** The closure of `Evolves` over any number of steps. */
  ghost predicate Later(before: Option<KeyRow>, after: Option<KeyRow>) {
    before.Some? ==>
      && after.Some?
      && after.value.hash == before.value.hash
      && after.value.resource == before.value.resource
      && before.value.attempts <= after.value.attempts
      && (Settled(before.value.status) ==> after.value == before.value)
      && (before.value.attempts == after.value.attempts && !before.value.status.Pending? ==> after.value == before.value)
  }

  // ---------------------------------------------------------------------
  // Consequences
  // ---------------------------------------------------------------------

  /** A key that may be claimed has no live intent, so a claim is never judged
      against an earlier attempt of its own key. */
  lemma FreshKeyHasNoLiveIntent(db: Db, req: Request, start: Instant)
    requires RowsOk(db) && IntentsOk(db) && Claims(db, req, start)
    ensures forall i | 0 <= i < |db.intents| && Live(db.intents[i]) :: db.intents[i].owner != req.owner
  {
    if req.owner in db.keys {
      assert RowOk(db, req.owner);
      NoneLive(db.intents, req.owner);
    } else {
      forall i | 0 <= i < |db.intents| ensures db.intents[i].owner != req.owner {
        assert IntentOk(db, i);
      }
    }
  }

  /** With one live intent per key, the voiding statement has no choice, and no
      failed completion ever finds nothing to void. */
  lemma VoidingHasOneChoice(db: Db, owner: KeyId, pick: Option<nat>)
    requires RowsOk(db) && InFlight(db.keys, owner) && PickOk(db.intents, owner, Failed, pick)
    ensures pick.Some?
    ensures forall i | 0 <= i < |db.intents| && Live(db.intents[i]) && db.intents[i].owner == owner :: i == pick.value
  {
    assert RowOk(db, owner);
    var only := OnlyLive(db.intents, owner);
  }

  // ---------------------------------------------------------------------
  // Preservation
  // ---------------------------------------------------------------------

  /** Both kinds of claim append one intent of the claimed key. */
  lemma AppendKeepsRows(db: Db, db': Db, req: Request, start: Instant)
    requires RowsOk(db) && IntentsOk(db) && Claims(db, req, start)
    requires db'.keys.Keys == db.keys.Keys + {req.owner}
    requires forall k | k in db.keys && k != req.owner :: db'.keys[k] == db.keys[k]
    requires |db'.intents| == |db.intents| + 1 && db'.intents[..|db.intents|] == db.intents
    requires db'.intents[|db.intents|].owner == req.owner
    requires var row, last := db'.keys[req.owner], db'.intents[|db.intents|];
             && row.hash == req.hash && row.resource == req.Target() && RowChecks(row)
             && row.attempts == ClaimedRow(db, req, start).attempts
             && LiveWanted(row.status) == if Live(last) then 1 else 0
    ensures RowsOk(db')
  {
    var last := db'.intents[|db.intents|];
    assert db'.intents == db.intents + [last];
    forall owner | owner in db'.keys ensures RowOk(db', owner) {
      CountsOfAppend(db.intents, last, owner);
      if owner != req.owner {
        assert RowOk(db, owner);
      } else if owner in db.keys {
        assert RowOk(db, owner);
      } else {
        forall i | 0 <= i < |db.intents| ensures db.intents[i].owner != owner {
          assert IntentOk(db, i);
        }
        NoneRecorded(db.intents, owner);
      }
    }
  }

  lemma ClaimKeepsIntents(db: Db, req: Request, start: Instant, id: nat, lockedAt: nat, call: nat)
    requires RowsOk(db) && IntentsOk(db) && CanClaim(db, req, start, id, lockedAt)
    ensures IntentsOk(Claimed(db, req, start, id, lockedAt, call))
  {
    var db' := Claimed(db, req, start, id, lockedAt, call);
    forall i | 0 <= i < |db'.intents| ensures IntentOk(db', i) {
      if i < |db.intents| {
        assert IntentOk(db, i) && db'.intents[i] == db.intents[i];
        assert RowOk(db, db.intents[i].owner);
      }
    }
  }

  lemma RejectKeepsIntents(db: Db, req: Request, start: Instant, id: nat, lockedAt: nat, blocker: nat, body: Json)
    requires RowsOk(db) && IntentsOk(db) && CanReject(db, req, start, id, lockedAt, blocker)
    ensures IntentsOk(RejectedClaim(db, req, start, id, lockedAt, blocker, body))
  {
    var db' := RejectedClaim(db, req, start, id, lockedAt, blocker, body);
    forall i | 0 <= i < |db'.intents| ensures IntentOk(db', i) {
      if i < |db.intents| {
        assert IntentOk(db, i) && db'.intents[i] == db.intents[i];
        assert RowOk(db, db.intents[i].owner);
      }
    }
  }

  lemma ClaimKeepsExclusion(db: Db, req: Request, start: Instant, id: nat, lockedAt: nat, call: nat)
    requires Exclusion(db) && LossesOk(db) && CanClaim(db, req, start, id, lockedAt)
    ensures Exclusion(Claimed(db, req, start, id, lockedAt, call))
    ensures LossesOk(Claimed(db, req, start, id, lockedAt, call))
  {
    var db' := Claimed(db, req, start, id, lockedAt, call);
    forall i, j | 0 <= i < j < |db'.intents| ensures Apart(db', i, j) {
      if j < |db.intents| {
        assert Apart(db, i, j);
      }
    }
    forall j | 0 <= j < |db'.intents| ensures JustlyLost(db', j) {
      if j < |db.intents| {
        assert JustlyLost(db, j);
      }
    }
  }

  lemma RejectKeepsExclusion(db: Db, req: Request, start: Instant, id: nat, lockedAt: nat, blocker: nat, body: Json)
    requires Exclusion(db) && LossesOk(db) && CanReject(db, req, start, id, lockedAt, blocker)
    ensures Exclusion(RejectedClaim(db, req, start, id, lockedAt, blocker, body))
    ensures LossesOk(RejectedClaim(db, req, start, id, lockedAt, blocker, body))
  {
    var db' := RejectedClaim(db, req, start, id, lockedAt, blocker, body);
    forall i, j | 0 <= i < j < |db'.intents| ensures Apart(db', i, j) {
      if j < |db.intents| {
        assert Apart(db, i, j);
      }
    }
    forall j | 0 <= j < |db'.intents| ensures JustlyLost(db', j) {
      if j < |db.intents| {
        assert JustlyLost(db, j);
      }
    }
  }

  lemma ClaimKeepsDb(db: Db, req: Request, start: Instant, id: nat, lockedAt: nat, call: nat)
    requires DbOk(db) && CanClaim(db, req, start, id, lockedAt)
    ensures DbOk(Claimed(db, req, start, id, lockedAt, call))
  {
    var db' := Claimed(db, req, start, id, lockedAt, call);
    if req.owner in db.keys {
      assert RowOk(db, req.owner);
    }
    AppendKeepsRows(db, db', req, start);
    ClaimKeepsIntents(db, req, start, id, lockedAt, call);
    ClaimKeepsExclusion(db, req, start, id, lockedAt, call);
  }

  lemma RejectKeepsDb(db: Db, req: Request, start: Instant, id: nat, lockedAt: nat, blocker: nat, body: Json)
    requires DbOk(db) && CanReject(db, req, start, id, lockedAt, blocker)
    ensures DbOk(RejectedClaim(db, req, start, id, lockedAt, blocker, body))
  {
    var db' := RejectedClaim(db, req, start, id, lockedAt, blocker, body);
    if req.owner in db.keys {
      assert RowOk(db, req.owner);
    }
    AppendKeepsRows(db, db', req, start);
    RejectKeepsIntents(db, req, start, id, lockedAt, blocker, body);
    RejectKeepsExclusion(db, req, start, id, lockedAt, blocker, body);
  }

  lemma CompleteKeepsRows(db: Db, owner: KeyId, status: Status, placement: Placement, at: Instant, pick: Option<nat>)
    requires RowsOk(db) && CanComplete(db, owner, status, placement, pick)
    ensures RowsOk(Completed(db, owner, status, placement, at, pick))
  {
    var db' := Completed(db, owner, status, placement, at, pick);
    assert RowOk(db, owner);
    if status == Failed {
      VoidingHasOneChoice(db, owner, pick);
    }
    forall k | k in db'.keys ensures RowOk(db', k) {
      assert RowOk(db, k);
      if pick.Some? {
        CountsOfVoiding(db.intents, pick.value, at, k);
      }
    }
  }

  lemma CompleteKeepsIntents(db: Db, owner: KeyId, status: Status, placement: Placement, at: Instant, pick: Option<nat>)
    requires IntentsOk(db) && CanComplete(db, owner, status, placement, pick)
    ensures IntentsOk(Completed(db, owner, status, placement, at, pick))
  {
    var db' := Completed(db, owner, status, placement, at, pick);
    forall i | 0 <= i < |db'.intents| ensures IntentOk(db', i) {
      assert IntentOk(db, i);
    }
  }

  lemma CompleteKeepsExclusion(db: Db, owner: KeyId, status: Status, placement: Placement, at: Instant, pick: Option<nat>)
    requires IntentsOk(db) && Exclusion(db) && LossesOk(db) && CanComplete(db, owner, status, placement, pick)
    ensures Exclusion(Completed(db, owner, status, placement, at, pick))
    ensures LossesOk(Completed(db, owner, status, placement, at, pick))
  {
    var db' := Completed(db, owner, status, placement, at, pick);
    forall i, j | 0 <= i < j < |db'.intents| ensures Apart(db', i, j) {
      assert Apart(db, i, j);
    }
    forall j | 0 <= j < |db'.intents| ensures JustlyLost(db', j) {
      assert JustlyLost(db, j);
      assert IntentOk(db, j);
    }
  }

  lemma CompleteKeepsDb(db: Db, owner: KeyId, status: Status, placement: Placement, at: Instant, pick: Option<nat>)
    requires DbOk(db) && CanComplete(db, owner, status, placement, pick)
    ensures DbOk(Completed(db, owner, status, placement, at, pick))
  {
    CompleteKeepsRows(db, owner, status, placement, at, pick);
    CompleteKeepsIntents(db, owner, status, placement, at, pick);
    CompleteKeepsExclusion(db, owner, status, placement, at, pick);
  }
}
