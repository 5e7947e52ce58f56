/** The claim and completion transactions as the code runs them, statement by
    statement and loop by loop, against tables it updates in place. */
module Claims {
  import opened Conflict
  import opened Schema
  import opened Database
  import opened Transactions

  datatype Resolution = Serialized | Refused | Observed

  /** A row of `conflicts`. */
  datatype ConflictRow = ConflictRow(
    id: nat,
    intentA: nat,
    intentB: nat,
    agentA: string,
    agentB: string,
    resource: Resource,
    resolution: Resolution)

  /** The fields of the body a rejected write is answered with. */
  datatype Rejection = Rejection(key: string, intent: nat, conflict: nat)

  datatype ClaimVerdict = ClaimedNow | AlreadyThere | OtherRequest | RejectedNow | Serialize | LockTimeout

  /** `record` is the row found in the way, `body` what a rejected write is answered. */
  datatype ClaimResult = ClaimResult(
    verdict: ClaimVerdict,
    blocking: Option<KeyId>,
    observed: nat,
    body: Option<Json>,
    record: Option<KeyRow>)

  datatype Result<T> = Ok(value: T) | Err

  /** A statement of a transaction may fail, which ends it without effect; or its
      commit goes through and the answer is lost on the way back. */
  datatype Fault = NoFault | FailsAt(statement: nat) | LosesAnswer

  const MAX_RECORDED_CONFLICTS := 10

  function Capped(found: seq<nat>): seq<nat> {
    if |found| > MAX_RECORDED_CONFLICTS then found[..MAX_RECORDED_CONFLICTS] else found
  }

  /** One conflict row for each of the first ten rows found, in their order: the new
      intent `id` against theirs, numbered from `next` on. */
  ghost predicate AreRecorded(rows: seq<ConflictRow>, found: seq<nat>, intents: Intents, req: Request, id: nat, resolution: Resolution, next: nat) {
    && (forall k | 0 <= k < |found| :: found[k] < |intents|)
    && |rows| == (if |found| > 10 then 10 else |found|)
    && forall k | 0 <= k < |rows| ::
         rows[k] == ConflictRow(next + k, id, intents[found[k]].id, req.owner.agent, intents[found[k]].owner.agent, req.Target(), resolution)
  }

  /** What a claim leaves in `conflicts`, given its window read. A write that is only
      observed pairs with every row found, and so does a rejected one, which names the
      first row of another agent; otherwise the rows found are settled ones of the same
      agent. */
  ghost predicate IsAccount(found: seq<nat>, before: seq<ConflictRow>, after: seq<ConflictRow>, keys: Keys, intents: Intents, req: Request, start: Instant, id: nat, next: nat, blocker: Option<nat>) {
    && IsWindowRead(found, intents, req, start, id)
    && before <= after
    && var rows := after[|before|..];
    && (!req.enforce ==> blocker.None? && AreRecorded(rows, found, intents, req, id, Observed, next))
    && (req.enforce && blocker.Some? ==>
          && AreRecorded(rows, found, intents, req, id, Refused, next)
          && exists k: nat :: IsFirstOther(intents, req.owner.agent, found, k) && found[k] == blocker.value)
    && (req.enforce && blocker.None? ==>
          && AreRecorded(rows, found, intents, req, id, Serialized, next)
          && forall k | 0 <= k < |found| ::
               intents[found[k]].owner.agent == req.owner.agent && !InFlight(keys, intents[found[k]].owner))
  }

  /** The claim's own intent is not in its window. */
  lemma OwnIntentIsNotFound(found: seq<nat>, intents: Intents, own: Intent, req: Request, start: Instant)
    requires IsWindowRead(found, intents + [own], req, start, own.id)
    ensures IsWindowRead(found, intents, req, start, own.id)
  {
    var seen := intents + [own];
    forall k | 0 <= k < |found| ensures found[k] < |intents| {
      assert found[k] in found && seen[found[k]].id != own.id;
    }
    assert forall i | 0 <= i < |intents| :: seen[i] == intents[i];
  }

  lemma AccountIsOnOld(found: seq<nat>, before: seq<ConflictRow>, after: seq<ConflictRow>, keys: Keys, intents: Intents, own: Intent, req: Request, start: Instant, next: nat, blocker: Option<nat>)
    requires IsAccount(found, before, after, keys, intents + [own], req, start, own.id, next, blocker)
    ensures IsAccount(found, before, after, keys, intents, req, start, own.id, next, blocker)
  {
    OwnIntentIsNotFound(found, intents, own, req, start);
    assert forall i | 0 <= i < |intents| :: (intents + [own])[i] == intents[i];
    if req.enforce && blocker.Some? {
      var k: nat :| IsFirstOther(intents + [own], req.owner.agent, found, k) && found[k] == blocker.value;
      assert IsFirstOther(intents, req.owner.agent, found, k);
    }
  }

  /** Position `k` holds the first row of another agent. */
  ghost predicate IsFirstOther(intents: Intents, agent: string, found: seq<nat>, k: nat) {
    && k < |found| && found[k] < |intents|
    && intents[found[k]].owner.agent != agent
    && forall l | 0 <= l < k :: found[l] < |intents| && intents[found[l]].owner.agent == agent
  }

  /** Different rows below `bound`, most recent first. */
  ghost predicate Ordered(intents: Intents, rows: seq<nat>, bound: nat) {
    && bound <= |intents|
    && (forall k | 0 <= k < |rows| :: rows[k] < bound)
    && (forall j, k | 0 <= j < k < |rows| :: rows[j] != rows[k])
    && (forall j, k | 0 <= j < k < |rows| :: intents[rows[j]].emittedAt >= intents[rows[k]].emittedAt)
  }

  lemma InsertionIsOrdered(intents: Intents, rows: seq<nat>, i: nat, at: nat)
    requires Ordered(intents, rows, i) && i < |intents| && at <= |rows|
    requires forall k | 0 <= k < at :: intents[rows[k]].emittedAt >= intents[i].emittedAt
    requires at < |rows| ==> intents[rows[at]].emittedAt < intents[i].emittedAt
    ensures Ordered(intents, rows[..at] + [i] + rows[at..], i + 1)
  {
    var more := rows[..at] + [i] + rows[at..];
    var old_ := (k: nat) => if k < at then k else k - 1;
    forall k: nat | k < |more|
      ensures more[k] == if k == at then i else rows[old_(k)]
    {
    }
    forall j: nat, k: nat | j < k < |more|
      ensures more[j] != more[k] && intents[more[j]].emittedAt >= intents[more[k]].emittedAt
    {
      if j != at && k != at {
        assert rows[old_(j)] != rows[old_(k)];
      } else if j == at {
        assert intents[rows[at]].emittedAt >= intents[rows[k - 1]].emittedAt || k - 1 == at;
      }
    }
  }

  /** The incompatible ones among `rows`, in the same order. */
  ghost predicate IsFiltered(intents: Intents, rows: seq<nat>, declared: Operation, found: seq<nat>) {
    && (forall k | 0 <= k < |found| :: found[k] < |intents| && found[k] in rows)
    && (forall j, k | 0 <= j < k < |found| :: found[j] != found[k])
    && (forall j, k | 0 <= j < k < |found| :: intents[found[j]].emittedAt >= intents[found[k]].emittedAt)
    && (forall i | 0 <= i < |intents| :: i in found <==> i in rows && !Compatible(declared, intents[i].declared))
  }

  lemma FilterGoesOn(intents: Intents, rows: seq<nat>, k: nat, declared: Operation, found: seq<nat>)
    requires Ordered(intents, rows, |intents|) && k < |rows| && IsFiltered(intents, rows[..k], declared, found)
    ensures IsFiltered(intents, rows[..k + 1], declared,
                       if Compatible(declared, intents[rows[k]].declared) then found else found + [rows[k]])
  {
    assert rows[..k + 1] == rows[..k] + [rows[k]];
    forall j | 0 <= j < |found|
      ensures found[j] != rows[k] && intents[found[j]].emittedAt >= intents[rows[k]].emittedAt
    {
      var i :| 0 <= i < k && rows[..k][i] == found[j];
      assert rows[i] == found[j];
    }
  }

  /** The verdict that the rows found in the window call for. */
  ghost predicate Judged(keys: Keys, intents: Intents, req: Request, found: seq<nat>, result: ClaimResult, primary: nat)
    requires forall k | 0 <= k < |found| :: found[k] < |intents|
  {
    match result.verdict
    case RejectedNow => req.enforce && result.observed == 0 && IsFirstOther(intents, req.owner.agent, found, primary)
    case Serialize =>
      && req.enforce
      && (forall k | 0 <= k < |found| :: intents[found[k]].owner.agent == req.owner.agent)
      && result.blocking.Some? && InFlight(keys, result.blocking.value)
      && exists k | 0 <= k < |found| :: intents[found[k]].owner == result.blocking.value
    case ClaimedNow =>
      && result.observed == (if req.enforce then 0 else |found|)
      && (req.enforce ==> forall k | 0 <= k < |found| ::
            intents[found[k]].owner.agent == req.owner.agent && !InFlight(keys, intents[found[k]].owner))
    case _ => false
  }

  class Postgres {
    const encode: Rejection -> Json
    var keys: Keys
    var intents: Intents
    var conflicts: seq<ConflictRow>
    var nextIntent: nat
    var nextConflict: nat
    ghost var notes: seq<Note>
    ghost var events: nat
    /** Everything ever committed. */
    ghost var log: seq<Entry>

    ghost function Contents(): Db
      reads this
    {
      Db(keys, intents, notes, events)
    }

    ghost predicate Valid()
      reads this
    {
      && Replayed(log) == Some(Contents())
      && DbOk(Contents())
      && forall i | 0 <= i < |intents| :: intents[i].id < nextIntent
    }

    constructor (encode: Rejection -> Json)
      ensures Valid() && Contents() == EMPTY && conflicts == [] && log == []
    {
      this.encode := encode;
      keys, intents, conflicts := map[], [], [];
      nextIntent, nextConflict := 0, 0;
      notes, events, log := [], 0, [];
    }

    // -------------------------------------------------------------------
    // The statements of a claim
    // -------------------------------------------------------------------

    /** INSERT ... ON CONFLICT DO NOTHING. */
    method InsertClaim(req: Request, start: Instant) returns (won: bool)
      modifies this`keys
      ensures won <==> req.owner !in old(keys)
      ensures keys == if won then old(keys)[req.owner := InsertedRow(req, start)] else old(keys)
    {
      if req.owner in keys {
        return false;
      }
      keys := keys[req.owner := InsertedRow(req, start)];
      return true;
    }

    /** UPDATE ... WHERE status = 'failed'. */
    method Reclaim(owner: KeyId, start: Instant) returns (reclaimed: bool)
      modifies this`keys
      ensures reclaimed <==> owner in old(keys) && old(keys)[owner].status.Failed?
      ensures keys == if reclaimed then old(keys)[owner := ReclaimedRow(old(keys)[owner], start)] else old(keys)
    {
      if owner !in keys || keys[owner].status != Failed {
        return false;
      }
      keys := keys[owner := ReclaimedRow(keys[owner], start)];
      return true;
    }

    /** Whether the key is this transaction's, and what to answer if not. */
    method TakeKey(req: Request, start: Instant) returns (verdict: ClaimVerdict, mine: bool, record: Option<KeyRow>)
      modifies this`keys
      ensures match ClaimKey(RowOf(old(keys), req.owner), req, start)
              case Fresh(row) => mine && verdict == ClaimedNow && keys == old(keys)[req.owner := row]
              case Mismatch => !mine && verdict == OtherRequest && keys == old(keys)
              case Existing => !mine && verdict == AlreadyThere && keys == old(keys)
      ensures !mine ==> record == RowOf(old(keys), req.owner)
    {
      record := None;
      var won := InsertClaim(req, start);
      if won {
        return ClaimedNow, true, None;
      }
      var existing := keys[req.owner];
      if existing.hash != req.hash {
        return OtherRequest, false, Some(existing);
      }
      if existing.status != Failed {
        return AlreadyThere, false, Some(existing);
      }
      var reclaimed := Reclaim(req.owner, start);
      if !reclaimed {
        return AlreadyThere, false, Some(existing.(status := Pending));
      }
      return ClaimedNow, true, None;
    }

    /** The rows of the window query, most recent first. */
    method WindowRows(req: Request, start: Instant, exclude: nat) returns (rows: seq<nat>)
      ensures Ordered(intents, rows, |intents|)
      ensures forall i | 0 <= i < |intents| ::
                i in rows <==> Live(intents[i]) && intents[i].id != exclude && InReach(intents[i], req, start)
    {
      rows := [];
      for i := 0 to |intents|
        invariant Ordered(intents, rows, i)
        invariant forall h | 0 <= h < i ::
                    h in rows <==> Live(intents[h]) && intents[h].id != exclude && InReach(intents[h], req, start)
      {
        if Live(intents[i]) && intents[i].id != exclude && InReach(intents[i], req, start) {
          rows := Inserted(rows, i);
        }
      }
    }

    /** Puts row `i` before the first row that is older. */
    method Inserted(rows: seq<nat>, i: nat) returns (more: seq<nat>)
      requires Ordered(intents, rows, i)
      requires i < |intents|
      ensures Ordered(intents, more, i + 1)
      ensures forall h :: h in more <==> h in rows || h == i
    {
      var at := 0;
      while at < |rows| && intents[rows[at]].emittedAt >= intents[i].emittedAt
        invariant at <= |rows|
        invariant forall k | 0 <= k < at :: intents[rows[k]].emittedAt >= intents[i].emittedAt
      {
        at := at + 1;
      }
      more := rows[..at] + [i] + rows[at..];
      InsertionIsOrdered(intents, rows, i, at);
      assert rows == rows[..at] + rows[at..];
    }

    /** The loop that drops the compatible rows. */
    method ConflictingIntents(req: Request, start: Instant, exclude: nat) returns (found: seq<nat>)
      ensures IsWindowRead(found, intents, req, start, exclude)
    {
      var rows := WindowRows(req, start, exclude);
      found := [];
      for k := 0 to |rows|
        invariant IsFiltered(intents, rows[..k], req.declared, found)
      {
        var compatible := CheckCompatible(req.declared, intents[rows[k]].declared);
        FilterGoesOn(intents, rows, k, req.declared, found);
        if !compatible {
          found := found + [rows[k]];
        }
      }
      assert rows[..|rows|] == rows;
    }

    method SplitByAgent(agent: string, found: seq<nat>) returns (others: seq<nat>, same: seq<nat>)
      requires forall k | 0 <= k < |found| :: found[k] < |intents|
      ensures forall i :: i in others <==> i in found && intents[i].owner.agent != agent
      ensures forall i :: i in same <==> i in found && intents[i].owner.agent == agent
      ensures others == [] ==> same == found
      ensures others != [] ==> exists k: nat :: IsFirstOther(intents, agent, found, k) && found[k] == others[0]
    {
      others, same := [], [];
      ghost var first := 0;
      for k := 0 to |found|
        invariant forall i :: i in others <==> i in found[..k] && intents[i].owner.agent != agent
        invariant forall i :: i in same <==> i in found[..k] && intents[i].owner.agent == agent
        invariant others == [] ==> same == found[..k] && forall l | 0 <= l < k :: intents[found[l]].owner.agent == agent
        invariant others != [] ==> first < k && IsFirstOther(intents, agent, found, first) && found[first] == others[0]
      {
        assert found[..k + 1] == found[..k] + [found[k]];
        if intents[found[k]].owner.agent == agent {
          same := same + [found[k]];
        } else {
          if others == [] {
            first := k;
          }
          others := others + [found[k]];
        }
      }
      assert found[..|found|] == found;
    }

    /** The first key among them that is still in flight. */
    method FirstPending(same: seq<nat>) returns (blocking: Option<KeyId>)
      requires forall k | 0 <= k < |same| :: same[k] < |intents|
      ensures blocking.None? ==> forall k | 0 <= k < |same| :: !InFlight(keys, intents[same[k]].owner)
      ensures blocking.Some? ==> InFlight(keys, blocking.value) && exists k | 0 <= k < |same| :: intents[same[k]].owner == blocking.value
    {
      blocking := None;
      for k := 0 to |same|
        invariant blocking.None? ==> forall l | 0 <= l < k :: !InFlight(keys, intents[same[l]].owner)
        invariant blocking.Some? ==> InFlight(keys, blocking.value) && exists l | 0 <= l < k :: intents[same[l]].owner == blocking.value
      {
        if InFlight(keys, intents[same[k]].owner) && blocking.None? {
          blocking := Some(intents[same[k]].owner);
        }
      }
    }

    /** Records at most ten of the pairs, in the order given; names the first. */
    method RecordConflicts(req: Request, id: nat, found: seq<nat>, resolution: Resolution) returns (primary: Option<nat>)
      requires forall k | 0 <= k < |found| :: found[k] < |intents|
      modifies this`conflicts, this`nextConflict
      ensures old(conflicts) <= conflicts
      ensures AreRecorded(conflicts[|old(conflicts)|..], found, intents, req, id, resolution, old(nextConflict))
      ensures nextConflict == old(nextConflict) + |conflicts| - |old(conflicts)|
      ensures primary == if found == [] then None else Some(old(nextConflict))
    {
      var candidates := Capped(found);
      primary := None;
      for k := 0 to |candidates|
        invariant |conflicts| == |old(conflicts)| + k && conflicts[..|old(conflicts)|] == old(conflicts)
        invariant nextConflict == old(nextConflict) + k
        invariant forall l | 0 <= l < k ::
                    conflicts[|old(conflicts)| + l] == ConflictRow(
                      old(nextConflict) + l, id, intents[found[l]].id, req.owner.agent,
                      intents[found[l]].owner.agent, req.Target(), resolution)
        invariant primary == if k == 0 then None else Some(old(nextConflict))
      {
        var conflict, intent := nextConflict, intents[candidates[k]];
        conflicts := conflicts
          + [ConflictRow(conflict, id, intent.id, req.owner.agent, intent.owner.agent, req.Target(), resolution)];
        nextConflict := nextConflict + 1;
        if primary.None? {
          primary := Some(conflict);
        }
      }
    }

    /** UPDATE write_intents ... WHERE intent_id = id AND emitted_at = emittedAt. */
    method VoidIntent(id: nat, emittedAt: Instant, at: Instant)
      requires |intents| > 0
      requires intents[|intents| - 1].id == id && intents[|intents| - 1].emittedAt == emittedAt
      requires forall i | 0 <= i < |intents| - 1 :: intents[i].id != id
      modifies this`intents
      ensures intents == Voided(old(intents), |old(intents)| - 1, at)
    {
      var n := |intents| - 1;
      for i := 0 to |intents|
        invariant |intents| == |old(intents)|
        invariant intents == if i <= n then old(intents) else Voided(old(intents), n, at)
      {
        if intents[i].id == id && intents[i].emittedAt == emittedAt {
          intents := Voided(intents, i, at);
        }
      }
    }

    /** Rejects the key and voids the intent of a claim that lost to the row
        `winner`. */
    method Reject(req: Request, start: Instant, id: nat, winner: nat, all: seq<nat>) returns (body: Json)
      requires req.owner in keys && |intents| > 0 && winner < |intents| && all != []
      requires forall k | 0 <= k < |all| :: all[k] < |intents|
      requires intents[|intents| - 1].id == id && intents[|intents| - 1].emittedAt == start
      requires forall i | 0 <= i < |intents| - 1 :: intents[i].id != id
      modifies this`keys, this`intents, this`conflicts, this`nextConflict
      ensures body == encode(Rejection(req.owner.key, old(intents)[winner].id, old(nextConflict)))
      ensures keys == old(keys)[req.owner := RejectedRow(old(keys)[req.owner], body, start)]
      ensures keys[req.owner].status.Rejected? && keys[req.owner].result == Some(body)
      ensures intents == Voided(old(intents), |old(intents)| - 1, start)
      ensures old(conflicts) <= conflicts
      ensures AreRecorded(conflicts[|old(conflicts)|..], all, old(intents), req, id, Refused, old(nextConflict))
    {
      var conflict := RecordConflicts(req, id, all, Refused);
      body := encode(Rejection(req.owner.key, intents[winner].id, conflict.value));
      keys := keys[req.owner := RejectedRow(keys[req.owner], body, start)];
      VoidIntent(id, start, start);
    }

    /** What an enforced write that clashes with `candidates` comes to. */
    method ResolveEnforced(req: Request, start: Instant, id: nat, candidates: seq<nat>)
      returns (result: ClaimResult, ghost primary: nat)
      requires req.enforce && req.owner in keys && |intents| > 0 && candidates != []
      requires intents[|intents| - 1].id == id && intents[|intents| - 1].emittedAt == start
      requires forall i | 0 <= i < |intents| - 1 :: intents[i].id != id
      requires IsWindowRead(candidates, intents, req, start, id)
      modifies this`keys, this`intents, this`conflicts, this`nextConflict
      ensures Judged(old(keys), old(intents), req, candidates, result, primary)
      ensures result.verdict != RejectedNow ==> keys == old(keys) && intents == old(intents)
      ensures result.verdict == Serialize ==> conflicts == old(conflicts)
      ensures result.verdict != Serialize ==>
              IsAccount(candidates, old(conflicts), conflicts, old(keys), old(intents), req, start, id, old(nextConflict),
                        if result.verdict == RejectedNow then Some(candidates[primary]) else None)
      ensures result.verdict == RejectedNow ==>
              && result.body == Some(encode(Rejection(req.owner.key, old(intents)[candidates[primary]].id, old(nextConflict))))
              && keys == old(keys)[req.owner := RejectedRow(old(keys)[req.owner], result.body.value, start)]
              && intents == Voided(old(intents), |old(intents)| - 1, start)
    {
      primary := 0;
      var others, same := SplitByAgent(req.owner.agent, candidates);
      if |others| > 0 {
        primary :| IsFirstOther(intents, req.owner.agent, candidates, primary) && candidates[primary] == others[0];
        var body := Reject(req, start, id, others[0], candidates);
        return ClaimResult(RejectedNow, None, 0, Some(body), None), primary;
      }
      assert forall k | 0 <= k < |candidates| :: candidates[k] !in others;
      var blocking := FirstPending(same);
      if blocking.Some? {
        return ClaimResult(Serialize, blocking, 0, None, None), primary;
      }
      var _ := RecordConflicts(req, id, same, Serialized);
      return ClaimResult(ClaimedNow, None, 0, None, None), primary;
    }

    /** The conflict check of a claim that has written its key row and, as the
        last row, its intent. */
    method ResolveConflicts(req: Request, start: Instant, id: nat)
      returns (result: ClaimResult, ghost found: seq<nat>, ghost primary: nat)
      requires req.owner in keys && |intents| > 0
      requires intents[|intents| - 1].id == id && intents[|intents| - 1].emittedAt == start
      requires forall i | 0 <= i < |intents| - 1 :: intents[i].id != id
      modifies this`keys, this`intents, this`conflicts, this`nextConflict
      ensures IsWindowRead(found, old(intents), req, start, id)
      ensures Judged(old(keys), old(intents), req, found, result, primary)
      ensures result.verdict != RejectedNow ==> keys == old(keys) && intents == old(intents)
      ensures result.verdict == Serialize ==> conflicts == old(conflicts)
      ensures result.verdict != Serialize ==>
              IsAccount(found, old(conflicts), conflicts, old(keys), old(intents), req, start, id, old(nextConflict),
                        if result.verdict == RejectedNow then Some(found[primary]) else None)
      ensures result.verdict == RejectedNow ==>
              && result.body == Some(encode(Rejection(req.owner.key, old(intents)[found[primary]].id, old(nextConflict))))
              && keys == old(keys)[req.owner := RejectedRow(old(keys)[req.owner], result.body.value, start)]
              && intents == Voided(old(intents), |old(intents)| - 1, start)
    {
      primary := 0;
      var candidates := ConflictingIntents(req, start, id);
      found := candidates;
      if |candidates| == 0 {
        return ClaimResult(ClaimedNow, None, 0, None, None), found, primary;
      }
      if !req.enforce {
        var _ := RecordConflicts(req, id, candidates, Observed);
        return ClaimResult(ClaimedNow, None, |candidates|, None, None), found, primary;
      }
      result, primary := ResolveEnforced(req, start, id, candidates);
    }

    /** Records the intent of a claim that has its key row and checks it. `db` is
        what the tables held when the transaction began. */
    method RecordAndCheck(req: Request, start: Instant, ghost db: Db, ghost call: nat)
      returns (outcome: ClaimResult, ghost commit: Option<Commit>, ghost found: seq<nat>)
      requires DbOk(db) && Claims(db, req, start)
      requires keys == db.keys[req.owner := ClaimedRow(db, req, start)] && intents == db.intents
      requires forall i | 0 <= i < |intents| :: intents[i].id < nextIntent
      modifies this`keys, this`intents, this`conflicts, this`nextIntent, this`nextConflict
      ensures nextIntent == old(nextIntent) + 1
      ensures forall i | 0 <= i < |intents| :: intents[i].id < nextIntent
      ensures outcome.verdict == VerdictOn(db, req, start)
      ensures commit.Some? ==>
              && CanCommit(db, commit.value)
              && keys == Committed(db, commit.value).keys && intents == Committed(db, commit.value).intents
      ensures outcome.verdict == ClaimedNow ==> commit == Some(ClaimCommit(req, start, old(nextIntent), db.events, call))
      ensures outcome.verdict == RejectedNow ==>
              && commit.Some? && commit.value.RejectCommit?
              && commit.value == RejectCommit(req, start, old(nextIntent), db.events, commit.value.blocker, commit.value.body)
              && commit.value.blocker < |db.intents|
              && commit.value.body == encode(Rejection(req.owner.key, db.intents[commit.value.blocker].id, old(nextConflict)))
              && outcome.body == Some(commit.value.body)
      ensures commit.Some? ==>
              && IsAccount(found, old(conflicts), conflicts, db.keys, db.intents, req, start, old(nextIntent),
                           old(nextConflict), BlockerOf(commit.value))
              && outcome.observed == if req.enforce then 0 else |found|
      ensures outcome.verdict == Serialize ==>
              && commit.None?
              && outcome.blocking.Some? && outcome.blocking.value.agent == req.owner.agent
              && InFlight(db.keys, outcome.blocking.value) && outcome.blocking.value != req.owner
    {
      var id := nextIntent;
      nextIntent := nextIntent + 1;
      intents := intents + [Intent(id, req.owner, req.Target(), req.declared, start, None)];
      ghost var primary;
      outcome, found, primary := ResolveConflicts(req, start, id);
      commit := CommitFollows(db, req, start, id, found, outcome, primary, keys, intents, call);
      if outcome.verdict != Serialize {
        AccountFollows(db, req, start, id, found, old(conflicts), conflicts, old(nextConflict), BlockerOf(commit.value));
      }
    }

    /** The bookkeeping of a commit: nothing here is read by the code. */
    ghost method Publish(db: Db, commit: Commit, session: nat)
      requires Replayed(log) == Some(db) && DbOk(db) && CanCommit(db, commit)
      requires keys == Committed(db, commit).keys && intents == Committed(db, commit).intents
      requires forall i | 0 <= i < |intents| :: intents[i].id < nextIntent
      modifies this`notes, this`events, this`log
      ensures Valid() && Contents() == Committed(db, commit) && log == old(log) + [Entry(commit, session)]
    {
      LogGrows(log, Entry(commit, session));
      CommitKeepsDb(db, commit);
      notes, events := Committed(db, commit).notes, Committed(db, commit).events;
      log := log + [Entry(commit, session)];
    }

    /** The tables are as they were before the transaction, but for the key row. */
    ghost predicate HasTaken(db: Db, req: Request, start: Instant)
      reads this
    {
      && DbOk(db) && Replayed(log) == Some(db) && Claims(db, req, start)
      && keys == db.keys[req.owner := ClaimedRow(db, req, start)] && intents == db.intents
      && notes == db.notes && events == db.events
      && (forall i | 0 <= i < |intents| :: intents[i].id < nextIntent)
    }

    /** The rest of a claim transaction that has its key: check, then commit or roll
        back. */
    method FinishClaim(req: Request, start: Instant, savedKeys: Keys, fault: Fault, ghost db: Db, ghost call: nat, ghost session: nat)
      returns (result: Result<ClaimResult>, ghost commit: Option<Commit>, ghost found: seq<nat>)
      requires HasTaken(db, req, start) && savedKeys == db.keys
      modifies this
      ensures Valid()
      ensures fault !in {FailsAt(3), FailsAt(4), FailsAt(5), LosesAnswer} ==> result.Ok?
      ensures result.Ok? ==> result.value.verdict == VerdictOn(db, req, start)
      ensures commit.None? ==> log == old(log) && Contents() == db && conflicts == old(conflicts)
      ensures commit.Some? ==>
              && log == old(log) + [Entry(commit.value, session)]
              && CanCommit(db, commit.value) && Contents() == Committed(db, commit.value)
              && CommitFor(commit.value, req, start, VerdictOn(db, req, start), call)
              && IsAccount(found, old(conflicts), conflicts, db.keys, db.intents, req, start, commit.value.id,
                           old(nextConflict), BlockerOf(commit.value))
      ensures result.Ok? && commit.Some? ==> result.value.observed == if req.enforce then 0 else |found|
      ensures result.Ok? ==> (commit.Some? <==> result.value.verdict in {ClaimedNow, RejectedNow})
      ensures result.Err? && commit.Some? ==> fault.LosesAnswer?
      ensures result.Ok? && result.value.verdict == RejectedNow ==>
              && commit.value.blocker < |db.intents|
              && commit.value.body == encode(Rejection(req.owner.key, db.intents[commit.value.blocker].id, old(nextConflict)))
              && result.value.body == Some(commit.value.body)
      ensures result.Ok? && result.value.verdict == Serialize ==>
              && result.value.blocking.Some? && result.value.blocking.value.agent == req.owner.agent
              && InFlight(db.keys, result.value.blocking.value)
              && result.value.blocking.value != req.owner
    {
      var savedIntents, savedConflicts := intents, conflicts;
      var outcome;
      outcome, commit, found := RecordAndCheck(req, start, db, call);
      if fault in {FailsAt(3), FailsAt(4), FailsAt(5)} || outcome.verdict == Serialize {
        keys, intents, conflicts := savedKeys, savedIntents, savedConflicts;
        commit := None;
        return if fault in {FailsAt(3), FailsAt(4), FailsAt(5)} then Err else Ok(outcome), commit, found;
      }
      Publish(db, commit.value, session);
      return if fault == LosesAnswer then Err else Ok(outcome), commit, found;
    }

    /** The claim transaction. `lockGranted` is the lock statement's outcome.

        The verdict is the one the whole check gives on the tables as they were.
        At most one thing is committed, the claim or the rejection that the
        verdict stands for, and it may be although an error is reported. */
    method Claim(req: Request, start: Instant, lockGranted: bool, fault: Fault, ghost call: nat, ghost session: nat)
      returns (result: Result<ClaimResult>, ghost commit: Option<Commit>, ghost found: seq<nat>)
      requires Valid()
      modifies this
      ensures Valid()
      ensures fault.NoFault? ==> result.Ok?
      ensures result.Ok? ==>
              result.value.verdict == if lockGranted then VerdictOn(old(Contents()), req, start) else LockTimeout
      ensures commit.None? ==> log == old(log) && Contents() == old(Contents()) && conflicts == old(conflicts)
      ensures commit.Some? ==>
              && log == old(log) + [Entry(commit.value, session)]
              && CanCommit(old(Contents()), commit.value) && Contents() == Committed(old(Contents()), commit.value)
              && CommitFor(commit.value, req, start, VerdictOn(old(Contents()), req, start), call)
              && IsAccount(found, old(conflicts), conflicts, old(keys), old(intents), req, start, commit.value.id,
                           old(nextConflict), BlockerOf(commit.value))
      ensures result.Ok? && commit.Some? ==> result.value.observed == if req.enforce then 0 else |found|
      ensures result.Ok? && result.value.verdict in {AlreadyThere, OtherRequest} ==>
              req.owner in old(keys) && result.value.record == Some(old(keys)[req.owner])
      ensures result.Ok? ==> (commit.Some? <==> result.value.verdict in {ClaimedNow, RejectedNow})
      ensures result.Err? && commit.Some? ==> fault.LosesAnswer?
      ensures result.Ok? && result.value.verdict == RejectedNow ==>
              && commit.value.blocker < |old(intents)|
              && commit.value.body == encode(Rejection(req.owner.key, old(intents)[commit.value.blocker].id, old(nextConflict)))
              && result.value.body == Some(commit.value.body)
              && req.owner in keys && keys[req.owner].status.Rejected?
              && keys[req.owner].result == result.value.body && keys[req.owner].ref.None?
      ensures result.Ok? && result.value.verdict == Serialize ==>
              && result.value.blocking.Some? && result.value.blocking.value.agent == req.owner.agent
              && InFlight(old(keys), result.value.blocking.value)
              && result.value.blocking.value != req.owner
    {
      commit, found := None, [];
      if fault == FailsAt(1) {
        return Err, commit, found;
      }
      if !lockGranted {
        return Ok(ClaimResult(LockTimeout, None, 0, None, None)), commit, found;
      }
      var savedKeys := keys;
      ghost var db := Contents();
      var verdict, mine, record := TakeKey(req, start);
      if fault == FailsAt(2) {
        keys := savedKeys;
        return Err, commit, found;
      }
      if !mine {
        return Ok(ClaimResult(verdict, None, 0, None, record)), commit, found;
      }
      result, commit, found := FinishClaim(req, start, savedKeys, fault, db, call, session);
      if commit.Some? && commit.value.RejectCommit? {
        RejectionIsStored(db, commit.value);
      }
    }

    /** The latest live intent of the key, as the subquery picks it. */
    method LatestLive(owner: KeyId) returns (pick: Option<nat>)
      ensures PickOk(intents, owner, Failed, pick)
    {
      pick := None;
      for i := 0 to |intents|
        invariant pick.None? ==> forall h | 0 <= h < i :: !(Live(intents[h]) && intents[h].owner == owner)
        invariant pick.Some? ==>
                    && pick.value < i && Live(intents[pick.value]) && intents[pick.value].owner == owner
                    && forall h | 0 <= h < i && Live(intents[h]) && intents[h].owner == owner ::
                         intents[h].emittedAt <= intents[pick.value].emittedAt
      {
        if Live(intents[i]) && intents[i].owner == owner
           && (pick.None? || intents[i].emittedAt > intents[pick.value].emittedAt) {
          pick := Some(i);
        }
      }
    }

    /** The completion transaction: status and voiding together, or nothing. It
        does nothing to a key that is not in flight, and then says so. */
    method Complete(owner: KeyId, status: Status, placement: Placement, at: Instant, fault: Fault, ghost session: nat)
      returns (updated: Result<bool>, ghost commit: Option<Commit>)
      requires Valid() && IsOutcome(status) && PlacementOk(placement)
      modifies this
      ensures Valid() && conflicts == old(conflicts) && nextIntent == old(nextIntent)
      ensures updated.Ok? ==> (updated.value <==> InFlight(old(keys), owner)) && (updated.value <==> commit.Some?)
      ensures commit.None? ==> log == old(log) && Contents() == old(Contents())
      ensures commit.Some? ==>
              && log == old(log) + [Entry(commit.value, session)]
              && CanCommit(old(Contents()), commit.value) && Contents() == Committed(old(Contents()), commit.value)
              && commit.value.CompleteCommit?
              && commit.value == CompleteCommit(owner, status, placement, at, commit.value.pick)
              && keys == old(keys)[owner := old(keys)[owner].(status := status, result := placement.inline,
                                                              ref := placement.ref, completedAt := Some(at))]
      ensures updated.Err? <==> fault == FailsAt(1) || (InFlight(old(keys), owner) && fault in {FailsAt(2), LosesAnswer})
      ensures updated.Err? ==> (commit.Some? <==> fault.LosesAnswer?)
    {
      commit := None;
      if fault == FailsAt(1) {
        return Err, commit;
      }
      if !(owner in keys && keys[owner].status == Pending) {
        return Ok(false), commit;
      }
      ghost var db := Contents();
      var savedKeys, savedIntents := keys, intents;
      var pick := None;
      keys := keys[owner := CompletedRow(keys[owner], status, placement, at)];
      if status == Failed {
        pick := LatestLive(owner);
        if pick.Some? {
          intents := Voided(intents, pick.value, at);
        }
      }
      if fault == FailsAt(2) {
        keys, intents := savedKeys, savedIntents;
        return Err, commit;
      }
      commit := Some(CompleteCommit(owner, status, placement, at, pick));
      Publish(db, commit.value, session);
      return if fault == LosesAnswer then Err else Ok(true), commit;
    }
  }

  ghost function BlockerOf(commit: Commit): Option<nat> {
    if commit.RejectCommit? then Some(commit.blocker) else None
  }

  /** The commit that a verdict stands for. */
  ghost predicate CommitFor(commit: Commit, req: Request, start: Instant, verdict: ClaimVerdict, call: nat) {
    match commit
    case ClaimCommit(r, s, _, _, c) => r == req && s == start && c == call && verdict == ClaimedNow
    case RejectCommit(r, s, _, _, _, _) => r == req && s == start && verdict == RejectedNow
    case CompleteCommit(_, _, _, _, _) => false
  }

  /** The verdict of the whole check on one version of the tables. */
  ghost function VerdictOn(db: Db, req: Request, start: Instant): ClaimVerdict {
    match ClaimKey(RowOf(db.keys, req.owner), req, start)
    case Mismatch => OtherRequest
    case Existing => AlreadyThere
    case Fresh(_) =>
      if MayProceed(db.keys, db.intents, req, start) then ClaimedNow
      else if exists i | 0 <= i < |db.intents| ::
                Live(db.intents[i]) && Clashes(db.intents[i], req, start) && db.intents[i].owner.agent != req.owner.agent
           then RejectedNow
      else Serialize
  }

  /** A live write on the same resource, less than a window ago, that does not commute
      with this one or overwrites a field that this one overwrites. */
  ghost predicate InTheWay(intent: Intent, req: Request, start: Instant) {
    && intent.voidedAt.None? && intent.resource == req.hash.resource && start - intent.emittedAt < req.window
    && (!MayCommute(intent.declared) || !MayCommute(req.declared)
        || exists path :: Overwrites(intent.declared, path) && Overwrites(req.declared, path))
  }

  ghost predicate OthersInTheWay(db: Db, req: Request, start: Instant) {
    exists i | 0 <= i < |db.intents| :: InTheWay(db.intents[i], req, start) && db.intents[i].owner.agent != req.owner.agent
  }

  ghost predicate OwnInTheWay(db: Db, req: Request, start: Instant) {
    exists i | 0 <= i < |db.intents| ::
      && InTheWay(db.intents[i], req, start) && db.intents[i].owner.agent == req.owner.agent
      && db.intents[i].owner in db.keys && db.keys[db.intents[i].owner].status.Pending?
  }

  ghost predicate IsTaken(db: Db, req: Request) {
    req.owner in db.keys && (db.keys[req.owner].hash != req.hash || !db.keys[req.owner].status.Failed?)
  }

  lemma InTheWayIff(intent: Intent, req: Request, start: Instant)
    ensures InTheWay(intent, req, start) <==> Live(intent) && Clashes(intent, req, start)
  {
    CompatibleMeaning(req.declared, intent.declared);
    assert (exists path :: Overwrites(intent.declared, path) && Overwrites(req.declared, path))
      <==> (exists path :: Overwrites(req.declared, path) && Overwrites(intent.declared, path));
  }

  /** The verdict, exactly, in terms of the tables. A key that has a row is answered from
      it, unless it failed under the same hash. Otherwise an enforced write is rejected if
      and only if another agent's write is in the way, has to wait if and only if only
      writes of its own agent are and one of them is pending, and is let through in all
      other cases. */
  lemma VerdictMeaning(db: Db, req: Request, start: Instant)
    ensures VerdictOn(db, req, start) == OtherRequest <==> req.owner in db.keys && db.keys[req.owner].hash != req.hash
    ensures VerdictOn(db, req, start) == AlreadyThere <==>
            req.owner in db.keys && db.keys[req.owner].hash == req.hash && !db.keys[req.owner].status.Failed?
    ensures VerdictOn(db, req, start) == RejectedNow <==>
            !IsTaken(db, req) && req.enforce && OthersInTheWay(db, req, start)
    ensures VerdictOn(db, req, start) == Serialize <==>
            !IsTaken(db, req) && req.enforce && !OthersInTheWay(db, req, start) && OwnInTheWay(db, req, start)
    ensures VerdictOn(db, req, start) == ClaimedNow <==>
            !IsTaken(db, req) && !(req.enforce && (OthersInTheWay(db, req, start) || OwnInTheWay(db, req, start)))
  {
    forall i | 0 <= i < |db.intents|
      ensures InTheWay(db.intents[i], req, start) <==> Live(db.intents[i]) && Clashes(db.intents[i], req, start)
    {
      InTheWayIff(db.intents[i], req, start);
    }
    assert !IsTaken(db, req) <==> Claims(db, req, start);
    assert MayProceed(db.keys, db.intents, req, start)
      <==> !(req.enforce && (OthersInTheWay(db, req, start) || OwnInTheWay(db, req, start)));
  }

  /** What the rows found in the window say about the tables as they were before
      the claim wrote anything. */
  lemma JudgeWindow(db: Db, req: Request, start: Instant, id: nat, found: seq<nat>)
    requires DbOk(db) && Claims(db, req, start) && FreshId(db.intents, id)
    requires IsWindowRead(found, db.intents + [Intent(id, req.owner, req.Target(), req.declared, start, None)], req, start, id)
    ensures forall k | 0 <= k < |found| ::
              && found[k] < |db.intents|
              && Live(db.intents[found[k]]) && Clashes(db.intents[found[k]], req, start)
              && db.intents[found[k]].owner != req.owner
              && db.notes[found[k]].verdict.Won?
    ensures forall i | 0 <= i < |db.intents| && Live(db.intents[i]) && Clashes(db.intents[i], req, start) :: i in found
  {
    var visible := db.intents + [Intent(id, req.owner, req.Target(), req.declared, start, None)];
    FreshKeyHasNoLiveIntent(db, req, start);
    forall k | 0 <= k < |found|
      ensures found[k] < |db.intents| && Live(db.intents[found[k]]) && Clashes(db.intents[found[k]], req, start)
      ensures db.notes[found[k]].verdict.Won?
    {
      assert found[k] in found && visible[found[k]].id != id;
      assert JustlyLost(db, found[k]);
    }
    forall i | 0 <= i < |db.intents| && Live(db.intents[i]) && Clashes(db.intents[i], req, start)
      ensures i in found
    {
      assert visible[i] == db.intents[i];
    }
  }

  /** The window's verdict is the verdict on the tables as they were. */
  lemma VerdictFollows(db: Db, req: Request, start: Instant, id: nat, found: seq<nat>, result: ClaimResult, primary: nat)
    requires DbOk(db) && Claims(db, req, start) && FreshId(db.intents, id)
    requires var visible := db.intents + [Intent(id, req.owner, req.Target(), req.declared, start, None)];
             && IsWindowRead(found, visible, req, start, id)
             && Judged(db.keys[req.owner := ClaimedRow(db, req, start)], visible, req, found, result, primary)
    ensures result.verdict == VerdictOn(db, req, start)
    ensures result.verdict == ClaimedNow ==> CanClaim(db, req, start, id, db.events)
    ensures result.verdict == RejectedNow ==>
            primary < |found| && found[primary] < |db.intents| && CanReject(db, req, start, id, db.events, found[primary])
    ensures result.verdict == Serialize ==>
            && result.blocking.Some? && result.blocking.value.agent == req.owner.agent
            && InFlight(db.keys, result.blocking.value) && result.blocking.value != req.owner
  {
    JudgeWindow(db, req, start, id, found);
    match result.verdict
    case RejectedNow =>
      assert Live(db.intents[found[primary]]);
    case Serialize =>
      var k :| 0 <= k < |found| && db.intents[found[k]].owner == result.blocking.value;
    case ClaimedNow =>
      forall i | 0 <= i < |db.intents| && Live(db.intents[i]) && Clashes(db.intents[i], req, start) && req.enforce
        ensures db.intents[i].owner.agent == req.owner.agent && !InFlight(db.keys, db.intents[i].owner)
      {
        var k :| 0 <= k < |found| && found[k] == i;
      }
  }

  /** The conflict rows are those that the tables call for as they were. */
  lemma AccountFollows(db: Db, req: Request, start: Instant, id: nat, found: seq<nat>, before: seq<ConflictRow>, after: seq<ConflictRow>, next: nat, blocker: Option<nat>)
    requires DbOk(db) && Claims(db, req, start) && FreshId(db.intents, id)
    requires IsAccount(found, before, after, db.keys[req.owner := ClaimedRow(db, req, start)],
                       db.intents + [Intent(id, req.owner, req.Target(), req.declared, start, None)],
                       req, start, id, next, blocker)
    ensures IsAccount(found, before, after, db.keys, db.intents, req, start, id, next, blocker)
  {
    var own := Intent(id, req.owner, req.Target(), req.declared, start, None);
    JudgeWindow(db, req, start, id, found);
    AccountIsOnOld(found, before, after, db.keys[req.owner := ClaimedRow(db, req, start)], db.intents, own, req, start, next, blocker);
  }

  /** A rejection leaves its body in the row. */
  lemma RejectionIsStored(db: Db, commit: Commit)
    requires CanCommit(db, commit) && commit.RejectCommit?
    ensures var row := RowOf(Committed(db, commit).keys, commit.req.owner);
            row.Some? && row.value.status.Rejected? && row.value.result == Some(commit.body) && row.value.ref.None?
  {
  }

  /** What the check wrote is what the commit stands for. */
  lemma CommitFollows(db: Db, req: Request, start: Instant, id: nat, found: seq<nat>, result: ClaimResult, primary: nat, keys: Keys, intents: Intents, call: nat)
    returns (commit: Option<Commit>)
    requires DbOk(db) && Claims(db, req, start) && FreshId(db.intents, id)
    requires var visible := db.intents + [Intent(id, req.owner, req.Target(), req.declared, start, None)];
             var taken := db.keys[req.owner := ClaimedRow(db, req, start)];
             && IsWindowRead(found, visible, req, start, id)
             && Judged(taken, visible, req, found, result, primary)
             && (result.verdict != RejectedNow ==> keys == taken && intents == visible)
             && (result.verdict == RejectedNow ==>
                   && result.body.Some? && keys == taken[req.owner := RejectedRow(taken[req.owner], result.body.value, start)]
                   && intents == Voided(visible, |visible| - 1, start))
    ensures result.verdict == VerdictOn(db, req, start)
    ensures commit.Some? <==> result.verdict != Serialize
    ensures commit.Some? ==>
            CanCommit(db, commit.value) && keys == Committed(db, commit.value).keys && intents == Committed(db, commit.value).intents
    ensures result.verdict == ClaimedNow ==> commit == Some(ClaimCommit(req, start, id, db.events, call))
    ensures result.verdict == RejectedNow ==>
            && primary < |found| && found[primary] < |db.intents|
            && commit == Some(RejectCommit(req, start, id, db.events, found[primary], result.body.value))
    ensures result.verdict == Serialize ==>
            && result.blocking.Some? && result.blocking.value.agent == req.owner.agent
            && InFlight(db.keys, result.blocking.value) && result.blocking.value != req.owner
  {
    VerdictFollows(db, req, start, id, found, result, primary);
    commit := match result.verdict
      case ClaimedNow => Some(ClaimCommit(req, start, id, db.events, call))
      case RejectedNow => Some(RejectCommit(req, start, id, db.events, found[primary], result.body.value))
      case _ => None;
  }
}
