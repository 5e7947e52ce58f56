/** The tables of the write path and the meaning of the single SQL statements
    that the claim and completion transactions are made of. */
module Schema {
  import opened Conflict

  datatype Option<+T> = None | Some(value: T)

  /** Nanoseconds on the database clock. */
  type Instant = int

  /** JSON text. An empty text is stored as NULL. */
  type Json = string

  /** The primary key of `idempotency_keys`. The key is a UUID, so it holds no
      NUL character. */
  datatype KeyId = KeyId(agent: string, key: Uuid)

  type Uuid = text: string | '\0' !in text witness ""

  datatype Resource = Resource(kind: string, id: string)

  /** The advisory lock is taken on this text. Two resources may share it, which
      only adds waiting; one resource always has the same one. */
  function LockName(resource: Resource): string {
    resource.kind + ":" + resource.id
  }

  /** The canonical request hash, as a free constructor over the hashed fields:
      equal hashes mean equal requests. */
  datatype Hash = Hash(agent: string, operation: string, payload: Json, resource: Resource)

  datatype Status = Pending | Done | Failed | Indeterminate | Rejected

  /** A row of `idempotency_keys`. */
  datatype KeyRow = KeyRow(
    hash: Hash,
    resource: Resource,
    status: Status,
    result: Option<Json>,
    ref: Option<string>,
    attempts: nat,
    claimedAt: Instant,
    completedAt: Option<Instant>)

  /** A row of `write_intents`, without the columns nothing here reads. */
  datatype Intent = Intent(
    id: nat,
    owner: KeyId,
    resource: Resource,
    declared: Operation,
    emittedAt: Instant,
    voidedAt: Option<Instant>)

  type Keys = map<KeyId, KeyRow>
  type Intents = seq<Intent>

  /** What a claim transaction is asked to do. */
  datatype Request = Request(
    owner: KeyId,
    hash: Hash,
    declared: Operation,
    window: int,
    enforce: bool)
  {
    /** The resource is one of the hashed fields. */
    function Target(): Resource {
      hash.resource
    }
  }

  /** The two CHECK constraints of the key table. */
  predicate RowChecks(row: KeyRow) {
    && (row.result.None? || row.ref.None?)
    && (row.status.Pending? || row.completedAt.Some?)
  }

  // ---------------------------------------------------------------------
  // The claim of a key: insert, or re-claim of a failed row
  // ---------------------------------------------------------------------

  function RowOf(keys: Keys, owner: KeyId): Option<KeyRow> {
    if owner in keys then Some(keys[owner]) else None
  }

  datatype KeyClaim = Fresh(row: KeyRow) | Mismatch | Existing

  function InsertedRow(req: Request, start: Instant): KeyRow {
    KeyRow(req.hash, req.Target(), Pending, None, None, 1, start, None)
  }

  function ReclaimedRow(row: KeyRow, start: Instant): KeyRow {
    row.(status := Pending, claimedAt := start, completedAt := None,
         attempts := row.attempts + 1, result := None, ref := None)
  }

  /** The three statements of `claimKey` run against one version of the row. */
  function ClaimKey(found: Option<KeyRow>, req: Request, start: Instant): KeyClaim {
    match found
    case None => Fresh(InsertedRow(req, start))
    case Some(row) =>
      if row.hash != req.hash then Mismatch
      else if row.status != Failed then Existing
      else Fresh(ReclaimedRow(row, start))
  }

  // ---------------------------------------------------------------------
  // The conflict window
  // ---------------------------------------------------------------------

  predicate Live(intent: Intent) {
    intent.voidedAt.None?
  }

  /** The WHERE clause of the window query except for the excluded identifier
      and the liveness test. */
  predicate InReach(intent: Intent, req: Request, start: Instant) {
    intent.resource == req.Target() && intent.emittedAt > start - req.window
  }

  /** A row the incoming write has to be judged against. */
  ghost predicate Clashes(intent: Intent, req: Request, start: Instant) {
    InReach(intent, req, start) && !Compatible(req.declared, intent.declared)
  }

  /** `found` is what the window query returns after the compatible rows are
      dropped: the positions of exactly the live clashing rows other than the
      excluded one, most recent first. */
  ghost predicate IsWindowRead(found: seq<nat>, intents: Intents, req: Request, start: Instant, exclude: nat) {
    && (forall k | 0 <= k < |found| :: found[k] < |intents|)
    && (forall j, k | 0 <= j < k < |found| :: found[j] != found[k])
    && (forall j, k | 0 <= j < k < |found| :: intents[found[j]].emittedAt >= intents[found[k]].emittedAt)
    && (forall i | 0 <= i < |intents| ::
          i in found <==> Live(intents[i]) && intents[i].id != exclude && Clashes(intents[i], req, start))
  }

  /** The key of `owner` is still in flight. A missing row is not. */
  predicate InFlight(keys: Keys, owner: KeyId) {
    owner in keys && keys[owner].status.Pending?
  }

  /** The whole conflict check run at once against one version of the tables:
      the write may go ahead. */
  ghost predicate MayProceed(keys: Keys, intents: Intents, req: Request, start: Instant) {
    forall i | 0 <= i < |intents| && Live(intents[i]) && Clashes(intents[i], req, start) ::
      !req.enforce || (intents[i].owner.agent == req.owner.agent && !InFlight(keys, intents[i].owner))
  }

  // ---------------------------------------------------------------------
  // Completion
  // ---------------------------------------------------------------------

  /** Where a result ended up: inline, in the object store, or nowhere. */
  datatype Placement = Placement(inline: Option<Json>, ref: Option<string>)

  predicate PlacementOk(placement: Placement) {
    placement.inline.None? || placement.ref.None?
  }

  function CompletedRow(row: KeyRow, status: Status, placement: Placement, at: Instant): KeyRow {
    row.(status := status, result := placement.inline, ref := placement.ref, completedAt := Some(at))
  }

  function RejectedRow(row: KeyRow, body: Json, at: Instant): KeyRow {
    row.(status := Rejected, completedAt := Some(at), result := Some(body))
  }

  /** The row that the `latest` subquery of the voiding statement picks. */
  predicate IsLatestLive(intents: Intents, owner: KeyId, pick: nat) {
    && pick < |intents|
    && Live(intents[pick]) && intents[pick].owner == owner
    && forall i | 0 <= i < |intents| && Live(intents[i]) && intents[i].owner == owner ::
         intents[i].emittedAt <= intents[pick].emittedAt
  }

  function Voided(intents: Intents, pick: nat, at: Instant): Intents
    requires pick < |intents|
  {
    intents[pick := intents[pick].(voidedAt := Some(at))]
  }

  // ---------------------------------------------------------------------
  // Counting intents
  // ---------------------------------------------------------------------

  function Recorded(intents: Intents, owner: KeyId): nat {
    if intents == [] then 0
    else Recorded(intents[..|intents| - 1], owner) + (if intents[|intents| - 1].owner == owner then 1 else 0)
  }

  function LiveCount(intents: Intents, owner: KeyId): nat {
    if intents == [] then 0
    else
      var last := intents[|intents| - 1];
      LiveCount(intents[..|intents| - 1], owner) + (if last.owner == owner && Live(last) then 1 else 0)
  }

  lemma CountsOfAppend(intents: Intents, intent: Intent, owner: KeyId)
    ensures Recorded(intents + [intent], owner) == Recorded(intents, owner) + (if intent.owner == owner then 1 else 0)
    ensures LiveCount(intents + [intent], owner)
         == LiveCount(intents, owner) + (if intent.owner == owner && Live(intent) then 1 else 0)
  {
    assert (intents + [intent])[..|intents|] == intents;
  }

  lemma {:induction false} CountsOfVoiding(intents: Intents, pick: nat, at: Instant, owner: KeyId)
    requires pick < |intents|
    ensures Recorded(Voided(intents, pick, at), owner) == Recorded(intents, owner)
    ensures LiveCount(Voided(intents, pick, at), owner)
         == LiveCount(intents, owner) - (if intents[pick].owner == owner && Live(intents[pick]) then 1 else 0)
  {
    var n := |intents| - 1;
    var after := Voided(intents, pick, at);
    if pick == n {
      assert after[..n] == intents[..n];
    } else {
      assert after[..n] == Voided(intents[..n], pick, at);
      CountsOfVoiding(intents[..n], pick, at, owner);
    }
  }

  /** A count of zero is the absence of a live row. */
  lemma {:induction false} NoneLive(intents: Intents, owner: KeyId)
    ensures LiveCount(intents, owner) == 0 <==>
            forall i | 0 <= i < |intents| :: !(intents[i].owner == owner && Live(intents[i]))
  {
    if intents != [] {
      var front := intents[..|intents| - 1];
      NoneLive(front, owner);
      assert forall i | 0 <= i < |front| :: front[i] == intents[i];
    }
  }

  /** A count of zero is the absence of any row. */
  lemma {:induction false} NoneRecorded(intents: Intents, owner: KeyId)
    ensures Recorded(intents, owner) == 0 <==> forall i | 0 <= i < |intents| :: intents[i].owner != owner
    ensures LiveCount(intents, owner) <= Recorded(intents, owner)
  {
    if intents != [] {
      var front := intents[..|intents| - 1];
      NoneRecorded(front, owner);
      assert forall i | 0 <= i < |front| :: front[i] == intents[i];
    }
  }

  /** A count of one is a unique live row. */
  lemma {:induction false} OnlyLive(intents: Intents, owner: KeyId) returns (pick: nat)
    requires LiveCount(intents, owner) == 1
    ensures pick < |intents| && intents[pick].owner == owner && Live(intents[pick])
    ensures forall i | 0 <= i < |intents| && intents[i].owner == owner && Live(intents[i]) :: i == pick
  {
    var n := |intents| - 1;
    var front := intents[..n];
    assert forall i | 0 <= i < n :: front[i] == intents[i];
    if intents[n].owner == owner && Live(intents[n]) {
      NoneLive(front, owner);
      pick := n;
    } else {
      pick := OnlyLive(front, owner);
    }
  }
}
