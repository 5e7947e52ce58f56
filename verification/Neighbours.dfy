/** What other processes do to the tables between two looks of one process: they
    claim, are rejected, complete and sweep, with faults of their own. */
module Neighbours {
  import opened Schema
  import opened Database
  import opened Transactions
  import opened Claims

  datatype Act =
    | TheirClaim(req: Request, granted: bool, fault: Fault)
    | TheirCompletion(owner: KeyId, status: Status, placement: Placement, fault: Fault)

  predicate ActOk(act: Act) {
    act.TheirCompletion? ==> IsOutcome(act.status) && PlacementOk(act.placement)
  }

  /** The last of them settles the key. */
  predicate EndsWithCompletion(acts: seq<Act>, owner: KeyId) {
    && acts != []
    && var last := acts[|acts| - 1];
    last.TheirCompletion? && last.fault.NoFault? && last.owner == owner
  }

  method Interfere(db: Postgres, acts: seq<Act>, now: Instant, ghost session: nat)
    requires db.Valid() && forall i | 0 <= i < |acts| :: ActOk(acts[i])
    modifies db
    ensures db.Valid() && old(db.log) <= db.log && NoneBy(db.log, |old(db.log)|, session)
    ensures forall owner | EndsWithCompletion(acts, owner) :: !InFlight(db.keys, owner)
  {
    for i := 0 to |acts|
      invariant db.Valid() && old(db.log) <= db.log && NoneBy(db.log, |old(db.log)|, session)
      invariant forall owner | EndsWithCompletion(acts[..i], owner) :: !InFlight(db.keys, owner)
    {
      assert acts[..i + 1][i] == acts[i] && ActOk(acts[i]);
      match acts[i]
      case TheirClaim(req, granted, fault) =>
        var _, commit, found := db.Claim(req, now, granted, fault, 0, session + 1);
      case TheirCompletion(owner, status, placement, fault) =>
        var _, commit := db.Complete(owner, status, placement, now, fault, session + 1);
    }
    assert acts[..|acts|] == acts;
  }
}
