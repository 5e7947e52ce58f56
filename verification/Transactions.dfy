/** The history of the tables: what was committed, in order, and by whom. */
module Transactions {
  import opened Schema
  import opened Database

  datatype Commit =
    | ClaimCommit(req: Request, start: Instant, id: nat, lockedAt: nat, call: nat)
    | RejectCommit(req: Request, start: Instant, id: nat, lockedAt: nat, blocker: nat, body: Json)
    | CompleteCommit(owner: KeyId, status: Status, placement: Placement, at: Instant, pick: Option<nat>)

  /** One commit and the session it came from. */
  datatype Entry = Entry(commit: Commit, session: nat)

  ghost predicate CanCommit(db: Db, commit: Commit) {
    match commit
    case ClaimCommit(req, start, id, lockedAt, _) => CanClaim(db, req, start, id, lockedAt)
    case RejectCommit(req, start, id, lockedAt, blocker, _) => CanReject(db, req, start, id, lockedAt, blocker)
    case CompleteCommit(owner, status, placement, _, pick) => CanComplete(db, owner, status, placement, pick)
  }

  ghost function Committed(db: Db, commit: Commit): Db
    requires CanCommit(db, commit)
  {
    match commit
    case ClaimCommit(req, start, id, lockedAt, call) => Claimed(db, req, start, id, lockedAt, call)
    case RejectCommit(req, start, id, lockedAt, blocker, body) => RejectedClaim(db, req, start, id, lockedAt, blocker, body)
    case CompleteCommit(owner, status, placement, at, pick) => Completed(db, owner, status, placement, at, pick)
  }

  /** The tables that a history leads to, if each commit was possible in turn. */
  ghost function Replayed(log: seq<Entry>): Option<Db> {
    if log == [] then Some(EMPTY)
    else
      var before := Replayed(log[..|log| - 1]);
      var commit := log[|log| - 1].commit;
      if before.Some? && CanCommit(before.value, commit) then Some(Committed(before.value, commit)) else None
  }

  ghost predicate IsLog(log: seq<Entry>) {
    Replayed(log).Some?
  }

  /** The tables after the first `n` commits. */
  ghost function TablesAt(log: seq<Entry>, n: nat): Db
    requires n <= |log|
  {
    var tables := Replayed(log[..n]);
    if tables.Some? then tables.value else EMPTY
  }

  lemma LogGrows(log: seq<Entry>, entry: Entry)
    requires IsLog(log) && CanCommit(Replayed(log).value, entry.commit)
    ensures IsLog(log + [entry]) && Replayed(log + [entry]).value == Committed(Replayed(log).value, entry.commit)
  {
    var more := log + [entry];
    assert more[..|log|] == log;
  }

  lemma CommitKeepsDb(db: Db, commit: Commit)
    requires DbOk(db) && CanCommit(db, commit)
    ensures DbOk(Committed(db, commit))
  {
    match commit
    case ClaimCommit(req, start, id, lockedAt, call) => ClaimKeepsDb(db, req, start, id, lockedAt, call);
    case RejectCommit(req, start, id, lockedAt, blocker, body) => RejectKeepsDb(db, req, start, id, lockedAt, blocker, body);
    case CompleteCommit(owner, status, placement, at, pick) => CompleteKeepsDb(db, owner, status, placement, at, pick);
  }

  lemma {:induction false} PrefixIsLog(log: seq<Entry>, n: nat)
    requires IsLog(log) && n <= |log|
    ensures IsLog(log[..n])
  {
    if n < |log| {
      var front := log[..|log| - 1];
      PrefixIsLog(front, n);
      assert front[..n] == log[..n];
    } else {
      assert log[..n] == log;
    }
  }

  lemma {:induction false} LogIsOk(log: seq<Entry>)
    requires IsLog(log)
    ensures DbOk(Replayed(log).value)
  {
    if log != [] {
      LogIsOk(log[..|log| - 1]);
      CommitKeepsDb(Replayed(log[..|log| - 1]).value, log[|log| - 1].commit);
    }
  }

  // ---------------------------------------------------------------------
  // Rows over time
  // ---------------------------------------------------------------------

  lemma CommitEvolvesRows(db: Db, commit: Commit, owner: KeyId)
    requires CanCommit(db, commit)
    ensures Evolves(RowOf(db.keys, owner), RowOf(Committed(db, commit).keys, owner))
  {
  }

  /** Between any two points of a history every row has moved along its life cycle. */
  lemma {:induction false} RowsEvolve(log: seq<Entry>, m: nat, n: nat, owner: KeyId)
    requires IsLog(log) && m <= n <= |log|
    ensures Later(RowOf(TablesAt(log, m).keys, owner), RowOf(TablesAt(log, n).keys, owner))
    decreases n
  {
    if m < n {
      RowsEvolve(log, m, n - 1, owner);
      PrefixIsLog(log, n);
      var upto := log[..n];
      assert upto[..n - 1] == log[..n - 1];
      CommitEvolvesRows(TablesAt(log, n - 1), log[n - 1].commit, owner);
    }
  }

  /** A settled row stays as it is. */
  lemma SettledRowStays(log: seq<Entry>, m: nat, n: nat, owner: KeyId)
    requires IsLog(log) && m <= n <= |log|
    requires owner in TablesAt(log, m).keys && Settled(TablesAt(log, m).keys[owner].status)
    ensures owner in TablesAt(log, n).keys && TablesAt(log, n).keys[owner] == TablesAt(log, m).keys[owner]
  {
    RowsEvolve(log, m, n, owner);
  }

  /** This attempt of the key is over, whatever came of it. */
  ghost predicate AttemptOver(keys: Keys, owner: KeyId, attempt: nat) {
    owner in keys && (keys[owner].attempts > attempt || (keys[owner].attempts == attempt && !keys[owner].status.Pending?))
  }

  /** What is over stays over. */
  lemma OverStaysOver(log: seq<Entry>, m: nat, n: nat, owner: KeyId, attempt: nat)
    requires IsLog(log) && m <= n <= |log| && AttemptOver(TablesAt(log, m).keys, owner, attempt)
    ensures AttemptOver(TablesAt(log, n).keys, owner, attempt)
  {
    RowsEvolve(log, m, n, owner);
  }

  /** The same, for a history and a longer one. */
  lemma OverStaysOverLater(log: seq<Entry>, more: seq<Entry>, owner: KeyId, attempt: nat)
    requires IsLog(log) && IsLog(more) && log <= more && AttemptOver(Replayed(log).value.keys, owner, attempt)
    ensures AttemptOver(Replayed(more).value.keys, owner, attempt)
  {
    assert more[..|log|] == log && more[..|more|] == more;
    OverStaysOver(more, |log|, |more|, owner, attempt);
  }

  /** A key that was in flight and is not any more has that attempt behind it. */
  lemma OutOfFlightIsOver(log: seq<Entry>, more: seq<Entry>, owner: KeyId)
    requires IsLog(log) && IsLog(more) && log <= more
    requires InFlight(Replayed(log).value.keys, owner) && !InFlight(Replayed(more).value.keys, owner)
    ensures AttemptOver(Replayed(more).value.keys, owner, Replayed(log).value.keys[owner].attempts)
  {
    assert more[..|log|] == log && more[..|more|] == more;
    RowsEvolve(more, |log|, |more|, owner);
  }

  // ---------------------------------------------------------------------
  // Sessions
  // ---------------------------------------------------------------------

  /** None of the commits from `from` on comes from the session. */
  ghost predicate NoneBy(log: seq<Entry>, from: nat, session: nat) {
    forall i | from <= i < |log| :: log[i].session != session
  }

  ghost function CountBy(log: seq<Entry>, from: nat, session: nat): nat
    requires from <= |log|
    decreases |log|
  {
    if |log| == from then 0
    else CountBy(log[..|log| - 1], from, session) + (if log[|log| - 1].session == session then 1 else 0)
  }

  lemma CountOfAppend(log: seq<Entry>, entry: Entry, from: nat, session: nat)
    requires from <= |log|
    ensures CountBy(log + [entry], from, session) == CountBy(log, from, session) + (if entry.session == session then 1 else 0)
  {
    assert (log + [entry])[..|log|] == log;
  }

  lemma {:induction false} CountOfOthers(log: seq<Entry>, more: seq<Entry>, from: nat, session: nat)
    requires from <= |log| <= |more| && log <= more && NoneBy(more, |log|, session)
    ensures CountBy(more, from, session) == CountBy(log, from, session)
    decreases |more|
  {
    if |more| == |log| {
      assert more == log;
    } else {
      CountOfOthers(log, more[..|more| - 1], from, session);
    }
  }
}
