/** The write protocol at the level of single SQL statements. A transaction reads
    the last committed version of the tables at each of its statements and its
    writes become visible at its commit; `now()` is fixed when it begins. A claim
    holds the resource lock from its first statement on; a completion never
    takes it. */
module Statements {
  import opened Schema
  import opened Database
  import opened Protocol

  /** How far a claim transaction has come. From `HasKey` on it has written the
      key row and holds the lock on that row. `readAt` counts the commits before
      the window was read; no statement depends on it. */
  datatype Phase =
    | Began
    | Locked
    | LostInsert
    | SawFailed
    | HasKey(row: KeyRow)
    | HasIntent(row: KeyRow, id: nat)
    | HasWindow(row: KeyRow, id: nat, found: seq<nat>, readAt: nat)
    | HasStatuses(row: KeyRow, id: nat, found: seq<nat>, readAt: nat)

  datatype Author = Executor(call: nat) | Sweeper(sweep: nat)

  /** How far a completion has come. From `Updated` on it holds the row lock. */
  datatype Writing = Opened | Updated | Picked(pick: Option<nat>)

  datatype Tx =
    | ClaimTx(req: Request, start: Instant, lockedAt: nat, phase: Phase)
    | CompleteTx(author: Author, owner: KeyId, status: Status, placement: Placement, start: Instant, writing: Writing)

  datatype Sys = Sys(a: State, txs: map<nat, Tx>, nextId: nat)

  predicate HoldsKey(phase: Phase) {
    phase.HasKey? || phase.HasIntent? || phase.HasWindow? || phase.HasStatuses?
  }

  predicate HoldsId(phase: Phase) {
    phase.HasIntent? || phase.HasWindow? || phase.HasStatuses?
  }

  predicate HoldsLock(tx: Tx) {
    tx.ClaimTx? && !tx.phase.Began?
  }

  predicate HoldsRow(tx: Tx) {
    match tx
    case ClaimTx(_, _, _, phase) => HoldsKey(phase)
    case CompleteTx(_, _, _, _, _, writing) => !writing.Opened?
  }

  function KeyOf(tx: Tx): KeyId {
    match tx
    case ClaimTx(req, _, _, _) => req.owner
    case CompleteTx(_, owner, _, _, _, _) => owner
  }

  ghost predicate LockFree(sys: Sys, resource: Resource) {
    forall t | t in sys.txs && HoldsLock(sys.txs[t]) :: LockName(sys.txs[t].req.Target()) != LockName(resource)
  }

  ghost predicate RowFree(sys: Sys, owner: KeyId) {
    forall t | t in sys.txs && HoldsRow(sys.txs[t]) :: KeyOf(sys.txs[t]) != owner
  }

  ghost predicate Absent(sys: Sys, author: Author) {
    forall t | t in sys.txs && sys.txs[t].CompleteTx? :: sys.txs[t].author != author
  }

  function OwnIntent(tx: Tx, id: nat, voidedAt: Option<Instant>): Intent
    requires tx.ClaimTx?
  {
    Intent(id, tx.req.owner, tx.req.Target(), tx.req.declared, tx.start, voidedAt)
  }

  /** Some row found in the window belongs to another agent. */
  ghost predicate IsOther(sys: Sys, tx: Tx, p: nat)
    requires tx.ClaimTx?
  {
    p < |sys.a.db.intents| && sys.a.db.intents[p].owner.agent != tx.req.owner.agent
  }

  ghost predicate AllSame(sys: Sys, tx: Tx, found: seq<nat>)
    requires tx.ClaimTx?
  {
    forall k | 0 <= k < |found| :: !IsOther(sys, tx, found[k])
  }

  ghost predicate NonePending(sys: Sys, found: seq<nat>) {
    forall k | 0 <= k < |found| && found[k] < |sys.a.db.intents| ::
      !InFlight(sys.a.db.keys, sys.a.db.intents[found[k]].owner)
  }

  /** The first of them, in the order of the window query. */
  ghost predicate IsPrimary(sys: Sys, tx: Tx, found: seq<nat>, k: nat)
    requires tx.ClaimTx?
  {
    k < |found| && IsOther(sys, tx, found[k]) && forall l | 0 <= l < k :: !IsOther(sys, tx, found[l])
  }

  // ---------------------------------------------------------------------
  // The moves
  // ---------------------------------------------------------------------

  datatype Move =
    | Env(step: Step)
    | BeginClaim(t: nat, req: Request)
    | TakeLock(t: nat)
    | Insert(t: nat)
    | ReadKey(t: nat)
    | Reclaim(t: nat)
    | RecordIntent(t: nat)
    | ReadWindow(t: nat, found: seq<nat>)
    | ReadStatuses(t: nat)
    | CommitClaimed(t: nat)
    | CommitRejected(t: nat, primary: nat, body: Json)
    | BeginComplete(t: nat, author: Author)
    | UpdateKey(t: nat)
    | PickIntent(t: nat, pick: Option<nat>)
    | CommitComplete(t: nat, acked: bool)
    | Rollback(t: nat)

  /** Everything that is not a database transaction of the write path. A process
      that gives up or crashes has no transaction left open; retention deletes a
      row only while nobody has it locked. */
  ghost predicate IsEnv(sys: Sys, step: Step) {
    match step
    case Claim(_, _, _, _) => false
    case Reject(_, _, _, _, _, _) => false
    case Complete(_, _, _, _) => false
    case CompleteMissed(_) => false
    case Resolve(_, _, _) => false
    case ResolveMissed(_) => false
    case Expire(owner) => RowFree(sys, owner)
    case GiveUp(i) => Absent(sys, Executor(i))
    case Skip(j) => Absent(sys, Sweeper(j))
    case SweepCrash(j) => Absent(sys, Sweeper(j))
    case _ => true
  }

  ghost predicate InPhase(sys: Sys, t: nat, phase: Phase -> bool) {
    t in sys.txs && sys.txs[t].ClaimTx? && phase(sys.txs[t].phase)
  }

  ghost predicate InWriting(sys: Sys, t: nat) {
    t in sys.txs && sys.txs[t].CompleteTx?
  }

  /** The author of a completion has something to record. */
  ghost predicate HasOutcome(a: State, author: Author) {
    match author
    case Executor(i) => i < |a.calls| && a.calls[i].exec.Stored?
    case Sweeper(j) => Busy(a, j) && a.sweeps[j].stage.Kept?
  }

  /** An executor's commit comes before its row turns stale. */
  ghost predicate InTime(setup: Setup, a: State, author: Author) {
    author.Executor? ==> author.call < |a.calls| && Timely(setup, a.calls[author.call], a.clock)
  }

  ghost predicate Possible(setup: Setup, sys: Sys, move: Move) {
    var db := sys.a.db;
    match move
    case Env(step) => IsEnv(sys, step) && Enabled(setup, sys.a, step)
    case BeginClaim(t, req) => t !in sys.txs
    case TakeLock(t) =>
      InPhase(sys, t, (p: Phase) => p.Began?) && LockFree(sys, sys.txs[t].req.Target())
    case Insert(t) =>
      && InPhase(sys, t, (p: Phase) => p.Locked?)
      && (sys.txs[t].req.owner !in db.keys ==> RowFree(sys, sys.txs[t].req.owner))
    case ReadKey(t) =>
      InPhase(sys, t, (p: Phase) => p.LostInsert?) && sys.txs[t].req.owner in db.keys
    case Reclaim(t) =>
      && InPhase(sys, t, (p: Phase) => p.SawFailed?)
      && sys.txs[t].req.owner in db.keys
      && (db.keys[sys.txs[t].req.owner].status.Failed? ==> RowFree(sys, sys.txs[t].req.owner))
    case RecordIntent(t) => InPhase(sys, t, (p: Phase) => p.HasKey?)
    case ReadWindow(t, found) =>
      && InPhase(sys, t, (p: Phase) => p.HasIntent?)
      && var tx := sys.txs[t];
      IsWindowRead(found, db.intents + [OwnIntent(tx, tx.phase.id, None)], tx.req, tx.start, tx.phase.id)
    case ReadStatuses(t) =>
      && InPhase(sys, t, (p: Phase) => p.HasWindow?)
      && var tx := sys.txs[t];
      tx.req.enforce && tx.phase.found != [] && AllSame(sys, tx, tx.phase.found)
    case CommitClaimed(t) =>
      || (&& InPhase(sys, t, (p: Phase) => p.HasWindow?)
          && (sys.txs[t].phase.found == [] || !sys.txs[t].req.enforce))
      || InPhase(sys, t, (p: Phase) => p.HasStatuses?)
    case CommitRejected(t, primary, body) =>
      && InPhase(sys, t, (p: Phase) => p.HasWindow?)
      && var tx := sys.txs[t];
      tx.req.enforce && IsPrimary(sys, tx, tx.phase.found, primary)
    case BeginComplete(t, author) =>
      t !in sys.txs && HasOutcome(sys.a, author) && Absent(sys, author)
    case UpdateKey(t) =>
      && InWriting(sys, t) && sys.txs[t].writing.Opened?
      && (InFlight(db.keys, sys.txs[t].owner) ==> RowFree(sys, sys.txs[t].owner))
    case PickIntent(t, pick) =>
      && InWriting(sys, t) && sys.txs[t].writing.Updated?
      && sys.txs[t].status == Failed
      && PickOk(db.intents, sys.txs[t].owner, Failed, pick)
    case CommitComplete(t, acked) =>
      && InWriting(sys, t)
      && (if sys.txs[t].status == Failed then sys.txs[t].writing.Picked? else sys.txs[t].writing.Updated?)
      && (setup.premises.timelyRecord ==> InTime(setup, sys.a, sys.txs[t].author))
      && (setup.premises.honestError ==> acked)
    case Rollback(t) => t in sys.txs
  }

  ghost function Advance(sys: Sys, t: nat, phase: Phase): Sys
    requires t in sys.txs && sys.txs[t].ClaimTx?
  {
    sys.(txs := sys.txs[t := sys.txs[t].(phase := phase)])
  }

  ghost function Ended(sys: Sys, t: nat): Sys {
    sys.(txs := sys.txs - {t})
  }

  ghost function Beginning(sys: Sys, author: Author): (tx: Tx)
    requires HasOutcome(sys.a, author)
    ensures tx.CompleteTx? && tx.author == author
  {
    match author
    case Executor(i) =>
      var c := sys.a.calls[i];
      CompleteTx(author, c.owner, c.exec.status, c.exec.placement, sys.a.clock, Opened)
    case Sweeper(j) =>
      var sweep := sys.a.sweeps[j];
      CompleteTx(author, sweep.todo[0], sweep.stage.status, sweep.stage.placement, sys.a.clock, Opened)
  }

  /** The author learns that its completion is over: the executor returns, the
      sweep goes on to its next key. */
  ghost function Told(a: State, author: Author): State {
    match author
    case Executor(i) => if i < |a.calls| then Patched(a, i, a.calls[i].net, Finished) else a
    case Sweeper(j) => if Busy(a, j) then Popped(a, j) else a
  }

  /** An executor that was told of an error tries again; a sweep goes on whatever
      it was told. */
  ghost function Heard(a: State, author: Author, acked: bool): State {
    if acked || author.Sweeper? then Told(a, author) else a
  }

  /** The committed effect of a claim's own writes. */
  ghost function Published(a: State, tx: Tx): State
    requires tx.ClaimTx? && HoldsId(tx.phase)
  {
    var row := tx.phase.row;
    a.(db := Db(a.db.keys[tx.req.owner := row],
                a.db.intents + [OwnIntent(tx, tx.phase.id, None)],
                a.db.notes + [Note(row.attempts, tx.req.window, tx.req.enforce, Won(|a.calls|), tx.lockedAt, None)],
                a.db.events + 1),
       calls := a.calls + [Call(|a.db.intents|, tx.req.owner, tx.req.hash, row.attempts, tx.start, Unsent, Working)])
  }

  ghost function PublishedRejection(a: State, tx: Tx, blocker: nat, body: Json): State
    requires tx.ClaimTx? && HoldsId(tx.phase)
  {
    var row := tx.phase.row;
    a.(db := Db(a.db.keys[tx.req.owner := RejectedRow(row, body, tx.start)],
                a.db.intents + [OwnIntent(tx, tx.phase.id, Some(tx.start))],
                a.db.notes + [Note(row.attempts, tx.req.window, tx.req.enforce, Lost(blocker), tx.lockedAt, Some(a.db.events))],
                a.db.events + 1))
  }

  ghost function PublishedOutcome(a: State, tx: Tx): State
    requires tx.CompleteTx? && tx.owner in a.db.keys
  {
    var keys := a.db.keys[tx.owner := CompletedRow(a.db.keys[tx.owner], tx.status, tx.placement, tx.start)];
    if tx.writing.Picked? && tx.writing.pick.Some?
       && tx.writing.pick.value < |a.db.intents| && tx.writing.pick.value < |a.db.notes| then
      var i := tx.writing.pick.value;
      a.(db := Db(keys, Voided(a.db.intents, i, tx.start),
                  a.db.notes[i := a.db.notes[i].(voidEvent := Some(a.db.events))], a.db.events + 1))
    else
      a.(db := a.db.(keys := keys, events := a.db.events + 1))
  }

  ghost function Then(setup: Setup, sys: Sys, move: Move): Sys
    requires Possible(setup, sys, move)
  {
    var db := sys.a.db;
    match move
    case Env(step) => sys.(a := Next(setup, sys.a, step))
    case BeginClaim(t, req) => sys.(txs := sys.txs[t := ClaimTx(req, sys.a.clock, 0, Began)])
    case TakeLock(t) =>
      sys.(txs := sys.txs[t := sys.txs[t].(phase := Locked, lockedAt := db.events)])
    case Insert(t) =>
      var tx := sys.txs[t];
      if tx.req.owner in db.keys then Advance(sys, t, LostInsert)
      else Advance(sys, t, HasKey(InsertedRow(tx.req, tx.start)))
    case ReadKey(t) =>
      var row := db.keys[sys.txs[t].req.owner];
      if row.hash == sys.txs[t].req.hash && row.status.Failed? then Advance(sys, t, SawFailed) else Ended(sys, t)
    case Reclaim(t) =>
      var row := db.keys[sys.txs[t].req.owner];
      if row.status.Failed? then Advance(sys, t, HasKey(ReclaimedRow(row, sys.txs[t].start))) else Ended(sys, t)
    case RecordIntent(t) =>
      Advance(sys, t, HasIntent(sys.txs[t].phase.row, sys.nextId)).(nextId := sys.nextId + 1)
    case ReadWindow(t, found) =>
      Advance(sys, t, HasWindow(sys.txs[t].phase.row, sys.txs[t].phase.id, found, db.events))
    case ReadStatuses(t) =>
      var phase := sys.txs[t].phase;
      if NonePending(sys, phase.found) then Advance(sys, t, HasStatuses(phase.row, phase.id, phase.found, phase.readAt))
      else Ended(sys, t)
    case CommitClaimed(t) => Ended(sys, t).(a := Published(sys.a, sys.txs[t]))
    case CommitRejected(t, primary, body) =>
      Ended(sys, t).(a := PublishedRejection(sys.a, sys.txs[t], sys.txs[t].phase.found[primary], body))
    case BeginComplete(t, author) => sys.(txs := sys.txs[t := Beginning(sys, author)])
    case UpdateKey(t) =>
      var tx := sys.txs[t];
      if InFlight(db.keys, tx.owner) then sys.(txs := sys.txs[t := tx.(writing := Updated)])
      else Ended(sys, t).(a := Told(sys.a, tx.author))
    case PickIntent(t, pick) => sys.(txs := sys.txs[t := sys.txs[t].(writing := Picked(pick))])
    case CommitComplete(t, acked) =>
      var tx := sys.txs[t];
      if tx.owner in db.keys then Ended(sys, t).(a := Heard(PublishedOutcome(sys.a, tx), tx.author, acked))
      else Ended(sys, t)
    case Rollback(t) => Ended(sys, t)
  }

  ghost predicate Start(sys: Sys) {
    Init(sys.a) && sys.txs == map[] && sys.nextId == 0
  }

  // ---------------------------------------------------------------------
  // What open transactions may rely on
  // ---------------------------------------------------------------------

  /** The window read is still complete: every live clashing row is in it, and
      whatever is in it was live when it was read. */
  ghost predicate WindowOk(db: Db, tx: Tx, found: seq<nat>, readAt: nat)
    requires tx.ClaimTx? && |db.intents| == |db.notes|
  {
    && tx.lockedAt <= readAt <= db.events
    && (forall k | 0 <= k < |found| ::
          && found[k] < |db.intents|
          && Clashes(db.intents[found[k]], tx.req, tx.start)
          && db.intents[found[k]].owner != tx.req.owner
          && db.notes[found[k]].verdict.Won?
          && LiveSince(db, found[k], readAt))
    && (forall i | 0 <= i < |db.intents| && Live(db.intents[i]) && Clashes(db.intents[i], tx.req, tx.start) :: i in found)
  }

  ghost predicate ClaimOk(sys: Sys, tx: Tx)
    requires tx.ClaimTx? && |sys.a.db.intents| == |sys.a.db.notes|
  {
    var db, phase := sys.a.db, tx.phase;
    && tx.start <= sys.a.clock
    && (!phase.Began? ==> tx.lockedAt <= db.events)
    && (phase.LostInsert? ==> tx.req.owner in db.keys)
    && (phase.SawFailed? ==>
          tx.req.owner in db.keys && db.keys[tx.req.owner].hash == tx.req.hash && db.keys[tx.req.owner].status.Failed?)
    && (HoldsKey(phase) ==> ClaimKey(RowOf(db.keys, tx.req.owner), tx.req, tx.start) == Fresh(phase.row))
    && (HoldsId(phase) ==> phase.id < sys.nextId && FreshId(db.intents, phase.id))
    && (phase.HasWindow? || phase.HasStatuses? ==> WindowOk(db, tx, phase.found, phase.readAt))
    && (phase.HasStatuses? ==> AllSame(sys, tx, phase.found) && NonePending(sys, phase.found))
  }

  ghost predicate AuthorOk(a: State, tx: Tx)
    requires tx.CompleteTx?
  {
    && HasOutcome(a, tx.author)
    && match tx.author
       case Executor(i) =>
         a.calls[i].owner == tx.owner && a.calls[i].exec.status == tx.status && a.calls[i].exec.placement == tx.placement
       case Sweeper(j) =>
         && a.sweeps[j].todo[0] == tx.owner
         && a.sweeps[j].stage.status == tx.status && a.sweeps[j].stage.placement == tx.placement
  }

  ghost predicate CompleteOk(sys: Sys, tx: Tx)
    requires tx.CompleteTx?
  {
    && tx.start <= sys.a.clock
    && AuthorOk(sys.a, tx)
    && (!tx.writing.Opened? ==> InFlight(sys.a.db.keys, tx.owner))
    && (tx.writing.Picked? ==> tx.status == Failed && PickOk(sys.a.db.intents, tx.owner, Failed, tx.writing.pick))
  }

  ghost predicate TxOk(sys: Sys, tx: Tx)
    requires |sys.a.db.intents| == |sys.a.db.notes|
  {
    match tx
    case ClaimTx(_, _, _, _) => ClaimOk(sys, tx)
    case CompleteTx(_, _, _, _, _, _) => CompleteOk(sys, tx)
  }

  /** Two transactions that are open at once. */
  ghost predicate Coexist(x: Tx, y: Tx) {
    && (HoldsLock(x) && HoldsLock(y) ==> LockName(x.req.Target()) != LockName(y.req.Target()))
    && (HoldsRow(x) && HoldsRow(y) ==> KeyOf(x) != KeyOf(y))
    && (x.ClaimTx? && y.ClaimTx? && HoldsId(x.phase) && HoldsId(y.phase) ==> x.phase.id != y.phase.id)
    && (x.CompleteTx? && y.CompleteTx? ==> x.author != y.author)
  }

  ghost predicate SysInv(sys: Sys) {
    && Consistent(sys.a)
    && (forall i | 0 <= i < |sys.a.db.intents| :: sys.a.db.intents[i].id < sys.nextId)
    && (forall t | t in sys.txs :: TxOk(sys, sys.txs[t]))
    && (forall t, u | t in sys.txs && u in sys.txs && t != u :: Coexist(sys.txs[t], sys.txs[u]))
  }
}
