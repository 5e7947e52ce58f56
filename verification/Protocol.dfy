/** The write protocol: claims, downstream calls, completions, sweeps, crashes and
    the clock, with every database transaction as one indivisible step. */
module Protocol {
  import opened Schema
  import opened Database
  import opened ResultStore
  import opened Manifest
  import opened Downstream

  // ---------------------------------------------------------------------
  // The premises the code relies on without enforcing them
  // ---------------------------------------------------------------------

  datatype Premises = Premises(
    /** A sent request does not execute after its row has turned stale. */
    timelyRun: bool,
    /** An executor records nothing after its row has turned stale. */
    timelyRecord: bool,
    /** One sweep runs at a time. */
    oneSweep: bool,
    /** A completion that reports an error did not commit. */
    honestError: bool,
    /** A failed dial means that nothing was sent. */
    truthfulDial: bool,
    /** A status declared not-executed means that nothing was executed. */
    truthfulDecline: bool,
    /** A probe that counts zero executions is right. */
    truthfulProbe: bool,
    /** Retention deletes no key row. */
    retained: bool)
  {
    predicate All() {
      && timelyRun && timelyRecord && oneSweep && honestError
      && truthfulDial && truthfulDecline && truthfulProbe && retained
    }

    /** The premises about who records, and when. */
    predicate Recording() {
      timelyRecord && oneSweep && honestError && retained
    }
  }

  datatype Setup = Setup(premises: Premises, stale: int, layout: Layout)

  // ---------------------------------------------------------------------
  // The state
  // ---------------------------------------------------------------------

  /** What became of the request on the network. `Ran` points into the ledger. */
  datatype Net = Unsent | OnWire | Ran(entry: nat) | Gone

  /** What the process that won the claim knows and has left to do. */
  datatype Exec =
    | Working
    | Knows(status: Status, body: Json)
    | Stored(status: Status, body: Json, placement: Placement)
    | Finished

  datatype Call = Call(
    intent: nat,
    owner: KeyId,
    hash: Hash,
    attempt: nat,
    claimedAt: Instant,
    net: Net,
    exec: Exec)

  datatype Stage =
    | Idle
    | Judged(status: Status, body: Json)
    | Kept(status: Status, body: Json, placement: Placement)

  /** One pass of the reconciler: the stale keys still to resolve. */
  datatype Sweep = Sweep(todo: seq<KeyId>, stage: Stage)

  /** One line of the downstream's own ledger. */
  datatype Execution = Execution(owner: KeyId, hash: Hash, call: nat)

  datatype State = State(
    db: Db,
    calls: seq<Call>,
    sweeps: seq<Sweep>,
    objects: Objects,
    ledger: seq<Execution>,
    clock: Instant)

  ghost predicate Init(s: State) {
    s.db == EMPTY && s.calls == [] && s.sweeps == [] && s.objects == map[] && s.ledger == []
  }

  // ---------------------------------------------------------------------
  // The steps
  // ---------------------------------------------------------------------

  datatype Step =
    | Claim(req: Request, start: Instant, id: nat, lockedAt: nat)
    | Reject(req: Request, start: Instant, id: nat, lockedAt: nat, blocker: nat, body: Json)
    | Send(call: nat)
    | Run(call: nat)
    | Answer(call: nat, errors: ErrorClassification, reply: Reply)
    | Place(call: nat, accepted: bool)
    | Complete(call: nat, at: Instant, pick: Option<nat>, acked: bool)
    | CompleteMissed(call: nat)
    | GiveUp(call: nat)
    | Select(todo: seq<KeyId>, now: Instant)
    | Probe(sweep: nat, count: nat, body: Json)
    | Escalate(sweep: nat)
    | Keep(sweep: nat, accepted: bool)
    | Resolve(sweep: nat, at: Instant, pick: Option<nat>)
    | ResolveMissed(sweep: nat)
    | Skip(sweep: nat)
    | SweepCrash(sweep: nat)
    | Tick(to: Instant)
    | Expire(owner: KeyId)

  /** The call's row has not turned stale yet. */
  predicate Timely(setup: Setup, c: Call, clock: Instant) {
    clock <= c.claimedAt + setup.stale
  }

  function Reading(errors: ErrorClassification, reply: Reply): Status {
    StatusFor(Classify(errors, reply).disposition)
  }

  /** The reply is one the network could have given, and a truthful one where
      truthfulness is a premise. */
  predicate ReplyPossible(premises: Premises, net: Net, errors: ErrorClassification, reply: Reply) {
    if NeverSent(reply) then
      net.Unsent? || (!premises.truthfulDial && reply.NotDialed? && net.OnWire?)
    else if reply.Response? then
      && (net.OnWire? || net.Ran?)
      && (Reading(errors, reply) == Failed && premises.truthfulDecline ==> net.OnWire?)
    else
      !net.Gone?
  }

  /** A request that was not sent, or that was declined, never executes later. */
  function NetAfter(net: Net, errors: ErrorClassification, reply: Reply): Net {
    if NeverSent(reply) then (if net.Unsent? then Gone else net)
    else if reply.Response? && Reading(errors, reply) == Failed && net.OnWire? then Gone
    else net
  }

  ghost predicate Ledgered(s: State, owner: KeyId) {
    exists e | 0 <= e < |s.ledger| :: s.ledger[e].owner == owner
  }

  ghost predicate IsStale(setup: Setup, db: Db, owner: KeyId, now: Instant) {
    InFlight(db.keys, owner) && db.keys[owner].claimedAt < now - setup.stale
  }

  predicate Distinct<T(==)>(xs: seq<T>) {
    forall i, j | 0 <= i < j < |xs| :: xs[i] != xs[j]
  }

  ghost predicate Busy(s: State, j: nat) {
    j < |s.sweeps| && s.sweeps[j].todo != []
  }

  ghost predicate Enabled(setup: Setup, s: State, step: Step) {
    var p := setup.premises;
    match step
    case Claim(req, start, id, lockedAt) =>
      start <= s.clock && CanClaim(s.db, req, start, id, lockedAt)
    case Reject(req, start, id, lockedAt, blocker, body) =>
      start <= s.clock && CanReject(s.db, req, start, id, lockedAt, blocker)
    case Send(i) =>
      i < |s.calls| && s.calls[i].exec.Working? && s.calls[i].net.Unsent?
    case Run(i) =>
      i < |s.calls| && s.calls[i].net.OnWire? && (p.timelyRun ==> Timely(setup, s.calls[i], s.clock))
    case Answer(i, errors, reply) =>
      i < |s.calls| && s.calls[i].exec.Working? && ReplyPossible(p, s.calls[i].net, errors, reply)
    case Place(i, accepted) =>
      i < |s.calls| && s.calls[i].exec.Knows? && (p.timelyRecord ==> Timely(setup, s.calls[i], s.clock))
    case Complete(i, at, pick, acked) =>
      && i < |s.calls| && s.calls[i].exec.Stored?
      && (p.timelyRecord ==> Timely(setup, s.calls[i], s.clock))
      && (p.honestError ==> acked)
      && at <= s.clock
      && CanComplete(s.db, s.calls[i].owner, s.calls[i].exec.status, s.calls[i].exec.placement, pick)
    case CompleteMissed(i) =>
      i < |s.calls| && s.calls[i].exec.Stored? && !InFlight(s.db.keys, s.calls[i].owner)
    case GiveUp(i) =>
      i < |s.calls|
    case Select(todo, now) =>
      && now <= s.clock
      && Distinct(todo)
      && (p.oneSweep ==> forall j | 0 <= j < |s.sweeps| :: s.sweeps[j].todo == [])
      && (forall k | 0 <= k < |todo| :: IsStale(setup, s.db, todo[k], now))
    case Probe(j, count, body) =>
      && Busy(s, j) && s.sweeps[j].stage.Idle?
      && (count == 0 && p.truthfulProbe ==> !Ledgered(s, s.sweeps[j].todo[0]))
    case Escalate(j) =>
      Busy(s, j) && s.sweeps[j].stage.Idle?
    case Keep(j, accepted) =>
      Busy(s, j) && s.sweeps[j].stage.Judged?
    case Resolve(j, at, pick) =>
      && Busy(s, j) && s.sweeps[j].stage.Kept?
      && at <= s.clock
      && CanComplete(s.db, s.sweeps[j].todo[0], s.sweeps[j].stage.status, s.sweeps[j].stage.placement, pick)
    case ResolveMissed(j) =>
      Busy(s, j) && s.sweeps[j].stage.Kept? && !InFlight(s.db.keys, s.sweeps[j].todo[0])
    case Skip(j) =>
      Busy(s, j)
    case SweepCrash(j) =>
      j < |s.sweeps|
    case Tick(to) =>
      s.clock <= to
    case Expire(owner) =>
      !p.retained && owner in s.db.keys
  }

  function Patched(s: State, i: nat, net: Net, exec: Exec): State
    requires i < |s.calls|
  {
    s.(calls := s.calls[i := s.calls[i].(net := net, exec := exec)])
  }

  function Swept(s: State, j: nat, sweep: Sweep): State
    requires j < |s.sweeps|
  {
    s.(sweeps := s.sweeps[j := sweep])
  }

  /** The head of the list is dealt with. */
  function Popped(s: State, j: nat): State
    requires j < |s.sweeps| && s.sweeps[j].todo != []
  {
    Swept(s, j, Sweep(s.sweeps[j].todo[1..], Idle))
  }

  ghost function Next(setup: Setup, s: State, step: Step): State
    requires Enabled(setup, s, step)
  {
    match step
    case Claim(req, start, id, lockedAt) =>
      var db' := Claimed(s.db, req, start, id, lockedAt, |s.calls|);
      s.(db := db',
         calls := s.calls + [Call(|s.db.intents|, req.owner, req.hash, db'.keys[req.owner].attempts, start, Unsent, Working)])
    case Reject(req, start, id, lockedAt, blocker, body) =>
      s.(db := RejectedClaim(s.db, req, start, id, lockedAt, blocker, body))
    case Send(i) =>
      Patched(s, i, OnWire, s.calls[i].exec)
    case Run(i) =>
      Patched(s, i, Ran(|s.ledger|), s.calls[i].exec)
        .(ledger := s.ledger + [Execution(s.calls[i].owner, s.calls[i].hash, i)])
    case Answer(i, errors, reply) =>
      Patched(s, i, NetAfter(s.calls[i].net, errors, reply),
              Knows(Reading(errors, reply), Classify(errors, reply).result))
    case Place(i, accepted) =>
      var c := s.calls[i];
      Patched(s, i, c.net,
              Stored(c.exec.status, c.exec.body, PlacementOf(setup.layout, c.owner, c.exec.body, accepted)))
        .(objects := ObjectsAfter(setup.layout, s.objects, c.owner, c.exec.body, accepted))
    case Complete(i, at, pick, acked) =>
      var c := s.calls[i];
      Patched(s, i, c.net, if acked then Finished else c.exec)
        .(db := Completed(s.db, c.owner, c.exec.status, c.exec.placement, at, pick))
    case CompleteMissed(i) =>
      Patched(s, i, s.calls[i].net, Finished)
    case GiveUp(i) =>
      Patched(s, i, s.calls[i].net, Finished)
    case Select(todo, now) =>
      s.(sweeps := s.sweeps + [Sweep(todo, Idle)])
    case Probe(j, count, body) =>
      Swept(s, j, s.sweeps[j].(stage := if count == 0 then Judged(Failed, "") else Judged(Done, body)))
    case Escalate(j) =>
      Swept(s, j, s.sweeps[j].(stage := Judged(Indeterminate, "")))
    case Keep(j, accepted) =>
      var owner, stage := s.sweeps[j].todo[0], s.sweeps[j].stage;
      Swept(s, j, s.sweeps[j].(stage :=
                Kept(stage.status, stage.body, PlacementOf(setup.layout, owner, stage.body, accepted))))
        .(objects := ObjectsAfter(setup.layout, s.objects, owner, stage.body, accepted))
    case Resolve(j, at, pick) =>
      var owner, stage := s.sweeps[j].todo[0], s.sweeps[j].stage;
      Popped(s, j).(db := Completed(s.db, owner, stage.status, stage.placement, at, pick))
    case ResolveMissed(j) =>
      Popped(s, j)
    case Skip(j) =>
      Popped(s, j)
    case SweepCrash(j) =>
      Swept(s, j, Sweep([], Idle))
    case Tick(to) =>
      s.(clock := to)
    case Expire(owner) =>
      s.(db := s.db.(keys := s.db.keys - {owner}))
  }

  // ---------------------------------------------------------------------
  // What every reachable state satisfies as long as rows are retained
  // ---------------------------------------------------------------------

  ghost predicate CallOk(db: Db, calls: seq<Call>, i: nat)
    requires i < |calls| && |db.intents| == |db.notes|
  {
    var c := calls[i];
    && c.owner in db.keys
    && c.hash == db.keys[c.owner].hash
    && c.attempt <= db.keys[c.owner].attempts
    && (c.attempt == db.keys[c.owner].attempts ==> c.claimedAt == db.keys[c.owner].claimedAt)
    && c.intent < |db.intents|
    && db.intents[c.intent].owner == c.owner
    && db.notes[c.intent].attempt == c.attempt
    && db.notes[c.intent].verdict == Won(i)
  }

  /** Each successful claim entitles to one call, and each call has its own. */
  ghost predicate CallsOk(db: Db, calls: seq<Call>) {
    && |db.intents| == |db.notes|
    && (forall i | 0 <= i < |calls| :: CallOk(db, calls, i))
    && (forall n | 0 <= n < |db.notes| && db.notes[n].verdict.Won? ::
          db.notes[n].verdict.call < |calls| && calls[db.notes[n].verdict.call].intent == n)
    && (forall i, j | 0 <= i < j < |calls| :: calls[i].owner == calls[j].owner ==> calls[i].attempt != calls[j].attempt)
  }

  /** The ledger and the calls that ran point at each other. */
  ghost predicate LedgerOk(calls: seq<Call>, ledger: seq<Execution>) {
    && (forall e | 0 <= e < |ledger| ::
          && ledger[e].call < |calls|
          && calls[ledger[e].call].net == Ran(e)
          && calls[ledger[e].call].owner == ledger[e].owner
          && calls[ledger[e].call].hash == ledger[e].hash)
    && (forall i | 0 <= i < |calls| && calls[i].net.Ran? ::
          calls[i].net.entry < |ledger| && ledger[calls[i].net.entry].call == i)
  }

  /** What an executor or a sweep is about to record may be recorded. */
  ghost predicate ExecOk(exec: Exec) {
    && (exec.Knows? || exec.Stored? ==> IsOutcome(exec.status))
    && (exec.Stored? ==> PlacementOk(exec.placement))
  }

  ghost predicate StageOk(stage: Stage) {
    && (!stage.Idle? ==> IsOutcome(stage.status))
    && (stage.Kept? ==> PlacementOk(stage.placement))
  }

  ghost predicate OutcomesOk(s: State) {
    && (forall i | 0 <= i < |s.calls| :: ExecOk(s.calls[i].exec))
    && (forall j | 0 <= j < |s.sweeps| :: StageOk(s.sweeps[j].stage))
  }

  /** Tables, calls and ledger agree. No timing and no truthfulness is involved. */
  ghost predicate Consistent(s: State) {
    && DbOk(s.db)
    && CallsOk(s.db, s.calls)
    && LedgerOk(s.calls, s.ledger)
    && OutcomesOk(s)
  }

  // ---------------------------------------------------------------------
  // What every reachable state satisfies under the premises about recording
  // ---------------------------------------------------------------------

  /** The executor may still record something. */
  predicate CanRecord(setup: Setup, c: Call, clock: Instant) {
    Timely(setup, c, clock) && !c.exec.Finished?
  }

  ghost predicate Current(db: Db, c: Call) {
    c.owner in db.keys && c.attempt == db.keys[c.owner].attempts
  }

  /** An executor that may still record is the one its key is waiting for. */
  ghost predicate Fenced(setup: Setup, db: Db, c: Call, clock: Instant) {
    CanRecord(setup, c, clock) ==> Current(db, c) && db.keys[c.owner].status.Pending?
  }

  ghost predicate FencesOk(setup: Setup, s: State) {
    forall i | 0 <= i < |s.calls| :: Fenced(setup, s.db, s.calls[i], s.clock)
  }

  ghost predicate SweepOk(setup: Setup, s: State, j: nat)
    requires j < |s.sweeps|
  {
    var sweep := s.sweeps[j];
    && Distinct(sweep.todo)
    && (forall k | 0 <= k < |sweep.todo| :: IsStale(setup, s.db, sweep.todo[k], s.clock))
    && (!sweep.stage.Idle? ==> sweep.todo != [])
  }

  ghost predicate SweepsOk(setup: Setup, s: State) {
    && (forall j | 0 <= j < |s.sweeps| :: SweepOk(setup, s, j))
    && (forall i, j | 0 <= i < j < |s.sweeps| :: s.sweeps[i].todo == [] || s.sweeps[j].todo == [])
  }

  /** At most one process may record for a key, and only while it is in flight. */
  ghost predicate Guarded(setup: Setup, s: State) {
    Consistent(s) && FencesOk(setup, s) && SweepsOk(setup, s)
  }

  // ---------------------------------------------------------------------
  // What every reachable state satisfies under all premises
  // ---------------------------------------------------------------------

  /** The request may still execute. */
  predicate CanRun(setup: Setup, c: Call, clock: Instant) {
    Timely(setup, c, clock) && (c.net.OnWire? || (c.net.Unsent? && c.exec.Working?))
  }

  /** A request that ran, or may still run, belongs to the current attempt, and
      what is reported as failed never runs. */
  ghost predicate Contained(setup: Setup, db: Db, c: Call, clock: Instant) {
    && (CanRun(setup, c, clock) || c.net.Ran? ==>
          Current(db, c) && !db.keys[c.owner].status.Failed? && !db.keys[c.owner].status.Rejected?)
    && ((c.exec.Knows? || c.exec.Stored?) && c.exec.status.Failed? ==> c.net.Gone?)
  }

  ghost predicate CallsContained(setup: Setup, s: State) {
    forall i | 0 <= i < |s.calls| :: Contained(setup, s.db, s.calls[i], s.clock)
  }

  /** The sweep is about to record that its head failed. */
  predicate Condemned(sweep: Sweep) {
    (sweep.stage.Judged? || sweep.stage.Kept?) && sweep.stage.status.Failed? && sweep.todo != []
  }

  ghost predicate VerdictsOk(s: State) {
    forall j | 0 <= j < |s.sweeps| && Condemned(s.sweeps[j]) :: !Ledgered(s, s.sweeps[j].todo[0])
  }

  ghost predicate Inv(setup: Setup, s: State) {
    Guarded(setup, s) && CallsContained(setup, s) && VerdictsOk(s)
  }

  // ---------------------------------------------------------------------
  // Safety
  // ---------------------------------------------------------------------

  /** No key has been executed twice. */
  ghost predicate AtMostOnce(ledger: seq<Execution>) {
    forall d, e | 0 <= d < e < |ledger| :: ledger[d].owner != ledger[e].owner
  }

  /** Every execution carries the request hash stored with its key. */
  ghost predicate AsClaimed(s: State) {
    forall e | 0 <= e < |s.ledger| ::
      s.ledger[e].owner in s.db.keys && s.ledger[e].hash == s.db.keys[s.ledger[e].owner].hash
  }

  /** Whatever was executed is the request its key was claimed for. */
  lemma ConsistentIsAsClaimed(s: State)
    requires Consistent(s)
    ensures AsClaimed(s)
  {
    forall e | 0 <= e < |s.ledger|
      ensures s.ledger[e].owner in s.db.keys && s.ledger[e].hash == s.db.keys[s.ledger[e].owner].hash
    {
      assert CallOk(s.db, s.calls, s.ledger[e].call);
    }
  }

  lemma InvIsSafe(setup: Setup, s: State)
    requires Inv(setup, s)
    ensures AtMostOnce(s.ledger) && AsClaimed(s)
  {
    forall d, e | 0 <= d < e < |s.ledger| ensures s.ledger[d].owner != s.ledger[e].owner {
      var i, j := s.ledger[d].call, s.ledger[e].call;
      assert s.calls[i].net == Ran(d) && s.calls[j].net == Ran(e);
      assert Contained(setup, s.db, s.calls[i], s.clock) && Contained(setup, s.db, s.calls[j], s.clock);
    }
    ConsistentIsAsClaimed(s);
  }
}
