/** The request handler: claiming, waiting behind a write of the same agent, calling
    downstream, and recording the outcome, while other processes go on working. */
module Server {
  import opened Schema
  import opened Database
  import opened Manifest
  import opened Downstream
  import opened ResultStore
  import opened Transactions
  import opened Claims
  import opened Neighbours

  datatype FinalVerdict = Verdict(verdict: ClaimVerdict) | SerializeTimeout | ClaimFailed

  /** What the rest of the world does. By the number of the moment: the lock's
      outcome, faults, the client's patience, how long things take, and what other
      processes commit. By the number of the request sent downstream: the reply to
      it, and whether the object store takes its result. */
  datatype Script = Script(
    granted: nat -> bool,
    fault: nat -> Fault,
    lookupFails: nat -> bool,
    gone: nat -> bool,
    reply: nat -> Reply,
    accepted: nat -> bool,
    effort: nat -> nat,
    others: nat -> seq<Act>)

  ghost predicate ScriptOk(script: Script) {
    && (forall k: nat :: script.effort(k) >= 1)
    && (forall k: nat, i | 0 <= i < |script.others(k)| :: ActOk(script.others(k)[i]))
  }

  const POLL := 20_000_000
  const FIRST_BACKOFF := 50_000_000

  const NO_RESULT := ClaimResult(Serialize, None, 0, None, None)

  /** How a request is answered. */
  datatype Answer =
    | Created(result: Json)
    | Repeated(result: Json)
    | StillPending
    | Conflicting(body: Json)
    | ConflictUnexplained
    | HashMismatch
    | Uncertain
    | NotApplied
    | NotExecuted
    | ResultUnavailable
    | ClaimError

  // ---------------------------------------------------------------------
  // What a request leaves in the history
  // ---------------------------------------------------------------------

  /** None of the commits between the two points is the session's. */
  ghost predicate QuietBetween(log: seq<Entry>, m: nat, n: nat, session: nat)
    requires n <= |log|
  {
    forall i | m <= i < n :: log[i].session != session
  }

  /** The last commit is the session's, and the one its verdict stands for. */
  ghost predicate CommitsVerdict(log: seq<Entry>, n: nat, req: Request, start: Instant, call: nat, session: nat) {
    && |log| == n + 1 && log[n].session == session
    && CommitFor(log[n].commit, req, start, VerdictOn(TablesAt(log, n), req, start), call)
  }

  /** How claiming ended. `n` commits precede the last try, and the verdict is the
      one that the whole check gives on the tables then; all commits but the last
      are by others. A failed try may have committed all the same. */
  ghost predicate EndsAt(log: seq<Entry>, base: nat, n: nat, verdict: FinalVerdict, req: Request, start: Instant, call: nat, session: nat) {
    && base <= n <= |log| && QuietBetween(log, base, n, session)
    && match verdict
       case Verdict(LockTimeout) => |log| == n
       case Verdict(v) =>
         && v != Serialize && v == VerdictOn(TablesAt(log, n), req, start)
         && (if v in {ClaimedNow, RejectedNow} then CommitsVerdict(log, n, req, start, call, session) else |log| == n)
       case SerializeTimeout =>
         VerdictOn(TablesAt(log, n), req, start) == Serialize && NoneBy(log, n, session)
       case ClaimFailed =>
         |log| == n || CommitsVerdict(log, n, req, start, call, session)
  }

  /** Every commit of the session from `base` on records this outcome. */
  ghost predicate OnlyRecords(log: seq<Entry>, base: nat, session: nat, owner: KeyId, status: Status, placement: Placement) {
    forall i | base <= i < |log| && log[i].session == session ::
      && log[i].commit.CompleteCommit? && log[i].commit.owner == owner
      && log[i].commit.status == status && log[i].commit.placement == placement
  }

  /** Every commit of the session from `base` on records the reply: its status as the
      lists of the manifest read it, and a placement that gives its payload back. */
  ghost predicate RecordsReply(log: seq<Entry>, base: nat, session: nat, owner: KeyId, errors: ErrorClassification, reply: Reply, accepted: bool, layout: Layout, objects: Objects) {
    forall i | base <= i < |log| && log[i].session == session ::
      && Tells(log[i].commit, owner, errors, reply, accepted, layout)
      && Resolved(layout, objects, log[i].commit.placement.inline, log[i].commit.placement.ref) == Some(Payload(reply))
  }

  /** The commit records the reply. */
  ghost predicate Tells(commit: Commit, owner: KeyId, errors: ErrorClassification, reply: Reply, accepted: bool, layout: Layout) {
    && commit.CompleteCommit? && commit.owner == owner
    && Reads(errors, reply, commit.status)
    && commit.placement == PlacementOf(layout, owner, Payload(reply), accepted)
  }

  /** The row tells what the reply said. */
  ghost predicate HoldsReply(row: KeyRow, errors: ErrorClassification, reply: Reply, layout: Layout, objects: Objects) {
    Reads(errors, reply, row.status) && Resolved(layout, objects, row.result, row.ref) == Some(Payload(reply))
  }

  /** The answer to a request that was executed: its result for a definitive response,
      "not applied" if and only if it is certain that nothing was executed. */
  ghost predicate AnswersReply(response: Answer, errors: ErrorClassification, reply: Reply) {
    && (response.Created? <==> Reads(errors, reply, Done)) && (response.Created? ==> response.result == Payload(reply))
    && (response.NotApplied? <==> Reads(errors, reply, Failed))
    && (response.Uncertain? <==> Reads(errors, reply, Indeterminate))
  }

  /** The answer to a request whose key has this row. */
  ghost predicate AnswersRow(response: Answer, row: KeyRow, layout: Layout, objects: Objects) {
    match row.status
    case Done =>
      var stored := Resolved(layout, objects, row.result, row.ref);
      response == if stored.Some? then Repeated(stored.value) else ResultUnavailable
    case Pending => response == StillPending
    case Rejected => if row.result.Some? && row.result.value != "" then response == Conflicting(row.result.value) else response == ConflictUnexplained
    case Indeterminate => response == Uncertain
    case Failed => response == NotApplied
  }

  /** Between the two moments a lookup failed or the client went away. */
  ghost predicate Interrupted(script: Script, m: nat, n: nat) {
    exists k | m <= k <= n :: script.lookupFails(k) || script.gone(k)
  }

  /** Between the two moments the database failed. */
  ghost predicate Faulted(script: Script, m: nat, n: nat) {
    exists k | m <= k <= n :: !script.fault(k).NoFault?
  }

  /** Between the two moments the lock was not granted. */
  ghost predicate LockedOut(script: Script, m: nat, n: nat) {
    exists k | m <= k <= n :: !script.granted(k)
  }

  /** A claim that came to nothing did so for a reason. */
  ghost predicate HasReason(script: Script, m: nat, n: nat, verdict: FinalVerdict, clock: Instant, deadline: Instant) {
    && (verdict == ClaimFailed ==> Faulted(script, m, n))
    && (verdict == Verdict(LockTimeout) ==> LockedOut(script, m, n))
    && (verdict == SerializeTimeout ==> clock >= deadline || Interrupted(script, m, n))
  }

  ghost predicate AnswersTables(response: Answer, db: Db, owner: KeyId, layout: Layout, objects: Objects) {
    owner in db.keys && AnswersRow(response, db.keys[owner], layout, objects)
  }

  ghost predicate HasRejection(db: Db, owner: KeyId, body: Json) {
    owner in db.keys && db.keys[owner].status.Rejected? && db.keys[owner].result == Some(body)
  }

  /** What a claim hands back beside its verdict: the row in its way, or the body of the
      rejection it left. */
  ghost predicate ResultOk(log: seq<Entry>, n: nat, verdict: FinalVerdict, result: ClaimResult, owner: KeyId) {
    && (verdict == Verdict(AlreadyThere) ==>
          n <= |log| && owner in TablesAt(log, n).keys && result.record == Some(TablesAt(log, n).keys[owner]))
    && (verdict == Verdict(RejectedNow) ==>
          result.body.Some? && HasRejection(TablesAt(log, |log|), owner, result.body.value))
  }

  /** How a try ends, by what it committed. */
  lemma TryEnds(before: seq<Entry>, log: seq<Entry>, verdict: FinalVerdict, result: ClaimResult, req: Request, start: Instant, call: nat, session: nat, commit: Option<Commit>)
    requires IsLog(before) && IsLog(log) && verdict != Verdict(Serialize) && verdict != SerializeTimeout
    requires var db := Replayed(before).value;
             && (commit.None? ==> log == before)
             && (commit.Some? ==>
                   && log == before + [Entry(commit.value, session)]
                   && CommitFor(commit.value, req, start, VerdictOn(db, req, start), call))
             && (verdict.Verdict? ==>
                   && (verdict.verdict == LockTimeout || verdict.verdict == VerdictOn(db, req, start))
                   && (commit.Some? <==> verdict.verdict in {ClaimedNow, RejectedNow}))
             && (verdict == Verdict(AlreadyThere) ==> result.record == RowOf(db.keys, req.owner) && result.record.Some?)
             && (verdict == Verdict(RejectedNow) ==>
                   result.body.Some? && HasRejection(Replayed(log).value, req.owner, result.body.value))
    ensures EndsAt(log, |before|, |before|, verdict, req, start, call, session)
    ensures ResultOk(log, |before|, verdict, result, req.owner)
  {
    assert log[..|before|] == before && log[..|log|] == log;
  }

  lemma {:induction false} RecordedRow(log: seq<Entry>, owner: KeyId, status: Status, placement: Placement)
    requires IsLog(log) && log != []
    requires var commit := log[|log| - 1].commit;
             commit.CompleteCommit? && commit.owner == owner && commit.status == status && commit.placement == placement
    ensures var row := RowOf(Replayed(log).value.keys, owner);
            row.Some? && row.value.status == status && row.value.result == placement.inline && row.value.ref == placement.ref
  {
  }

  /** The answer that a classified call leads to. */
  function AnswerFor(outcome: Outcome): Answer {
    match outcome.disposition
    case Success => Created(outcome.result)
    case Refused => NotApplied
    case Unclear => Uncertain
  }

  lemma AnswerFits(errors: ErrorClassification, reply: Reply)
    ensures AnswersReply(AnswerFor(Classify(errors, reply)), errors, reply)
  {
    ClassifiedAsRead(errors, reply);
  }

  /** What is recorded is what the reply said. */
  lemma ReplyIsRecorded(log: seq<Entry>, base: nat, session: nat, owner: KeyId, errors: ErrorClassification, reply: Reply, accepted: bool, placement: Placement, layout: Layout, objects: Objects)
    requires OnlyRecords(log, base, session, owner, StatusFor(Classify(errors, reply).disposition), placement)
    requires placement == PlacementOf(layout, owner, Classify(errors, reply).result, accepted)
    requires Resolved(layout, objects, placement.inline, placement.ref) == Some(Classify(errors, reply).result)
    ensures RecordsReply(log, base, session, owner, errors, reply, accepted, layout, objects)
  {
    ClassifiedAsRead(errors, reply);
  }

  lemma ReplyIsHeld(log: seq<Entry>, session: nat, owner: KeyId, errors: ErrorClassification, reply: Reply, accepted: bool, layout: Layout, objects: Objects)
    requires IsLog(log) && log != [] && log[|log| - 1].session == session
    requires RecordsReply(log, |log| - 1, session, owner, errors, reply, accepted, layout, objects)
    ensures owner in Replayed(log).value.keys && HoldsReply(Replayed(log).value.keys[owner], errors, reply, layout, objects)
  {
    var commit := log[|log| - 1].commit;
    RecordedRow(log, owner, commit.status, commit.placement);
  }

  /** Commits before the session's first one do not count. */
  lemma {:induction false} CountIsLocal(log: seq<Entry>, m: nat, n: nat, session: nat)
    requires m <= n <= |log| && QuietBetween(log, m, n, session)
    ensures CountBy(log, m, session) == CountBy(log, n, session)
    decreases |log|
  {
    if m < |log| {
      var front := log[..|log| - 1];
      CountIsLocal(front, m, if n == |log| then n - 1 else n, session);
    }
  }

  class Handler {
    const db: Postgres
    const store: Store
    const script: Script
    ghost const session: nat
    var clock: Instant
    var moment: nat
    /** Requests sent downstream by this handler. */
    var sent: seq<Request>

    ghost predicate Valid()
      reads this, db
    {
      db.Valid() && ScriptOk(script)
    }

    constructor (db: Postgres, store: Store, script: Script, clock: Instant, ghost session: nat)
      requires db.Valid() && ScriptOk(script)
      ensures Valid() && this.db == db && this.store == store && this.script == script && this.clock == clock && sent == []
    {
      this.db, this.store, this.script, this.clock := db, store, script, clock;
      this.session := session;
      moment, sent := 0, [];
    }

    /** Time passes, and others do their work. */
    method Pause(length: nat)
      requires Valid()
      modifies this`clock, this`moment, db
      ensures Valid() && clock == old(clock) + length && moment == old(moment) + 1
      ensures old(db.log) <= db.log && NoneBy(db.log, |old(db.log)|, session)
    {
      Interfere(db, script.others(moment), clock, session);
      clock := clock + length;
      moment := moment + 1;
    }

    /** Polls until the blocking key is terminal. True only before the deadline. */
    method WaitForTerminal(blocking: KeyId, deadline: Instant) returns (settled: bool)
      requires Valid()
      modifies this`clock, this`moment, db
      ensures Valid() && old(clock) <= clock && old(moment) <= moment
      ensures settled ==> clock < deadline && !InFlight(db.keys, blocking)
      ensures !settled ==> clock >= deadline || Interrupted(script, old(moment), moment)
      ensures old(db.log) <= db.log && NoneBy(db.log, |old(db.log)|, session)
    {
      while clock < deadline
        invariant Valid() && old(clock) <= clock && old(moment) <= moment
        invariant old(db.log) <= db.log && NoneBy(db.log, |old(db.log)|, session)
        decreases deadline - clock
      {
        if script.lookupFails(moment) {
          return false;
        }
        if blocking !in db.keys || db.keys[blocking].status != Pending {
          return true;
        }
        if script.gone(moment) {
          return false;
        }
        Pause(POLL);
      }
      return false;
    }

    /** One claim transaction, and the time it takes. */
    method ClaimOnce(req: Request) returns (tried: Result<ClaimResult>, ghost commit: Option<Commit>)
      requires Valid()
      modifies this`clock, this`moment, db
      ensures Valid() && clock > old(clock) && moment == old(moment) + 1
      ensures commit.None? ==> db.log == old(db.log)
      ensures commit.Some? ==>
              && db.log == old(db.log) + [Entry(commit.value, session)]
              && CommitFor(commit.value, req, old(clock), VerdictOn(old(db.Contents()), req, old(clock)), |sent|)
      ensures tried.Err? ==> !script.fault(old(moment)).NoFault?
      ensures tried.Ok? ==>
              var verdict := tried.value.verdict;
              && verdict == (if script.granted(old(moment)) then VerdictOn(old(db.Contents()), req, old(clock)) else LockTimeout)
              && (commit.Some? <==> verdict in {ClaimedNow, RejectedNow})
              && (verdict == AlreadyThere ==> tried.value.record == RowOf(old(db.keys), req.owner) && tried.value.record.Some?)
              && (verdict == RejectedNow ==>
                    tried.value.body.Some? && HasRejection(db.Contents(), req.owner, tried.value.body.value))
              && (verdict == Serialize ==> tried.value.blocking.Some?)
    {
      ghost var found;
      tried, commit, found := db.Claim(req, clock, script.granted(moment), script.fault(moment), |sent|, session);
      clock := clock + script.effort(moment);
      moment := moment + 1;
    }

    /** One try. */
    method TryOnce(req: Request) returns (tried: Result<ClaimResult>)
      requires Valid()
      modifies this`clock, this`moment, db
      ensures Valid() && clock > old(clock) && old(db.log) <= db.log
      ensures tried.Ok? && tried.value.verdict == Serialize ==>
              && db.log == old(db.log) && tried.value.blocking.Some?
              && VerdictOn(TablesAt(db.log, |db.log|), req, old(clock)) == Serialize
      ensures !(tried.Ok? && tried.value.verdict == Serialize) ==>
              var verdict := if tried.Ok? then Verdict(tried.value.verdict) else ClaimFailed;
              && EndsAt(db.log, |old(db.log)|, |old(db.log)|, verdict, req, old(clock), |sent|, session)
              && (tried.Ok? ==> ResultOk(db.log, |old(db.log)|, verdict, tried.value, req.owner))
      ensures moment == old(moment) + 1
      ensures tried.Err? ==> !script.fault(old(moment)).NoFault?
      ensures tried.Ok? && tried.value.verdict == LockTimeout ==> !script.granted(old(moment))
    {
      ghost var log0 := db.log;
      ghost var commit;
      tried, commit := ClaimOnce(req);
      if tried.Err? || tried.value.verdict != Serialize {
        TryEnds(log0, db.log, if tried.Ok? then Verdict(tried.value.verdict) else ClaimFailed,
                if tried.Ok? then tried.value else NO_RESULT, req, old(clock), |sent|, session, commit);
      } else {
        assert db.log[..|db.log|] == log0;
      }
    }

    /** One turn of the loop: a try, and a wait if that is its verdict. */
    method TryToClaim(req: Request, deadline: Instant)
      returns (done: bool, verdict: FinalVerdict, result: ClaimResult, ghost n: nat, ghost start: Instant)
      requires Valid()
      modifies this`clock, this`moment, db
      ensures Valid() && clock > old(clock)
      ensures old(db.log) <= db.log
      ensures done ==> EndsAt(db.log, |old(db.log)|, n, verdict, req, start, |sent|, session)
      ensures done ==> ResultOk(db.log, n, verdict, result, req.owner)
      ensures !done ==> clock < deadline && NoneBy(db.log, |old(db.log)|, session)
      ensures old(moment) <= moment && (done ==> HasReason(script, old(moment), moment, verdict, clock, deadline))
    {
      n, start := |db.log|, clock;
      ghost var log0 := db.log;
      var tried := TryOnce(req);
      if tried.Err? {
        return true, ClaimFailed, NO_RESULT, n, start;
      }
      result := tried.value;
      if result.verdict != Serialize {
        return true, Verdict(result.verdict), result, n, start;
      }
      var settled := WaitForTerminal(result.blocking.value, deadline);
      assert db.log[..n] == log0 && log0[..n] == log0;
      return !settled, SerializeTimeout, result, n, start;
    }

    /** Runs the claim transaction until it gives something other than "wait".

        The loop ends because every try takes time and waiting ends at the
        deadline. It never hands "wait" back. */
    method ClaimWithSerialization(req: Request, wait: nat)
      returns (verdict: FinalVerdict, result: ClaimResult, ghost n: nat, ghost start: Instant)
      requires Valid()
      modifies this`clock, this`moment, db
      ensures Valid() && old(db.log) <= db.log
      ensures EndsAt(db.log, |old(db.log)|, n, verdict, req, start, |sent|, session)
      ensures ResultOk(db.log, n, verdict, result, req.owner)
      ensures old(moment) <= moment && HasReason(script, old(moment), moment, verdict, clock, old(clock) + wait)
    {
      var deadline := clock + wait;
      var done := false;
      verdict, result, n, start := SerializeTimeout, NO_RESULT, 0, 0;
      while !done
        invariant Valid() && old(db.log) <= db.log
        invariant !done ==> clock <= deadline && NoneBy(db.log, |old(db.log)|, session)
        invariant done ==> EndsAt(db.log, |old(db.log)|, n, verdict, req, start, |sent|, session)
        invariant done ==> ResultOk(db.log, n, verdict, result, req.owner)
        invariant old(moment) <= moment && (done ==> HasReason(script, old(moment), moment, verdict, clock, deadline))
        decreases !done, deadline - clock
      {
        ghost var log0 := db.log;
        done, verdict, result, n, start := TryToClaim(req, deadline);
        assert forall i | 0 <= i < |log0| :: db.log[i] == log0[i];
      }
    }

    /** Tries to record the outcome, at most `attempts` times, until the database
        answers, while others may settle the key, re-claim it, or sweep it. `n`
        commits precede the last try. `hidden` counts the tries that committed and
        were told of an error. */
    method PersistOutcome(owner: KeyId, status: Status, placement: Placement, attempts: nat)
      returns (recorded: bool, ghost answered: bool, ghost n: nat, ghost hidden: nat)
      requires Valid() && IsOutcome(status) && PlacementOk(placement)
      modifies this`clock, this`moment, db
      ensures Valid() && old(db.log) <= db.log && |old(db.log)| <= n <= |db.log|
      ensures OnlyRecords(db.log, |old(db.log)|, session, owner, status, placement)
      ensures CountBy(db.log, |old(db.log)|, session) == hidden + (if recorded then 1 else 0)
      ensures hidden > 0 ==> exists m | old(moment) <= m <= moment :: script.fault(m).LosesAnswer?
      ensures recorded ==>
              && answered && |db.log| == n + 1 && db.log[n].session == session
              && InFlight(TablesAt(db.log, n).keys, owner)
      ensures answered && !recorded ==> |db.log| == n && !InFlight(TablesAt(db.log, n).keys, owner)
      ensures !answered ==> forall m | old(moment) <= m < old(moment) + attempts :: !script.fault(m).NoFault?
    {
      var backoff := FIRST_BACKOFF;
      var used := 0;
      recorded, answered, n, hidden := false, false, |db.log|, 0;
      while used < attempts
        invariant Valid() && used <= attempts && backoff >= FIRST_BACKOFF
        invariant moment == old(moment) + (if used < attempts || used == 0 then used else used - 1)
        invariant old(db.log) <= db.log && |old(db.log)| <= n <= |db.log|
        invariant OnlyRecords(db.log, |old(db.log)|, session, owner, status, placement)
        invariant CountBy(db.log, |old(db.log)|, session) == hidden
        invariant hidden > 0 ==> exists m | old(moment) <= m <= moment :: script.fault(m).LosesAnswer?
        invariant forall m | old(moment) <= m < old(moment) + used :: !script.fault(m).NoFault?
      {
        var updated;
        updated, n, hidden := RecordOnce(owner, status, placement, |old(db.log)|, hidden);
        used := used + 1;
        if updated.Ok? {
          answered := true;
          return updated.value, answered, n, hidden;
        }
        if used < attempts {
          ghost var log1 := db.log;
          Pause(backoff);
          CountOfOthers(log1, db.log, |old(db.log)|, session);
          assert forall i | 0 <= i < |log1| :: db.log[i] == log1[i];
          backoff := backoff * 2;
        }
      }
    }

    /** A granted request is sent once. The answer and whatever is recorded are what
        the reply to it says; if recording succeeded, the row says so too. */
    method Execute(req: Request, errors: ErrorClassification, attempts: nat)
      returns (response: Answer, recorded: bool)
      requires Valid()
      modifies this, db, store
      ensures Valid() && old(db.log) <= db.log
      ensures sent == old(sent) + [req]
      ensures AnswersReply(response, errors, script.reply(|old(sent)|))
      ensures RecordsReply(db.log, |old(db.log)|, session, req.owner, errors, script.reply(|old(sent)|), script.accepted(|old(sent)|),
                           store.layout, store.objects)
      ensures recorded ==>
              && |db.log| > |old(db.log)| && db.log[|db.log| - 1].session == session
              && InFlight(TablesAt(db.log, |db.log| - 1).keys, req.owner)
              && req.owner in db.keys
              && HoldsReply(db.keys[req.owner], errors, script.reply(|old(sent)|), store.layout, store.objects)
      ensures (forall m :: !script.fault(m).LosesAnswer?) ==>
                CountBy(db.log, |old(db.log)|, session) == if recorded then 1 else 0
    {
      var call := |sent|;
      sent := sent + [req];
      Pause(script.effort(moment));
      var outcome := Classify(errors, script.reply(call));
      var placement, _, _ := store.Place(req.owner, outcome.result, script.accepted(call));
      Pause(script.effort(moment));
      recorded := Record(req.owner, errors, call, placement, attempts, |old(db.log)|);
      AnswerFits(errors, script.reply(call));
      response := AnswerFor(outcome);
    }

    /** Records the reply to request `call`, of which `placement` holds the payload. */
    method Record(owner: KeyId, errors: ErrorClassification, call: nat, placement: Placement, attempts: nat, ghost base: nat)
      returns (recorded: bool)
      requires Valid() && PlacementOk(placement)
      requires base <= |db.log| && QuietBetween(db.log, base, |db.log|, session)
      requires placement == PlacementOf(store.layout, owner, Classify(errors, script.reply(call)).result, script.accepted(call))
      requires Resolved(store.layout, store.objects, placement.inline, placement.ref)
            == Some(Classify(errors, script.reply(call)).result)
      modifies this`clock, this`moment, db
      ensures Valid() && old(db.log) <= db.log
      ensures RecordsReply(db.log, base, session, owner, errors, script.reply(call), script.accepted(call), store.layout, store.objects)
      ensures recorded ==>
              && |db.log| > base && db.log[|db.log| - 1].session == session
              && InFlight(TablesAt(db.log, |db.log| - 1).keys, owner)
              && owner in db.keys
              && HoldsReply(db.keys[owner], errors, script.reply(call), store.layout, store.objects)
      ensures (forall m :: !script.fault(m).LosesAnswer?) ==> CountBy(db.log, base, session) == if recorded then 1 else 0
    {
      ghost var log1 := db.log;
      var status := StatusFor(Classify(errors, script.reply(call)).disposition);
      ghost var answered, n, hidden;
      recorded, answered, n, hidden := PersistOutcome(owner, status, placement, attempts);
      assert forall i | 0 <= i < |log1| :: db.log[i] == log1[i];
      CountIsLocal(db.log, base, |log1|, session);
      ReplyIsRecorded(db.log, base, session, owner, errors, script.reply(call), script.accepted(call), placement, store.layout, store.objects);
      if recorded {
        ReplyIsHeld(db.log, session, owner, errors, script.reply(call), script.accepted(call), store.layout, store.objects);
      }
    }

    /** Waits for a pending key to be settled. Whatever row it hands back is the given
        one or one that the table holds now, and then a settled one. */
    method AwaitCompletion(owner: KeyId, record: KeyRow, wait: int) returns (current: KeyRow)
      requires Valid()
      modifies this`clock, this`moment, db
      ensures Valid() && old(db.log) <= db.log && NoneBy(db.log, |old(db.log)|, session)
      ensures !record.status.Pending? ==> current == record && db.log == old(db.log) && clock == old(clock)
      ensures current == record || (RowOf(db.keys, owner) == Some(current) && !current.status.Pending?)
      ensures current.status.Pending? && wait > 0 ==>
              clock >= old(clock) + wait || Interrupted(script, old(moment), moment) || owner !in db.keys
      ensures old(clock) <= clock && (wait > 0 ==> clock < old(clock) + wait + wait / 20 + POLL)
    {
      if record.status != Pending || wait <= 0 {
        return record;
      }
      var deadline := clock + wait;
      var interval := if wait / 20 < POLL then POLL else wait / 20;
      while clock < deadline
        invariant Valid() && old(clock) <= clock < deadline + interval && old(moment) <= moment
        invariant old(db.log) <= db.log && NoneBy(db.log, |old(db.log)|, session)
        decreases deadline - clock
      {
        if script.gone(moment) {
          return record;
        }
        Pause(interval);
        if script.lookupFails(moment) || owner !in db.keys {
          return record;
        }
        if db.keys[owner].status != Pending {
          return db.keys[owner];
        }
      }
      return record;
    }

    method WriteExisting(record: KeyRow) returns (response: Answer)
      ensures AnswersRow(response, record, store.layout, store.objects)
    {
      match record.status
      case Done =>
        var result := store.Resolve(record.result, record.ref);
        if result.None? {
          return ResultUnavailable;
        }
        return Repeated(result.value);
      case Pending => return StillPending;
      case Rejected =>
        if record.result.None? || record.result.value == "" {
          return ConflictUnexplained;
        }
        return Conflicting(record.result.value);
      case Indeterminate => return Uncertain;
      case Failed => return NotApplied;
    }

    /** Answers a request whose key has a row already, after a wait if it is pending. */
    method AnswerExisting(owner: KeyId, record: KeyRow, pendingWait: int) returns (response: Answer)
      requires Valid() && RowOf(db.keys, owner) == Some(record)
      modifies this`clock, this`moment, db
      ensures Valid() && old(db.log) <= db.log && NoneBy(db.log, |old(db.log)|, session)
      ensures AnswersTables(response, old(db.Contents()), owner, store.layout, store.objects)
           || AnswersTables(response, db.Contents(), owner, store.layout, store.objects)
    {
      var row := AwaitCompletion(owner, record, pendingWait);
      response := WriteExisting(row);
    }

    /** The answer to a request by how its claim ended. */
    method Respond(req: Request, verdict: FinalVerdict, result: ClaimResult, pendingWait: int, errors: ErrorClassification, attempts: nat)
      returns (response: Answer, recorded: bool)
      requires Valid() && verdict != Verdict(Serialize)
      requires verdict == Verdict(AlreadyThere) ==> RowOf(db.keys, req.owner) == result.record && result.record.Some?
      requires verdict == Verdict(RejectedNow) ==> result.body.Some?
      modifies this, db, store
      ensures Valid() && old(db.log) <= db.log
      ensures sent == old(sent) + (if verdict == Verdict(ClaimedNow) then [req] else [])
      ensures verdict != Verdict(ClaimedNow) ==> !recorded && NoneBy(db.log, |old(db.log)|, session)
      ensures verdict !in {Verdict(ClaimedNow), Verdict(AlreadyThere)} ==> clock == old(clock) && moment == old(moment)
      ensures verdict == Verdict(ClaimedNow) ==>
              var reply := script.reply(|old(sent)|);
              && AnswersReply(response, errors, reply)
              && RecordsReply(db.log, |old(db.log)|, session, req.owner, errors, reply, script.accepted(|old(sent)|), store.layout, store.objects)
              && (recorded ==> req.owner in db.keys && HoldsReply(db.keys[req.owner], errors, reply, store.layout, store.objects))
      ensures verdict == Verdict(RejectedNow) ==> response == Conflicting(result.body.value)
      ensures verdict == Verdict(AlreadyThere) ==>
              || AnswersTables(response, old(db.Contents()), req.owner, store.layout, store.objects)
              || AnswersTables(response, db.Contents(), req.owner, store.layout, store.objects)
      ensures verdict == Verdict(OtherRequest) <==> response.HashMismatch?
      ensures verdict in {Verdict(LockTimeout), SerializeTimeout} <==> response.NotExecuted?
      ensures verdict == ClaimFailed <==> response.ClaimError?
    {
      recorded := false;
      match verdict
      case Verdict(ClaimedNow) => response, recorded := Execute(req, errors, attempts);
      case Verdict(AlreadyThere) => response := AnswerExisting(req.owner, result.record.value, pendingWait);
      case Verdict(RejectedNow) => response := Conflicting(result.body.value);
      case Verdict(OtherRequest) => response := HashMismatch;
      case Verdict(_) => response := NotExecuted;
      case SerializeTimeout => response := NotExecuted;
      case ClaimFailed => response := ClaimError;
    }

    /** The whole request. Downstream is called for a claim that committed and was let
        through, once, and for nothing else. `n` commits precede the last try to claim,
        and `m` the answer. */
    method HandleWrite(req: Request, wait: nat, pendingWait: int, errors: ErrorClassification, attempts: nat)
      returns (verdict: FinalVerdict, response: Answer, recorded: bool, ghost n: nat, ghost m: nat, ghost start: Instant)
      requires Valid()
      modifies this, db, store
      ensures Valid() && old(db.log) <= db.log && |old(db.log)| <= n <= m <= |db.log|
      ensures EndsAt(db.log[..m], |old(db.log)|, n, verdict, req, start, |old(sent)|, session)
      ensures sent == old(sent) + (if verdict == Verdict(ClaimedNow) then [req] else [])
      ensures verdict != Verdict(ClaimedNow) ==> !recorded && NoneBy(db.log, m, session)
      ensures verdict == Verdict(ClaimedNow) ==>
              var reply := script.reply(|old(sent)|);
              && AnswersReply(response, errors, reply)
              && RecordsReply(db.log, m, session, req.owner, errors, reply, script.accepted(|old(sent)|), store.layout, store.objects)
              && (recorded ==> req.owner in db.keys && HoldsReply(db.keys[req.owner], errors, reply, store.layout, store.objects))
      ensures verdict == Verdict(RejectedNow) ==>
              response.Conflicting? && HasRejection(TablesAt(db.log, m), req.owner, response.body)
      ensures verdict == Verdict(AlreadyThere) ==>
              || AnswersTables(response, TablesAt(db.log, n), req.owner, store.layout, store.objects)
              || AnswersTables(response, TablesAt(db.log, |db.log|), req.owner, store.layout, store.objects)
      ensures verdict == Verdict(OtherRequest) <==> response.HashMismatch?
      ensures verdict in {Verdict(LockTimeout), SerializeTimeout} <==> response.NotExecuted?
      ensures response.NotExecuted? ==> NoneBy(db.log, |old(db.log)|, session)
      ensures verdict == ClaimFailed <==> response.ClaimError?
      ensures HasReason(script, old(moment), moment, verdict, clock, old(clock) + wait)
    {
      var result;
      verdict, result, n, start := ClaimWithSerialization(req, wait);
      m := |db.log|;
      ghost var log1 := db.log;
      assert log1[..m] == log1;
      response, recorded := Respond(req, verdict, result, pendingWait, errors, attempts);
      assert db.log[..m] == log1 && db.log[..n] == log1[..n] && db.log[..|db.log|] == db.log;
      assert forall i | 0 <= i < m :: db.log[i] == log1[i];
    }

    /** One try to record the outcome. */
    method RecordOnce(owner: KeyId, status: Status, placement: Placement, ghost base: nat, ghost before: nat)
      returns (updated: Result<bool>, ghost n: nat, ghost hidden: nat)
      requires Valid() && IsOutcome(status) && PlacementOk(placement)
      requires base <= |db.log| && OnlyRecords(db.log, base, session, owner, status, placement)
      requires CountBy(db.log, base, session) == before
      modifies db
      ensures Valid() && old(db.log) <= db.log && n == |old(db.log)|
      ensures OnlyRecords(db.log, base, session, owner, status, placement)
      ensures CountBy(db.log, base, session) == hidden + (if updated == Ok(true) then 1 else 0)
      ensures hidden != before ==> script.fault(moment).LosesAnswer?
      ensures script.fault(moment).NoFault? ==> updated.Ok?
      ensures updated == Ok(true) ==>
              |db.log| == n + 1 && db.log[n].session == session && InFlight(TablesAt(db.log, n).keys, owner)
      ensures updated == Ok(false) ==> |db.log| == n && !InFlight(TablesAt(db.log, n).keys, owner)
    {
      n := |db.log|;
      ghost var log0 := db.log;
      ghost var commit;
      updated, commit := db.Complete(owner, status, placement, clock, script.fault(moment), session);
      assert db.log[..n] == log0;
      hidden := before;
      if commit.Some? {
        CountOfAppend(log0, Entry(commit.value, session), base, session);
        hidden := if updated.Ok? then before else before + 1;
      }
    }
  }

  // ---------------------------------------------------------------------
  // The same request again
  // ---------------------------------------------------------------------

  /** A key that is settled at one point of the history answers the same request the
      same way at every later one, as long as its result is still in the store. */
  lemma SettledAnswerStands(log: seq<Entry>, m: nat, n: nat, req: Request, start: Instant, layout: Layout, objects: Objects, first: Answer, again: Answer)
    requires IsLog(log) && m <= n <= |log|
    requires req.owner in TablesAt(log, m).keys && Settled(TablesAt(log, m).keys[req.owner].status)
    requires TablesAt(log, m).keys[req.owner].hash == req.hash
    requires AnswersTables(first, TablesAt(log, m), req.owner, layout, objects)
    requires AnswersTables(again, TablesAt(log, n), req.owner, layout, objects)
    ensures VerdictOn(TablesAt(log, n), req, start) == AlreadyThere && again == first
  {
    SettledRowStays(log, m, n, req.owner);
  }

  /** The body that a rejected write is answered with is the answer of every later
      request for its key, whatever is in the object store. */
  lemma RejectionIsAnsweredAgain(log: seq<Entry>, m: nat, n: nat, req: Request, start: Instant, body: Json, layout: Layout, objects: Objects, again: Answer)
    requires IsLog(log) && m <= n <= |log| && body != ""
    requires HasRejection(TablesAt(log, m), req.owner, body) && TablesAt(log, m).keys[req.owner].hash == req.hash
    requires AnswersTables(again, TablesAt(log, n), req.owner, layout, objects)
    ensures VerdictOn(TablesAt(log, n), req, start) == AlreadyThere && again == Conflicting(body)
  {
    SettledRowStays(log, m, n, req.owner);
  }
}
