/** The timing relations that a configuration is checked for, and which of the
    protocol's premises they give. Durations are 64-bit nanosecond counts and wrap
    around. */
module Config {
  import opened Schema
  import opened ResultStore
  import opened Protocol

  newtype int64 = x: int | -0x8000_0000_0000_0000 <= x < 0x8000_0000_0000_0000

  /** Two's-complement wrap-around. */
  function Wrap(x: int): (w: int64)
    ensures (w as int - x) % 0x1_0000_0000_0000_0000 == 0
  {
    var m := (x + 0x8000_0000_0000_0000) % 0x1_0000_0000_0000_0000;
    (m - 0x8000_0000_0000_0000) as int64
  }

  datatype Config = Config(
    databaseUrl: string,
    downstreamUrl: string,
    authMode: string,
    manifestDir: string,
    claimPendingWait: int64,
    conflictLockTimeout: int64,
    readMaxSpan: int64,
    staleAfter: int64,
    interval: int64,
    connectTimeout: int64,
    timeout: int64,
    payloadBytes: int64,
    outcomeAttempts: int64,
    partitionAhead: int64,
    retentionRows: int64)
  {
    /** The budget of one downstream call, and the bound of a serialization wait. */
    function SerializeWait(): int64 {
      Wrap(connectTimeout as int + timeout as int)
    }

    /** How long one downstream call may last. Its context ends with the budget, at
        once if that is negative, and the HTTP client gives up after `timeout` if
        that is positive. */
    function CallLimit(): nat {
      var budget: nat := if SerializeWait() < 0 then 0 else SerializeWait() as nat;
      if timeout > 0 && timeout as int < budget then timeout as nat else budget
    }
  }

  datatype Problem =
    | NoDatabase | NoDownstream | NoAuth | StaleTooShort | StaleWithinInterval | WaitTooLong
    | NoAttempts | NoPayload | NoManifests | NoLockTimeout | NoSpan | TooFewPartitions | NoRate

  const FOUR_WEEKS: int64 := 2_419_200_000_000_000

  ghost predicate Acceptable(c: Config) {
    && c.databaseUrl != "" && c.downstreamUrl != "" && c.manifestDir != ""
    && c.authMode == "trusted_header"
    && c.staleAfter >= Wrap(3 * (c.SerializeWait() as int))
    && c.staleAfter > Wrap(2 * (c.interval as int))
    && c.claimPendingWait < c.timeout
    && c.outcomeAttempts >= 1 && c.payloadBytes >= 1
    && c.conflictLockTimeout > 0 && c.readMaxSpan > 0
    && c.partitionAhead >= FOUR_WEEKS && c.retentionRows >= 1
  }

  /** No problem is reported exactly for the acceptable configurations. */
  method Validate(c: Config) returns (problems: seq<Problem>)
    ensures problems == [] <==> Acceptable(c)
  {
    problems := [];
    if c.databaseUrl == "" { problems := problems + [NoDatabase]; }
    if c.downstreamUrl == "" { problems := problems + [NoDownstream]; }
    if c.authMode != "trusted_header" { problems := problems + [NoAuth]; }
    var callBudget := Wrap(c.connectTimeout as int + c.timeout as int);
    if c.staleAfter < Wrap(3 * (callBudget as int)) { problems := problems + [StaleTooShort]; }
    if c.staleAfter <= Wrap(2 * (c.interval as int)) { problems := problems + [StaleWithinInterval]; }
    if c.claimPendingWait >= c.timeout { problems := problems + [WaitTooLong]; }
    if c.outcomeAttempts < 1 { problems := problems + [NoAttempts]; }
    if c.payloadBytes < 1 { problems := problems + [NoPayload]; }
    if c.manifestDir == "" { problems := problems + [NoManifests]; }
    if c.conflictLockTimeout <= 0 { problems := problems + [NoLockTimeout]; }
    if c.readMaxSpan <= 0 { problems := problems + [NoSpan]; }
    if c.partitionAhead < FOUR_WEEKS { problems := problems + [TooFewPartitions]; }
    if c.retentionRows < 1 { problems := problems + [NoRate]; }
  }

  // ---------------------------------------------------------------------
  // What happens between a claim and the last try to record its outcome
  // ---------------------------------------------------------------------

  const PLACE_LIMIT := 5_000_000_000
  const WRITE_LIMIT := 2_000_000_000
  const FIRST_BACKOFF := 50_000_000

  /** The sleep after try `k`, counted from 0. As a 64-bit duration it wraps around
      from `k == 38` on, when the sleeps have outgrown every staleness bound: see
      `SleepsOutgrowBounds`. */
  function Backoff(k: nat): (b: nat)
    ensures b >= FIRST_BACKOFF
  {
    if k == 0 then FIRST_BACKOFF else 2 * Backoff(k - 1)
  }

  /** The instants of one execution: the call goes out and comes back, the result is
      placed, and the tries to record it end. */
  datatype Timing = Timing(started: int, replied: int, placed: int, tries: seq<int>)

  /** Everything keeps to the limit the code sets for it; the call goes out at most
      `lag` after the claim's transaction began. */
  ghost predicate KeepsToLimits(c: Config, claimedAt: int, t: Timing, lag: nat) {
    && claimedAt <= t.started <= claimedAt + lag
    && t.started <= t.replied <= t.started + c.CallLimit()
    && t.replied <= t.placed <= t.replied + PLACE_LIMIT
    && (t.tries == [] || |t.tries| <= c.outcomeAttempts as int)
    && (forall k | 0 <= k < |t.tries| :: TryOk(t, k))
  }

  /** A try starts when the result is placed, or a sleep after the one before. */
  predicate TryOk(t: Timing, k: nat)
    requires k < |t.tries|
  {
    var begun := if k == 0 then t.placed else t.tries[k - 1] + Backoff(k - 1);
    begun <= t.tries[k] <= begun + WRITE_LIMIT
  }

  /** The protocol's parameters under this configuration. */
  function SetupOf(c: Config, premises: Premises, layout: Layout): Setup {
    Setup(premises, c.staleAfter as int, layout)
  }

  /** No call that keeps to the limits executes after its row has turned stale: the
      premise `timelyRun`. */
  ghost predicate RunsInTime(c: Config, premises: Premises, layout: Layout, lag: nat) {
    forall call: Call, t: Timing, at | KeepsToLimits(c, call.claimedAt, t, lag) && t.started <= at <= t.replied ::
      Timely(SetupOf(c, premises, layout), call, at)
  }

  /** No executor that keeps to the limits records after its row has turned stale: the
      premise `timelyRecord`. */
  ghost predicate RecordsInTime(c: Config, premises: Premises, layout: Layout, lag: nat) {
    forall call: Call, t: Timing, k | KeepsToLimits(c, call.claimedAt, t, lag) && 0 <= k < |t.tries| ::
      Timely(SetupOf(c, premises, layout), call, t.tries[k])
  }

  const SOME_CALL := Call(0, KeyId("", ""), Hash("", "", "", Resource("", "")), 1, 0, Unsent, Working)

  // ---------------------------------------------------------------------
  // Running
  // ---------------------------------------------------------------------

  lemma RunsInTimeIff(c: Config, premises: Premises, layout: Layout, lag: nat)
    ensures RunsInTime(c, premises, layout, lag) <==> lag + c.CallLimit() <= c.staleAfter as int
  {
    var end := lag + c.CallLimit();
    var slowest := Timing(lag, end, end, []);
    assert KeepsToLimits(c, SOME_CALL.claimedAt, slowest, lag) && slowest.started <= end <= slowest.replied;
    assert RunsInTime(c, premises, layout, lag) ==> Timely(SetupOf(c, premises, layout), SOME_CALL, end);
  }

  /** An accepted configuration leaves room for three budgets exactly when three
      budgets do not overflow a duration. */
  lemma AcceptedBudgetsFitIff(c: Config)
    requires Acceptable(c)
    ensures 3 * (c.SerializeWait() as int) <= c.staleAfter as int <==> 3 * (c.SerializeWait() as int) < 0x8000_0000_0000_0000
  {
  }

  /** For an accepted configuration, when do calls that go out within two budgets of
      their claim run in time? If three budgets do not overflow a duration, or if the
      limit of a call is so much shorter than its budget that it fits all the same.
      With a negative budget calls end at once, and only a negative staleness bound is
      too short. */
  lemma AcceptedRunsInTimeIff(c: Config, premises: Premises, layout: Layout)
    requires Acceptable(c)
    ensures var budget := c.SerializeWait() as int;
            if budget >= 0 then
              RunsInTime(c, premises, layout, 2 * budget) <==>
              3 * budget < 0x8000_0000_0000_0000 || 2 * budget + c.CallLimit() <= c.staleAfter as int
            else
              RunsInTime(c, premises, layout, 0) <==> c.staleAfter >= 0
  {
    var budget := c.SerializeWait() as int;
    AcceptedBudgetsFitIff(c);
    RunsInTimeIff(c, premises, layout, if budget >= 0 then 2 * budget else 0);
  }

  /** There are accepted configurations with overflowing budgets: three call budgets of
      4611686018428 milliseconds wrap to a negative bound. */
  lemma OverflowIsAccepted(premises: Premises, layout: Layout) returns (c: Config)
    ensures Acceptable(c) && !RunsInTime(c, premises, layout, 0)
  {
    c := Config("db", "http", "trusted_header", "dir", 0, 1, 1, 1, 0, 0, 4_611_686_018_428_000_000, 1, 1, FOUR_WEEKS, 1);
    RunsInTimeIff(c, premises, layout, 0);
  }

  // ---------------------------------------------------------------------
  // Sweeping and waiting
  // ---------------------------------------------------------------------

  /** `first` may be the sweeper's first tick after the claim. */
  predicate IsFirstTick(c: Config, claimedAt: int, first: int) {
    claimedAt < first <= claimedAt + c.interval as int
  }

  /** However the sweeper's ticks lie, two of them come after a claim and before its row
      turns stale. */
  ghost predicate TwoTicksBeforeStale(c: Config) {
    forall claimedAt, first | IsFirstTick(c, claimedAt, first) ::
      first + c.interval as int < claimedAt + c.staleAfter as int
  }

  /** For a sweeper that ticks at all, an accepted configuration gives that exactly if
      twice the interval does not overflow a duration. */
  lemma AcceptedTicksIff(c: Config)
    requires Acceptable(c) && c.interval > 0
    ensures TwoTicksBeforeStale(c) <==> 2 * (c.interval as int) < 0x8000_0000_0000_0000
  {
    assert IsFirstTick(c, 0, c.interval as int);
  }

  /** A request that waits for a pending key stops polling before a call that began with
      it has used up its own timeout. */
  lemma AcceptedWaitsEndFirst(c: Config, begun: int)
    requires Acceptable(c)
    ensures begun + c.claimPendingWait as int < begun + c.timeout as int
  {
  }

  // ---------------------------------------------------------------------
  // Recording
  // ---------------------------------------------------------------------

  /** From the start of the first of `n` tries to the end of the last, at the most. */
  function TryingTime(n: nat): nat {
    if n == 0 then 0 else TryingTime(n - 1) + (if n == 1 then 0 else Backoff(n - 2)) + WRITE_LIMIT
  }

  /** In closed form: the sleeps double. */
  lemma {:induction false} TryingTimeIs(n: nat)
    requires n >= 1
    ensures TryingTime(n) == n * WRITE_LIMIT + Backoff(n - 1) - FIRST_BACKOFF
  {
    if n > 1 {
      TryingTimeIs(n - 1);
      assert Backoff(n - 1) == 2 * Backoff(n - 2);
    }
  }

  lemma {:induction false} TriesEndBy(c: Config, claimedAt: int, t: Timing, lag: nat, k: nat)
    requires KeepsToLimits(c, claimedAt, t, lag) && k < |t.tries|
    ensures t.tries[k] <= t.placed + TryingTime(k + 1)
  {
    assert TryOk(t, k);
    if k > 0 {
      TriesEndBy(c, claimedAt, t, lag, k - 1);
    }
  }

  lemma {:induction false} TryingTimeGrows(m: nat, n: nat)
    requires m <= n
    ensures TryingTime(m) <= TryingTime(n)
  {
    if m < n {
      TryingTimeGrows(m, n - 1);
    }
  }

  lemma SixDoublings(k: nat)
    ensures Backoff(k + 6) == 64 * Backoff(k)
  {
    assert Backoff(k + 2) == 4 * Backoff(k);
    assert Backoff(k + 4) == 4 * Backoff(k + 2);
  }

  /** The last sleep that is a duration, and all of them together. */
  lemma SleepsOutgrowBounds(n: nat)
    requires n >= 39
    ensures Backoff(37) == 6_871_947_673_600_000_000 < 0x8000_0000_0000_0000 < TryingTime(n)
  {
    var k := 1;
    SixDoublings(k);
    SixDoublings(k + 6);
    SixDoublings(k + 12);
    SixDoublings(k + 18);
    SixDoublings(k + 24);
    SixDoublings(k + 30);
    assert Backoff(k) == 2 * FIRST_BACKOFF;
    TryingTimeGrows(39, n);
    TryingTimeIs(39);
    assert Backoff(k + 37) == 2 * Backoff(k + 36);
  }

  /** How long after a claim its executor may still record, at the most. */
  function RecordingTime(c: Config, lag: nat): nat
    requires c.outcomeAttempts >= 0
  {
    lag + c.CallLimit() + PLACE_LIMIT + TryingTime(c.outcomeAttempts as nat)
  }

  ghost function SlowTries(placed: int, n: nat): seq<int> {
    seq(n, k requires 0 <= k < n => placed + TryingTime(k + 1))
  }

  ghost function Slowest(c: Config, lag: nat): Timing
    requires c.outcomeAttempts >= 0
  {
    var replied := lag + c.CallLimit();
    Timing(lag, replied, replied + PLACE_LIMIT, SlowTries(replied + PLACE_LIMIT, c.outcomeAttempts as nat))
  }

  /** An execution that uses up every limit. */
  lemma SlowestKeepsToLimits(c: Config, lag: nat)
    requires c.outcomeAttempts >= 1
    ensures KeepsToLimits(c, 0, Slowest(c, lag), lag)
    ensures Slowest(c, lag).tries[c.outcomeAttempts as int - 1] == RecordingTime(c, lag)
  {
    var t := Slowest(c, lag);
    forall k | 0 <= k < |t.tries| ensures TryOk(t, k) {
      SlowTryIsOk(t, c.outcomeAttempts as nat, k);
    }
  }

  lemma SlowTryIsOk(t: Timing, n: nat, k: nat)
    requires t.tries == SlowTries(t.placed, n) && k < n
    ensures TryOk(t, k)
  {
    assert t.tries[k] == t.placed + TryingTime(k + 1);
    assert k > 0 ==> t.tries[k - 1] == t.placed + TryingTime(k);
    assert TryingTime(0) == 0;
  }

  /** Exactly when recording is in time: nothing is ever recorded, or the row does not
      turn stale before the lag, the call, the placement, all tries and all sleeps
      between them have passed. */
  lemma RecordsInTimeIff(c: Config, premises: Premises, layout: Layout, lag: nat)
    ensures RecordsInTime(c, premises, layout, lag) <==>
            c.outcomeAttempts < 1 || RecordingTime(c, lag) <= c.staleAfter as int
  {
    if c.outcomeAttempts < 1 {
    } else if RecordingTime(c, lag) <= c.staleAfter as int {
      forall call: Call, t: Timing, k | KeepsToLimits(c, call.claimedAt, t, lag) && 0 <= k < |t.tries|
        ensures Timely(SetupOf(c, premises, layout), call, t.tries[k])
      {
        TriesEndBy(c, call.claimedAt, t, lag, k);
        TryingTimeGrows(k + 1, c.outcomeAttempts as nat);
      }
    } else {
      SlowestKeepsToLimits(c, lag);
      var t, n := Slowest(c, lag), c.outcomeAttempts as nat;
      assert KeepsToLimits(c, SOME_CALL.claimedAt, t, lag) && !Timely(SetupOf(c, premises, layout), SOME_CALL, t.tries[n - 1]);
    }
  }

  /** Validation does not ensure it: calls of one second at the most with rows stale
      after six are accepted, and a single try may record after eight. */
  lemma LateRecordingIsAccepted(premises: Premises, layout: Layout) returns (c: Config)
    ensures Acceptable(c) && !RecordsInTime(c, premises, layout, 0)
  {
    c := Config("db", "http", "trusted_header", "dir", 0, 1, 1, 6_000_000_000, 1, 1_000_000_000, 1_000_000_000, 1, 1, FOUR_WEEKS, 1);
    RecordsInTimeIff(c, premises, layout, 0);
  }

  /** With the default budget, staleness and number of tries there are more than four
      minutes to spare. */
  lemma DefaultsRecordInTime(c: Config, premises: Premises, layout: Layout)
    requires c.connectTimeout == 1_000_000_000 && c.timeout == 10_000_000_000
    requires c.staleAfter == 300_000_000_000 && c.outcomeAttempts == 3
    ensures RecordsInTime(c, premises, layout, 278_850_000_000) && !RecordsInTime(c, premises, layout, 278_850_000_001)
  {
    TryingTimeIs(3);
    assert Backoff(2) == 2 * Backoff(1) && Backoff(1) == 2 * Backoff(0);
    RecordsInTimeIff(c, premises, layout, 278_850_000_000);
    RecordsInTimeIff(c, premises, layout, 278_850_000_001);
  }
}
