/** The outbox relay: publish first, mark afterwards, crash anywhere. */
module Relay {

  /** An intent as the relay sees it. */
  datatype Row = Row(id: nat, emittedAt: int, published: bool)

  datatype Outcome = Published(count: nat) | Failed

  /** What happens to one cycle: reading or encoding may fail; the broker takes the
      first `delivered` messages and may report an error; new intents arrive
      before the rows are marked; marking may fail, or succeed with its answer
      lost. A crash between two statements is one of these failures. */
  datatype Cycle = Cycle(
    readFails: bool,
    encodeFails: bool,
    sendFails: bool,
    delivered: nat,
    arrivals: seq<Row>,
    markFails: bool,
    answerLost: bool)

  const SMOOTH := Cycle(false, false, false, 0, [], false, false)

  ghost predicate DistinctIds(table: seq<Row>) {
    forall i, j | 0 <= i < j < |table| :: table[i].id != table[j].id
  }

  /** Every row marked published is in the broker's log. */
  ghost predicate NothingLost(table: seq<Row>, log: seq<nat>) {
    forall i | 0 <= i < |table| && table[i].published :: table[i].id in log
  }

  function Backlog(table: seq<Row>): nat {
    if table == [] then 0
    else Backlog(table[..|table| - 1]) + (if table[|table| - 1].published then 0 else 1)
  }

  lemma {:induction false} BacklogOfMark(table: seq<Row>, i: nat)
    requires i < |table| && !table[i].published
    ensures Backlog(table[i := table[i].(published := true)]) == Backlog(table) - 1
  {
    var n := |table| - 1;
    var after := table[i := table[i].(published := true)];
    if i == n {
      assert after[..n] == table[..n];
    } else {
      assert after[..n] == table[..n][i := table[i].(published := true)];
      BacklogOfMark(table[..n], i);
    }
  }

  /** Nothing is waiting exactly when the backlog is empty. */
  lemma {:induction false} EmptyBacklog(table: seq<Row>)
    ensures Backlog(table) == 0 <==> forall i | 0 <= i < |table| :: table[i].published
  {
    if table != [] {
      var front := table[..|table| - 1];
      EmptyBacklog(front);
      assert forall i | 0 <= i < |front| :: front[i] == table[i];
    }
  }

  function Marked(table: seq<Row>, i: nat): seq<Row>
    requires i < |table|
  {
    table[i := table[i].(published := true)]
  }

  /** The table after the rows at these positions are marked. */
  function MarkedAll(table: seq<Row>, picks: seq<nat>): (after: seq<Row>)
    requires forall k | 0 <= k < |picks| :: picks[k] < |table|
    ensures |after| == |table|
  {
    if picks == [] then table else Marked(MarkedAll(table, picks[..|picks| - 1]), picks[|picks| - 1])
  }

  lemma {:induction false} MarkedAllAt(table: seq<Row>, picks: seq<nat>, i: nat)
    requires forall k | 0 <= k < |picks| :: picks[k] < |table|
    requires i < |table|
    ensures MarkedAll(table, picks)[i] == if i in picks then table[i].(published := true) else table[i]
  {
    if picks != [] {
      MarkedAllAt(table, picks[..|picks| - 1], i);
      assert picks == picks[..|picks| - 1] + [picks[|picks| - 1]];
    }
  }

  lemma {:induction false} BacklogOfMarkAll(table: seq<Row>, picks: seq<nat>)
    requires forall k | 0 <= k < |picks| :: picks[k] < |table| && !table[picks[k]].published
    requires forall j, k | 0 <= j < k < |picks| :: picks[j] != picks[k]
    ensures Backlog(MarkedAll(table, picks)) == Backlog(table) - |picks|
  {
    if picks != [] {
      var front, last := picks[..|picks| - 1], picks[|picks| - 1];
      BacklogOfMarkAll(table, front);
      MarkedAllAt(table, front, last);
      BacklogOfMark(MarkedAll(table, front), last);
    }
  }

  /** What the outbox query returns: unpublished rows, oldest first, as many as fit
      the limit, and none older left out. */
  ghost predicate IsBatch(table: seq<Row>, picks: seq<nat>, limit: nat) {
    && (forall k | 0 <= k < |picks| :: picks[k] < |table| && !table[picks[k]].published)
    && (forall j, k | 0 <= j < k < |picks| ::
          picks[j] != picks[k] && table[picks[j]].emittedAt <= table[picks[k]].emittedAt)
    && |picks| <= limit
    && (forall i | 0 <= i < |table| && !table[i].published && i !in picks ::
          |picks| == limit && forall k | 0 <= k < |picks| :: table[picks[k]].emittedAt <= table[i].emittedAt)
  }

  /** A batch in the making: what is left is unpublished and no older. */
  ghost predicate IsPartial(table: seq<Row>, picks: seq<nat>, left: set<nat>) {
    && (forall i | i in left :: i < |table| && !table[i].published && i !in picks)
    && (forall i: nat | i < |table| && !table[i].published :: i in left || i in picks)
    && (forall k | 0 <= k < |picks| :: picks[k] < |table| && !table[picks[k]].published)
    && (forall j, k | 0 <= j < k < |picks| ::
          picks[j] != picks[k] && table[picks[j]].emittedAt <= table[picks[k]].emittedAt)
    && (forall k, i | 0 <= k < |picks| && i in left :: table[picks[k]].emittedAt <= table[i].emittedAt)
  }

  lemma PartialGrows(table: seq<Row>, picks: seq<nat>, left: set<nat>, i: nat)
    requires IsPartial(table, picks, left) && i in left
    requires forall j | j in left :: table[i].emittedAt <= table[j].emittedAt
    ensures IsPartial(table, picks + [i], left - {i})
  {
    var more := picks + [i];
    assert forall k | 0 <= k < |picks| :: more[k] == picks[k];
  }

  /** A batch is as large as the limit and the backlog allow. */
  lemma BatchSize(table: seq<Row>, picks: seq<nat>, limit: nat)
    requires IsBatch(table, picks, limit)
    ensures |picks| == if Backlog(table) < limit then Backlog(table) else limit
  {
    BacklogOfMarkAll(table, picks);
    var after := MarkedAll(table, picks);
    EmptyBacklog(after);
    forall i | 0 <= i < |table| ensures after[i] == if i in picks then table[i].(published := true) else table[i] {
      MarkedAllAt(table, picks, i);
    }
  }

  class Outbox {
    var table: seq<Row>
    var log: seq<nat>
    /** The configured batch is not validated anywhere. */
    const batch: int

    ghost predicate Valid()
      reads this
    {
      DistinctIds(table) && NothingLost(table, log)
    }

    constructor (batch: int)
      ensures Valid() && table == [] && log == [] && this.batch == batch
    {
      table, log := [], [];
      this.batch := batch;
    }

    method OldestOf(left: set<nat>) returns (oldest: nat)
      requires left != {} && forall i | i in left :: i < |table|
      ensures oldest in left && forall i | i in left :: table[oldest].emittedAt <= table[i].emittedAt
    {
      oldest :| oldest in left;
      var rest := left - {oldest};
      while rest != {}
        invariant rest <= left && oldest in left
        invariant forall i | i in left && i !in rest :: table[oldest].emittedAt <= table[i].emittedAt
        decreases |rest|
      {
        var i :| i in rest;
        if table[i].emittedAt < table[oldest].emittedAt {
          oldest := i;
        }
        rest := rest - {i};
      }
    }

    method Unpublished(limit: nat) returns (picks: seq<nat>)
      ensures IsBatch(table, picks, limit)
    {
      var left: set<nat> := set i: nat | i < |table| && !table[i].published;
      picks := [];
      while left != {} && |picks| < limit
        invariant IsPartial(table, picks, left) && |picks| <= limit
        decreases |left|
      {
        var i := OldestOf(left);
        PartialGrows(table, picks, left, i);
        picks := picks + [i];
        left := left - {i};
      }
    }

    /** UPDATE ... WHERE intent_id = ANY(ids) AND emitted_at = ANY(times). */
    method MarkPublished(ids: seq<nat>, times: seq<int>)
      modifies this`table
      ensures |table| == |old(table)|
      ensures forall i | 0 <= i < |table| ::
                table[i] == if old(table)[i].id in ids && old(table)[i].emittedAt in times
                            then old(table)[i].(published := true) else old(table)[i]
    {
      for i := 0 to |table|
        invariant |table| == |old(table)|
        invariant forall j | 0 <= j < |table| ::
                    table[j] == if j < i && old(table)[j].id in ids && old(table)[j].emittedAt in times
                                then old(table)[j].(published := true) else old(table)[j]
      {
        if table[i].id in ids && table[i].emittedAt in times {
          table := Marked(table, i);
        }
      }
    }

    /** One cycle. Whatever fails, a published mark stands for a message in the log
        and no intent disappears; a cycle that succeeds publishes and marks one
        batch and nothing else, even if intents arrive meanwhile. */
    method Publish(cycle: Cycle) returns (outcome: Outcome, ghost picks: seq<nat>)
      requires Valid()
      requires DistinctIds(table + cycle.arrivals) && forall i | 0 <= i < |cycle.arrivals| :: !cycle.arrivals[i].published
      modifies this`table, this`log
      ensures Valid() && old(log) <= log
      ensures outcome.Failed? ==>
              || table == old(table) || table == old(table) + cycle.arrivals
              || (&& cycle.answerLost && batch >= 0 && IsBatch(old(table), picks, batch)
                  && table == MarkedAll(old(table), picks) + cycle.arrivals)
      ensures outcome.Published? ==>
              && batch >= 0 && IsBatch(old(table), picks, batch) && outcome.count == |picks|
              && |log| == |old(log)| + |picks|
              && (forall k | 0 <= k < |picks| :: log[|old(log)| + k] == old(table)[picks[k]].id)
              && table == MarkedAll(old(table), picks) + (if picks == [] then [] else cycle.arrivals)
      ensures cycle == SMOOTH && batch >= 0 ==> outcome.Published?
      ensures batch < 0 ==> outcome.Failed?
    {
      picks := [];
      if cycle.readFails || batch < 0 {
        return Failed, picks;
      }
      var pending := Unpublished(batch);
      picks := pending;
      if |pending| == 0 {
        assert MarkedAll(table, []) + [] == table;
        return Published(0), picks;
      }
      if cycle.encodeFails {
        return Failed, picks;
      }
      var ids, times := [], [];
      for k := 0 to |pending|
        invariant |ids| == |times| == k
        invariant forall l | 0 <= l < k :: ids[l] == table[pending[l]].id && times[l] == table[pending[l]].emittedAt
      {
        ids := ids + [table[pending[k]].id];
        times := times + [table[pending[k]].emittedAt];
      }
      if cycle.sendFails {
        var taken := if cycle.delivered < |ids| then cycle.delivered else |ids|;
        log := log + ids[..taken];
        return Failed, picks;
      }
      log := log + ids;
      ghost var before := table;
      table := table + cycle.arrivals;
      if cycle.markFails {
        return Failed, picks;
      }
      MarkPublished(ids, times);
      MarkingHitsBatch(before, cycle.arrivals, picks, ids, times, table);
      if cycle.answerLost {
        return Failed, picks;
      }
      return Published(|pending|), picks;
    }

    /** Cycle after cycle without failures and new intents: what is left shrinks by
        one batch a cycle. */
    method Drain(cycles: nat)
      requires Valid() && batch >= 0
      modifies this`table, this`log
      ensures Valid() && |table| == |old(table)|
      ensures Backlog(table) == Left(Backlog(old(table)), batch, cycles)
    {
      ghost var n := Backlog(table);
      for i := 0 to cycles
        invariant Valid() && |table| == |old(table)|
        invariant Backlog(table) == Left(n, batch, i)
      {
        assert table + SMOOTH.arrivals == table;
        ghost var before := table;
        var outcome, picks := Publish(SMOOTH);
        assert table == MarkedAll(before, picks);
        BatchSize(before, picks, batch);
        BacklogOfMarkAll(before, picks);
        assert (i + 1) * batch == i * batch + batch;
      }
    }
  }

  /** Identifiers are unique, so matching them marks the batch and nothing else. */
  lemma MarkingHitsBatch(before: seq<Row>, arrivals: seq<Row>, picks: seq<nat>, ids: seq<nat>, times: seq<int>, after: seq<Row>)
    requires DistinctIds(before + arrivals)
    requires forall k | 0 <= k < |picks| :: picks[k] < |before|
    requires |ids| == |times| == |picks|
    requires forall k | 0 <= k < |picks| :: ids[k] == before[picks[k]].id && times[k] == before[picks[k]].emittedAt
    requires |after| == |before + arrivals|
    requires forall i | 0 <= i < |after| ::
               after[i] == if (before + arrivals)[i].id in ids && (before + arrivals)[i].emittedAt in times
                           then (before + arrivals)[i].(published := true) else (before + arrivals)[i]
    ensures after == MarkedAll(before, picks) + arrivals
  {
    var all := before + arrivals;
    forall i | 0 <= i < |after| ensures after[i] == (MarkedAll(before, picks) + arrivals)[i] {
      if i < |before| {
        MarkedAllAt(before, picks, i);
        if i in picks {
          var k :| 0 <= k < |picks| && picks[k] == i;
          assert ids[k] in ids && times[k] in times;
        } else {
          OutsideBatch(all, picks, ids, i);
        }
      } else {
        OutsideBatch(all, picks, ids, i);
      }
    }
  }

  lemma OutsideBatch(all: seq<Row>, picks: seq<nat>, ids: seq<nat>, i: nat)
    requires DistinctIds(all) && i < |all| && i !in picks && |ids| == |picks|
    requires forall k | 0 <= k < |picks| :: picks[k] < |all| && ids[k] == all[picks[k]].id
    ensures all[i].id !in ids
  {
    forall k | 0 <= k < |ids| ensures ids[k] != all[i].id {
      assert picks[k] != i;
    }
  }

  function CeilDiv(n: nat, d: nat): nat
    requires d > 0
  {
    (n + d - 1) / d
  }

  /** How much is left after so many smooth cycles. */
  function Left(n: nat, batch: nat, cycles: nat): nat {
    if n < cycles * batch then 0 else n - cycles * batch
  }

  /** A backlog of `n` is gone after ceil(n / batch) cycles, and not before. */
  lemma DrainsInCeilCycles(n: nat, batch: nat, cycles: nat)
    requires batch >= 1
    ensures Left(n, batch, cycles) == 0 <==> cycles >= CeilDiv(n, batch)
  {
    var c := CeilDiv(n, batch);
    assert c * batch >= n && (c > 0 ==> (c - 1) * batch < n);
    if cycles >= c {
      assert cycles * batch >= c * batch;
    } else {
      assert cycles * batch <= (c - 1) * batch;
    }
  }

  ghost predicate Drains(n: nat, batch: nat) {
    exists cycles: nat :: Left(n, batch, cycles) == 0
  }

  /** Some number of cycles drains every backlog exactly if the batch is at least
      one; the configuration does not check that. */
  lemma DrainsIffBatchPositive(batch: nat)
    ensures batch >= 1 <==> forall n: nat :: Drains(n, batch)
  {
    if batch >= 1 {
      forall n: nat ensures Drains(n, batch) {
        DrainsInCeilCycles(n, batch, CeilDiv(n, batch));
      }
    } else {
      assert forall cycles: nat :: Left(1, batch, cycles) == 1;
      assert !Drains(1, batch);
    }
  }
}
