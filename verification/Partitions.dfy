/** Partition maintenance: extending each range-partitioned table up to a horizon. */
module Partitions {
  import opened Calendar
  import opened Digits

  const NANOS_PER_SECOND: int := 1_000_000_000
  const NANOS_PER_DAY: int := 86_400 * NANOS_PER_SECOND

  /** An instant in UTC: a date and the nanoseconds since its midnight. */
  datatype Stamp = Stamp(date: Date, tick: int)

  predicate IsStamp(t: Stamp) {
    IsDate(t.date) && 0 <= t.tick < NANOS_PER_DAY
  }

  /** A bound is written with a precision of seconds. */
  function Written(t: Stamp): Stamp {
    t.(tick := t.tick - t.tick % NANOS_PER_SECOND)
  }

  predicate IsBound(t: Stamp) {
    IsStamp(t) && Written(t) == t
  }

  predicate Before(a: Stamp, b: Stamp) {
    Earlier(a.date, b.date) || (a.date == b.date && a.tick < b.tick)
  }

  datatype Layout = ByDay | ByMonth

  datatype Partitioned = Partitioned(name: string, layout: Layout, days: nat, months: nat)

  const TABLES: seq<Partitioned> := [
    Partitioned("write_intents", ByDay, 7, 0),
    Partitioned("conflicts", ByDay, 7, 0),
    Partitioned("payload_access_audit", ByMonth, 0, 1)
  ]

  /** The step never stays within the period that the layout writes. */
  predicate Sensible(table: Partitioned) {
    if table.layout.ByDay? then table.days + table.months >= 1 else table.months >= 1
  }

  function Next(table: Partitioned, from: Stamp): Stamp
    requires IsStamp(from)
  {
    from.(date := AddDate(from.date, table.months, table.days))
  }

  // ---------------------------------------------------------------------
  // Names
  // ---------------------------------------------------------------------

  function Label(layout: Layout, date: Date): string {
    var month := YearText(YearOf(date.month)) + Padded(NumberOf(date.month), 2);
    if layout.ByDay? then month + Padded(date.day, 2) else month
  }

  function PartitionName(table: Partitioned, lower: Stamp): string {
    table.name + "_" + Label(table.layout, lower.date)
  }

  /** What the layout writes of a date. */
  predicate SamePeriod(layout: Layout, a: Date, b: Date) {
    a.month == b.month && (layout.ByDay? ==> a.day == b.day)
  }

  lemma SuffixesAgree(a: string, b: string, x: string, y: string)
    requires a + x == b + y && |x| == |y|
    ensures a == b && x == y
  {
    var s := a + x;
    assert s[..|a|] == a && s[|a|..] == x;
    assert (b + y)[..|b|] == b && (b + y)[|b|..] == y;
  }

  lemma MonthTextIsInjective(a: Month, b: Month)
    requires YearText(YearOf(a)) + Padded(NumberOf(a), 2) == YearText(YearOf(b)) + Padded(NumberOf(b), 2)
    ensures a == b
  {
    TwoDigits(NumberOf(a));
    TwoDigits(NumberOf(b));
    SuffixesAgree(YearText(YearOf(a)), YearText(YearOf(b)), Padded(NumberOf(a), 2), Padded(NumberOf(b), 2));
    YearTextIsInjective(YearOf(a), YearOf(b));
    PaddedReadsBack(NumberOf(a), 2);
    PaddedReadsBack(NumberOf(b), 2);
  }

  /** Two lower bounds get the same label only within the same day, or month. */
  lemma LabelsTellPeriodsApart(layout: Layout, a: Date, b: Date)
    requires IsDate(a) && IsDate(b)
    ensures Label(layout, a) == Label(layout, b) <==> SamePeriod(layout, a, b)
  {
    if Label(layout, a) == Label(layout, b) {
      if layout.ByDay? {
        TwoDigits(a.day);
        TwoDigits(b.day);
        SuffixesAgree(YearText(YearOf(a.month)) + Padded(NumberOf(a.month), 2),
                      YearText(YearOf(b.month)) + Padded(NumberOf(b.month), 2), Padded(a.day, 2), Padded(b.day, 2));
        PaddedReadsBack(a.day, 2);
        PaddedReadsBack(b.day, 2);
      }
      MonthTextIsInjective(a.month, b.month);
    }
  }

  predicate NoUnderscore(s: string) {
    forall i | 0 <= i < |s| :: s[i] != '_'
  }

  lemma LabelHasNoUnderscore(layout: Layout, date: Date)
    ensures NoUnderscore(Label(layout, date))
  {
  }

  lemma LastUnderscoreSplits(a: string, b: string, x: string, y: string)
    requires a + "_" + x == b + "_" + y && NoUnderscore(x) && NoUnderscore(y)
    ensures a == b && x == y
  {
    var s, t := a + "_" + x, b + "_" + y;
    assert s[|a|] == '_' && t[|b|] == '_';
    assert forall i | |a| < i < |s| :: s[i] == x[i - |a| - 1];
    assert forall i | |b| < i < |t| :: t[i] == y[i - |b| - 1];
    assert |a| == |b|;
    SuffixesAgree(a + "_", b + "_", x, y);
    SuffixesAgree(a, b, "_", "_");
  }

  /** Names are shared only by the same table and the same period. */
  lemma NamesTellTablesApart(s: Partitioned, t: Partitioned, a: Stamp, b: Stamp)
    requires IsDate(a.date) && IsDate(b.date) && PartitionName(s, a) == PartitionName(t, b)
    ensures s.name == t.name
    ensures s.layout == t.layout ==> SamePeriod(s.layout, a.date, b.date)
  {
    LabelHasNoUnderscore(s.layout, a.date);
    LabelHasNoUnderscore(t.layout, b.date);
    LastUnderscoreSplits(s.name, t.name, Label(s.layout, a.date), Label(t.layout, b.date));
    if s.layout == t.layout {
      LabelsTellPeriodsApart(s.layout, a.date, b.date);
    }
  }

  // ---------------------------------------------------------------------
  // Chains of partitions
  // ---------------------------------------------------------------------

  datatype Partition = Partition(name: string, from: Stamp, to: Stamp)

  /** Partitions as maintenance lays them down: each starts where the previous one ends. */
  ghost predicate IsChain(table: Partitioned, parts: seq<Partition>) {
    && (forall i | 0 <= i < |parts| ::
          && IsBound(parts[i].from) && parts[i].to == Next(table, parts[i].from)
          && parts[i].name == PartitionName(table, parts[i].from))
    && (forall i, j | 0 <= i < |parts| && j == i + 1 && j < |parts| :: parts[i].to == parts[j].from)
  }

  lemma NextIsLater(table: Partitioned, from: Stamp)
    requires Sensible(table) && IsBound(from)
    ensures IsBound(Next(table, from)) && Before(from, Next(table, from))
    ensures Earlier(from.date, Next(table, from).date)
    ensures !SamePeriod(table.layout, from.date, Next(table, from).date)
    ensures Next(table, from).date.month >= from.date.month + table.months
  {
    AddDateAdvances(from.date, table.months, table.days);
  }

  /** An upper bound on the days left, counting 31 to the month. */
  ghost function DaysLeft(t: Stamp, horizon: Stamp): int {
    31 * (horizon.date.month - t.date.month) + horizon.date.day - t.date.day
  }

  lemma NextIsCloser(table: Partitioned, from: Stamp, horizon: Stamp)
    requires Sensible(table) && IsBound(from) && IsStamp(horizon) && Before(from, horizon)
    ensures 0 <= DaysLeft(from, horizon) && DaysLeft(Next(table, from), horizon) < DaysLeft(from, horizon)
  {
    NextIsLater(table, from);
  }

  /** Bounds grow along a chain, by whole periods. */
  lemma {:induction false} ChainGrows(table: Partitioned, parts: seq<Partition>, i: nat, j: nat)
    requires Sensible(table) && IsChain(table, parts) && i <= j < |parts|
    ensures IsBound(parts[j].to) && Before(parts[i].from, parts[j].to)
    ensures Earlier(parts[i].from.date, parts[j].to.date)
    ensures !SamePeriod(table.layout, parts[i].from.date, parts[j].to.date)
    ensures table.layout.ByMonth? ==> parts[i].from.date.month < parts[j].to.date.month
    decreases j - i
  {
    NextIsLater(table, parts[j].from);
    if i < j {
      ChainGrows(table, parts, i, j - 1);
    }
  }

  /** Exactly one partition holds any instant between the first and the last bound. */
  ghost predicate Holds(part: Partition, t: Stamp) {
    !Before(t, part.from) && Before(t, part.to)
  }

  lemma {:induction false} ChainTiles(table: Partitioned, parts: seq<Partition>, t: Stamp) returns (i: nat)
    requires Sensible(table) && IsChain(table, parts) && parts != []
    requires !Before(t, parts[0].from) && Before(t, parts[|parts| - 1].to)
    ensures i < |parts| && Holds(parts[i], t)
    ensures forall j | 0 <= j < |parts| && Holds(parts[j], t) :: j == i
  {
    i := |parts| - 1;
    while Before(t, parts[i].from)
      invariant i < |parts| && Before(t, parts[i].to)
      decreases i
    {
      assert i > 0;
      assert parts[i - 1].to == parts[i].from;
      i := i - 1;
    }
    forall j | 0 <= j < |parts| && Holds(parts[j], t) ensures j == i {
      HeldOnce(table, parts, t, i, j);
    }
  }

  lemma HeldOnce(table: Partitioned, parts: seq<Partition>, t: Stamp, i: nat, j: nat)
    requires Sensible(table) && IsChain(table, parts) && i < |parts| && j < |parts|
    requires Holds(parts[i], t) && Holds(parts[j], t)
    ensures i == j
  {
    if i != j {
      var lo, hi := if i < j then i else j, if i < j then j else i;
      StartsAfter(table, parts, lo, hi);
      assert false;
    }
  }

  /** A later partition starts no earlier than an earlier one ends. */
  lemma StartsAfter(table: Partitioned, parts: seq<Partition>, i: nat, j: nat)
    requires Sensible(table) && IsChain(table, parts) && i < j < |parts|
    ensures parts[i].to == parts[j].from || Before(parts[i].to, parts[j].from)
  {
    assert parts[i].to == parts[i + 1].from && parts[j - 1].to == parts[j].from;
    if i + 1 < j {
      ChainGrows(table, parts, i + 1, j - 1);
    }
  }

  ghost predicate DistinctNames(parts: seq<Partition>) {
    forall i, j | 0 <= i < j < |parts| :: parts[i].name != parts[j].name
  }

  /** No two partitions of a chain share a name, whatever month ends it steps over. */
  lemma ChainNamesAreDistinct(table: Partitioned, parts: seq<Partition>)
    requires Sensible(table) && IsChain(table, parts)
    ensures DistinctNames(parts)
  {
    forall i, j | 0 <= i < j < |parts| ensures parts[i].name != parts[j].name {
      assert parts[j - 1].to == parts[j].from;
      ChainGrows(table, parts, i, j - 1);
      if PartitionName(table, parts[i].from) == PartitionName(table, parts[j].from) {
        NamesTellTablesApart(table, table, parts[i].from, parts[j].from);
        assert false;
      }
    }
  }

  // ---------------------------------------------------------------------
  // Maintenance
  // ---------------------------------------------------------------------

  /** Where a table's partitions end: the start of the week if it has none. */
  function Reach(parts: seq<Partition>, week: Stamp): Stamp {
    if parts == [] then week else parts[|parts| - 1].to
  }

  ghost predicate IsLatest(bound: Stamp, parts: seq<Partition>) {
    && (exists i | 0 <= i < |parts| :: parts[i].to == bound)
    && (forall i | 0 <= i < |parts| :: !Before(bound, parts[i].to))
  }

  lemma {:induction false} EndsInOrder(table: Partitioned, parts: seq<Partition>, i: nat)
    requires Sensible(table) && IsChain(table, parts) && i < |parts|
    ensures i < |parts| - 1 ==> Before(parts[i].to, parts[|parts| - 1].to)
    ensures !Before(parts[|parts| - 1].to, parts[i].to)
  {
    if i < |parts| - 1 {
      StartsAfter(table, parts, i, |parts| - 1);
      ChainGrows(table, parts, |parts| - 1, |parts| - 1);
      BeforeIsTransitive(parts[i].to, parts[|parts| - 1].from, parts[|parts| - 1].to);
    }
  }

  lemma BeforeIsTransitive(a: Stamp, b: Stamp, c: Stamp)
    requires (a == b || Before(a, b)) && Before(b, c)
    ensures Before(a, c) && !Before(c, a)
  {
  }

  /** The latest upper bound of a chain is that of its last partition. */
  lemma LatestIsLast(table: Partitioned, parts: seq<Partition>, bound: Stamp)
    requires Sensible(table) && IsChain(table, parts) && IsLatest(bound, parts)
    ensures bound == parts[|parts| - 1].to
  {
    var i: nat :| i < |parts| && parts[i].to == bound;
    assert !Before(bound, parts[|parts| - 1].to);
    EndsInOrder(table, parts, i);
  }

  /** The name of the partition that continues a chain is free. */
  lemma NameIsFree(table: Partitioned, parts: seq<Partition>, i: nat)
    requires Sensible(table) && IsChain(table, parts) && i < |parts|
    ensures parts[i].name != PartitionName(table, parts[|parts| - 1].to)
  {
    ChainGrows(table, parts, i, |parts| - 1);
    var a, b := parts[i].from, parts[|parts| - 1].to;
    if PartitionName(table, a) == PartitionName(table, b) {
      NamesTellTablesApart(table, table, a, b);
      assert false;
    }
  }

  predicate Meets(part: Partition, from: Stamp, to: Stamp) {
    Before(from, part.to) && Before(part.from, to)
  }

  lemma ContinuationIsApart(table: Partitioned, parts: seq<Partition>, week: Stamp)
    requires Sensible(table) && IsChain(table, parts) && IsBound(week)
    ensures IsBound(Reach(parts, week))
    ensures forall i | 0 <= i < |parts| ::
              && !Meets(parts[i], Reach(parts, week), Next(table, Reach(parts, week)))
              && parts[i].name != PartitionName(table, Reach(parts, week))
  {
    forall i | 0 <= i < |parts|
      ensures !Before(Reach(parts, week), parts[i].to) && IsBound(Reach(parts, week))
      ensures parts[i].name != PartitionName(table, Reach(parts, week))
    {
      ChainGrows(table, parts, i, |parts| - 1);
      EndsInOrder(table, parts, i);
      NameIsFree(table, parts, i);
    }
  }

  predicate Lists(parts: seq<Partition>, name: string) {
    exists i | 0 <= i < |parts| :: parts[i].name == name
  }

  function Names(tables: seq<Partitioned>): set<string> {
    set i | 0 <= i < |tables| :: tables[i].name
  }

  ghost predicate Proper(tables: seq<Partitioned>) {
    && (forall i | 0 <= i < |tables| :: Sensible(tables[i]))
    && (forall i, j | 0 <= i < j < |tables| :: tables[i].name != tables[j].name)
  }

  ghost predicate Laid(tables: seq<Partitioned>, children: map<string, seq<Partition>>) {
    && children.Keys == Names(tables)
    && (forall table | table in tables :: table.name in children && IsChain(table, children[table.name]))
  }

  /** The tables the service maintains are told apart by name and step forward. */
  lemma TablesAreProper()
    ensures Proper(TABLES)
  {
    assert TABLES[0].name[0] == 'w' && TABLES[1].name[0] == 'c' && TABLES[2].name[0] == 'p';
  }

  /** Intents and conflicts are kept by the week: a partition that starts on some day of
      the week ends on the same one, seven days on, whatever months and years it spans.
      The audit is kept by the month: from the first of a month to the first of the next. */
  lemma TableSteps(table: Partitioned, from: Stamp)
    requires table in TABLES && IsStamp(from)
    ensures table.name in {"write_intents", "conflicts"} ==>
            DayNumber(Next(table, from).date) == DayNumber(from.date) + 7 && Next(table, from).tick == from.tick
    ensures table.name == "payload_access_audit" && from.date.day == 1 ==>
            Next(table, from) == from.(date := Date(from.date.month + 1, 1))
  {
    if table == TABLES[2] {
      AddingMonths(from.date, 1);
    } else {
      AddingDaysIsExact(from.date, 7);
      assert TABLES[0].name[0] == 'w' && TABLES[1].name[0] == 'c' && "payload_access_audit"[0] == 'p';
    }
  }

  /** The part of the system catalogue that lists each table's partitions. */
  class Catalog {
    const tables: seq<Partitioned>
    var children: map<string, seq<Partition>>

    constructor (tables: seq<Partitioned>)
      requires Proper(tables)
      ensures this.tables == tables && Valid()
    {
      this.tables := tables;
      children := map name | name in Names(tables) :: [];
    }

    ghost predicate Valid()
      reads this
    {
      Proper(tables) && Laid(tables, children)
    }

    predicate Taken(name: string)
      reads this
    {
      exists k | k in children :: Lists(children[k], name)
    }

    predicate Overlaps(parent: string, from: Stamp, to: Stamp)
      requires parent in children
      reads this
    {
      exists i | 0 <= i < |children[parent]| :: Meets(children[parent][i], from, to)
    }

    /** CREATE TABLE IF NOT EXISTS ... PARTITION OF: an existing name is passed over in
        silence, an overlapping range is an error. */
    method Create(parent: string, name: string, from: Stamp, to: Stamp) returns (ok: bool)
      requires parent in children
      modifies this
      ensures ok <==> old(Taken(name)) || !old(Overlaps(parent, from, to))
      ensures children == if old(Taken(name)) || !ok then old(children)
                          else old(children)[parent := old(children)[parent] + [Partition(name, from, to)]]
    {
      if Taken(name) {
        return true;
      }
      if Overlaps(parent, from, to) {
        return false;
      }
      children := children[parent := children[parent] + [Partition(name, from, to)]];
      return true;
    }

    method UpperBound(parent: string, week: Stamp) returns (bound: Stamp)
      requires parent in children
      ensures children[parent] == [] ==> bound == week
      ensures children[parent] != [] ==> IsLatest(bound, children[parent])
    {
      var parts := children[parent];
      if parts == [] {
        return week;
      }
      bound := parts[0].to;
      for i := 1 to |parts|
        invariant IsLatest(bound, parts[..i])
      {
        ghost var was := bound;
        if Before(bound, parts[i].to) {
          bound := parts[i].to;
        }
        LatestOfMore(parts[..i], parts[i], was);
        assert parts[..i + 1] == parts[..i] + [parts[i]];
      }
      assert parts[..|parts|] == parts;
    }

    method Boundary(table: Partitioned, week: Stamp) returns (bound: Stamp)
      requires Valid() && table in tables && IsBound(week)
      ensures bound == Reach(children[table.name], week) && IsBound(bound)
    {
      bound := UpperBound(table.name, week);
      if children[table.name] != [] {
        LatestIsLast(table, children[table.name], bound);
      }
      ReachIsBound(table, children[table.name], week);
    }

    /** One turn of the loop. The range and the name are both free, so the partition is
        created and the chain goes on. */
    method AddNext(table: Partitioned, boundary: Stamp, ghost week: Stamp) returns (ok: bool, upper: Stamp)
      requires Valid() && table in tables && IsBound(week) && IsBound(boundary)
      requires boundary == Reach(children[table.name], week)
      modifies this
      ensures Valid() && ok && upper == Next(table, boundary) && IsBound(upper)
      ensures children == old(children)[table.name := old(children)[table.name] + [Following(table, boundary)]]
    {
      upper := Next(table, boundary);
      NextIsLater(table, boundary);
      ContinuationIsApart(table, children[table.name], week);
      NameIsFreeEverywhere(tables, children, table, boundary);
      ChainContinues(table, children[table.name], week);
      LaidContinues(tables, children, table, children[table.name] + [Following(table, boundary)]);
      ok := Create(table.name, PartitionName(table, boundary), Written(boundary), Written(upper));
    }

    /** The state between two turns: only this table has changed since `origin`. */
    ghost predicate Midway(origin: map<string, seq<Partition>>, table: Partitioned, horizon: Stamp, week: Stamp,
                           boundary: Stamp, created: nat)
      reads this
    {
      && Valid() && table in tables && table.name in origin && IsBound(boundary)
      && children.Keys == origin.Keys && (forall k | k in children && k != table.name :: children[k] == origin[k])
      && boundary == Reach(children[table.name], week)
      && created == |children[table.name]| - |origin[table.name]|
      && Continues(origin[table.name], children[table.name], week, horizon)
    }

    method Turn(ghost origin: map<string, seq<Partition>>, table: Partitioned, horizon: Stamp, ghost week: Stamp,
                boundary: Stamp, ghost created: nat)
      returns (ok: bool, upper: Stamp)
      requires Midway(origin, table, horizon, week, boundary, created)
      requires IsStamp(horizon) && IsBound(week) && Before(boundary, horizon)
      modifies this
      ensures ok && Midway(origin, table, horizon, week, upper, created + 1)
      ensures 0 <= DaysLeft(boundary, horizon) && DaysLeft(upper, horizon) < DaysLeft(boundary, horizon)
    {
      ghost var now := children[table.name];
      NextIsCloser(table, boundary, horizon);
      ContinuesFurther(origin[table.name], now, Following(table, boundary), week, horizon);
      ok, upper := AddNext(table, boundary, week);
      assert children[table.name] == now + [Following(table, boundary)];
    }

    /** Creates partitions until the table reaches the horizon. Nothing is passed over
        and nothing fails: every partition asked for is created. */
    method Extend(table: Partitioned, horizon: Stamp, week: Stamp) returns (ok: bool, created: nat)
      requires Valid() && table in tables && IsStamp(horizon) && IsBound(week)
      modifies this
      ensures Valid() && ok && children.Keys == old(children).Keys
      ensures forall k | k in children && k != table.name :: children[k] == old(children)[k]
      ensures created == |children[table.name]| - |old(children)[table.name]|
      ensures Extended(old(children)[table.name], children[table.name], week, horizon)
    {
      ok, created := true, 0;
      var boundary := Boundary(table, week);
      while Before(boundary, horizon)
        invariant ok && Midway(old(children), table, horizon, week, boundary, created)
        decreases DaysLeft(boundary, horizon)
      {
        ok, boundary := Turn(old(children), table, horizon, week, boundary, created);
        created := created + 1;
      }
    }

    /** Extends every table. Running again with the same horizon changes nothing. */
    method EnsurePartitions(horizon: Stamp, week: Stamp) returns (ok: bool)
      requires Valid() && IsStamp(horizon) && IsBound(week)
      modifies this
      ensures Valid() && ok && children.Keys == old(children).Keys
      ensures forall i | 0 <= i < |tables| ::
                Extended(old(children)[tables[i].name], children[tables[i].name], week, horizon)
      ensures (forall i | 0 <= i < |tables| :: !Before(Reach(old(children)[tables[i].name], week), horizon)) ==>
                children == old(children)
    {
      ok := true;
      ghost var before := children;
      for i := 0 to |tables|
        invariant Valid() && ok && ExtendedUpTo(tables, i, before, children, week, horizon)
      {
        ghost var mid := children;
        var created;
        ok, created := Extend(tables[i], horizon, week);
        ExtendsOneMore(tables, i, before, mid, children, week, horizon);
      }
      NothingToDo(tables, before, children, week, horizon);
    }
  }

  /** What extending a table adds: a run of partitions that starts where the table ended,
      each of which was still needed, and nothing at all if the horizon was covered. */
  ghost predicate Continues(was: seq<Partition>, now: seq<Partition>, week: Stamp, horizon: Stamp) {
    && was <= now
    && (forall i | |was| <= i < |now| :: Before(now[i].from, horizon))
    && (now != was ==> Before(Reach(was, week), horizon) && now[|was|].from == Reach(was, week))
  }

  /** The table now reaches the horizon, and went no further than it had to. */
  ghost predicate Extended(was: seq<Partition>, now: seq<Partition>, week: Stamp, horizon: Stamp) {
    Continues(was, now, week, horizon) && !Before(Reach(now, week), horizon)
  }

  /** The first `n` tables are extended and the others as they were. */
  ghost predicate ExtendedUpTo(tables: seq<Partitioned>, n: nat, was: map<string, seq<Partition>>,
                               now: map<string, seq<Partition>>, week: Stamp, horizon: Stamp)
  {
    && was.Keys == now.Keys == Names(tables)
    && (forall i | 0 <= i < |tables| ::
          if i < n then Extended(was[tables[i].name], now[tables[i].name], week, horizon)
          else now[tables[i].name] == was[tables[i].name])
  }

  lemma ExtendsOneMore(tables: seq<Partitioned>, n: nat, was: map<string, seq<Partition>>,
                       mid: map<string, seq<Partition>>, now: map<string, seq<Partition>>, week: Stamp, horizon: Stamp)
    requires Proper(tables) && n < |tables| && ExtendedUpTo(tables, n, was, mid, week, horizon)
    requires now.Keys == mid.Keys && forall k | k in now && k != tables[n].name :: now[k] == mid[k]
    requires Extended(mid[tables[n].name], now[tables[n].name], week, horizon)
    ensures ExtendedUpTo(tables, n + 1, was, now, week, horizon)
  {
    forall i | 0 <= i < |tables| && i != n ensures now[tables[i].name] == mid[tables[i].name] {
      assert tables[i].name in Names(tables);
    }
  }

  lemma ContinuesFurther(was: seq<Partition>, parts: seq<Partition>, part: Partition, week: Stamp, horizon: Stamp)
    requires Continues(was, parts, week, horizon)
    requires part.from == Reach(parts, week) && Before(part.from, horizon)
    ensures Continues(was, parts + [part], week, horizon)
  {
  }

  lemma NothingToDo(tables: seq<Partitioned>, was: map<string, seq<Partition>>, now: map<string, seq<Partition>>, week: Stamp, horizon: Stamp)
    requires was.Keys == now.Keys == Names(tables)
    requires forall i | 0 <= i < |tables| :: Extended(was[tables[i].name], now[tables[i].name], week, horizon)
    ensures (forall i | 0 <= i < |tables| :: !Before(Reach(was[tables[i].name], week), horizon)) ==> now == was
  {
    forall k | k in was ensures !Before(Reach(was[k], week), horizon) ==> now[k] == was[k] {
      var i :| 0 <= i < |tables| && tables[i].name == k;
    }
  }

  lemma ReachIsBound(table: Partitioned, parts: seq<Partition>, week: Stamp)
    requires Sensible(table) && IsChain(table, parts) && IsBound(week)
    ensures IsBound(Reach(parts, week))
  {
    if parts != [] {
      NextIsLater(table, parts[|parts| - 1].from);
    }
  }

  function Following(table: Partitioned, from: Stamp): Partition
    requires IsStamp(from)
  {
    Partition(PartitionName(table, from), from, Next(table, from))
  }

  lemma ChainContinues(table: Partitioned, parts: seq<Partition>, week: Stamp)
    requires IsChain(table, parts) && IsBound(Reach(parts, week))
    ensures IsChain(table, parts + [Following(table, Reach(parts, week))])
  {
  }

  lemma LaidContinues(tables: seq<Partitioned>, children: map<string, seq<Partition>>, table: Partitioned, parts: seq<Partition>)
    requires Proper(tables) && Laid(tables, children) && table in tables && IsChain(table, parts)
    ensures Laid(tables, children[table.name := parts])
  {
  }

  /** No table's partitions hold the name of the one that continues a chain. */
  lemma NameIsFreeEverywhere(tables: seq<Partitioned>, children: map<string, seq<Partition>>, table: Partitioned, boundary: Stamp)
    requires Laid(tables, children) && table in tables && IsStamp(boundary)
    requires forall i | 0 <= i < |children[table.name]| :: children[table.name][i].name != PartitionName(table, boundary)
    ensures forall k | k in children :: !Lists(children[k], PartitionName(table, boundary))
  {
    forall k | k in children ensures !Lists(children[k], PartitionName(table, boundary)) {
      var i :| 0 <= i < |tables| && tables[i].name == k;
      if k != table.name {
        OtherNamesDiffer(tables[i], table, children[k], boundary);
      }
    }
  }

  lemma OtherNamesDiffer(other: Partitioned, table: Partitioned, parts: seq<Partition>, boundary: Stamp)
    requires IsChain(other, parts) && other.name != table.name && IsStamp(boundary)
    ensures !Lists(parts, PartitionName(table, boundary))
  {
    forall i | 0 <= i < |parts| ensures parts[i].name != PartitionName(table, boundary) {
      if PartitionName(other, parts[i].from) == PartitionName(table, boundary) {
        NamesTellTablesApart(other, table, parts[i].from, boundary);
        assert false;
      }
    }
  }

  lemma LatestOfMore(parts: seq<Partition>, part: Partition, bound: Stamp)
    requires IsLatest(bound, parts)
    ensures IsLatest(if Before(bound, part.to) then part.to else bound, parts + [part])
  {
    var more := parts + [part];
    assert more[|parts|] == part;
    assert forall i | 0 <= i < |parts| :: more[i] == parts[i];
    var i :| 0 <= i < |parts| && parts[i].to == bound;
    assert more[i].to == bound;
  }
}
