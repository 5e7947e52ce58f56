/** Paging as the client does it: the position is handed out as a token, comes back
    as text, and is decoded into the instant and the identifier that the query
    compares with. */
module Tokens {
  import opened Calendar
  import opened Paging
  import Base64
  import Cursor

  const NANOS_PER_DAY: int := 86_400_000_000_000
  const NANOS_PER_MINUTE: int := 60_000_000_000

  // ---------------------------------------------------------------------
  // Instants
  // ---------------------------------------------------------------------

  /** An instant is a number of nanoseconds from the start of year 0. */
  function TimeOf(at: nat): (t: Cursor.Time)
    ensures Cursor.IsTime(t)
  {
    var date := Normal(0, at / NANOS_PER_DAY + 1);
    var tick := at % NANOS_PER_DAY;
    assert tick / 3_600_000_000_000 < 24;
    Cursor.Time(YearOf(date.month), NumberOf(date.month), date.day,
                tick / 3_600_000_000_000, tick / 60_000_000_000 % 60, tick / 1_000_000_000 % 60, tick % 1_000_000_000)
  }

  function DateOf(t: Cursor.Time): Date {
    Date(12 * t.year + t.month - 1, t.day)
  }

  function InstantOf(t: Cursor.Time): int {
    (DayNumber(DateOf(t)) - MonthStart(0)) * NANOS_PER_DAY
    + t.hour * 3_600_000_000_000 + t.minute * 60_000_000_000 + t.second * 1_000_000_000 + t.nano
  }

  lemma TickIsSum(tick: nat)
    requires tick < NANOS_PER_DAY
    ensures tick == tick / 3_600_000_000_000 * 3_600_000_000_000 + tick / 60_000_000_000 % 60 * 60_000_000_000
                    + tick / 1_000_000_000 % 60 * 1_000_000_000 + tick % 1_000_000_000
  {
    var seconds := tick / 1_000_000_000;
    var minutes := tick / 60_000_000_000;
    assert minutes == seconds / 60;
    assert tick / 3_600_000_000_000 == minutes / 60;
  }

  lemma MonthSplits(m: Month)
    ensures 12 * YearOf(m) + NumberOf(m) - 1 == m
  {
  }

  /** Writing an instant as a civil time and reading it back loses nothing. */
  lemma InstantReadsBack(at: nat)
    ensures InstantOf(TimeOf(at)) == at
  {
    var days, tick := at / NANOS_PER_DAY, at % NANOS_PER_DAY;
    var date := Normal(0, days + 1);
    NormalKeepsDayNumber(0, days + 1);
    MonthSplits(date.month);
    assert DateOf(TimeOf(at)) == date;
    TickIsSum(tick);
  }

  const YEAR_10000: int := (MonthStart(120_000) - MonthStart(0)) * NANOS_PER_DAY

  lemma MonthFitsIff(days: nat)
    ensures Normal(0, days + 1).month >= 0
    ensures Normal(0, days + 1).month < 120_000 <==> days < MonthStart(120_000) - MonthStart(0)
  {
    var date := Normal(0, days + 1);
    NormalKeepsDayNumber(0, days + 1);
    if date.month < 120_000 {
      DayPrecedesLaterMonth(date, 120_000);
    } else if date.month > 120_000 {
      MonthStartsIncrease(120_000, date.month);
    }
  }

  /** The year has four digits exactly for the instants before year 10000. */
  lemma YearFitsIff(at: nat)
    ensures 0 <= TimeOf(at).year
    ensures TimeOf(at).year <= 9999 <==> at < YEAR_10000
  {
    var days, last := at / NANOS_PER_DAY, MonthStart(120_000) - MonthStart(0);
    MonthFitsIff(days);
    assert at < last * NANOS_PER_DAY <==> days < last;
  }

  // ---------------------------------------------------------------------
  // Identifiers
  // ---------------------------------------------------------------------

  function HexDigit(d: nat): (c: char)
    requires d < 16
    ensures Cursor.IsHex(c) && HexDigitValue(c) == d
  {
    if d < 10 then '0' + d as char else 'a' + (d - 10) as char
  }

  function HexDigitValue(c: char): (v: nat)
    requires Cursor.IsHex(c)
    ensures v < 16
  {
    if '0' <= c <= '9' then (c - '0') as int
    else if 'a' <= c <= 'f' then (c - 'a') as int + 10
    else (c - 'A') as int + 10
  }

  predicate AllHex(s: string) {
    forall i | 0 <= i < |s| :: Cursor.IsHex(s[i])
  }

  function HexText(n: nat, width: nat): (s: string)
    ensures |s| == width && AllHex(s)
  {
    if width == 0 then "" else HexText(n / 16, width - 1) + [HexDigit(n % 16)]
  }

  function HexValue(s: string): nat
    requires AllHex(s)
  {
    if s == "" then 0 else 16 * HexValue(s[..|s| - 1]) + HexDigitValue(s[|s| - 1])
  }

  function Pow16(n: nat): nat {
    if n == 0 then 1 else 16 * Pow16(n - 1)
  }

  lemma {:induction false} HexReadsBack(n: nat, width: nat)
    requires n < Pow16(width)
    ensures HexValue(HexText(n, width)) == n
  {
    if width > 0 {
      HexReadsBack(n / 16, width - 1);
      var s := HexText(n, width);
      assert s[..|s| - 1] == HexText(n / 16, width - 1);
    }
  }

  function UuidText(id: nat): string {
    var h := HexText(id, 32);
    h[..8] + "-" + h[8..12] + "-" + h[12..16] + "-" + h[16..20] + "-" + h[20..]
  }

  function UuidValue(s: string): nat
    requires Cursor.IsUuid(s)
  {
    HexValue(s[..8] + s[9..13] + s[14..18] + s[19..23] + s[24..])
  }

  lemma UuidParts(id: nat)
    ensures var h, s := HexText(id, 32), UuidText(id);
            && |s| == 36 && s[8] == '-' && s[13] == '-' && s[18] == '-' && s[23] == '-'
            && s[..8] == h[..8] && s[9..13] == h[8..12] && s[14..18] == h[12..16] && s[19..23] == h[16..20]
            && s[24..] == h[20..]
  {
  }

  lemma UuidIsShaped(id: nat)
    ensures Cursor.IsUuid(UuidText(id)) && Base64.IsBytes(UuidText(id))
  {
    var s := UuidText(id);
    UuidParts(id);
    forall i | 0 <= i < 36 && !Cursor.IsSeparator(i) ensures Cursor.IsHex(s[i]) {
      if i < 8 {
        assert s[i] == s[..8][i];
      } else if i < 13 {
        assert s[i] == s[9..13][i - 9];
      } else if i < 18 {
        assert s[i] == s[14..18][i - 14];
      } else if i < 23 {
        assert s[i] == s[19..23][i - 19];
      } else {
        assert s[i] == s[24..][i - 24];
      }
    }
  }

  lemma Rejoins(h: string)
    requires |h| == 32
    ensures h[..8] + h[8..12] + h[12..16] + h[16..20] + h[20..] == h
  {
  }

  lemma UuidReadsBack(id: nat)
    requires id < Pow16(32)
    ensures Cursor.IsUuid(UuidText(id)) && Base64.IsBytes(UuidText(id)) && UuidValue(UuidText(id)) == id
  {
    UuidParts(id);
    UuidIsShaped(id);
    Rejoins(HexText(id, 32));
    HexReadsBack(id, 32);
  }

  // ---------------------------------------------------------------------
  // Tokens
  // ---------------------------------------------------------------------

  /** The token a page ends with. */
  function TokenText(at: nat, id: nat): string
    requires id < Pow16(32)
  {
    UuidReadsBack(id);
    Cursor.Encode(Cursor.Token(TimeOf(at), UuidText(id)))
  }

  datatype Position = At(cursor: Paging.Cursor) | BadToken

  /** The position that a decoded token stands for: a time in another zone is the
      instant it means. */
  function PositionIn(found: Cursor.Outcome): Position {
    if found.Found? && Cursor.IsUuid(found.id) then
      At(After(InstantOf(found.at.local) - found.at.offset * NANOS_PER_MINUTE, UuidValue(found.id)))
    else BadToken
  }

  function PositionOf(fold: string -> string, text: string): Position {
    PositionIn(Cursor.Decode(fold, text))
  }

  lemma WrittenPosition(at: nat, id: nat)
    requires id < Pow16(32)
    ensures PositionIn(Cursor.Found(Cursor.Stamp(TimeOf(at), 0), UuidText(id))) == At(After(at, id))
  {
    InstantReadsBack(at);
    UuidReadsBack(id);
  }

  lemma TokenIsFoundIff(fold: string -> string, at: nat, id: nat)
    requires Cursor.IsFolding(fold) && id < Pow16(32)
    ensures Cursor.Decode(fold, TokenText(at, id)).Found? <==> at < YEAR_10000
    ensures at < YEAR_10000 ==>
              Cursor.Decode(fold, TokenText(at, id)) == Cursor.Found(Cursor.Stamp(TimeOf(at), 0), UuidText(id))
  {
    UuidReadsBack(id);
    YearFitsIff(at);
    Cursor.TokenRoundTripIff(fold, Cursor.Token(TimeOf(at), UuidText(id)));
  }

  /** A position survives the way to the client and back if and only if its instant
      lies before year 10000. */
  lemma PositionSurvivesIff(fold: string -> string, at: nat, id: nat)
    requires Cursor.IsFolding(fold) && id < Pow16(32)
    ensures PositionOf(fold, TokenText(at, id)) == At(After(at, id)) <==> at < YEAR_10000
  {
    TokenIsFoundIff(fold, at, id);
    WrittenPosition(at, id);
  }

  /** A row whose position can be written. */
  predicate Fits(row: Row) {
    0 <= row.at < YEAR_10000 && row.id < Pow16(32)
  }

  /** Pages read one after the other, each from where the token of the one before says. */
  ghost predicate IsTokenWalk(fold: string -> string, pages: seq<Page>, tables: seq<set<Row>>, bounds: Bounds, cursor: Paging.Cursor, limit: nat) {
    && |pages| == |tables| && |pages| >= 1
    && IsPage(pages[0], tables[0], bounds, cursor, limit)
    && (|pages| > 1 ==>
          && NextPosition(fold, pages[0]).At?
          && IsTokenWalk(fold, pages[1..], tables[1..], bounds, NextPosition(fold, pages[0]).cursor, limit))
  }

  /** Where the token at the end of a page sends the next query. */
  function NextPosition(fold: string -> string, page: Page): Position {
    if page.hasMore && page.next.After? && page.next.at >= 0 && page.next.id < Pow16(32) then
      PositionOf(fold, TokenText(page.next.at, page.next.id))
    else BadToken
  }

  ghost predicate AllFit(table: set<Row>) {
    forall row | row in table :: Fits(row)
  }

  /** The token of a page leads back to where the page ended. */
  lemma TokenLeadsBack(fold: string -> string, page: Page, table: set<Row>, bounds: Bounds, cursor: Paging.Cursor, limit: nat)
    requires Cursor.IsFolding(fold)
    requires IsPage(page, table, bounds, cursor, limit) && page.hasMore
    requires AllFit(table)
    ensures NextPosition(fold, page) == At(page.next)
  {
    PageMeaning(page, table, bounds, cursor, limit);
    var last := page.rows[limit - 1];
    assert last in page.rows && Fits(last);
    PositionSurvivesIff(fold, last.at, last.id);
  }

  lemma {:induction false} TokenWalkIsWalk(fold: string -> string, pages: seq<Page>, tables: seq<set<Row>>, bounds: Bounds, cursor: Paging.Cursor, limit: nat)
    requires Cursor.IsFolding(fold) && IsTokenWalk(fold, pages, tables, bounds, cursor, limit)
    requires forall k | 0 <= k < |tables| :: AllFit(tables[k])
    ensures IsWalk(pages, tables, bounds, cursor, limit)
    decreases |pages|
  {
    if |pages| > 1 {
      assert AllFit(tables[0]) && pages[0].hasMore;
      TokenLeadsBack(fold, pages[0], tables[0], bounds, cursor, limit);
      TokenWalkIsWalk(fold, pages[1..], tables[1..], bounds, pages[0].next, limit);
    }
  }

  /** Following tokens to the end gives every row present throughout exactly once,
      newest first, whatever was inserted between the pages. */
  lemma TokenPagingIsExact(fold: string -> string, pages: seq<Page>, tables: seq<set<Row>>, bounds: Bounds, limit: nat, row: Row)
    requires Cursor.IsFolding(fold) && IsTokenWalk(fold, pages, tables, bounds, Top, limit) && Finished(pages)
    requires forall k | 0 <= k < |tables| :: AllFit(tables[k])
    requires Matches(row, bounds) && forall k | 0 <= k < |tables| :: row in tables[k]
    ensures Descending(Gathered(pages)) && Occurrences(Gathered(pages), row) == 1
  {
    TokenWalkIsWalk(fold, pages, tables, bounds, Top, limit);
    PagingIsExact(pages, tables, bounds, limit, row);
  }

  lemma {:induction false} WalkIsTokenWalk(fold: string -> string, pages: seq<Page>, tables: seq<set<Row>>, bounds: Bounds, cursor: Paging.Cursor, limit: nat)
    requires Cursor.IsFolding(fold) && IsWalk(pages, tables, bounds, cursor, limit)
    requires forall k | 0 <= k < |tables| :: AllFit(tables[k])
    ensures IsTokenWalk(fold, pages, tables, bounds, cursor, limit)
    decreases |pages|
  {
    if |pages| > 1 {
      assert AllFit(tables[0]) && pages[0].hasMore;
      TokenLeadsBack(fold, pages[0], tables[0], bounds, cursor, limit);
      WalkIsTokenWalk(fold, pages[1..], tables[1..], bounds, pages[0].next, limit);
    }
  }

  /** On a table that does not change the client does come to the end, after no more
      pages than the rows fill, and has then read exactly the one sorted list. */
  lemma TokenPagingEnds(fold: string -> string, table: set<Row>, bounds: Bounds, limit: nat, whole: seq<Row>)
      returns (pages: seq<Page>, tables: seq<set<Row>>)
    requires Cursor.IsFolding(fold) && limit >= 1 && AllFit(table)
    requires Descending(whole) && forall row :: row in whole <==> row in table && Matches(row, bounds)
    ensures IsTokenWalk(fold, pages, tables, bounds, Top, limit) && Finished(pages) && AllAre(tables, table)
    ensures Gathered(pages) == whole && (|pages| - 1) * limit <= |table|
  {
    pages, tables := WalkExists(table, bounds, Top, limit);
    WalkIsTokenWalk(fold, pages, tables, bounds, Top, limit);
    WalkIsShort(pages, tables, table, bounds, limit);
    PagingRefinesOneRead(pages, tables, table, bounds, limit, whole);
  }
}
