/** Recent downstream latencies per resource type, kept in ring buffers, and the
    retry advice derived from them. */
module Latency {

  const WINDOW := 256

  /** Durations in nanoseconds. */
  const FLOOR := 50_000_000
  const CEILING := 5_000_000_000
  const DEFAULT := 1_000_000_000

  function Clamp(d: int): int {
    if d < FLOOR then FLOOR else if d > CEILING then CEILING else d
  }

  /** The last `WINDOW` elements, or all if there are fewer. */
  function Recent(log: seq<int>): seq<int> {
    if |log| <= WINDOW then log else log[|log| - WINDOW..]
  }

  /** Slot `i` of a ring that has seen `log`: once full, slot `next` holds the
      oldest of the recent ones, and they follow each other around the ring. */
  ghost predicate IsRing(held: seq<int>, next: int, log: seq<int>) {
    if |log| <= WINDOW then held == log && next == 0
    else
      && |held| == WINDOW
      && next == |log| % WINDOW
      && held == Recent(log)[WINDOW - next..] + Recent(log)[..WINDOW - next]
  }

  lemma RingHoldsRecent(held: seq<int>, next: int, log: seq<int>)
    requires IsRing(held, next, log)
    ensures multiset(held) == multiset(Recent(log))
  {
    if |log| > WINDOW {
      RotationKeepsElements(Recent(log), WINDOW - next);
    }
  }

  lemma RotationKeepsElements(s: seq<int>, cut: nat)
    requires cut <= |s|
    ensures multiset(s[cut..] + s[..cut]) == multiset(s)
  {
    assert s == s[..cut] + s[cut..];
  }

  /** Overwriting the oldest slot and moving on by one is what one more
      observation does to the recent ones. */
  lemma RingTurns(held: seq<int>, next: int, log: seq<int>, took: int)
    requires IsRing(held, next, log) && |log| >= WINDOW
    ensures 0 <= next < |held| == WINDOW
    ensures IsRing(held[next := took], (next + 1) % WINDOW, log + [took])
  {
    var log' := log + [took];
    var recent, recent' := Recent(log), Recent(log');
    assert recent' == recent[1..] + [took];
    var next' := (next + 1) % WINDOW;
    assert next' == |log'| % WINDOW by {
      NextIndex(|log|, next);
    }
    var held' := held[next := took];
    assert held == recent[WINDOW - next..] + recent[..WINDOW - next];
    forall i | 0 <= i < WINDOW
      ensures held'[i] == (recent'[WINDOW - next'..] + recent'[..WINDOW - next'])[i]
    {
    }
  }

  lemma FullRing(held: seq<int>, next: int, log: seq<int>)
    requires IsRing(held, next, log)
    ensures |held| < WINDOW <==> |log| < WINDOW
  {
  }

  /** Until the ring is full it is the whole log. */
  lemma RingGrows(held: seq<int>, next: int, log: seq<int>, took: int)
    requires IsRing(held, next, log) && |held| < WINDOW
    ensures IsRing(held + [took], next, log + [took])
  {
  }

  lemma NextIndex(n: nat, next: int)
    requires n >= WINDOW && (next == n % WINDOW || (n == WINDOW && next == 0))
    ensures (next + 1) % WINDOW == (n + 1) % WINDOW
  {
  }

  // ---------------------------------------------------------------------
  // Sorting a copy
  // ---------------------------------------------------------------------

  ghost predicate Sorted(s: seq<int>) {
    forall i, j | 0 <= i < j < |s| :: s[i] <= s[j]
  }

  /** `more` is `s` with `x` put in at position `at`. */
  ghost predicate IsInsertion(s: seq<int>, x: int, at: nat, more: seq<int>) {
    && at <= |s| && |more| == |s| + 1
    && (forall i | 0 <= i < at :: more[i] == s[i])
    && more[at] == x
    && (forall i | at <= i < |s| :: more[i + 1] == s[i])
  }

  /** Putting `x` after the elements that are no larger keeps the list sorted. */
  lemma InsertionSorts(s: seq<int>, x: int, at: nat, more: seq<int>)
    requires Sorted(s) && IsInsertion(s, x, at, more)
    requires forall i | at <= i < |s| :: s[i] > x
    requires at > 0 ==> s[at - 1] <= x
    ensures Sorted(more)
  {
    forall i, j | 0 <= i < j < |more| ensures more[i] <= more[j] {
      if j > at {
        assert more[j - 1 + 1] == s[j - 1];
      }
      if i > at {
        assert more[i - 1 + 1] == s[i - 1];
      }
    }
  }

  lemma InsertionKeepsElements(s: seq<int>, x: int, at: nat, more: seq<int>)
    requires IsInsertion(s, x, at, more)
    ensures multiset(more) == multiset(s) + multiset{x}
  {
    var low, high := s[..at], s[at..];
    assert s == low + high;
    assert more == low + [x] + high;
  }

  /** Shifts the larger elements of the sorted front up and puts `a[n]` below them. */
  method ShiftUp(a: array<int>, n: nat) returns (at: nat)
    requires n < a.Length
    modifies a
    ensures IsInsertion(old(a[..n]), old(a[n]), at, a[..n + 1])
    ensures forall i | at <= i < n :: old(a[i]) > old(a[n])
    ensures at > 0 ==> old(a[at - 1]) <= old(a[n])
    ensures forall i | n < i < a.Length :: a[i] == old(a[i])
  {
    var x := a[n];
    at := n;
    while at > 0 && a[at - 1] > x
      invariant 0 <= at <= n
      invariant forall i | 0 <= i < at :: a[i] == old(a[i])
      invariant forall i | at <= i < n :: a[i + 1] == old(a[i]) && old(a[i]) > x
      invariant forall i | n < i < a.Length :: a[i] == old(a[i])
    {
      a[at] := a[at - 1];
      at := at - 1;
    }
    a[at] := x;
  }

  /** Moves `a[n]` down to its place in the sorted front. */
  method SiftDown(a: array<int>, n: nat)
    requires n < a.Length && Sorted(a[..n])
    modifies a
    ensures Sorted(a[..n + 1])
    ensures multiset(a[..n + 1]) == multiset(old(a[..n])) + multiset{old(a[n])}
    ensures a[n + 1..] == old(a[n + 1..])
  {
    ghost var front, x := a[..n], a[n];
    var at := ShiftUp(a, n);
    InsertionSorts(front, x, at, a[..n + 1]);
    InsertionKeepsElements(front, x, at, a[..n + 1]);
  }

  /** Sorts the array in place. */
  method SortInPlace(a: array<int>)
    modifies a
    ensures Sorted(a[..]) && multiset(a[..]) == multiset(old(a[..]))
  {
    for n := 0 to a.Length
      invariant Sorted(a[..n]) && multiset(a[..n]) == multiset(old(a[..n]))
      invariant a[n..] == old(a[n..])
    {
      assert old(a[..n + 1]) == old(a[..n]) + [a[n]] by {
        assert a[n..][0] == old(a[n..])[0];
      }
      SiftDown(a, n);
    }
    assert a[..a.Length] == a[..] && old(a[..a.Length]) == old(a[..]);
  }

  /** The order statistic of rank `r`: `r` samples lie below it, all others above,
      where equal ones may lie on either side. */
  ghost predicate HasRank(samples: multiset<int>, r: nat, value: int) {
    exists low: multiset<int>, high: multiset<int> :: Splits(samples, r, value, low, high)
  }

  ghost predicate Splits(samples: multiset<int>, r: nat, value: int, low: multiset<int>, high: multiset<int>) {
    && samples == low + multiset{value} + high
    && |low| == r
    && (forall x | x in low :: x <= value)
    && (forall x | x in high :: x >= value)
  }

  /** There is one such value only. */
  lemma RankIsUnique(samples: multiset<int>, r: nat, v: int, w: int)
    requires HasRank(samples, r, v) && HasRank(samples, r, w)
    ensures v == w
  {
    var low, high: multiset<int> :| Splits(samples, r, v, low, high);
    var low', high': multiset<int> :| Splits(samples, r, w, low', high');
    RankIsMonotone(samples, r, v, low, high, w, low', high');
    RankIsMonotone(samples, r, w, low', high', v, low, high);
  }

  lemma RankIsMonotone(samples: multiset<int>, r: nat, v: int, low: multiset<int>, high: multiset<int>,
                       w: int, low': multiset<int>, high': multiset<int>)
    requires Splits(samples, r, v, low, high) && Splits(samples, r, w, low', high')
    ensures v >= w
  {
    if v < w {
      LowSamplesFit(samples, r, v, low, high, w, low', high');
      SizeIsMonotone(low + multiset{v}, low');
    }
  }

  lemma LowSamplesFit(samples: multiset<int>, r: nat, v: int, low: multiset<int>, high: multiset<int>,
                      w: int, low': multiset<int>, high': multiset<int>)
    requires Splits(samples, r, v, low, high) && samples == low' + multiset{w} + high' && v < w
    requires forall x | x in high' :: x >= w
    ensures low + multiset{v} <= low'
  {
    var small := low + multiset{v};
    forall x ensures small[x] <= low'[x] {
      if x in small {
        assert x <= v && x !in high' && x != w;
        assert samples[x] == low'[x];
        assert samples[x] >= small[x];
      }
    }
  }

  lemma SizeIsMonotone(a: multiset<int>, b: multiset<int>)
    requires a <= b
    ensures |a| <= |b|
  {
    assert b == a + (b - a);
  }

  /** In a sorted list the position is the rank. */
  lemma SortedRank(s: seq<int>, r: nat)
    requires Sorted(s) && r < |s|
    ensures HasRank(multiset(s), r, s[r])
  {
    var low, high := s[..r], s[r + 1..];
    assert s == low + [s[r]] + high;
    forall x | x in multiset(low) ensures x <= s[r] {
      assert x in low;
    }
    forall x | x in multiset(high) ensures x >= s[r] {
      assert x in high;
    }
    assert Splits(multiset(s), r, s[r], multiset(low), multiset(high));
  }

  // ---------------------------------------------------------------------
  // The tracker
  // ---------------------------------------------------------------------

  // The rank is computed in binary64. Its constant 0.95 is P95 / 2^53, and a
  // product is rounded to 53 significant bits, half to even.

  const TWO_53 := 0x20_0000_0000_0000
  const P95 := 8556839292003942

  /** The spacing of the doubles around p / 2^53, in units of 1 / 2^53. */
  function Spacing(p: nat): nat {
    if p < TWO_53 then 1
    else if p < 2 * TWO_53 then 2
    else if p < 4 * TWO_53 then 4
    else if p < 8 * TWO_53 then 8
    else if p < 16 * TWO_53 then 16
    else if p < 32 * TWO_53 then 32
    else if p < 64 * TWO_53 then 64
    else if p < 128 * TWO_53 then 128
    else 256
  }

  function Rounded(p: nat): nat {
    var u := Spacing(p);
    var low, rest := p / u * u, p % u;
    if 2 * rest < u || (2 * rest == u && low / u % 2 == 0) then low else low + u
  }

  /** int(float64(k) * 0.95), for products below 256. */
  function FloatRank(k: nat): nat {
    Rounded(k * P95) / TWO_53
  }

  lemma RoundedIsNear(p: nat)
    ensures p - 128 <= Rounded(p) <= p + 128
  {
    var u := Spacing(p);
    assert p == p / u * u + p % u;
  }

  lemma BetweenIntegers(k: nat, q: nat, fifths: nat, rounded: nat)
    requires k < WINDOW && 19 * k == 20 * q + fifths && 1 <= fifths <= 19
    requires k * P95 - 128 <= rounded <= k * P95 + 128
    ensures rounded / TWO_53 == q
  {
    assert 20 * (k * P95) == (20 * q + fifths) * TWO_53 - 8 * k;
    assert q * TWO_53 <= rounded < (q + 1) * TWO_53;
  }

  /** The rounded product never falls on the wrong side of an integer: the rank
      is floor(0.95 * k) for every k a full ring can give. */
  lemma FloatRankIsExact(k: nat)
    requires k < WINDOW
    ensures FloatRank(k) == k * 95 / 100
  {
    var q, fifths := 19 * k / 20, 19 * k % 20;
    assert k * 95 / 100 == q;
    if fifths != 0 {
      RoundedIsNear(k * P95);
      BetweenIntegers(k, q, fifths, Rounded(k * P95));
    } else {
      assert k == 20 * (k - q);
      FloatRankOfTwenties(k - q);
    }
  }

  /** A product just short of a multiple of the spacing is rounded up to it. */
  lemma RoundsUp(p: nat, u: nat, m: nat, short: nat)
    requires Spacing(p) == u && u in {32, 64, 128, 256}
    requires 0 < short && 2 * short < u && p == m * u - short
    ensures Rounded(p) == m * u
  {
    assert p / u == m - 1 && p % u == u - short;
  }

  lemma TwentiesRoundUp32(j: nat)
    requires j == 1
    ensures Rounded(20 * j * P95) == 19 * j * TWO_53
  {
    RoundsUp(20 * P95, 32, 19 * (TWO_53 / 32), 8);
  }

  lemma TwentiesRoundUp64(j: nat)
    requires 2 <= j <= 3
    ensures Rounded(20 * j * P95) == 19 * j * TWO_53
  {
    RoundsUp(20 * j * P95, 64, 19 * j * (TWO_53 / 64), 8 * j);
  }

  lemma TwentiesRoundUp128(j: nat)
    requires 4 <= j <= 6
    ensures Rounded(20 * j * P95) == 19 * j * TWO_53
  {
    RoundsUp(20 * j * P95, 128, 19 * j * (TWO_53 / 128), 8 * j);
  }

  lemma TwentiesRoundUp256(j: nat)
    requires 7 <= j <= 12
    ensures Rounded(20 * j * P95) == 19 * j * TWO_53
  {
    RoundsUp(20 * j * P95, 256, 19 * j * (TWO_53 / 256), 8 * j);
  }

  lemma FloatRankOfTwenties(j: nat)
    requires 20 * j < WINDOW
    ensures FloatRank(20 * j) == 19 * j
  {
    if j == 1 {
      TwentiesRoundUp32(j);
    } else if 2 <= j <= 3 {
      TwentiesRoundUp64(j);
    } else if 4 <= j <= 6 {
      TwentiesRoundUp128(j);
    } else if j >= 7 {
      TwentiesRoundUp256(j);
    }
    assert j > 0 ==> 19 * j * TWO_53 / TWO_53 == 19 * j;
  }

  /** The rank among `m` samples. */
  function RankFor(m: nat): nat
    requires m > 0
  {
    (m - 1) * 95 / 100
  }

  /** The 95th percentile, taken from a sorted copy. */
  method Percentile(held: seq<int>) returns (value: int)
    requires 0 < |held| <= WINDOW
    ensures HasRank(multiset(held), RankFor(|held|), value)
  {
    var copy := new int[|held|](i requires 0 <= i < |held| => held[i]);
    assert copy[..] == held;
    SortInPlace(copy);
    var at := FloatRank(|held| - 1);
    FloatRankIsExact(|held| - 1);
    SortedRank(copy[..], at);
    value := copy[at];
  }

  class Tracker {
    var samples: map<string, seq<int>>
    var next: map<string, int>
    /** Everything ever observed, per resource type. */
    ghost var logs: map<string, seq<int>>

    ghost function Log(kind: string): seq<int>
      reads this
    {
      if kind in logs then logs[kind] else []
    }

    function Held(kind: string): seq<int>
      reads this
    {
      if kind in samples then samples[kind] else []
    }

    function Next(kind: string): int
      reads this
    {
      if kind in next then next[kind] else 0
    }

    ghost predicate Valid()
      reads this
    {
      forall kind :: IsRing(Held(kind), Next(kind), Log(kind))
    }

    constructor ()
      ensures Valid() && forall kind :: Log(kind) == []
    {
      samples, next, logs := map[], map[], map[];
    }

    /** After any sequence of observations the samples of a type are its last 256
        observations; other types are untouched. */
    method Observe(kind: string, took: int)
      requires Valid()
      modifies this
      ensures Valid()
      ensures Log(kind) == old(Log(kind)) + [took]
      ensures forall other | other != kind :: Log(other) == old(Log(other)) && Held(other) == old(Held(other))
      ensures multiset(Held(kind)) == multiset(Recent(Log(kind)))
    {
      ghost var log := Log(kind);
      var held := Held(kind);
      assert IsRing(held, Next(kind), log);
      FullRing(held, Next(kind), log);
      if |held| < WINDOW {
        RingGrows(held, Next(kind), log, took);
        samples := samples[kind := held + [took]];
      } else {
        var at := Next(kind);
        RingTurns(held, at, log, took);
        samples := samples[kind := held[at := took]];
        next := next[kind := (at + 1) % WINDOW];
      }
      logs := logs[kind := log + [took]];
      forall other ensures IsRing(Held(other), Next(other), Log(other)) {
        if other != kind {
          assert Held(other) == old(Held(other)) && Next(other) == old(Next(other)) && Log(other) == old(Log(other));
        }
      }
      RingHoldsRecent(Held(kind), Next(kind), Log(kind));
    }

    /** The advice is the clamped p95 of the recent observations, or the neutral
        default before there are any. The tracker itself is not disturbed. */
    method RetryAfter(kind: string) returns (wait: int, ghost value: int)
      requires Valid()
      ensures Log(kind) == [] ==> wait == DEFAULT
      ensures Log(kind) != [] ==>
              HasRank(multiset(Recent(Log(kind))), RankFor(|Recent(Log(kind))|), value) && wait == Clamp(value)
      ensures FLOOR <= wait <= CEILING
    {
      assert IsRing(Held(kind), Next(kind), Log(kind));
      RingHoldsRecent(Held(kind), Next(kind), Log(kind));
      var held := Held(kind);
      value := 0;
      if |held| == 0 {
        return DEFAULT, value;
      }
      var p95 := Percentile(held);
      value := p95;
      return Clamp(p95), value;
    }
  }
}
