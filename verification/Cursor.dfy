/** The paging cursor: a timestamp and a row identifier, as one opaque token. */
module Cursor {
  import opened Base64
  import opened Digits
  import Calendar

  /** An instant in UTC, down to the nanosecond. */
  datatype Time = Time(year: int, month: nat, day: nat, hour: nat, minute: nat, second: nat, nano: nat)

  predicate IsTime(t: Time) {
    && 1 <= t.month <= 12 && 1 <= t.day <= Calendar.DaysIn(t.year, t.month)
    && t.hour < 24 && t.minute < 60 && t.second < 60 && t.nano < 1_000_000_000
  }

  datatype Parsed<T> = Ok(value: T) | Failed

  datatype Token = Token(at: Time, id: string)

  // ---------------------------------------------------------------------
  // Timestamps (section 5.6 of RFC 3339)
  // ---------------------------------------------------------------------

  /** The text from the first hyphen to the seconds. */
  function RestText(t: Time): string {
    "-" + Padded(t.month, 2) + "-" + Padded(t.day, 2) + "T" + Padded(t.hour, 2) + ":" + Padded(t.minute, 2)
    + ":" + Padded(t.second, 2)
  }

  /** Trailing zeros of the fraction are dropped, and the point with them. */
  function FractionText(nano: nat): string {
    if nano == 0 then "" else "." + Trimmed(Padded(nano, 9))
  }

  function TimeText(t: Time): string {
    YearText(t.year) + RestText(t) + FractionText(t.nano) + "Z"
  }

  function TwoAt(s: string, i: nat): Parsed<nat>
    requires i + 2 <= |s|
  {
    if AllDigits(s[i..i + 2]) then Ok(Value(s[i..i + 2])) else Failed
  }

  /** A time as it was written, and the minutes its zone is ahead of UTC. */
  datatype Stamp = Stamp(local: Time, offset: int)

  /** How many digits the text starts with. */
  function DigitRun(s: string): (n: nat)
    ensures n <= |s| && AllDigits(s[..n]) && (n < |s| ==> !IsDigit(s[n]))
  {
    if s == "" || !IsDigit(s[0]) then 0
    else
      var n := DigitRun(s[1..]);
      assert forall i | 0 < i < n + 1 :: s[i] == s[1..][i - 1];
      n + 1
  }

  /** The fraction and what it leaves. It may be missing, may start with a comma, and
      digits beyond the ninth are dropped. */
  function Fraction(s: string): (r: (nat, string))
    ensures r.0 < 1_000_000_000
  {
    if |s| >= 2 && (s[0] == '.' || s[0] == ',') && IsDigit(s[1]) then
      var n := DigitRun(s[1..]);
      ScaledIsBelow(s[1..][..n]);
      (Scaled(s[1..][..n], 9), s[1..][n..])
    else (0, s)
  }

  /** The zone: a Z, or hours and minutes ahead or behind. */
  function Zone(s: string): (r: Parsed<int>)
    ensures r.Ok? ==> -1500 <= r.value <= 1500
  {
    if s == "Z" then Ok(0)
    else if |s| == 6 && (s[0] == '+' || s[0] == '-') && s[3] == ':' && AllDigits(s[1..3]) && AllDigits(s[4..6])
            && Value(s[1..3]) <= 24 && Value(s[4..6]) <= 60 then
      var minutes := 60 * Value(s[1..3]) + Value(s[4..6]);
      Ok(if s[0] == '+' then minutes else -minutes)
    else Failed
  }

  /** An hour may be written with one digit. */
  function HourDigits(s: string): (n: nat)
    requires |s| >= 11
    ensures n <= 2 && 11 + n <= |s| && AllDigits(s[11..11 + n])
  {
    if |s| < 12 || !IsDigit(s[11]) then 0
    else if |s| < 13 || !IsDigit(s[12]) then 1
    else 2
  }

  predicate HasDateMarks(s: string) {
    |s| >= 11 && s[4] == '-' && s[7] == '-' && s[10] == 'T'
  }

  predicate HasClockMarks(s: string, m: nat) {
    |s| >= m + 6 && s[m] == ':' && s[m + 3] == ':'
  }

  /** Whatever the layout of RFC 3339 with a fraction is read from. */
  function ParseTime(s: string): (r: Parsed<Stamp>)
    ensures r.Ok? ==> IsTime(r.value.local) && 0 <= r.value.local.year <= 9999 && -1500 <= r.value.offset <= 1500
  {
    if !HasDateMarks(s) || !AllDigits(s[..4]) || HourDigits(s) == 0 || !HasClockMarks(s, 11 + HourDigits(s)) then Failed
    else
      FourDigits(s[..4]);
      var m := 11 + HourDigits(s);
      var month, day := TwoAt(s, 5), TwoAt(s, 8);
      var minute, second := TwoAt(s, m + 1), TwoAt(s, m + 4);
      var (nano, rest) := Fraction(s[m + 6..]);
      var zone := Zone(rest);
      if month.Ok? && day.Ok? && minute.Ok? && second.Ok? && zone.Ok? then
        var t := Time(Value(s[..4]), month.value, day.value, Value(s[11..m]), minute.value, second.value, nano);
        if IsTime(t) then Ok(Stamp(t, zone.value)) else Failed
      else Failed
  }

  lemma {:induction false} ValueIsBelow(s: string)
    requires AllDigits(s)
    ensures Value(s) < Pow10(|s|)
  {
    if s != "" {
      ValueIsBelow(s[..|s| - 1]);
    }
  }

  lemma {:induction false} PowersMultiply(m: nat, n: nat)
    ensures Pow10(m) * Pow10(n) == Pow10(m + n)
  {
    if m > 0 {
      PowersMultiply(m - 1, n);
      assert Pow10(m) * Pow10(n) == 10 * (Pow10(m - 1) * Pow10(n));
    }
  }

  lemma ScaledIsBelow(s: string)
    requires AllDigits(s)
    ensures Scaled(s, 9) < 1_000_000_000
  {
    Billion();
    if |s| <= 9 {
      ValueIsBelow(s);
      PowersMultiply(|s|, 9 - |s|);
      var p := Pow10(9 - |s|);
      assert Value(s) * p <= (Pow10(|s|) - 1) * p == Pow10(|s|) * p - p;
    } else {
      ValueIsBelow(s[..9]);
    }
  }

  lemma Billion()
    ensures Pow10(9) == 1_000_000_000
  {
    assert Pow10(3) == 1000 by { assert Pow10(2) == 10 * Pow10(1); }
    assert Pow10(6) == 1000 * Pow10(3) by { assert Pow10(5) == 10 * Pow10(4); }
    assert Pow10(9) == 1000 * Pow10(6) by { assert Pow10(8) == 10 * Pow10(7); }
  }

  lemma FourDigits(s: string)
    requires |s| == 4 && AllDigits(s)
    ensures Value(s) <= 9999
  {
    assert s[..3][..2][..1][..0] == [];
    assert Value(s) == 10 * Value(s[..3]) + DigitValue(s[3]);
    assert Value(s[..3]) == 10 * Value(s[..3][..2]) + DigitValue(s[2]);
    assert Value(s[..3][..2]) == 10 * Value(s[..3][..2][..1]) + DigitValue(s[1]);
  }

  // ---------------------------------------------------------------------
  // Reading back what was written
  // ---------------------------------------------------------------------

  predicate Printable(s: string) {
    forall i | 0 <= i < |s| :: s[i] as int < 128 && s[i] != '|'
  }

  lemma {:induction false} RunOfDigits(digits: string, rest: string)
    requires AllDigits(digits) && (rest == "" || !IsDigit(rest[0]))
    ensures DigitRun(digits + rest) == |digits|
  {
    if digits == "" {
      assert digits + rest == rest;
    } else {
      assert (digits + rest)[1..] == digits[1..] + rest;
      RunOfDigits(digits[1..], rest);
    }
  }

  lemma FractionOfDigits(digits: string)
    requires AllDigits(digits) && digits != ""
    ensures Fraction("." + digits + "Z") == (Scaled(digits, 9), "Z")
  {
    var text := "." + digits + "Z";
    assert text[0] == '.' && text[1] == digits[0];
    assert text[1..] == digits + "Z";
    RunOfDigits(digits, "Z");
    assert (digits + "Z")[..|digits|] == digits && (digits + "Z")[|digits|..] == "Z";
  }

  lemma NanosScale(nano: nat)
    requires 0 < nano < 1_000_000_000
    ensures Trimmed(Padded(nano, 9)) != "" && Scaled(Trimmed(Padded(nano, 9)), 9) == nano
  {
    var s := Padded(nano, 9);
    NinePlaces(nano);
    PaddedReadsBack(nano, 9);
    TrimmingKeepsScale(s, 9);
    TrimmedIsEmptyOnlyForZero(s);
    assert Scaled(s, 9) == Value(s) * Pow10(0);
  }

  lemma FractionReadsBack(nano: nat)
    requires nano < 1_000_000_000
    ensures Fraction(FractionText(nano) + "Z") == (nano, "Z")
    ensures Printable(FractionText(nano))
  {
    if nano == 0 {
      assert "" + "Z" == "Z";
    } else {
      NanosScale(nano);
      FractionOfDigits(Trimmed(Padded(nano, 9)));
    }
  }

  lemma NinePlaces(nano: nat)
    requires nano < 1_000_000_000
    ensures |Padded(nano, 9)| == 9
  {
    PaddedWidth(nano, 9);
    Billion();
  }

  /** Five fields of two characters between their marks. */
  lemma FieldsStand(a: string, b: string, c: string, d: string, e: string)
    requires |a| == |b| == |c| == |d| == |e| == 2
    ensures var s := "-" + a + "-" + b + "T" + c + ":" + d + ":" + e;
            && |s| == 15 && s[0] == '-' && s[1..3] == a && s[3] == '-' && s[4..6] == b && s[6] == 'T' && s[7..9] == c
            && s[9] == ':' && s[10..12] == d && s[12] == ':' && s[13..15] == e
  {
    var s := "-" + a + "-" + b + "T" + c + ":" + d + ":" + e;
    assert s == ['-', a[0], a[1], '-', b[0], b[1], 'T', c[0], c[1], ':', d[0], d[1], ':', e[0], e[1]];
  }

  /** Where the fields stand once the year takes four characters. */
  lemma RestReadsBack(t: Time)
    requires IsTime(t)
    ensures var s := RestText(t);
            && |s| == 15 && s[0] == '-' && s[1..3] == Padded(t.month, 2)
            && s[3] == '-' && s[4..6] == Padded(t.day, 2)
            && s[6] == 'T' && s[7..9] == Padded(t.hour, 2)
            && s[9] == ':' && s[10..12] == Padded(t.minute, 2)
            && s[12] == ':' && s[13..15] == Padded(t.second, 2)
    ensures Printable(RestText(t))
  {
    TwoDigits(t.month);
    TwoDigits(t.day);
    TwoDigits(t.hour);
    TwoDigits(t.minute);
    TwoDigits(t.second);
    FieldsStand(Padded(t.month, 2), Padded(t.day, 2), Padded(t.hour, 2), Padded(t.minute, 2), Padded(t.second, 2));
  }

  lemma TwoReadBack(s: string, i: nat, n: nat)
    requires i + 2 <= |s| && n < 100 && s[i..i + 2] == Padded(n, 2)
    ensures TwoAt(s, i) == Ok(n)
  {
    PaddedReadsBack(n, 2);
  }

  lemma FourCharacterYear(year: int)
    ensures |YearText(year)| >= 4
    ensures 0 <= year <= 9999 <==> |YearText(year)| == 4 && AllDigits(YearText(year))
    ensures year > 9999 ==> |YearText(year)| > 4 && AllDigits(YearText(year))
    ensures year < 0 ==> YearText(year)[0] == '-'
    ensures Printable(YearText(year))
  {
    if year >= 0 {
      PaddedWidth(year, 4);
      assert Pow10(4) == 100 * Pow10(2) by { assert Pow10(3) == 10 * Pow10(2); }
      assert Pow10(2) == 100 by { assert Pow10(1) == 10 * Pow10(0); }
    }
  }

  /** Cuts the text of a time into its three parts. */
  lemma TimeTextParts(t: Time)
    requires IsTime(t) && 0 <= t.year <= 9999
    ensures var s := TimeText(t);
            && |s| >= 20 && s[..4] == YearText(t.year) && s[4..19] == RestText(t)
            && s[19..] == FractionText(t.nano) + "Z"
  {
    FourCharacterYear(t.year);
    RestReadsBack(t);
  }

  lemma Slices(s: string, part: string, i: nat)
    requires |s| >= 19 && s[4..19] == part && i + 2 <= 15
    ensures s[i + 4..i + 6] == part[i..i + 2]
  {
  }

  lemma FieldsReadBack(t: Time)
    requires IsTime(t) && 0 <= t.year <= 9999
    ensures var s := TimeText(t);
            && |s| >= 20 && TwoAt(s, 5) == Ok(t.month) && TwoAt(s, 8) == Ok(t.day) && TwoAt(s, 11) == Ok(t.hour)
            && AllDigits(s[11..13])
            && TwoAt(s, 14) == Ok(t.minute) && TwoAt(s, 17) == Ok(t.second)
  {
    var s, part := TimeText(t), RestText(t);
    TimeTextParts(t);
    RestReadsBack(t);
    Slices(s, part, 1);
    Slices(s, part, 4);
    Slices(s, part, 7);
    Slices(s, part, 10);
    Slices(s, part, 13);
    TwoReadBack(s, 5, t.month);
    TwoReadBack(s, 8, t.day);
    TwoReadBack(s, 11, t.hour);
    TwoReadBack(s, 14, t.minute);
    TwoReadBack(s, 17, t.second);
  }

  lemma MarksStand(t: Time)
    requires IsTime(t) && 0 <= t.year <= 9999
    ensures HasDateMarks(TimeText(t)) && HasClockMarks(TimeText(t), 13)
  {
    var s, part := TimeText(t), RestText(t);
    TimeTextParts(t);
    RestReadsBack(t);
    assert forall i | 0 <= i < 15 :: s[4..19][i] == s[i + 4];
    assert part[0] == s[4] && part[3] == s[7] && part[6] == s[10] && part[9] == s[13] && part[12] == s[16];
  }

  lemma TimeReadsBack(t: Time)
    requires IsTime(t) && 0 <= t.year <= 9999
    ensures ParseTime(TimeText(t)) == Ok(Stamp(t, 0))
  {
    var s := TimeText(t);
    TimeTextParts(t);
    MarksStand(t);
    FieldsReadBack(t);
    assert s[11] == s[11..13][0] && s[12] == s[11..13][1];
    FractionReadsBack(t.nano);
    FourCharacterYear(t.year);
    PaddedReadsBack(t.year, 4);
  }

  lemma OtherYearsFail(t: Time)
    requires IsTime(t) && !(0 <= t.year <= 9999)
    ensures ParseTime(TimeText(t)) == Failed
  {
    var s, year := TimeText(t), YearText(t.year);
    FourCharacterYear(t.year);
    RestReadsBack(t);
    assert forall i | 0 <= i < |year| :: s[i] == year[i];
    assert t.year < 0 ==> s[..4][0] == '-';
    assert t.year > 9999 ==> IsDigit(s[4]);
  }

  // ---------------------------------------------------------------------
  // Identifiers
  // ---------------------------------------------------------------------

  predicate IsHex(c: char) {
    '0' <= c <= '9' || 'a' <= c <= 'f' || 'A' <= c <= 'F'
  }

  predicate IsSeparator(i: int) {
    i == 8 || i == 13 || i == 18 || i == 23
  }

  predicate IsUuid(s: string) {
    |s| == 36 && forall i | 0 <= i < 36 :: if IsSeparator(i) then s[i] == '-' else IsHex(s[i])
  }

  method CheckUuid(value: string) returns (ok: bool)
    ensures ok == IsUuid(value)
  {
    if |value| != 36 {
      return false;
    }
    for i := 0 to |value|
      invariant forall j | 0 <= j < i :: if IsSeparator(j) then value[j] == '-' else IsHex(value[j])
    {
      if IsSeparator(i) {
        if value[i] != '-' {
          return false;
        }
      } else if !IsHex(value[i]) {
        return false;
      }
    }
    return true;
  }

  function LowerChar(c: char): char {
    if 'A' <= c <= 'Z' then (c - 'A') + 'a' else c
  }

  function Lower(s: string): (t: string)
    ensures |t| == |s| && forall i | 0 <= i < |s| :: t[i] == LowerChar(s[i])
  {
    seq(|s|, i requires 0 <= i < |s| => LowerChar(s[i]))
  }

  predicate IsAscii(s: string) {
    forall i | 0 <= i < |s| :: s[i] as int < 128
  }

  /** What a text folds to has something that no UUID has. */
  ghost predicate HasForeign(s: string) {
    exists i | 0 <= i < |s| :: s[i] != '-' && !IsHex(s[i])
  }

  /** Folding to lower case by the tables of Unicode: ASCII letters fold as usual, and
      a text with other characters keeps something that is no hexadecimal digit and
      no hyphen, because no letter outside ASCII folds to one. */
  ghost predicate IsFolding(fold: string -> string) {
    forall s :: if IsAscii(s) then fold(s) == Lower(s) else HasForeign(fold(s))
  }

  /** Folding ASCII letters alone is such a folding. */
  lemma LowerIsFolding()
    ensures IsFolding(Lower)
  {
    forall s ensures if IsAscii(s) then Lower(s) == Lower(s) else HasForeign(Lower(s)) {
      if !IsAscii(s) {
        var i :| 0 <= i < |s| && s[i] as int >= 128;
        assert Lower(s)[i] == s[i] && !IsHex(s[i]);
      }
    }
  }

  lemma LoweringIsIdle(s: string)
    ensures IsUuid(Lower(s)) <==> IsUuid(s)
  {
    var t := Lower(s);
    assert forall i | 0 <= i < |s| :: IsHex(t[i]) <==> IsHex(s[i]);
    assert forall i | 0 <= i < |s| :: t[i] == '-' <==> s[i] == '-';
  }

  lemma UuidHasNothingForeign(s: string)
    requires IsUuid(s)
    ensures IsAscii(s) && !HasForeign(s)
  {
    assert forall i | 0 <= i < 36 :: s[i] == '-' || IsHex(s[i]);
  }

  /** Folding to lower case first neither admits nor refuses anything. */
  lemma FoldingIsIdle(fold: string -> string, s: string)
    requires IsFolding(fold)
    ensures IsUuid(fold(s)) <==> IsUuid(s)
  {
    if IsUuid(s) {
      UuidHasNothingForeign(s);
    }
    if IsUuid(fold(s)) {
      UuidHasNothingForeign(fold(s));
    }
    LoweringIsIdle(s);
  }

  // ---------------------------------------------------------------------
  // The token
  // ---------------------------------------------------------------------

  function Cut(s: string): Parsed<(string, string)> {
    if s == "" then Failed
    else if s[0] == '|' then Ok(("", s[1..]))
    else
      var rest := Cut(s[1..]);
      if rest.Failed? then Failed else Ok(([s[0]] + rest.value.0, rest.value.1))
  }

  lemma {:induction false} CutAtFirstBar(a: string, b: string)
    requires Printable(a)
    ensures Cut(a + "|" + b) == Ok((a, b))
  {
    var s := a + "|" + b;
    if a == "" {
      assert s[1..] == b;
    } else {
      assert s[1..] == a[1..] + "|" + b;
      CutAtFirstBar(a[1..], b);
      assert a == [a[0]] + a[1..];
    }
  }

  datatype Outcome = Found(at: Stamp, id: string) | NotBase64 | NoBar | NoTimestamp | NoIdentifier

  function Encode(token: Token): string
    requires IsTime(token.at) && IsBytes(token.id)
  {
    TimeTextIsPrintable(token.at);
    Base64.Encode(TimeText(token.at) + "|" + token.id)
  }

  function Decode(fold: string -> string, raw: string): Outcome {
    var decoded := Base64.Decode(raw);
    if decoded.Malformed? then NotBase64
    else
      var parts := Cut(decoded.text);
      if parts.Failed? then NoBar
      else
        var at := ParseTime(parts.value.0);
        if at.Failed? then NoTimestamp
        else if !IsUuid(fold(parts.value.1)) then NoIdentifier
        else Found(at.value, parts.value.1)
  }

  lemma TimeTextIsPrintable(t: Time)
    requires IsTime(t)
    ensures Printable(TimeText(t))
  {
    FourCharacterYear(t.year);
    RestReadsBack(t);
    FractionReadsBack(t.nano);
  }

  /** A token is read back exactly, in UTC, if its year has four digits and its
      identifier is a UUID; any other token is refused rather than read as something
      else. */
  lemma TokenRoundTripIff(fold: string -> string, token: Token)
    requires IsFolding(fold) && IsTime(token.at) && IsBytes(token.id)
    ensures var found := Decode(fold, Encode(token));
            && (found == Found(Stamp(token.at, 0), token.id) <==> 0 <= token.at.year <= 9999 && IsUuid(token.id))
            && (found.Found? ==> found == Found(Stamp(token.at, 0), token.id))
  {
    var text := TimeText(token.at);
    TimeTextIsPrintable(token.at);
    Base64.RoundTrip(text + "|" + token.id);
    CutAtFirstBar(text, token.id);
    FoldingIsIdle(fold, token.id);
    if 0 <= token.at.year <= 9999 {
      TimeReadsBack(token.at);
    } else {
      OtherYearsFail(token.at);
    }
  }

  /** Whatever is accepted is a well-formed position. */
  lemma AcceptedIsWellFormed(fold: string -> string, raw: string)
    requires IsFolding(fold) && Decode(fold, raw).Found?
    ensures IsTime(Decode(fold, raw).at.local) && 0 <= Decode(fold, raw).at.local.year <= 9999
    ensures -1500 <= Decode(fold, raw).at.offset <= 1500 && IsUuid(Decode(fold, raw).id)
  {
    FoldingIsIdle(fold, Decode(fold, raw).id);
  }
}
