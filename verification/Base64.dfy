/** The unpadded base64url encoding of section 5 of RFC 4648, as Go's RawURLEncoding. */
module Base64 {

  /** A Go string: its characters are bytes. */
  predicate IsBytes(s: string) {
    forall i | 0 <= i < |s| :: s[i] as int < 256
  }

  datatype Decoded = Bytes(text: string) | Malformed

  function Symbol(v: nat): (c: char)
    requires v < 64
    ensures IsSymbol(c) && SymbolValue(c) == v && c as int < 128
  {
    if v < 26 then 'A' + v as char
    else if v < 52 then 'a' + (v - 26) as char
    else if v < 62 then '0' + (v - 52) as char
    else if v == 62 then '-'
    else '_'
  }

  predicate IsSymbol(c: char) {
    'A' <= c <= 'Z' || 'a' <= c <= 'z' || '0' <= c <= '9' || c == '-' || c == '_'
  }

  function SymbolValue(c: char): (v: nat)
    requires IsSymbol(c)
    ensures v < 64
  {
    if 'A' <= c <= 'Z' then (c - 'A') as int
    else if 'a' <= c <= 'z' then (c - 'a') as int + 26
    else if '0' <= c <= '9' then (c - '0') as int + 52
    else if c == '-' then 62
    else 63
  }

  predicate AllSymbols(s: string) {
    forall i | 0 <= i < |s| :: IsSymbol(s[i])
  }

  /** Three bytes as four symbols of six bits. */
  function Group(s: string): (t: string)
    requires IsBytes(s) && |s| == 3
    ensures |t| == 4 && AllSymbols(t)
  {
    var n := s[0] as int * 65536 + s[1] as int * 256 + s[2] as int;
    [Symbol(n / 262144), Symbol(n / 4096 % 64), Symbol(n / 64 % 64), Symbol(n % 64)]
  }

  /** One or two bytes left at the end, filled up with zero bits. */
  function GroupTail(s: string): (t: string)
    requires IsBytes(s) && 1 <= |s| <= 2
    ensures |t| == |s| + 1 && AllSymbols(t)
  {
    if |s| == 1 then
      var n := s[0] as int * 16;
      [Symbol(n / 64), Symbol(n % 64)]
    else
      var n := (s[0] as int * 256 + s[1] as int) * 4;
      [Symbol(n / 4096), Symbol(n / 64 % 64), Symbol(n % 64)]
  }

  function Encode(s: string): (t: string)
    requires IsBytes(s)
    ensures AllSymbols(t)
  {
    if |s| == 0 then ""
    else if |s| < 3 then GroupTail(s)
    else Group(s[..3]) + Encode(s[3..])
  }

  /** Line breaks are skipped wherever they stand. */
  function WithoutBreaks(s: string): string {
    if s == [] then []
    else (if s[0] == '\n' || s[0] == '\r' then [] else [s[0]]) + WithoutBreaks(s[1..])
  }

  function Ungroup(s: string): string
    requires AllSymbols(s) && |s| == 4
  {
    var n := SymbolValue(s[0]) * 262144 + SymbolValue(s[1]) * 4096 + SymbolValue(s[2]) * 64 + SymbolValue(s[3]);
    [Byte(n / 65536), Byte(n / 256 % 256), Byte(n % 256)]
  }

  /** The bits left over in the last symbol are not looked at. */
  function UngroupTail(s: string): string
    requires AllSymbols(s) && 2 <= |s| <= 3
  {
    if |s| == 2 then [Byte((SymbolValue(s[0]) * 64 + SymbolValue(s[1])) / 16)]
    else
      var n := (SymbolValue(s[0]) * 4096 + SymbolValue(s[1]) * 64 + SymbolValue(s[2])) / 4;
      [Byte(n / 256), Byte(n % 256)]
  }

  function DecodeSymbols(s: string): Decoded
    requires AllSymbols(s)
  {
    if |s| == 0 then Bytes("")
    else if |s| == 1 then Malformed
    else if |s| < 4 then Bytes(UngroupTail(s))
    else
      var rest := DecodeSymbols(s[4..]);
      if rest.Malformed? then Malformed else Bytes(Ungroup(s[..4]) + rest.text)
  }

  function Byte(v: nat): (c: char)
    requires v < 256
    ensures c as int == v
  {
    v as char
  }

  function Decode(s: string): Decoded {
    var t := WithoutBreaks(s);
    if AllSymbols(t) then DecodeSymbols(t) else Malformed
  }

  lemma {:induction false} SymbolsHaveNoBreaks(s: string)
    requires AllSymbols(s)
    ensures WithoutBreaks(s) == s
  {
    if s != [] {
      assert IsSymbol(s[0]);
      SymbolsHaveNoBreaks(s[1..]);
      assert s == [s[0]] + s[1..];
    }
  }

  lemma FullGroup(a: nat, b: nat, c: nat)
    requires a < 256 && b < 256 && c < 256
    ensures var n := a * 65536 + b * 256 + c;
            n / 262144 < 64 && n / 262144 * 262144 + n / 4096 % 64 * 4096 + n / 64 % 64 * 64 + n % 64 == n
    ensures var n := a * 65536 + b * 256 + c;
            n / 65536 == a && n / 256 % 256 == b && n % 256 == c
  {
    var n := a * 65536 + b * 256 + c;
    assert n / 256 == a * 256 + b;
    assert n / 4096 == n / 64 / 64 && n / 262144 == n / 4096 / 64;
  }

  lemma GroupRoundTrip(s: string)
    requires IsBytes(s) && |s| == 3
    ensures Ungroup(Group(s)) == s
  {
    FullGroup(s[0] as int, s[1] as int, s[2] as int);
  }

  lemma TwoLeft(a: nat, b: nat)
    requires a < 256 && b < 256
    ensures var n := (a * 256 + b) * 4;
            n / 4096 < 64 && n / 4096 * 4096 + n / 64 % 64 * 64 + n % 64 == n && n / 4 / 256 == a && n / 4 % 256 == b
  {
    var n := (a * 256 + b) * 4;
    assert n / 4096 == n / 64 / 64 && n / 4 == a * 256 + b;
  }

  lemma TailRoundTrip(s: string)
    requires IsBytes(s) && 1 <= |s| <= 2
    ensures UngroupTail(GroupTail(s)) == s
  {
    if |s| == 2 {
      TwoLeft(s[0] as int, s[1] as int);
    }
  }

  lemma {:induction false} SymbolsRoundTrip(s: string)
    requires IsBytes(s)
    ensures DecodeSymbols(Encode(s)) == Bytes(s)
  {
    if |s| >= 3 {
      var e := Encode(s);
      assert e[..4] == Group(s[..3]) && e[4..] == Encode(s[3..]);
      GroupRoundTrip(s[..3]);
      SymbolsRoundTrip(s[3..]);
      assert s == s[..3] + s[3..];
    } else if |s| >= 1 {
      TailRoundTrip(s);
    }
  }

  /** Decoding undoes encoding, on every byte string. */
  lemma RoundTrip(s: string)
    requires IsBytes(s)
    ensures Decode(Encode(s)) == Bytes(s)
  {
    SymbolsHaveNoBreaks(Encode(s));
    SymbolsRoundTrip(s);
  }

  lemma {:induction false} LengthDecides(s: string, groups: nat, left: nat)
    requires AllSymbols(s) && |s| == 4 * groups + left && left < 4
    ensures DecodeSymbols(s).Malformed? <==> left == 1
  {
    if groups > 0 {
      LengthDecides(s[4..], groups - 1, left);
    }
  }

  /** What is refused: a foreign character, or a lone symbol after the full groups. */
  lemma MalformedMeaning(s: string)
    ensures Decode(s).Malformed? <==> !AllSymbols(WithoutBreaks(s)) || |WithoutBreaks(s)| % 4 == 1
  {
    if AllSymbols(WithoutBreaks(s)) {
      var n := |WithoutBreaks(s)|;
      LengthDecides(WithoutBreaks(s), n / 4, n % 4);
    }
  }
}
