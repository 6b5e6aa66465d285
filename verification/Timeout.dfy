/** The grpc-timeout header: a decimal value and a unit, turned into milliseconds. */
module Timeout {
  import opened Codec

  const TWO_TO_THE_64 := 0x1_0000_0000_0000_0000
  const NS_PER_MS := 1_000_000

  predicate IsSpace(c: char) {
    c == ' ' || '\t' <= c <= '\r'
  }

  predicate IsDigit(c: char) {
    '0' <= c <= '9'
  }

  function SkipSpaces(s: string): string {
    if s != [] && IsSpace(s[0]) then SkipSpaces(s[1..]) else s
  }

  /** The longest run of digits at the front. */
  function LeadingDigits(s: string): string {
    if s != [] && IsDigit(s[0]) then [s[0]] + LeadingDigits(s[1..]) else []
  }

  function DigitValue(c: char): (d: nat)
    requires IsDigit(c)
    ensures d < 10
  {
    c as int - '0' as int
  }

  function Decimal(s: string): nat
    requires forall i :: 0 <= i < |s| ==> IsDigit(s[i])
  {
    if s == [] then 0 else Decimal(s[..|s| - 1]) * 10 + DigitValue(s[|s| - 1])
  }

  lemma LeadingDigitsAreDigits(s: string)
    ensures forall i :: 0 <= i < |LeadingDigits(s)| ==> IsDigit(LeadingDigits(s)[i])
  {
  }

  /**
   std::stoull in base ten: leading white space, an optional sign, digits, anything after them
   ignored; no digits or a magnitude over 64 bits throws; a minus sign negates modulo 2^64.
   */
  function Stoull(s: string): (r: Option<nat>)
    ensures r.Some? ==> r.value < TWO_TO_THE_64
  {
    var t := SkipSpaces(s);
    var signed := t != [] && (t[0] == '-' || t[0] == '+');
    var digits := LeadingDigits(if signed then t[1..] else t);
    LeadingDigitsAreDigits(if signed then t[1..] else t);
    if digits == [] || Decimal(digits) >= TWO_TO_THE_64 then None
    else if signed && t[0] == '-' then Some((TWO_TO_THE_64 - Decimal(digits)) % TWO_TO_THE_64)
    else Some(Decimal(digits))
  }

  /** Products are taken modulo 2^64. */
  function ParseGrpcTimeout(v: string): (ms: nat)
    ensures ms < TWO_TO_THE_64
  {
    if |v| < 2 then 0
    else
      var n := Stoull(v[..|v| - 1]);
      if n.None? then 0
      else
        match v[|v| - 1]
        case 'H' => n.value * 3_600_000 % TWO_TO_THE_64
        case 'M' => n.value * 60_000 % TWO_TO_THE_64
        case 'S' => n.value * 1000 % TWO_TO_THE_64
        case 'm' => n.value
        case 'u' => n.value / 1000
        case 'n' => n.value / NS_PER_MS
        case _ => 0
  }

  // ---- the duration a header value means ------------------------------------------------------

  predicate IsUnit(c: char) {
    c in {'H', 'M', 'S', 'm', 'u', 'n'}
  }

  function UnitNs(c: char): nat
    requires IsUnit(c)
  {
    match c
    case 'H' => 3_600_000_000_000
    case 'M' => 60_000_000_000
    case 'S' => 1_000_000_000
    case 'm' => NS_PER_MS
    case 'u' => 1000
    case _ => 1
  }

  predicate IsValue(s: string) {
    s != [] && forall i :: 0 <= i < |s| ==> IsDigit(s[i])
  }

  function DurationNs(digits: string, unit: char): nat
    requires IsValue(digits) && IsUnit(unit)
  {
    Decimal(digits) * UnitNs(unit)
  }

  lemma {:induction false} LeadingDigitsOfDigits(s: string)
    requires forall i :: 0 <= i < |s| ==> IsDigit(s[i])
    ensures LeadingDigits(s) == s
  {
    if s != [] { LeadingDigitsOfDigits(s[1..]); }
  }

  lemma StoullOfDigits(s: string)
    requires IsValue(s)
    ensures Stoull(s) == if Decimal(s) < TWO_TO_THE_64 then Some(Decimal(s)) else None
  {
    LeadingDigitsOfDigits(s);
    assert SkipSpaces(s) == s;
  }

  lemma FloorMs(n: nat, unit: char)
    requires IsUnit(unit)
    ensures n * UnitNs(unit) / NS_PER_MS ==
            match unit
            case 'H' => n * 3_600_000
            case 'M' => n * 60_000
            case 'S' => n * 1000
            case 'm' => n
            case 'u' => n / 1000
            case _ => n / NS_PER_MS
  {
  }

  /**
   A value of any number of digits is parsed to exactly the whole milliseconds of its duration if
   and only if the value and those milliseconds fit 64 bits.
   */
  lemma TimeoutExactly(digits: string, unit: char)
    requires IsValue(digits) && IsUnit(unit)
    ensures var floor := DurationNs(digits, unit) / NS_PER_MS;
            ParseGrpcTimeout(digits + [unit]) == floor <==> Decimal(digits) < TWO_TO_THE_64 && floor < TWO_TO_THE_64
  {
    hide Stoull, Decimal;
    var v := digits + [unit];
    assert v[..|v| - 1] == digits;
    StoullOfDigits(digits);
    FloorMs(Decimal(digits), unit);
  }

  lemma {:induction false} DecimalBound(s: string, bound: nat)
    requires forall i :: 0 <= i < |s| ==> IsDigit(s[i])
    requires |s| <= bound
    ensures Decimal(s) < Pow10(bound)
    decreases bound
  {
    if s == [] {
      Pow10Positive(bound);
    } else {
      DecimalBound(s[..|s| - 1], bound - 1);
    }
  }

  function Pow10(n: nat): nat {
    if n == 0 then 1 else 10 * Pow10(n - 1)
  }

  lemma Pow10Positive(n: nat)
    ensures Pow10(n) > 0
  {
  }

  /**
   The Timeout grammar (PROTOCOL-HTTP2.md, section "Requests"): one to eight digits and a unit give
   exactly the floor in milliseconds, and zero exactly for durations under a millisecond.
   */
  lemma TimeoutGrammar(digits: string, unit: char)
    requires IsValue(digits) && |digits| <= 8 && IsUnit(unit)
    ensures ParseGrpcTimeout(digits + [unit]) == DurationNs(digits, unit) / NS_PER_MS
    ensures ParseGrpcTimeout(digits + [unit]) == 0 <==> DurationNs(digits, unit) < NS_PER_MS
  {
    DecimalBound(digits, 8);
    assert Pow10(8) == 100_000_000 by {
      assert Pow10(4) == 10_000;
      assert Pow10(6) == 1_000_000;
    }
    FloorMs(Decimal(digits), unit);
    TimeoutExactly(digits, unit);
  }

  /** A value that is too short, has no unit, or does not begin like a number sets no deadline. */
  lemma TimeoutMalformed(v: string)
    requires |v| < 2 || !IsUnit(v[|v| - 1]) || !(IsSpace(v[0]) || IsDigit(v[0]) || v[0] == '-' || v[0] == '+')
    ensures ParseGrpcTimeout(v) == 0
  {
    if |v| >= 2 {
      var value := v[..|v| - 1];
      assert value[0] == v[0];
      if !IsSpace(v[0]) { assert SkipSpaces(value) == value; }
    }
  }

  /** A minus sign is not refused: it makes the longest deadlines of all. */
  lemma TimeoutNegative(digits: string)
    requires IsValue(digits) && 0 < Decimal(digits) < TWO_TO_THE_64
    ensures ParseGrpcTimeout("-" + digits + "m") == TWO_TO_THE_64 - Decimal(digits)
  {
    var v := "-" + digits + "m";
    var value := v[..|v| - 1];
    assert value == "-" + digits && value[1..] == digits;
    assert SkipSpaces(value) == value;
    LeadingDigitsOfDigits(digits);
  }
}
