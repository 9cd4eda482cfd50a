/** Choosing a destination from the space station: the chosen line of the space
    list has the form "<index>: <name>", and the destination is the integer before
    its first ':' (GameManager.moveFromSpaceStation). */
module Station {
  import opened Wrappers

  datatype ParseError =
    | Refused            // the line "30: Space Station": the player may not stay
    | NoColon            // substring(0, -1) throws StringIndexOutOfBoundsException
    | NotANumber         // Integer.parseInt throws NumberFormatException

  const StationLine: string := "30: Space Station"

  const MinInt: int := -0x8000_0000
  const MaxInt: int := 0x7fff_ffff

  /** String.indexOf(c): the first position of c, or -1. */
  function IndexOfChar(s: string, c: char): (k: int)
    ensures -1 <= k < |s|
    ensures k == -1 <==> c !in s
    ensures k >= 0 ==> s[k] == c && c !in s[..k]
  {
    if s == [] then -1
    else if s[0] == c then 0
    else var k := IndexOfChar(s[1..], c); if k == -1 then -1 else k + 1
  }

  predicate IsDigit(c: char) {
    '0' <= c <= '9'
  }

  predicate AllDigits(s: string) {
    forall i :: 0 <= i < |s| ==> IsDigit(s[i])
  }

  /** The value of a string of decimal digits, most significant first. */
  function DigitsValue(s: string): nat
    requires AllDigits(s)
    decreases |s|
  {
    if s == [] then 0 else DigitsValue(s[..|s| - 1]) * 10 + (s[|s| - 1] - '0') as nat
  }

  /** The input has a leading minus sign. */
  predicate Negative(s: string) {
    |s| > 0 && s[0] == '-'
  }

  /** The input without its leading sign, if it has one. */
  function Unsigned(s: string): (u: string)
    ensures |u| <= |s| && u == s[|s| - |u|..]
    ensures |s| > 0 && (s[0] == '-' || s[0] == '+') ==> |u| == |s| - 1
    ensures !(|s| > 0 && (s[0] == '-' || s[0] == '+')) ==> u == s
  {
    if |s| > 0 && (s[0] == '-' || s[0] == '+') then s[1..] else s
  }

  /** Integer.parseInt for decimal ASCII input: an optional sign, at least one
      digit, and a value that fits in 32 bits. */
  function ParseInt(s: string): (r: Result<int, ParseError>)
    ensures r.Ok? ==> MinInt <= r.value <= MaxInt
    ensures r.Err? ==> r.error == NotANumber
    ensures r.Ok? <==>
      && Unsigned(s) != [] && AllDigits(Unsigned(s))
      && DigitsValue(Unsigned(s)) <= (if Negative(s) then -MinInt else MaxInt)
    ensures r.Ok? ==> r.value == if Negative(s) then -(DigitsValue(Unsigned(s)) as int) else DigitsValue(Unsigned(s))
  {
    var digits := Unsigned(s);
    if digits == [] || !AllDigits(digits) then Err(NotANumber)
    else
      var magnitude: int := DigitsValue(digits);
      var v := if Negative(s) then -magnitude else magnitude;
      if MinInt <= v <= MaxInt then Ok(v) else Err(NotANumber)
  }

  /** Every 32-bit integer written in decimal, with a minus sign when negative,
      parses back to itself. */
  lemma ParseIntRoundTrip(n: int)
    requires MinInt <= n <= MaxInt
    ensures n >= 0 ==> ParseInt(Decimal(n)) == Ok(n)
    ensures n < 0 ==> ParseInt("-" + Decimal(-n)) == Ok(n)
  {
    if n >= 0 {
      DecimalValue(n);
      assert !IsDigit('-') && !IsDigit('+');
      assert IsDigit(Decimal(n)[0]);
    } else {
      var s := "-" + Decimal(-n);
      DecimalValue(-n);
      assert Unsigned(s) == Decimal(-n);
    }
  }

  /** The destination chosen by a line of the space list: refused for the
      station's own line, an error without a colon, and otherwise the integer
      written before the first colon. */
  function ParseDestination(line: string): (r: Result<int, ParseError>)
    ensures r == Err(Refused) <==> line == StationLine
    ensures r == Err(NoColon) <==> line != StationLine && ':' !in line
    ensures r.Ok? ==> MinInt <= r.value <= MaxInt
    ensures forall k :: 0 <= k < |line| && line[k] == ':' && ':' !in line[..k] && line != StationLine ==>
      r == ParseInt(line[..k])
  {
    if line == StationLine then Err(Refused)
    else
      var colon := IndexOfChar(line, ':');
      if colon < 0 then Err(NoColon) else ParseInt(line[..colon])
  }

  /** The decimal digits of n, without leading zeros. */
  function Decimal(n: nat): (s: string)
    ensures |s| > 0 && AllDigits(s)
    decreases n
  {
    if n < 10 then [('0' as int + n) as char]
    else Decimal(n / 10) + [('0' as int + n % 10) as char]
  }

  lemma {:induction false} DecimalValue(n: nat)
    ensures DigitsValue(Decimal(n)) == n
    decreases n
  {
    if n >= 10 {
      DecimalValue(n / 10);
      var s := Decimal(n);
      assert s[..|s| - 1] == Decimal(n / 10);
    }
  }

  /** The index written at the head of a line is the destination parsed back,
      whatever name follows the colon, except for the space station's own line. */
  lemma DestinationRoundTrip(index: nat, name: string)
    requires index <= MaxInt
    requires Decimal(index) + ": " + name != StationLine
    ensures ParseDestination(Decimal(index) + ": " + name) == Ok(index)
  {
    var digits := Decimal(index);
    var line := digits + ": " + name;
    assert ':' !in digits by {
      forall i | 0 <= i < |digits| ensures digits[i] != ':' {
        assert IsDigit(digits[i]);
      }
    }
    assert line[..|digits|] == digits;
    assert line[|digits|] == ':';
    assert IndexOfChar(line, ':') == |digits|;
    ParseIntRoundTrip(index);
  }

  /** Only the exact line "30: Space Station" is refused: any other line naming
      space 30, such as "30: Space station", leads back to the station. */
  lemma OnlyTheExactLineIsRefused(line: string)
    ensures ParseDestination(StationLine) == Err(Refused)
    ensures line != StationLine ==> ParseDestination(line) != Err(Refused)
    ensures ParseDestination("30: Space station") == Ok(30)
  {
    var other := "30: Space station";
    assert other == Decimal(30) + ": " + "Space station" by {
      assert Decimal(30) == "30" by {
        assert Decimal(3) == "3";
      }
    }
    DestinationRoundTrip(30, "Space station");
  }
}
