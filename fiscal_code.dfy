/**
  The birth-date decoder of CIEIDSdk.swift: `extractDateOfBirth`, `getFullYear`
  and `monthCodeToNumber`, stopped at the (year, month, day) triple that the
  source hands to `DateComponents`. The wall clock becomes the `currentYear`
  parameter.
 */
module FiscalCode {
  import opened Wrappers

  /** Why the source would trap: a string index past the end, or a force
      unwrap of `Int(...)` on a substring that is not a number. */
  datatype Trap = IndexPastEnd | YearNotNumeric | DayNotNumeric

  /** A computation that either finishes or traps. */
  datatype Outcome<+T> = Ok(value: T) | Trapped(trap: Trap)

  /** The components given to `DateComponents` (lines 233-236). */
  datatype DateParts = DateParts(year: int, month: int, day: int)

  // ---------------------------------------------------------------------------
  // Swift's `Int(_: String)`: an optional sign, then one or more ASCII digits,
  // and a value that fits in a 64-bit `Int`.

  const IntMax: int := 0x7FFF_FFFF_FFFF_FFFF
  const IntMin: int := -0x8000_0000_0000_0000

  predicate IsDigit(c: char) {
    '0' <= c <= '9'
  }

  predicate AllDigits(s: string) {
    forall i :: 0 <= i < |s| ==> IsDigit(s[i])
  }

  function DigitValue(c: char): (d: nat)
    requires IsDigit(c)
    ensures d <= 9
  {
    c as int - '0' as int
  }

  function Pow10(n: nat): (p: nat)
    ensures p >= 1
  {
    if n == 0 then 1 else 10 * Pow10(n - 1)
  }

  /** The decimal value of a run of digits, most significant first. */
  function DigitsValue(s: string): (n: nat)
    requires AllDigits(s)
    ensures n < Pow10(|s|)
    decreases |s|
  {
    if |s| == 0 then 0
    else
      var prefix := s[..|s| - 1];
      assert AllDigits(prefix);
      var p := DigitsValue(prefix);
      assert p + 1 <= Pow10(|s| - 1);
      assert 10 * p + 10 <= 10 * Pow10(|s| - 1);
      10 * p + DigitValue(s[|s| - 1])
  }

  /** `Int(s)`: `None` is Swift's `nil`. */
  function ParseInt(s: string): (r: Option<int>)
    ensures r.Some? ==> IntMin <= r.value <= IntMax
    ensures r.Some? ==> |s| >= 1 && AllDigits(s[1..])
    ensures r.Some? && !IsDigit(s[0]) ==> |s| >= 2 && (s[0] == '+' || s[0] == '-')
    ensures r.Some? && r.value < 0 ==> s[0] == '-'
    ensures r.Some? ==> (if r.value < 0 then -r.value else r.value) < Pow10(|s|)
    ensures |s| >= 1 && AllDigits(s) && DigitsValue(s) <= IntMax ==> r == Some(DigitsValue(s) as int)
    ensures |s| >= 2 && s[0] == '+' && AllDigits(s[1..]) && DigitsValue(s[1..]) <= IntMax ==>
      r == Some(DigitsValue(s[1..]) as int)
    ensures |s| >= 2 && s[0] == '-' && AllDigits(s[1..]) && -(DigitsValue(s[1..]) as int) >= IntMin ==>
      r == Some(-(DigitsValue(s[1..]) as int))
    ensures |s| >= 1 && AllDigits(s) && DigitsValue(s) > IntMax ==> r.None?
    ensures |s| >= 2 && s[0] == '+' && AllDigits(s[1..]) && DigitsValue(s[1..]) > IntMax ==> r.None?
    ensures |s| >= 2 && s[0] == '-' && AllDigits(s[1..]) && -(DigitsValue(s[1..]) as int) < IntMin ==> r.None?
  {
    if |s| == 0 then None
    else if s[0] == '+' || s[0] == '-' then
      var digits := s[1..];
      if |digits| == 0 || !AllDigits(digits) then None
      else
        var v: int := if s[0] == '-' then -(DigitsValue(digits) as int) else DigitsValue(digits);
        if IntMin <= v <= IntMax then Some(v) else None
    else if AllDigits(s) then
      var v := DigitsValue(s);
      if v <= IntMax then Some(v) else None
    else None
  }

  /** What `Int(_:)` yields on a two-character substring, the only shape the
      decoder ever parses: two digits, or a sign and one digit. */
  lemma ParseTwoChars(s: string)
    requires |s| == 2
    ensures IsDigit(s[0]) && IsDigit(s[1]) ==> ParseInt(s) == Some(10 * DigitValue(s[0]) + DigitValue(s[1]))
    ensures s[0] == '+' && IsDigit(s[1]) ==> ParseInt(s) == Some(DigitValue(s[1]))
    ensures s[0] == '-' && IsDigit(s[1]) ==> ParseInt(s) == Some(-(DigitValue(s[1]) as int))
    ensures ParseInt(s).Some? <==> IsDigit(s[1]) && (IsDigit(s[0]) || s[0] == '+' || s[0] == '-')
    ensures ParseInt(s).Some? ==> -9 <= ParseInt(s).value <= 99
  {
    assert s[1..] == [s[1]];
    assert s[..1] == [s[0]];
    if IsDigit(s[1]) {
      assert DigitsValue([s[1]]) == DigitValue(s[1]) by {
        assert [s[1]][..0] == [];
      }
      if IsDigit(s[0]) {
        assert DigitsValue(s) == 10 * DigitValue(s[0]) + DigitValue(s[1]) by {
          assert s[..|s| - 1] == [s[0]];
          assert [s[0]][..0] == [];
        }
      }
    }
  }

  // ---------------------------------------------------------------------------
  // `getFullYear` (lines 247-257)

  /** The century window: a year that lies after the current year's last two
      digits belongs to the previous century. */
  function GetFullYear(year: int, currentYear: nat): (r: int)
    ensures (r - year) % 100 == 0
    ensures 0 <= year <= 99 ==> currentYear - 100 < r <= currentYear
  {
    var century := (currentYear / 100) * 100;
    var lastTwoDigits := currentYear - century;
    assert 0 <= lastTwoDigits < 100;
    if year > lastTwoDigits then (century - 100) + year else century + year
  }

  /** The window has room for exactly one year per two-digit value: the year
      `GetFullYear` picks is the only one congruent to `year` modulo 100 in the
      last hundred years up to `currentYear`. */
  lemma GetFullYearUnique(year: int, currentYear: nat, candidate: int)
    requires 0 <= year <= 99
    requires candidate % 100 == year
    requires currentYear - 100 < candidate <= currentYear
    ensures candidate == GetFullYear(year, currentYear)
  {
    var r := GetFullYear(year, currentYear);
    var q := (candidate - r) / 100;
    assert (candidate - r) % 100 == 0 by {
      assert (r - year) % 100 == 0;
      assert candidate == (candidate / 100) * 100 + year;
      assert r == ((r - year) / 100) * 100 + year;
      assert candidate - r == (candidate / 100 - (r - year) / 100) * 100;
    }
    assert candidate - r == q * 100;
    assert -100 < candidate - r < 100;
  }

  // ---------------------------------------------------------------------------
  // `monthCodeToNumber` (lines 259-265)

  /** The table the source uses: fifteen consecutive letters, which is not the
      codice fiscale's own month table. */
  const MonthCodes: string := "ABCDEFGHIJKLMNO"

  /** `firstIndex(of:)` */
  function IndexOf(s: string, c: char): (r: Option<nat>)
    ensures r.None? <==> c !in s
    ensures r.Some? ==> r.value < |s| && s[r.value] == c
    ensures r.Some? ==> forall j :: 0 <= j < r.value ==> s[j] != c
  {
    if |s| == 0 then None
    else if s[0] == c then Some(0)
    else
      var rest := IndexOf(s[1..], c);
      assert c in s <==> c in s[1..] by {
        assert s == [s[0]] + s[1..];
      }
      match rest
      case None => None
      case Some(i) => Some(i + 1)
  }

  /** The 1-based position of the letter in `MonthCodes`, or 1 (January) for
      any other character: no failure and no clamping to 12. */
  function MonthCodeToNumber(code: char): (month: int)
    ensures 1 <= month <= |MonthCodes|
    ensures code in MonthCodes ==> MonthCodes[month - 1] == code
    ensures code !in MonthCodes ==> month == 1
  {
    match IndexOf(MonthCodes, code)
    case Some(i) => i + 1
    case None => 1
  }

  /** In a run of consecutive characters each one is found at its own
      position. */
  lemma IndexOfConsecutive(s: string, first: int, i: nat)
    requires forall k :: 0 <= k < |s| ==> s[k] as int == first + k
    requires i < |s|
    ensures IndexOf(s, s[i]) == Some(i)
  {
    var r := IndexOf(s, s[i]);
    assert s[i] in s;
    assert s[r.value] as int == first + r.value;
  }

  /** Every letter of the table decodes to its own position, M, N and O
      included (months 13 to 15). */
  lemma MonthCodeOfLetter(i: nat)
    requires i < |MonthCodes|
    ensures MonthCodeToNumber(MonthCodes[i]) == i + 1
  {
    assert forall k :: 0 <= k < |MonthCodes| ==> MonthCodes[k] as int == 'A' as int + k;
    IndexOfConsecutive(MonthCodes, 'A' as int, i);
  }

  // ---------------------------------------------------------------------------
  // `extractDateOfBirth` (lines 207-245), up to the date components

  /** The one adjustment of `day` (lines 227-230). */
  function AdjustDay(day: int): (r: int)
    ensures r == day <==> day <= 31
    ensures day > 31 ==> r + 40 == day
    ensures r <= 31 <==> day <= 71
  {
    if day > 31 then day - 40 else day
  }

  /** The day rule: only values above 31 move, by exactly 40. */
  lemma DayRule(day: int)
    ensures day <= 31 ==> AdjustDay(day) == day
    ensures day > 31 ==> AdjustDay(day) == day - 40
    ensures 41 <= day <= 71 ==> 1 <= AdjustDay(day) <= 31 && AdjustDay(day) + 40 == day
    ensures 32 <= day <= 40 ==> -8 <= AdjustDay(day) <= 0
    ensures 72 <= day <= 99 ==> 32 <= AdjustDay(day) <= 59
  {
  }

  /** `Ok(None)` is the guard's `nil`; `Ok(Some(parts))` carries the components
      that reach `Calendar`; `Trapped` is where the source crashes. */
  function ExtractDateOfBirth(fiscalCode: string, currentYear: nat): (r: Outcome<Option<DateParts>>)
    ensures r == Ok(None) <==> |fiscalCode| < 5
    ensures r.Trapped? <==>
      5 <= |fiscalCode| &&
      (|fiscalCode| < 11 || ParseInt(fiscalCode[6..8]).None? || ParseInt(fiscalCode[9..11]).None?)
    ensures r.Ok? && r.value.Some? ==>
      r.value.value.year == GetFullYear(ParseInt(fiscalCode[6..8]).value, currentYear) &&
      r.value.value.month == MonthCodeToNumber(fiscalCode[8]) &&
      r.value.value.day == AdjustDay(ParseInt(fiscalCode[9..11]).value)
  {
    if |fiscalCode| < 5 then Ok(None)
    else if |fiscalCode| < 8 then Trapped(IndexPastEnd)
    else
      match ParseInt(fiscalCode[6..8])
      case None => Trapped(YearNotNumeric)
      case Some(birthYear) =>
        if |fiscalCode| < 9 then Trapped(IndexPastEnd)
        else
          var month := MonthCodeToNumber(fiscalCode[8]);
          if |fiscalCode| < 11 then Trapped(IndexPastEnd)
          else
            match ParseInt(fiscalCode[9..11])
            case None => Trapped(DayNotNumeric)
            case Some(day) =>
              Ok(Some(DateParts(GetFullYear(birthYear, currentYear), month, AdjustDay(day))))
  }

  /** Which trap comes first, in the order the source evaluates the fields. */
  lemma ExtractTraps(fiscalCode: string, currentYear: nat)
    ensures 5 <= |fiscalCode| < 8 ==>
      ExtractDateOfBirth(fiscalCode, currentYear) == Trapped(IndexPastEnd)
    ensures 8 <= |fiscalCode| && ParseInt(fiscalCode[6..8]).None? ==>
      ExtractDateOfBirth(fiscalCode, currentYear) == Trapped(YearNotNumeric)
    ensures 8 <= |fiscalCode| < 11 && ParseInt(fiscalCode[6..8]).Some? ==>
      ExtractDateOfBirth(fiscalCode, currentYear) == Trapped(IndexPastEnd)
    ensures 11 <= |fiscalCode| && ParseInt(fiscalCode[6..8]).Some? && ParseInt(fiscalCode[9..11]).None? ==>
      ExtractDateOfBirth(fiscalCode, currentYear) == Trapped(DayNotNumeric)
  {
  }

  /** A code with digits where the date fields are: the year is read from
      characters 6-7 and placed in the century window, the month from
      character 8, the day from characters 9-10 after the rule of `AdjustDay`. */
  lemma DecodeWellFormed(fiscalCode: string, currentYear: nat)
    requires |fiscalCode| >= 11
    requires IsDigit(fiscalCode[6]) && IsDigit(fiscalCode[7])
    requires IsDigit(fiscalCode[9]) && IsDigit(fiscalCode[10])
    ensures ExtractDateOfBirth(fiscalCode, currentYear).Ok?
    ensures ExtractDateOfBirth(fiscalCode, currentYear).value.Some?
    ensures
      var parts := ExtractDateOfBirth(fiscalCode, currentYear).value.value;
      var yy := 10 * DigitValue(fiscalCode[6]) + DigitValue(fiscalCode[7]);
      var dd := 10 * DigitValue(fiscalCode[9]) + DigitValue(fiscalCode[10]);
      parts.year % 100 == yy &&
      currentYear - 100 < parts.year <= currentYear &&
      parts.month == MonthCodeToNumber(fiscalCode[8]) &&
      parts.day == AdjustDay(dd)
  {
    var y := fiscalCode[6..8];
    var d := fiscalCode[9..11];
    ParseTwoChars(y);
    ParseTwoChars(d);
    var yy := 10 * DigitValue(fiscalCode[6]) + DigitValue(fiscalCode[7]);
    var full := GetFullYear(yy, currentYear);
    assert full % 100 == yy by {
      assert (full - yy) % 100 == 0;
      assert full == ((full - yy) / 100) * 100 + yy;
    }
  }
}
