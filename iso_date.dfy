/**
 * Calendar dates as `java.time.LocalDate` writes and reads them: `toString()` and
 * `LocalDate.parse` use the ISO 8601 extended complete calendar date representation
 * `YYYY-MM-DD` (section 4.1.2.2 of ISO 8601:2004), proleptic Gregorian calendar,
 * with strict resolution (no 30 February).
 */
module IsoDate {
  import opened Wrappers
  import opened Text

  datatype Date = Date(year: int, month: int, day: int)

  predicate IsLeapYear(year: int) {
    year % 4 == 0 && (year % 100 != 0 || year % 400 == 0)
  }

  function DaysInMonth(year: int, month: int): (n: int)
    requires 1 <= month <= 12
    ensures 28 <= n <= 31
    ensures month == 2 ==> (n == 29 <==> IsLeapYear(year))
  {
    if month == 2 then (if IsLeapYear(year) then 29 else 28)
    else if month == 4 || month == 6 || month == 9 || month == 11 then 30
    else 31
  }

  /** A date of the four-digit-year band 0000..9999 that the extended complete representation covers. */
  predicate IsValid(d: Date) {
    && 0 <= d.year <= 9999
    && 1 <= d.month <= 12
    && 1 <= d.day <= DaysInMonth(d.year, d.month)
  }

  /** The `LocalDate` values this model handles. */
  type LocalDate = d: Date | IsValid(d) witness Date(2000, 1, 1)

  function DigitChar(n: int): (c: char)
    requires 0 <= n <= 9
    ensures IsAsciiDigit(c)
  {
    (48 + n) as char
  }

  function DigitValue(c: char): (n: int)
    requires IsAsciiDigit(c)
    ensures 0 <= n <= 9 && DigitChar(n) == c
  {
    (c as int) - 48
  }

  /** `n` written with exactly `width` decimal digits, zero-padded on the left. */
  function Padded(n: nat, width: nat): (s: string)
    requires n < Power10(width)
    ensures |s| == width
    ensures forall i | 0 <= i < |s| :: IsAsciiDigit(s[i])
  {
    if width == 0 then [] else Padded(n / 10, width - 1) + [DigitChar(n % 10)]
  }

  function Power10(k: nat): (p: nat)
    ensures p >= 1
  {
    if k == 0 then 1 else 10 * Power10(k - 1)
  }

  /** The number a string of decimal digits denotes. */
  function Number(s: string): (n: nat)
    requires forall i | 0 <= i < |s| :: IsAsciiDigit(s[i])
    ensures n < Power10(|s|)
  {
    if s == [] then 0 else 10 * Number(s[..|s| - 1]) + DigitValue(s[|s| - 1])
  }

  lemma {:induction false} NumberOfPadded(n: nat, width: nat)
    requires n < Power10(width)
    ensures Number(Padded(n, width)) == n
  {
    if width > 0 {
      var s := Padded(n, width);
      assert s[..|s| - 1] == Padded(n / 10, width - 1);
      NumberOfPadded(n / 10, width - 1);
    }
  }

  lemma {:induction false} PaddedOfNumber(s: string)
    requires forall i | 0 <= i < |s| :: IsAsciiDigit(s[i])
    ensures Padded(Number(s), |s|) == s
  {
    if s != [] {
      var init := s[..|s| - 1];
      PaddedOfNumber(init);
      var n := Number(s);
      assert n / 10 == Number(init) && n % 10 == DigitValue(s[|s| - 1]);
      assert s == init + [s[|s| - 1]];
    }
  }

  /**
   * `LocalDate.toString()` for years 0000..9999: `YYYY-MM-DD`, the year, month and day
   * written as zero-padded decimal numbers.
   */
  function Format(d: LocalDate): (s: string)
    ensures |s| == 10 && s[4] == '-' && s[7] == '-'
    ensures forall i | 0 <= i < 10 && i != 4 && i != 7 :: IsAsciiDigit(s[i])
    ensures Number(s[..4]) == d.year && Number(s[5..7]) == d.month && Number(s[8..]) == d.day
  {
    var year, month, day := Padded(d.year, 4), Padded(d.month, 2), Padded(d.day, 2);
    NumberOfPadded(d.year, 4);
    NumberOfPadded(d.month, 2);
    NumberOfPadded(d.day, 2);
    DashJoinParts(year, month, day);
    year + "-" + month + "-" + day
  }

  /** The three digit runs of `YYYY-MM-DD` are found again at their fixed positions. */
  lemma DashJoinParts(year: string, month: string, day: string)
    requires |year| == 4 && |month| == 2 && |day| == 2
    ensures var s := year + "-" + month + "-" + day;
      |s| == 10 && s[..4] == year && s[4] == '-' && s[5..7] == month && s[7] == '-' && s[8..] == day
  {
  }

  /** The shape `DDDD-DD-DD`, before any range check. */
  predicate IsDateShaped(s: string) {
    && |s| == 10 && s[4] == '-' && s[7] == '-'
    && forall i | 0 <= i < 10 && i != 4 && i != 7 :: IsAsciiDigit(s[i])
  }

  /**
   * `LocalDate.parse(s)`: `None` where the source throws `DateTimeParseException`
   * (wrong shape, month outside 1..12, day outside the month).
   */
  function Parse(s: string): (r: Option<LocalDate>)
    ensures r.Some? ==> Format(r.value) == s
    ensures r.None? <==> !IsDateShaped(s) || !IsValid(Date(Number(s[..4]), Number(s[5..7]), Number(s[8..])))
  {
    if !IsDateShaped(s) then None
    else
      var d := Date(Number(s[..4]), Number(s[5..7]), Number(s[8..]));
      if IsValid(d) then
        PaddedOfNumber(s[..4]);
        PaddedOfNumber(s[5..7]);
        PaddedOfNumber(s[8..]);
        assert s == s[..4] + "-" + s[5..7] + "-" + s[8..];
        Some(d)
      else None
  }

  /**
   * Every date survives `toString` followed by `parse`; it follows from the digits
   * `Format` writes and the date `Parse` reads from them.
   */
  lemma ParseFormat(d: LocalDate)
    ensures Parse(Format(d)) == Some(d)
  {
  }

  /** A formatted date is never blank, so a blank-guard never discards it. */
  lemma FormatNotBlank(d: LocalDate)
    ensures !IsBlank(Format(d))
  {
    DigitMakesNonBlank(Format(d), 0);
  }

  /** The empty and the blank strings are not dates. */
  lemma BlankDoesNotParse(s: string)
    requires IsBlank(s)
    ensures Parse(s).None?
  {
    if |s| == 10 {
      assert IsWhitespace(s[0]);
      assert !IsAsciiDigit(s[0]);
    }
  }
}
