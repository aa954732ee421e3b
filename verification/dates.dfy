/**
 * Dates as the planner reads them: datetime.strptime(s, "%Y-%m-%d").date().
 *
 * The format targets the ISO 8601 calendar date in its extended form
 * (section 4.1.2.2 of ISO 8601:2004, YYYY-MM-DD), but strptime is laxer than
 * that standard: %m and %d also match a single digit, and %d also matches a
 * space followed by a digit. For ASCII digits, the parser below accepts
 * exactly what strptime accepts. strptime also takes other Unicode decimal
 * digits. FormatDate gives the strict ISO spelling, which the parser accepts
 * too.
 */
module Dates {
  import opened Wrappers
  import opened Text

  /** A calendar date as datetime.date holds it. */
  datatype Date = Date(year: int, month: int, day: int)

  /** The Gregorian leap-year rule datetime uses. */
  predicate IsLeapYear(year: int) {
    year % 4 == 0 && (year % 100 != 0 || year % 400 == 0)
  }

  function DaysInMonth(year: int, month: int): (n: int)
    requires 1 <= month <= 12
    ensures 28 <= n <= 31
    ensures month == 2 ==> (n == 29 <==> IsLeapYear(year))
  {
    if month == 2 then (if IsLeapYear(year) then 29 else 28)
    else if month == 4 || month == 6 || month == 9 || month == 11 then 30
    else 31
  }

  /** The dates datetime.date can hold: year 1 (MINYEAR) to 9999 (MAXYEAR), a real day of a real month. */
  predicate IsValid(d: Date) {
    && 1 <= d.year <= 9999
    && 1 <= d.month <= 12
    && 1 <= d.day <= DaysInMonth(d.year, d.month)
  }

  /** The comparison `a < b` of two datetime.date values: by year, then month, then day. */
  predicate Before(a: Date, b: Date) {
    || a.year < b.year
    || (a.year == b.year && a.month < b.month)
    || (a.year == b.year && a.month == b.month && a.day < b.day)
  }

  // ------------------------------------------------------------ the fields

  /** What the %Y directive matches: exactly four ASCII digits. */
  function YearField(s: string): Option<int> {
    if |s| == 4 && AllDigits(s) then Some(DecimalValue(s)) else None
  }

  /** What the %m directive matches: `1[0-2]`, `0[1-9]` or `[1-9]`. */
  function MonthField(s: string): (r: Option<int>)
    ensures r.Some? ==> 1 <= r.value <= 12
  {
    if |s| == 2 && ((s[0] == '1' && '0' <= s[1] <= '2') || (s[0] == '0' && '1' <= s[1] <= '9')) then
      Some(10 * DigitValue(s[0]) + DigitValue(s[1]))
    else if |s| == 1 && '1' <= s[0] <= '9' then
      Some(DigitValue(s[0]))
    else None
  }

  /**
   * What the %d directive matches at the end of the string:
   * `3[01]`, `[12]\d`, `0[1-9]`, `[1-9]` or a space and `[1-9]`.
   */
  function DayField(s: string): (r: Option<int>)
    ensures r.Some? ==> 1 <= r.value <= 31
  {
    if |s| == 2 && ((s[0] == '3' && '0' <= s[1] <= '1') || ('1' <= s[0] <= '2' && IsDigit(s[1])) || (s[0] == '0' && '1' <= s[1] <= '9')) then
      Some(10 * DigitValue(s[0]) + DigitValue(s[1]))
    else if |s| == 2 && s[0] == ' ' && '1' <= s[1] <= '9' then
      Some(DigitValue(s[1]))
    else if |s| == 1 && '1' <= s[0] <= '9' then
      Some(DigitValue(s[0]))
    else None
  }

  /**
   * datetime.strptime(s, "%Y-%m-%d").date(): None where strptime raises
   * ValueError. The month is one or two characters, so the second '-' is at
   * index 6 or 7; the day runs to the end of the string (strptime refuses
   * unconverted data); the three numbers must then form a date datetime can
   * hold.
   */
  function ParseDate(s: string): (r: Option<Date>)
    ensures r.Some? ==> IsValid(r.value)
  {
    if |s| < 8 || s[4] != '-' then None
    else
      var k := if s[6] == '-' then 6 else 7;
      if s[k] != '-' then None
      else
        match (YearField(s[..4]), MonthField(s[5..k]), DayField(s[k + 1..]))
        case (Some(y), Some(m), Some(d)) =>
          if IsValid(Date(y, m, d)) then Some(Date(y, m, d)) else None
        case _ => None
  }

  /**
   * Both strings are dates strptime accepts and the return date is not
   * earlier than the departure date: what the planner requires of a trip.
   */
  predicate DatesInOrder(departure: string, returnDate: string) {
    && ParseDate(departure).Some?
    && ParseDate(returnDate).Some?
    && !Before(ParseDate(returnDate).value, ParseDate(departure).value)
  }

  // ------------------------------------------------------- the strict form

  /** The digits of n % 10^width, zero-padded to width characters. */
  function Pad(n: nat, width: nat): (s: string)
    ensures |s| == width && AllDigits(s)
  {
    if width == 0 then [] else Pad(n / 10, width - 1) + [DigitChar(n % 10)]
  }

  function Pow10(width: nat): nat {
    if width == 0 then 1 else 10 * Pow10(width - 1)
  }

  lemma {:induction false} PadValue(n: nat, width: nat)
    requires n < Pow10(width)
    ensures DecimalValue(Pad(n, width)) == n
  {
    if width > 0 {
      assert n / 10 < Pow10(width - 1);
      PadValue(n / 10, width - 1);
      var s := Pad(n, width);
      assert s[..|s| - 1] == Pad(n / 10, width - 1);
    }
  }

  /** The ISO 8601 extended calendar-date spelling YYYY-MM-DD of a date. */
  function FormatDate(d: Date): (s: string)
    requires IsValid(d)
    ensures |s| == 10 && s[4] == '-' && s[7] == '-'
  {
    Pad(d.year, 4) + "-" + Pad(d.month, 2) + "-" + Pad(d.day, 2)
  }

  lemma MonthFieldPadded(m: int)
    requires 1 <= m <= 12
    ensures MonthField(Pad(m, 2)) == Some(m)
  {
    assert Pad(m / 10, 1) == Pad(m / 100, 0) + [DigitChar(m / 10)];
    assert Pad(m, 2) == [DigitChar(m / 10), DigitChar(m % 10)];
  }

  lemma DayFieldPadded(d: int)
    requires 1 <= d <= 31
    ensures DayField(Pad(d, 2)) == Some(d)
  {
    assert Pad(d / 10, 1) == Pad(d / 100, 0) + [DigitChar(d / 10)];
    assert Pad(d, 2) == [DigitChar(d / 10), DigitChar(d % 10)];
  }

  /** Every valid date written in the strict YYYY-MM-DD form is accepted and read back as itself. */
  lemma ParseFormatDate(d: Date)
    requires IsValid(d)
    ensures ParseDate(FormatDate(d)) == Some(d)
  {
    var s := FormatDate(d);
    assert s[6] == Pad(d.month, 2)[1];
    assert s[..4] == Pad(d.year, 4);
    assert s[5..7] == Pad(d.month, 2);
    assert s[8..] == Pad(d.day, 2);
    PadValue(d.year, 4);
    MonthFieldPadded(d.month);
    DayFieldPadded(d.day);
  }

  /** strptime's laxness: unpadded months and days, and a space before a one-digit day, are accepted. */
  lemma ParseDateLax()
    ensures ParseDate("2024-3-7") == Some(Date(2024, 3, 7))
    ensures ParseDate("2024-03- 7") == Some(Date(2024, 3, 7))
    ensures ParseDate("2024-12-31") == Some(Date(2024, 12, 31))
  {
    assert "2024-3-7"[..4] == "2024";
    assert DecimalValue("2024") == 2024 by {
      assert "2024"[..3] == "202" && "202"[..2] == "20" && "20"[..1] == "2" && "2"[..0] == "";
    }
    assert "2024-03- 7"[..4] == "2024";
    assert "2024-12-31"[..4] == "2024";
  }

  /** Strings strptime refuses: a day the month does not have, year 0, trailing text. */
  lemma ParseDateRefuses()
    ensures ParseDate("2023-02-29") == None
    ensures ParseDate("0000-01-01") == None
    ensures ParseDate("2024-01-01 ") == None
    ensures ParseDate("2024-13-01") == None
  {
    assert "2023-02-29"[..4] == "2023";
    assert "0000-01-01"[..4] == "0000";
    assert DecimalValue("0000") == 0 by {
      assert "0000"[..3] == "000" && "000"[..2] == "00" && "00"[..1] == "0" && "0"[..0] == "";
    }
    assert DecimalValue("2023") == 2023 by {
      assert "2023"[..3] == "202" && "202"[..2] == "20" && "20"[..1] == "2" && "2"[..0] == "";
    }
  }

  /**
   * An accepted date string is made of digits, '-' and ' ' only, and starts
   * and ends with a digit: it holds no '|', no line break, and no whitespace
   * that str.strip would remove.
   */
  lemma AcceptedCharacters(s: string)
    requires ParseDate(s).Some?
    ensures forall i :: 0 <= i < |s| ==> IsDigit(s[i]) || s[i] == '-' || s[i] == ' '
    ensures IsDigit(s[0]) && IsDigit(s[|s| - 1])
  {
    var k := if s[6] == '-' then 6 else 7;
    var y, m, d := s[..4], s[5..k], s[k + 1..];
    assert YearField(y).Some? && MonthField(m).Some? && DayField(d).Some?;
    assert forall i :: 0 <= i < |m| ==> IsDigit(m[i]);
    assert forall i :: 0 <= i < |d| ==> IsDigit(d[i]) || d[i] == ' ';
    assert IsDigit(d[|d| - 1]);
    forall i | 0 <= i < |s|
      ensures IsDigit(s[i]) || s[i] == '-' || s[i] == ' '
    {
      if i < 4 {
        assert s[i] == y[i];
      } else if 5 <= i < k {
        assert s[i] == m[i - 5];
      } else if k < i {
        assert s[i] == d[i - k - 1];
      }
    }
    assert s[0] == y[0];
    assert s[|s| - 1] == d[|d| - 1];
  }

  /** `<` on dates is a strict total order, so "return not before departure" is "departure <= return". */
  lemma BeforeIsStrictTotalOrder(a: Date, b: Date, c: Date)
    ensures !Before(a, a)
    ensures Before(a, b) && Before(b, c) ==> Before(a, c)
    ensures a == b || Before(a, b) || Before(b, a)
  {
  }
}
