// UserProfileService's date and number helpers (userProfileService.ts):
// formatDate, isValidDate, calculateAge, calculatePregnancyWeeks and the
// guard of calculateBMI. Dates are proleptic Gregorian calendar dates read in
// UTC; "now" is a parameter (today's date, or milliseconds since the epoch).
module ProfileDates {
  import opened Wrappers
  import opened Strings

  datatype CalendarDate = CalendarDate(year: int, month: int, day: int)

  predicate LeapYear(y: int)
  {
    y % 4 == 0 && (y % 100 != 0 || y % 400 == 0)
  }

  function DaysInMonth(y: int, m: int): int
  {
    if m == 2 then (if LeapYear(y) then 29 else 28)
    else if m == 4 || m == 6 || m == 9 || m == 11 then 30
    else 31
  }

  /** A date the calendar has. */
  predicate Real(d: CalendarDate)
  {
    1 <= d.month <= 12 && 1 <= d.day <= DaysInMonth(d.year, d.month)
  }

  /** /^\d{4}-\d{2}-\d{2}$/. */
  predicate Shaped(s: string)
  {
    |s| == 10 && s[4] == '-' && s[7] == '-'
    && AllDigits(s[..4]) && AllDigits(s[5..7]) && AllDigits(s[8..])
  }

  /** new Date(s) for a yyyy-MM-dd string: out-of-range fields give an invalid date. */
  function ParseIso(s: string): (r: Option<CalendarDate>)
    requires Shaped(s)
    ensures r.Some? ==> Real(r.value) && 0 <= r.value.year <= 9999
  {
    DigitsValueBound(s[..4]);
    var d := CalendarDate(DigitsValue(s[..4]), DigitsValue(s[5..7]), DigitsValue(s[8..]));
    if Real(d) then Some(d) else None
  }

  /** isValidDate: the exact shape, and a date that exists. */
  predicate IsValidDate(s: string)
  {
    Shaped(s) && ParseIso(s).Some?
  }

  /** The date of a valid string. */
  function DateOf(s: string): CalendarDate
    requires IsValidDate(s)
  {
    ParseIso(s).value
  }

  /** String(n).padStart(2, '0'). */
  function Pad2(n: int): string
  {
    var t := IntText(n);
    if |t| < 2 then "0" + t else t
  }

  /** What formatDate is given: nothing, a string, or a date. */
  datatype DateInput = Missing | Text(text: string) | Value(date: CalendarDate)

  /** formatDate: '' for no date; an unparsable string prints NaN fields. */
  function FormatDate(input: DateInput): string
  {
    match input
    case Missing => ""
    case Text(s) =>
      if s == [] then ""
      else if IsValidDate(s) then Fields(DateOf(s))
      else "NaN-NaN-NaN"
    case Value(d) => Fields(d)
  }

  /** `${year}-${month}-${day}` with month and day padded. */
  function Fields(d: CalendarDate): string
  {
    IntText(d.year) + "-" + Pad2(d.month) + "-" + Pad2(d.day)
  }

  /** A number below 100 pads to exactly two digits that read back as it. */
  lemma Pad2Rule(n: int)
    requires 0 <= n < 100
    ensures |Pad2(n)| == 2 && AllDigits(Pad2(n)) && DigitsValue(Pad2(n)) == n
  {
    NatTextValue(n);
    if n < 10 {
      var t := NatText(n);
      assert ("0" + t)[..1] == "0";
    } else {
      NatTextLength(n, 2);
    }
  }

  /** Two digits that are not "00" are the padded text of their value. */
  lemma PadOfTwoDigits(t: string)
    requires |t| == 2 && AllDigits(t) && DigitsValue(t) >= 1
    ensures Pad2(DigitsValue(t)) == t
  {
    if t[0] == '0' {
      assert t[..1] == "0";
      assert DigitsValue(t) == t[1] as int - '0' as int;
      assert NatText(DigitsValue(t)) == [t[1]];
      assert t == "0" + [t[1]];
    } else {
      NatTextOfDigits(t);
    }
  }

  /**
   * formatDate writes yyyy-MM-dd with month and day padded to two digits; a
   * date of a four-digit year formats to a valid date string of the same date.
   */
  lemma FormatDateRule(d: CalendarDate)
    requires Real(d) && d.year >= 0
    ensures var f := FormatDate(Value(d));
      f == NatText(d.year) + "-" + Pad2(d.month) + "-" + Pad2(d.day)
      && |Pad2(d.month)| == 2 && |Pad2(d.day)| == 2
    ensures 1000 <= d.year <= 9999 ==> IsValidDate(FormatDate(Value(d))) && DateOf(FormatDate(Value(d))) == d
  {
    Pad2Rule(d.month);
    Pad2Rule(d.day);
    if 1000 <= d.year <= 9999 {
      var f := FormatDate(Value(d));
      var y := NatText(d.year);
      NatTextLength(d.year, 4);
      NatTextValue(d.year);
      assert f[..4] == y && f[5..7] == Pad2(d.month) && f[8..] == Pad2(d.day);
    }
  }

  /** A valid string whose year has no leading zero formats back to itself. */
  lemma FormatParseRoundTrip(s: string)
    requires IsValidDate(s) && s[0] != '0'
    ensures FormatDate(Text(s)) == s
  {
    var d := DateOf(s);
    NatTextOfDigits(s[..4]);
    PadOfTwoDigits(s[5..7]);
    PadOfTwoDigits(s[8..]);
    assert s == s[..4] + "-" + s[5..7] + "-" + s[8..];
  }

  /** The date on the birthday n years after birth (not adjusted for 29 February). */
  function Anniversary(birth: CalendarDate, n: int): CalendarDate
  {
    CalendarDate(birth.year + n, birth.month, birth.day)
  }

  /** Calendar order. */
  predicate Before(a: CalendarDate, b: CalendarDate)
  {
    a.year < b.year || (a.year == b.year && (a.month < b.month || (a.month == b.month && a.day < b.day)))
  }

  /** calculateAge: whole years from the birth date to today, null when invalid or negative. */
  function CalculateAge(birthDate: string, today: CalendarDate): Option<int>
  {
    if birthDate == [] || !IsValidDate(birthDate) then None
    else
      var birth := DateOf(birthDate);
      var age := today.year - birth.year;
      var monthDiff := today.month - birth.month;
      var age := if monthDiff < 0 || (monthDiff == 0 && today.day < birth.day) then age - 1 else age;
      if age >= 0 then Some(age) else None
  }

  /**
   * The age is the number of birthdays passed: the a-th anniversary is not
   * after today and the next one is; null exactly for invalid input or a
   * birth date after today.
   */
  lemma CalculateAgeRule(birthDate: string, today: CalendarDate)
    ensures var r := CalculateAge(birthDate, today);
      r.Some? ==>
        r.value >= 0 && !Before(today, Anniversary(DateOf(birthDate), r.value))
        && Before(today, Anniversary(DateOf(birthDate), r.value + 1))
    ensures CalculateAge(birthDate, today).None? <==> !IsValidDate(birthDate) || Before(today, DateOf(birthDate))
  {
  }

  const MillisPerDay: int := 1000 * 60 * 60 * 24

  /** Days from 1970-01-01 to a date (the days-from-civil formula). */
  function DayNumber(d: CalendarDate): int
  {
    var y := if d.month <= 2 then d.year - 1 else d.year;
    var era := y / 400;
    var yoe := y - era * 400;
    var mp := (d.month + 9) % 12;
    var doy := (153 * mp + 2) / 5 + d.day - 1;
    var doe := yoe * 365 + yoe / 4 - yoe / 100 + doy;
    era * 146097 + doe - 719468
  }

  /** The epoch is day 0, and the next day of the same month is the next day number. */
  lemma DayNumberRule(d: CalendarDate)
    ensures DayNumber(CalendarDate(1970, 1, 1)) == 0
    ensures DayNumber(d.(day := d.day + 1)) == DayNumber(d) + 1
  {
    EpochIsDayZero();
    DayNumberSplit(d);
    DayNumberSplit(d.(day := d.day + 1));
  }

  lemma EpochIsDayZero()
    ensures DayNumber(CalendarDate(1970, 1, 1)) == 0
  {
    DayNumberSplit(CalendarDate(1970, 1, 1));
    YearBaseOf(1969, 4, 369);
    MonthOffsets();
  }

  /** The first of a month follows the last day of the month before, across years too. */
  lemma DayNumberMonthRule(y: int, m: int)
    requires 1 <= m <= 12
    ensures m < 12 ==> DayNumber(CalendarDate(y, m + 1, 1)) == DayNumber(CalendarDate(y, m, DaysInMonth(y, m))) + 1
    ensures m == 12 ==> DayNumber(CalendarDate(y + 1, 1, 1)) == DayNumber(CalendarDate(y, 12, 31)) + 1
  {
    if m == 2 {
      LeapDay(y);
    } else {
      var next := if m == 12 then CalendarDate(y + 1, 1, 1) else CalendarDate(y, m + 1, 1);
      var last := CalendarDate(y, m, DaysInMonth(y, m));
      DayNumberSplit(next);
      DayNumberSplit(last);
      MonthStep(y, m);
    }
  }

  /** Days before a month's first in the year that starts on 1 March. */
  function MonthOffset(m: int): int
  {
    (153 * ((m + 9) % 12) + 2) / 5
  }

  /** Days from 1970-01-01 to 1 March of year z + 1, less a year: the part of DayNumber shared by a March-to-February year. */
  function YearBase(z: int): int
  {
    var era := z / 400;
    var yoe := z - era * 400;
    era * 146097 + yoe * 365 + yoe / 4 - yoe / 100 - 719468
  }

  lemma MonthOffsets()
    ensures MonthOffset(3) == 0 && MonthOffset(4) == 31 && MonthOffset(5) == 61 && MonthOffset(6) == 92
    ensures MonthOffset(7) == 122 && MonthOffset(8) == 153 && MonthOffset(9) == 184 && MonthOffset(10) == 214
    ensures MonthOffset(11) == 245 && MonthOffset(12) == 275 && MonthOffset(1) == 306 && MonthOffset(2) == 337
  {
  }

  /** Outside February, a month's offset plus its length is the next month's offset. */
  lemma MonthStep(y: int, m: int)
    requires 1 <= m <= 12 && m != 2
    ensures MonthOffset(if m == 12 then 1 else m + 1) == MonthOffset(m) + DaysInMonth(y, m)
  {
    MonthOffsets();
  }

  lemma DayNumberSplit(d: CalendarDate)
    ensures DayNumber(d) == YearBase(if d.month <= 2 then d.year - 1 else d.year) + MonthOffset(d.month) + d.day - 1
  {
  }

  /** The first of March follows the last day of February, whether it is the 28th or the 29th. */
  lemma LeapDay(y: int)
    ensures DayNumber(CalendarDate(y, 3, 1)) == DayNumber(CalendarDate(y, 2, DaysInMonth(y, 2))) + 1
  {
    DayNumberSplit(CalendarDate(y, 3, 1));
    DayNumberSplit(CalendarDate(y, 2, DaysInMonth(y, 2)));
    MonthOffsets();
    YearStep(y);
  }

  /** A March-to-February year that holds 29 February has 366 days, any other 365. */
  lemma YearStep(y: int)
    ensures YearBase(y) == YearBase(y - 1) + (if LeapYear(y) then 366 else 365)
  {
    var e, w := y / 400, y % 400;
    assert y == e * 400 + w;
    LeapOf(y, e, w);
    if w == 0 {
      EraStartStep(y, e);
      assert LeapYear(y);
    } else {
      InEraYear(y, e, w);
    }
  }

  /** Inside an era, a year has a leap day when its offset is a multiple of 4 but not of 100. */
  lemma InEraYear(y: int, e: int, w: int)
    requires 0 < w < 400 && y == e * 400 + w
    ensures YearBase(y) == YearBase(y - 1) + (if w % 4 == 0 && w % 100 != 0 then 366 else 365)
  {
    InEraStep(y, e, w);
    LeapCounts(w);
  }

  /** The first year of an era follows a year that ends a 400-year cycle, which holds a leap day. */
  lemma EraStartStep(y: int, e: int)
    requires y == e * 400
    ensures YearBase(y) == YearBase(y - 1) + 366
  {
    YearBaseOf(y, e, 0);
    YearBaseOf(y - 1, e - 1, 399);
  }

  /** Inside an era, a year adds 365 days plus the leap days its offset brings. */
  lemma InEraStep(y: int, e: int, w: int)
    requires 0 < w < 400 && y == e * 400 + w
    ensures YearBase(y) == YearBase(y - 1) + 365 + (w / 4 - (w - 1) / 4) - (w / 100 - (w - 1) / 100)
  {
    YearBaseOf(y, e, w);
    YearBaseOf(y - 1, e, w - 1);
  }

  /** YearBase of the year at offset w of era e. */
  lemma YearBaseOf(z: int, e: int, w: int)
    requires 0 <= w < 400 && z == e * 400 + w
    ensures YearBase(z) == e * 146097 + w * 365 + w / 4 - w / 100 - 719468
  {
    Mod400(z, e, w);
  }

  /** Leap years read off the offset in the 400-year era. */
  lemma LeapOf(y: int, e: int, w: int)
    requires 0 <= w < 400 && y == e * 400 + w
    ensures LeapYear(y) <==> w % 4 == 0 && (w % 100 != 0 || w == 0)
  {
    Mod4(y, 100 * e + w / 4, w % 4);
    Mod100(y, 4 * e + w / 100, w % 100);
    Mod400(y, e, w);
  }

  /** Offset w of an era adds one leap day to the count when w is a multiple of 4, and drops one when of 100. */
  lemma LeapCounts(w: int)
    requires 0 < w < 400
    ensures w / 4 - (w - 1) / 4 == (if w % 4 == 0 then 1 else 0)
    ensures w / 100 - (w - 1) / 100 == (if w % 100 == 0 then 1 else 0)
  {
  }

  lemma Mod4(y: int, k: int, r: int)
    requires 0 <= r < 4 && y == 4 * k + r
    ensures y % 4 == r
  {
  }

  lemma Mod100(y: int, k: int, r: int)
    requires 0 <= r < 100 && y == 100 * k + r
    ensures y % 100 == r
  {
  }

  lemma Mod400(y: int, k: int, r: int)
    requires 0 <= r < 400 && y == 400 * k + r
    ensures y % 400 == r && y / 400 == k
  {
  }

  /** calculatePregnancyWeeks: whole weeks since the LMP, null when invalid or in the future. */
  function CalculatePregnancyWeeks(lastMenstrualPeriod: string, now: int): Option<int>
  {
    if lastMenstrualPeriod == [] || !IsValidDate(lastMenstrualPeriod) then None
    else
      var diffTime := now - DayNumber(DateOf(lastMenstrualPeriod)) * MillisPerDay;
      var diffDays := diffTime / MillisPerDay;
      if diffDays < 0 then None else Some(diffDays / 7)
  }

  /** Whole weeks of the whole days elapsed; null exactly for invalid input or a time before the LMP. */
  lemma CalculatePregnancyWeeksRule(lastMenstrualPeriod: string, now: int)
    ensures var r := CalculatePregnancyWeeks(lastMenstrualPeriod, now);
      r.Some? ==>
        var days := (now - DayNumber(DateOf(lastMenstrualPeriod)) * MillisPerDay) / MillisPerDay;
        r.value >= 0 && 7 * r.value <= days < 7 * r.value + 7
    ensures CalculatePregnancyWeeks(lastMenstrualPeriod, now).None? <==>
      !IsValidDate(lastMenstrualPeriod) || now < DayNumber(DateOf(lastMenstrualPeriod)) * MillisPerDay
  {
  }

  /** calculateBMI, in exact arithmetic: weight / (height in metres)^2, rounded to one decimal. */
  function CalculateBmi(height: Option<real>, weight: Option<real>): Option<real>
  {
    if height.None? || weight.None? || height.value <= 0.0 || weight.value <= 0.0 then None
    else
      var metres := height.value / 100.0;
      var bmi := weight.value / (metres * metres);
      Some((bmi * 10.0 + 0.5).Floor as real / 10.0)
  }

  /** A BMI only for a positive height and weight, within 0.05 of the exact value. */
  lemma CalculateBmiRule(height: Option<real>, weight: Option<real>)
    ensures CalculateBmi(height, weight).Some? <==>
      height.Some? && weight.Some? && height.value > 0.0 && weight.value > 0.0
    ensures CalculateBmi(height, weight).Some? ==>
      var metres := height.value / 100.0;
      var exact := weight.value / (metres * metres);
      exact - 0.05 < CalculateBmi(height, weight).value <= exact + 0.05
  {
    if CalculateBmi(height, weight).Some? {
      var metres := height.value / 100.0;
      var exact := weight.value / (metres * metres);
      var f := (exact * 10.0 + 0.5).Floor;
      assert f as real <= exact * 10.0 + 0.5 < f as real + 1.0;
    }
  }
}
