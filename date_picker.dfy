/**
 * The calendar dialog used to pick an expense date: month length, month
 * navigation with the year wrapping round, the grid of weeks it draws, the
 * list of years it offers and the `YYYY-MM-DD` string it hands back.
 * Months are indices 0..11 here, as in JavaScript's `Date`.
 */
module DatePicker {
  import opened Wrappers
  import opened Strings
  import opened Model

  /** The Gregorian leap-year rule. */
  predicate IsLeapYear(y: int) {
    (y % 4 == 0 && y % 100 != 0) || y % 400 == 0
  }

  /** The year `new Date(year, month, day)` works in: JavaScript reads years 0 to 99 as 1900 to 1999. */
  function DateConstructorYear(year: int): int {
    if 0 <= year <= 99 then 1900 + year else year
  }

  /**
   * `getDaysInMonth`: the date of the day before the first of the next month,
   * that is the length of the month in the Gregorian calendar.
   */
  function DaysInMonth(year: int, month: int): (r: int)
    requires 0 <= month < 12
    ensures 28 <= r <= 31
    ensures r == 31 <==> month in {0, 2, 4, 6, 7, 9, 11}
    ensures r == 30 <==> month in {3, 5, 8, 10}
    ensures month == 1 ==> (r == 29 <==> IsLeapYear(DateConstructorYear(year)))
  {
    if month == 1 then (if IsLeapYear(DateConstructorYear(year)) then 29 else 28)
    else if month == 3 || month == 5 || month == 8 || month == 10 then 30
    else 31
  }

  /** The days of the months before month index `month` of `year`. */
  function DaysBeforeMonth(year: int, month: int): int
    requires 0 <= month <= 12
  {
    if month == 0 then 0 else DaysBeforeMonth(year, month - 1) + DaysInMonth(year, month - 1)
  }

  /** The twelve month lengths add up to 366 days in a leap year and 365 otherwise. */
  lemma YearLength(year: int)
    ensures DaysBeforeMonth(year, 12) == if IsLeapYear(DateConstructorYear(year)) then 366 else 365
  {
    var feb := DaysInMonth(year, 1);
    assert DaysBeforeMonth(year, 1) == 31;
    assert DaysBeforeMonth(year, 2) == 31 + feb;
    assert DaysBeforeMonth(year, 3) == 62 + feb;
    assert DaysBeforeMonth(year, 4) == 92 + feb;
    assert DaysBeforeMonth(year, 5) == 123 + feb;
    assert DaysBeforeMonth(year, 6) == 153 + feb;
    assert DaysBeforeMonth(year, 7) == 184 + feb;
    assert DaysBeforeMonth(year, 8) == 215 + feb;
    assert DaysBeforeMonth(year, 9) == 245 + feb;
    assert DaysBeforeMonth(year, 10) == 276 + feb;
    assert DaysBeforeMonth(year, 11) == 306 + feb;
  }

  /** The month on show: a year and a month index. */
  datatype YearMonth = YearMonth(year: int, month: int)

  /** Months counted from January of year 0: consecutive months have consecutive numbers. */
  function MonthNumber(v: YearMonth): int {
    v.year * 12 + v.month
  }

  /** Two months in range with the same number are the same month. */
  lemma MonthNumberInjective(a: YearMonth, b: YearMonth)
    requires 0 <= a.month < 12 && 0 <= b.month < 12
    ensures MonthNumber(a) == MonthNumber(b) ==> a == b
  {
    if a.year < b.year {
      assert a.year * 12 + 12 <= b.year * 12;
    } else if b.year < a.year {
      assert b.year * 12 + 12 <= a.year * 12;
    }
  }

  /** `handleNextMonth`'s step: the following month, December wrapping to January of the next year. */
  function MonthAfter(v: YearMonth): (r: YearMonth)
    requires 0 <= v.month < 12
    ensures 0 <= r.month < 12
    ensures MonthNumber(r) == MonthNumber(v) + 1
  {
    if v.month == 11 then YearMonth(v.year + 1, 0) else YearMonth(v.year, v.month + 1)
  }

  /** `handlePrevMonth`'s step: the preceding month, January wrapping to December of the year before. */
  function MonthBefore(v: YearMonth): (r: YearMonth)
    requires 0 <= v.month < 12
    ensures 0 <= r.month < 12
    ensures MonthNumber(r) == MonthNumber(v) - 1
  {
    if v.month == 0 then YearMonth(v.year - 1, 11) else YearMonth(v.year, v.month - 1)
  }

  /** Going forward a month and back again, or back and forward, returns to the same month. */
  lemma NavigationRoundTrip(v: YearMonth)
    requires 0 <= v.month < 12
    ensures MonthBefore(MonthAfter(v)) == v
    ensures MonthAfter(MonthBefore(v)) == v
  {
    MonthNumberInjective(MonthBefore(MonthAfter(v)), v);
    MonthNumberInjective(MonthAfter(MonthBefore(v)), v);
  }

  /** The `years` list: the 21 years from ten before to ten after the current year, ascending. */
  function YearsAround(currentYear: int): (r: seq<int>)
    ensures |r| == 21 && r[0] == currentYear - 10 && r[20] == currentYear + 10
    ensures forall i :: 0 < i < |r| ==> r[i] == r[i - 1] + 1
    ensures forall y :: y in r <==> currentYear - 10 <= y <= currentYear + 10
  {
    var r := seq(21, i => currentYear - 10 + i);
    assert forall y :: currentYear - 10 <= y <= currentYear + 10 ==> y in r by {
      forall y | currentYear - 10 <= y <= currentYear + 10 ensures y in r {
        assert r[y - currentYear + 10] == y;
      }
    }
    r
  }

  /** `handleConfirm`'s string: the year as `String` writes it, then the month and day padded to two digits. */
  function IsoDate(year: int, month: nat, day: nat): (r: string)
    ensures month < 100 && day < 100 ==>
      && |r| == |IntToString(year)| + 6 && r[..|IntToString(year)|] == IntToString(year)
      && r[|r| - 6] == '-' && r[|r| - 3] == '-'
      && r[|r| - 5..|r| - 3] == TwoDigits(month) && r[|r| - 2..] == TwoDigits(day)
  {
    if month < 100 && day < 100 then
      TwoDigitsValue(month);
      TwoDigitsValue(day);
      HyphenJoinParts(IntToString(year), TwoDigits(month), TwoDigits(day));
      IntToString(year) + "-" + TwoDigits(month) + "-" + TwoDigits(day)
    else
      IntToString(year) + "-" + TwoDigits(month) + "-" + TwoDigits(day)
  }

  /**
   * A calendar date in the complete extended representation of ISO 8601
   * (section 4.1.2.2): four year digits, two month digits, two day digits,
   * separated by hyphens; anything else is `None`.
   */
  function ParseIsoDate(s: string): Option<Date> {
    if |s| == 10 && s[4] == '-' && s[7] == '-' && AllDigits(s[..4]) && AllDigits(s[5..7]) && AllDigits(s[8..]) then
      Some(Date(DecimalValue(s[..4]), DecimalValue(s[5..7]), DecimalValue(s[8..])))
    else
      None
  }

  /** Four, two and two digits joined by hyphens read back as the numbers they denote. */
  lemma ParseJoined(y: string, m: string, d: string)
    requires |y| == 4 && |m| == 2 && |d| == 2 && AllDigits(y) && AllDigits(m) && AllDigits(d)
    ensures ParseIsoDate(y + "-" + m + "-" + d) == Some(Date(DecimalValue(y), DecimalValue(m), DecimalValue(d)))
  {
    var s := y + "-" + m + "-" + d;
    assert |s| == 10 && s[4] == '-' && s[7] == '-';
    assert s[..4] == y;
    assert s[5..7] == m;
    assert s[8..] == d;
  }

  /** Where the parts of `y-mm-dd` sit when `mm` and `dd` have two characters each. */
  lemma HyphenJoinParts(y: string, mm: string, dd: string)
    requires |mm| == 2 && |dd| == 2
    ensures var r := y + "-" + mm + "-" + dd;
      && |r| == |y| + 6 && r[..|y|] == y && r[|r| - 6] == '-' && r[|r| - 3] == '-'
      && r[|r| - 5..|r| - 3] == mm && r[|r| - 2..] == dd
  {
    var r := y + "-" + mm + "-" + dd;
    assert r[..|y|] == y;
    assert r[|r| - 5..|r| - 3] == mm;
    assert r[|r| - 2..] == dd;
  }

  /** For a four-digit year the confirmed string is the ISO 8601 calendar date, and it reads back as the date picked. */
  lemma IsoDateRoundTrip(year: int, month: nat, day: nat)
    requires 1000 <= year <= 9999 && 1 <= month <= 12 && 1 <= day <= 31
    ensures |IsoDate(year, month, day)| == 10
    ensures ParseIsoDate(IsoDate(year, month, day)) == Some(Date(year, month, day))
  {
    assert Pow10(3) == 1000 && Pow10(4) == 10000;
    NatToStringLength(year, 4);
    TwoDigitsValue(month);
    TwoDigitsValue(day);
    ParseJoined(IntToString(year), TwoDigits(month), TwoDigits(day));
  }

  /** A year below 1000 is written with fewer than four digits, which ISO 8601 does not read. */
  lemma ShortYearIsNotIso(year: int, month: nat, day: nat)
    requires 0 <= year < 1000 && 1 <= month <= 12 && 1 <= day <= 31
    ensures ParseIsoDate(IsoDate(year, month, day)) == None
  {
    assert Pow10(3) == 1000;
    if year < 10 {
      NatToStringLength(year, 1);
    } else if year < 100 {
      NatToStringLength(year, 2);
    } else {
      NatToStringLength(year, 3);
    }
    TwoDigitsValue(month);
    TwoDigitsValue(day);
  }

  /** One cell of the grid: a blank (`null`) or a day of the month. */
  type Slot = Option<int>

  /** `(7 - (len % 7)) % 7`: the blanks that complete the last week. */
  function FillerSlots(len: nat): (r: nat)
    ensures r < 7 && (len + r) % 7 == 0
  {
    FillerCompletesWeek(len);
    (7 - len % 7) % 7
  }

  /** The filler count is below seven and brings the slot count to a multiple of 7. */
  lemma FillerCompletesWeek(len: nat)
    ensures 0 <= (7 - len % 7) % 7 < 7 && (len + (7 - len % 7) % 7) % 7 == 0
  {
    var q, m := len / 7, len % 7;
    assert len == 7 * q + m;
    if m == 0 {
      assert (7 - m) % 7 == 0;
    } else {
      assert (7 - m) % 7 == 7 - m;
      assert len + (7 - m) == 7 * (q + 1);
    }
  }

  function Blanks(k: nat): seq<Slot> {
    seq(k, _ => None)
  }

  /**
   * `completeSlots`: `firstDay` blanks before the first of the month, the days
   * 1..`days` in order, then blanks up to a whole number of weeks.
   */
  function CompleteSlots(firstDay: nat, days: nat): (r: seq<Slot>)
    ensures |r| == firstDay + days + FillerSlots(firstDay + days) && |r| % 7 == 0
    ensures forall i :: 0 <= i < firstDay ==> r[i] == None
    ensures forall i :: firstDay <= i < firstDay + days ==> r[i] == Some(i - firstDay + 1)
    ensures forall i :: firstDay + days <= i < |r| ==> r[i] == None
  {
    var allSlots := Blanks(firstDay) + seq(days, i => Some(i + 1));
    allSlots + Blanks(FillerSlots(|allSlots|))
  }

  /** Every day of the month is in the grid exactly once, and the days run in increasing order. */
  lemma GridHoldsEachDayOnce(firstDay: nat, days: nat)
    ensures var r := CompleteSlots(firstDay, days);
      && (forall d :: 1 <= d <= days ==> Some(d) in r)
      && (forall i :: 0 <= i < |r| && r[i].Some? ==> 1 <= r[i].value <= days)
      && (forall i, j :: 0 <= i < j < |r| && r[i].Some? && r[j].Some? ==> r[i].value < r[j].value)
  {
    var r := CompleteSlots(firstDay, days);
    forall d | 1 <= d <= days ensures Some(d) in r {
      assert r[firstDay + d - 1] == Some(d);
    }
  }

  /** The rows of a grid put back together. */
  function Flatten(weeks: seq<seq<Slot>>): seq<Slot> {
    if weeks == [] then [] else Flatten(weeks[..|weeks| - 1]) + weeks[|weeks| - 1]
  }

  lemma FlattenSnoc(weeks: seq<seq<Slot>>, week: seq<Slot>)
    ensures Flatten(weeks + [week]) == Flatten(weeks) + week
  {
    assert (weeks + [week])[..|weeks|] == weeks;
  }

  function Min(a: int, b: int): int {
    if a < b then a else b
  }

  /**
   * The `weeks` loop of `renderCalendar`: consecutive slices of seven slots,
   * the last one shorter when the length is not a multiple of seven.
   */
  method SplitWeeks(slots: seq<Slot>) returns (weeks: seq<seq<Slot>>)
    ensures |weeks| == (|slots| + 6) / 7
    ensures forall w :: 0 <= w < |weeks| ==> weeks[w] == slots[7 * w..Min(7 * w + 7, |slots|)]
    ensures Flatten(weeks) == slots
    ensures |slots| % 7 == 0 ==> forall w :: 0 <= w < |weeks| ==> |weeks[w]| == 7
  {
    weeks := [];
    var i := 0;
    while i < |slots|
      invariant i == 7 * |weeks| && i <= |slots| + 6
      invariant forall w :: 0 <= w < |weeks| ==> weeks[w] == slots[7 * w..Min(7 * w + 7, |slots|)]
      invariant Flatten(weeks) == slots[..Min(i, |slots|)]
    {
      var week := slots[i..Min(i + 7, |slots|)];
      FlattenSnoc(weeks, week);
      assert slots[..Min(i + 7, |slots|)] == slots[..i] + week;
      weeks := weeks + [week];
      i := i + 7;
    }
    assert slots[..Min(i, |slots|)] == slots;
    assert 7 * |weeks| <= |slots| + 6 < 7 * |weeks| + 7;
  }

  /**
   * `renderCalendar`'s grid for a month whose first day falls on weekday
   * `firstDayOfMonth` (0 = Sunday): four to six rows of exactly seven slots,
   * holding the month's slots in order.
   */
  method CalendarWeeks(year: int, month: int, firstDayOfMonth: nat) returns (weeks: seq<seq<Slot>>)
    requires 0 <= month < 12 && firstDayOfMonth < 7
    ensures Flatten(weeks) == CompleteSlots(firstDayOfMonth, DaysInMonth(year, month))
    ensures 4 <= |weeks| <= 6
    ensures forall w :: 0 <= w < |weeks| ==> |weeks[w]| == 7
  {
    var daysInMonth := DaysInMonth(year, month);
    var completeSlots := CompleteSlots(firstDayOfMonth, daysInMonth);
    weeks := SplitWeeks(completeSlots);
  }

  /** The dialog's state: the month on show, the day picked, and which of the two list pickers is open. */
  class Picker {
    var selectedYear: int
    var selectedMonth: int
    var selectedDay: int
    var showYearPicker: bool
    var showMonthPicker: bool

    ghost predicate Valid()
      reads this
    {
      0 <= selectedMonth < 12 && 1 <= selectedDay <= 31
    }

    /** Opens on the date given (the `currentDate` prop, or today), with both list pickers closed. */
    constructor (year: int, month: int, day: int)
      requires 0 <= month < 12 && 1 <= day <= 31
      ensures Valid()
      ensures selectedYear == year && selectedMonth == month && selectedDay == day
      ensures !showYearPicker && !showMonthPicker
    {
      selectedYear, selectedMonth, selectedDay := year, month, day;
      showYearPicker, showMonthPicker := false, false;
    }

    /** `handlePrevMonth`: show the month before and select its first day. */
    method HandlePrevMonth()
      requires Valid()
      modifies this`selectedYear, this`selectedMonth, this`selectedDay
      ensures Valid()
      ensures YearMonth(selectedYear, selectedMonth) == MonthBefore(YearMonth(old(selectedYear), old(selectedMonth)))
      ensures selectedDay == 1
    {
      if selectedMonth == 0 {
        selectedMonth := 11;
        selectedYear := selectedYear - 1;
      } else {
        selectedMonth := selectedMonth - 1;
      }
      selectedDay := 1;
    }

    /** `handleNextMonth`: show the month after and select its first day. */
    method HandleNextMonth()
      requires Valid()
      modifies this`selectedYear, this`selectedMonth, this`selectedDay
      ensures Valid()
      ensures YearMonth(selectedYear, selectedMonth) == MonthAfter(YearMonth(old(selectedYear), old(selectedMonth)))
      ensures selectedDay == 1
    {
      if selectedMonth == 11 {
        selectedMonth := 0;
        selectedYear := selectedYear + 1;
      } else {
        selectedMonth := selectedMonth + 1;
      }
      selectedDay := 1;
    }

    /** `handleSelectDay`, reached only from a day cell of the grid on show. */
    method HandleSelectDay(day: int)
      requires Valid() && 1 <= day <= DaysInMonth(selectedYear, selectedMonth)
      modifies this`selectedDay
      ensures Valid() && selectedDay == day
    {
      selectedDay := day;
    }

    /** The month button: open the month list and close the year list. */
    method OpenMonthPicker()
      modifies this`showMonthPicker, this`showYearPicker
      ensures showMonthPicker && !showYearPicker
    {
      showMonthPicker := true;
      showYearPicker := false;
    }

    /** The year button: open the year list and close the month list. */
    method OpenYearPicker()
      modifies this`showMonthPicker, this`showYearPicker
      ensures showYearPicker && !showMonthPicker
    {
      showYearPicker := true;
      showMonthPicker := false;
    }

    /** `handleMonthSelect`: show the chosen month and close the list; the selected day is kept as it is. */
    method HandleMonthSelect(monthIndex: int)
      requires Valid() && 0 <= monthIndex < 12
      modifies this`selectedMonth, this`showMonthPicker
      ensures Valid() && selectedMonth == monthIndex && !showMonthPicker
    {
      selectedMonth := monthIndex;
      showMonthPicker := false;
    }

    /** `handleYearSelect`: show the chosen year and close the list; the selected day is kept as it is. */
    method HandleYearSelect(year: int)
      requires Valid()
      modifies this`selectedYear, this`showYearPicker
      ensures Valid() && selectedYear == year && !showYearPicker
    {
      selectedYear := year;
      showYearPicker := false;
    }

    /** `handleConfirm`: the selected date as the string handed to `onSelectDate`. */
    method HandleConfirm() returns (dateString: string)
      requires Valid()
      ensures dateString == IsoDate(selectedYear, selectedMonth + 1, selectedDay)
    {
      var month := TwoDigits(selectedMonth + 1);
      var day := TwoDigits(selectedDay);
      dateString := IntToString(selectedYear) + "-" + month + "-" + day;
    }
  }

  /**
   * In any four-digit year, picking day 31 of January and then February in
   * the month list confirms the 31st of February, a day February never has:
   * the month and year lists do not clamp the day.
   */
  method MonthSelectKeepsDay(year: int) returns (dateString: string)
    requires 1000 <= year <= 9999
    ensures ParseIsoDate(dateString) == Some(Date(year, 2, 31))
    ensures DaysInMonth(year, 1) < 31
  {
    assert DaysInMonth(year, 0) == 31 && DaysInMonth(year, 1) < 31;
    var picker := new Picker(year, 0, 15);
    picker.HandleSelectDay(31);
    picker.OpenMonthPicker();
    picker.HandleMonthSelect(1);
    assert picker.selectedYear == year && picker.selectedMonth + 1 == 2 && picker.selectedDay == 31;
    dateString := picker.HandleConfirm();
    IsoDateRoundTrip(year, 2, 31);
  }
}
