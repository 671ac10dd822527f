/** Calendar arithmetic of the chat log (crates/scv-client/src/history.rs).

    The reference is the proleptic Gregorian calendar itself: leap years, month lengths and the day
    after a date. The day-number conversions are proved against it over all integers. */
module Calendar {

  datatype Date = Date(year: int, month: int, day: int)

  // ----- the calendar

  predicate Leap(year: int) {
    year % 4 == 0 && (year % 100 != 0 || year % 400 == 0)
  }

  function MonthDays(year: int, month: int): int {
    if month == 2 then (if Leap(year) then 29 else 28)
    else if month == 4 || month == 6 || month == 9 || month == 11 then 30
    else 31
  }

  predicate Valid(date: Date) {
    1 <= date.month <= 12 && 1 <= date.day <= MonthDays(date.year, date.month)
  }

  function Next(date: Date): (next: Date)
    requires Valid(date)
    ensures Valid(next)
  {
    if date.day < MonthDays(date.year, date.month) then date.(day := date.day + 1)
    else if date.month < 12 then Date(date.year, date.month + 1, 1)
    else Date(date.year + 1, 1, 1)
  }

  const EPOCH := Date(1970, 1, 1)

  // ----- the conversions

  /** Years are counted from March, so that the leap day is the last of a year. */
  function MarchYear(date: Date): int {
    if date.month <= 2 then date.year - 1 else date.year
  }

  function MonthFromMarch(month: int): (m: int)
    ensures 3 <= month <= 12 ==> m == month - 3
    ensures 1 <= month <= 2 ==> m == month + 9
  {
    (month + 9) % 12
  }

  /** Days before 1 March of `year`, by eras of 400 years. */
  function DaysBefore(year: int): int {
    var era := year / 400;
    var yearOfEra := year - era * 400;
    era * 146_097 + yearOfEra * 365 + yearOfEra / 4 - yearOfEra / 100
  }

  /** First day of a month of a March year. */
  function MonthStart(monthFromMarch: int): int {
    (153 * monthFromMarch + 2) / 5
  }

  /** Days from 1970-01-01 to `date`. */
  function DaysFromCivil(date: Date): int {
    DaysBefore(MarchYear(date)) + MonthStart(MonthFromMarch(date.month)) + date.day - 1 - 719_468
  }

  function YearOfEra(dayOfEra: int): int {
    (dayOfEra - dayOfEra / 1460 + dayOfEra / 36_524 - dayOfEra / 146_096) / 365
  }

  function DateInEra(era: int, dayOfEra: int): Date {
    var yearOfEra := YearOfEra(dayOfEra);
    var dayOfYear := dayOfEra - (365 * yearOfEra + yearOfEra / 4 - yearOfEra / 100);
    var monthFromMarch := (5 * dayOfYear + 2) / 153;
    var day := dayOfYear - MonthStart(monthFromMarch) + 1;
    var month := if monthFromMarch < 10 then monthFromMarch + 3 else monthFromMarch - 9;
    Date(yearOfEra + era * 400 + (if month <= 2 then 1 else 0), month, day)
  }

  /** The date of a day number. */
  function CivilFromDays(days: int): Date {
    var era := (days + 719_468) / 146_097;
    DateInEra(era, days + 719_468 - era * 146_097)
  }

  // ----- years that start in March, inside a 400-year era

  /** A day of an era as century, four-year cycle, year, and day counted from 1 March. */
  datatype EraDay = EraDay(century: int, cycle: int, year: int, day: int) {
    ghost predicate Valid() {
      && 0 <= century < 4 && 0 <= cycle < 25 && 0 <= year < 4 && 0 <= day <= 365
      && (day == 365 ==> year == 3 && (cycle == 24 ==> century == 3))
    }
    function YearNumber(): int { 100 * century + 4 * cycle + year }
    function DayNumber(): int { 36_524 * century + 1461 * cycle + 365 * year + day }
  }

  lemma LeapRepeats(year: int, era: int)
    ensures Leap(year + era * 400) == Leap(year)
  {
    assert (year + era * 400) % 400 == year % 400;
    Nested(year);
    Nested(year + era * 400);
  }

  lemma Nested(year: int)
    ensures year % 100 == year % 400 % 100 && year % 4 == year % 400 % 4
  {
    var q, r := year / 400, year % 400;
    Mod100(year, 4 * q + r / 100, r % 100);
    Mod4(year, 100 * q + r / 4, r % 4);
  }

  lemma Mod100(x: int, q: int, r: int)
    requires x == 100 * q + r && 0 <= r < 100
    ensures x % 100 == r
  {
  }

  lemma Mod4(x: int, q: int, r: int)
    requires x == 4 * q + r && 0 <= r < 4
    ensures x % 4 == r
  {
  }

  /** The last day of a March year exists exactly when the February that ends it is in a leap year. */
  lemma LastDayIsLeap(e: EraDay, era: int)
    requires e.(day := 0).Valid()
    ensures e.(day := 365).Valid() <==> Leap(e.YearNumber() + era * 400 + 1)
  {
    LeapRepeats(e.YearNumber() + 1, era);
  }

  function EraDayOf(dayOfEra: int): (e: EraDay)
    requires 0 <= dayOfEra < 146_097
    ensures e.Valid() && e.DayNumber() == dayOfEra
  {
    var century := if dayOfEra == 146_096 then 3 else dayOfEra / 36_524;
    var inCentury := dayOfEra - 36_524 * century;
    var cycle := inCentury / 1461;
    var inCycle := inCentury - 1461 * cycle;
    var year := if inCycle == 1460 then 3 else inCycle / 365;
    EraDay(century, cycle, year, inCycle - 365 * year)
  }

  function EraYearOf(yearOfEra: int, day: int): (e: EraDay)
    requires 0 <= yearOfEra < 400
    ensures 0 <= e.century < 4 && 0 <= e.cycle < 25 && 0 <= e.year < 4 && e.day == day
    ensures e.YearNumber() == yearOfEra
  {
    EraDay(yearOfEra / 100, yearOfEra % 100 / 4, yearOfEra % 4, day)
  }

  lemma LeapDaysBefore(e: EraDay)
    requires e.(day := 0).Valid()
    ensures e.YearNumber() / 4 - e.YearNumber() / 100 == 24 * e.century + e.cycle
    ensures e.DayNumber() == 365 * e.YearNumber() + e.YearNumber() / 4 - e.YearNumber() / 100 + e.day
  {
  }

  /** The closed formula finds the year of every day of an era. */
  lemma YearOfEraIs(e: EraDay)
    requires e.Valid()
    ensures YearOfEra(e.DayNumber()) == e.YearNumber()
    ensures 0 <= e.DayNumber() < 146_097
  {
    var d := e.DayNumber();
    var extra := (24 * e.century + e.cycle + 365 * e.year + e.day) / 1460;
    assert d / 1460 == 25 * e.century + e.cycle + extra;
    assert if d == 146_096 then d / 36_524 == 4 && d / 146_096 == 1
           else d / 36_524 == e.century && d / 146_096 == 0;
    assert d - d / 1460 + d / 36_524 - d / 146_096 == 365 * e.YearNumber() + (e.day - extra);
    assert 0 <= e.day - extra < 365;
  }

  /** Month lengths: the start of the next month, except for February, the year's last. */
  lemma MonthLengths(year: int, month: int)
    requires 1 <= month <= 12
    ensures var m := MonthFromMarch(month);
            if month == 2 then MonthStart(m) == 337
            else MonthStart(m + 1) - MonthStart(m) == MonthDays(year, month)
  {
  }

  /** The month formula inverts the month starts over the whole year. */
  lemma MonthOf(monthFromMarch: int, dayOfYear: int)
    requires 0 <= monthFromMarch < 12 && MonthStart(monthFromMarch) <= dayOfYear
    requires dayOfYear < if monthFromMarch == 11 then 366 else MonthStart(monthFromMarch + 1)
    ensures (5 * dayOfYear + 2) / 153 == monthFromMarch
  {
  }

  lemma DayHasMonth(dayOfYear: int) returns (m: int)
    requires 0 <= dayOfYear <= 365
    ensures m == (5 * dayOfYear + 2) / 153 && 0 <= m < 12
    ensures MonthStart(m) <= dayOfYear < if m == 11 then 366 else MonthStart(m + 1)
  {
    m := (5 * dayOfYear + 2) / 153;
  }

  /** The date of a day of an era. */
  function DateOf(era: int, e: EraDay): Date {
    var m := (5 * e.day + 2) / 153;
    var year := e.YearNumber() + era * 400;
    if m < 10 then Date(year, m + 3, e.day - MonthStart(m) + 1)
    else Date(year + 1, m - 9, e.day - MonthStart(m) + 1)
  }

  function DayCount(era: int, e: EraDay): int {
    era * 146_097 + e.DayNumber() - 719_468
  }

  lemma CivilIsDateOf(era: int, e: EraDay)
    requires e.Valid()
    ensures CivilFromDays(DayCount(era, e)) == DateOf(era, e)
  {
    hide YearOfEra, MonthStart;
    YearOfEraIs(e);
    LeapDaysBefore(e);
    assert DateInEra(era, e.DayNumber()) == DateOf(era, e);
    hide DateInEra, DateOf;
    EraOf(era, e.DayNumber());
  }

  lemma EraOf(era: int, dayOfEra: int)
    requires 0 <= dayOfEra < 146_097
    ensures (era * 146_097 + dayOfEra) / 146_097 == era
  {
  }

  lemma DateOfIsValid(era: int, e: EraDay)
    requires e.Valid()
    ensures Valid(DateOf(era, e))
  {
    var date := DateOf(era, e);
    var m := DayHasMonth(e.day);
    LastDayIsLeap(e, era);
    MonthLengths(date.year, date.month);
    hide MonthStart, Leap;
  }

  lemma DaysBeforeEraYear(era: int, e: EraDay)
    requires e.(day := 0).Valid()
    ensures DaysBefore(e.YearNumber() + era * 400) == era * 146_097 + e.(day := 0).DayNumber()
  {
    var year := e.YearNumber() + era * 400;
    assert year / 400 == era;
    LeapDaysBefore(e.(day := 0));
  }

  lemma DaysIsDayCount(era: int, e: EraDay)
    requires e.Valid()
    ensures DaysFromCivil(DateOf(era, e)) == DayCount(era, e)
  {
    hide DaysBefore, MonthStart, MonthFromMarch;
    var date := DateOf(era, e);
    var m := DayHasMonth(e.day);
    DaysBeforeEraYear(era, e);
    assert MarchYear(date) == e.YearNumber() + era * 400;
    assert MonthFromMarch(date.month) == m;
  }

  /** A day of a month of a March year, and the length of that year. */
  lemma DayInYear(date: Date)
    requires Valid(date)
    ensures var m, dayOfYear := MonthFromMarch(date.month), MonthStart(MonthFromMarch(date.month)) + date.day - 1;
            && 0 <= m < 12 && 0 <= dayOfYear <= 365 && MonthStart(m) <= dayOfYear
            && (dayOfYear == 365 ==> date.month == 2 && Leap(date.year))
            && dayOfYear < (if m == 11 then 366 else MonthStart(m + 1))
            && (if m < 10 then date.month == m + 3 else date.month == m - 9)
  {
    hide Leap;
    MonthLengths(date.year, date.month);
    var m := MonthFromMarch(date.month);
    assert m < 11 ==> MonthStart(m + 1) <= 337;
  }

  /** A year of an era with a day that it has. */
  lemma EraDayFits(era: int, yearOfEra: int, day: int)
    requires 0 <= yearOfEra < 400 && 0 <= day <= 365 && (day == 365 ==> Leap(yearOfEra + era * 400 + 1))
    ensures EraYearOf(yearOfEra, day).Valid()
  {
    hide Leap, EraYearOf;
    var e := EraYearOf(yearOfEra, day);
    LastDayIsLeap(e, era);
    assert day == 365 ==> e == e.(day := 365);
  }

  lemma SplitYear(year: int)
    ensures 0 <= year - year / 400 * 400 < 400
  {
  }

  /** Every valid date is a day of some era. */
  lemma DateHasEraDay(date: Date) returns (era: int, e: EraDay)
    requires Valid(date)
    ensures e.Valid() && DateOf(era, e) == date
  {
    var year, m := MarchYear(date), MonthFromMarch(date.month);
    DayInYear(date);
    SplitYear(year);
    MonthOf(m, MonthStart(m) + date.day - 1);
    hide Valid, Leap, MonthFromMarch, MonthStart, DateOf, EraYearOf;
    var dayOfYear := MonthStart(m) + date.day - 1;
    era := year / 400;
    var yearOfEra := year - era * 400;
    EraDayFits(era, yearOfEra, dayOfYear);
    e := EraYearOf(yearOfEra, dayOfYear);
    DateOfParts(era, e, m, date);
  }

  lemma DateOfParts(era: int, e: EraDay, m: int, date: Date)
    requires e.YearNumber() + era * 400 == MarchYear(date) && (5 * e.day + 2) / 153 == m
    requires e.day == MonthStart(m) + date.day - 1 && if m < 10 then date.month == m + 3 > 2 else date.month == m - 9 <= 2
    ensures DateOf(era, e) == date
  {
    hide MonthStart;
  }

  // ----- main results

  /** A valid date, its day number, and back. */
  lemma CivilOfDays(date: Date)
    requires Valid(date)
    ensures CivilFromDays(DaysFromCivil(date)) == date
  {
    hide CivilFromDays, DaysFromCivil, DateOf, DayCount;
    var era, e := DateHasEraDay(date);
    DaysIsDayCount(era, e);
    CivilIsDateOf(era, e);
  }

  /** Every day number is a day of some era. */
  lemma DayHasEraDay(days: int) returns (era: int, e: EraDay)
    ensures e.Valid() && DayCount(era, e) == days
  {
    era := (days + 719_468) / 146_097;
    e := EraDayOf(days + 719_468 - era * 146_097);
    hide EraDayOf;
  }

  /** Every day number names a valid date, whose day number it is. */
  lemma DaysOfCivil(days: int)
    ensures Valid(CivilFromDays(days)) && DaysFromCivil(CivilFromDays(days)) == days
  {
    hide CivilFromDays, DaysFromCivil, DateOf, DayCount, Valid, EraDay.Valid;
    var era, e := DayHasEraDay(days);
    CivilIsDateOf(era, e);
    DateOfIsValid(era, e);
    DaysIsDayCount(era, e);
  }

  /** Day numbers count calendar days: the next day's number is one more. */
  lemma DaysCountDays(date: Date)
    requires Valid(date)
    ensures DaysFromCivil(Next(date)) == DaysFromCivil(date) + 1
  {
    var next := Next(date);
    assert MonthStart(0) == 0;
    hide DaysBefore, MonthStart, Leap, MonthFromMarch;
    MonthLengths(date.year, date.month);
    if date.month == 2 && next.month == 3 {
      YearLength(date.year - 1);
    }
  }

  lemma EpochIsDayZero()
    ensures DaysFromCivil(EPOCH) == 0 && Valid(EPOCH)
  {
  }

  lemma YearLength(year: int)
    ensures DaysBefore(year + 1) - DaysBefore(year) == if Leap(year + 1) then 366 else 365
  {
    var era, y := year / 400, year - year / 400 * 400;
    LeapRepeats(y + 1, era);
    Carry(y, 4);
    Carry(y, 100);
    if y == 399 {
      EraOf400(era + 1, 0);
    } else {
      EraOf400(era, y + 1);
    }
  }

  lemma EraOf400(era: int, yearOfEra: int)
    requires 0 <= yearOfEra < 400
    ensures (era * 400 + yearOfEra) / 400 == era
  {
  }

  lemma Carry(n: int, k: int)
    requires k > 1
    ensures (n + 1) / k == n / k + if (n + 1) % k == 0 then 1 else 0
  {
    var q, r := n / k, n % k;
    assert n == k * q + r;
    if r + 1 == k {
      assert n + 1 == k * (q + 1);
      Quotient(n + 1, k, q + 1, 0);
    } else {
      Quotient(n + 1, k, q, r + 1);
    }
  }

  lemma Quotient(n: int, k: int, q: int, r: int)
    requires k > 1 && n == k * q + r && 0 <= r < k
    ensures n / k == q && n % k == r
  {
    var d := n / k - q;
    assert n == k * (n / k) + n % k;
    assert k * d == r - n % k;
    assert d >= 1 ==> k * d >= k;
    assert d <= -1 ==> k * d <= -k;
  }

  function AddDays(date: Date, n: nat): Date
    requires Valid(date)
    decreases n
  {
    if n == 0 then date else AddDays(Next(date), n - 1)
  }

  /** Counting day numbers and turning calendar pages agree, from any day. */
  lemma {:induction false} CivilAddsDays(days: int, n: nat)
    ensures Valid(CivilFromDays(days))
    ensures CivilFromDays(days + n) == AddDays(CivilFromDays(days), n)
    decreases n
  {
    hide CivilFromDays, DaysFromCivil;
    DaysOfCivil(days);
    if n > 0 {
      var date := CivilFromDays(days);
      DaysCountDays(date);
      CivilOfDays(Next(date));
      CivilAddsDays(days + 1, n - 1);
    }
  }

  // ----- the week

  /** Days since a Monday; day zero was a Thursday. */
  function SinceMonday(days: int): int {
    (days + 3) % 7
  }

  /** Mondays are every seventh day from 5 January 1970 on, and back. */
  lemma MondaysAre(days: int)
    ensures SinceMonday(days) == 0 <==> (days - DaysFromCivil(Date(1970, 1, 5))) % 7 == 0
    ensures 0 <= SinceMonday(days) <= 6 && (days - SinceMonday(days) - DaysFromCivil(Date(1970, 1, 5))) % 7 == 0
  {
    KnownMonday();
    hide DaysFromCivil;
  }

  lemma KnownMonday()
    ensures DaysFromCivil(Date(1970, 1, 5)) == 4
  {
  }

  function WeekStart(days: int): (monday: int)
    ensures SinceMonday(monday) == 0
    ensures monday <= days <= monday + 6
  {
    days - SinceMonday(days)
  }

  /** Two days share a week exactly when no Monday separates them: a Monday after the earlier one, at
      or before the later one. */
  lemma SameWeek(a: int, b: int)
    requires a <= b
    ensures WeekStart(a) == WeekStart(b) <==> !exists d :: a < d <= b && SinceMonday(d) == 0
  {
    if WeekStart(a) == WeekStart(b) {
      forall d | a < d <= b ensures SinceMonday(d) != 0 {
        assert (d + 3) % 7 == (d - WeekStart(a)) % 7;
      }
    } else {
      assert WeekStart(a) < WeekStart(b);
      assert a < WeekStart(b) <= b;
    }
  }

  // ----- the machine arithmetic: every operation below stays inside its width

  newtype i64 = x: int | -0x8000_0000_0000_0000 <= x < 0x8000_0000_0000_0000
  newtype i32 = x: int | -0x8000_0000 <= x < 0x8000_0000
  newtype u32 = x: int | 0 <= x < 0x1_0000_0000

  datatype LocalTime = LocalTime(
    year: i64, month: u32, day: u32, hour: u32, minute: u32, second: u32, offset: i32)
  {
    function Day(): Date {
      Date(year as int, month as int, day as int)
    }
  }

  function Saturate(x: int): i64 {
    if x < -0x8000_0000_0000_0000 then -0x8000_0000_0000_0000
    else if x >= 0x8000_0000_0000_0000 then 0x7fff_ffff_ffff_ffff
    else x as i64
  }

  /** Day numbers an i64 of seconds can reach. */
  const LAST_DAY := 106_751_991_167_300

  /** Ranges of what the conversion computes inside an era. */
  lemma EraRanges(dayOfEra: int)
    requires 0 <= dayOfEra < 146_097
    ensures var y := YearOfEra(dayOfEra);
            var d := dayOfEra - (365 * y + y / 4 - y / 100);
            && 0 <= y < 400 && 0 <= d <= 365 && 0 <= (5 * d + 2) / 153 < 12
            && 0 <= d - MonthStart((5 * d + 2) / 153) < 31
  {
    var e := EraDayOf(dayOfEra);
    YearOfEraIs(e);
    LeapDaysBefore(e);
    var m := DayHasMonth(e.day);
  }

  function YearOfEra64(dayOfEra: i64): (y: i64)
    requires 0 <= dayOfEra < 146_097
    ensures y as int == YearOfEra(dayOfEra as int)
  {
    (dayOfEra - dayOfEra / 1460 + dayOfEra / 36_524 - dayOfEra / 146_096) / 365
  }

  function EraDate64(dayOfEra: i64): (r: (i64, u32, u32))
    requires 0 <= dayOfEra < 146_097
    ensures Date(r.0 as int, r.1 as int, r.2 as int) == DateInEra(0, dayOfEra as int)
    ensures 0 <= r.0 <= 400
  {
    hide YearOfEra;
    EraRanges(dayOfEra as int);
    var yearOfEra := YearOfEra64(dayOfEra);
    var dayOfYear := dayOfEra - (365 * yearOfEra + yearOfEra / 4 - yearOfEra / 100);
    var monthFromMarch := (5 * dayOfYear + 2) / 153;
    var day := (dayOfYear - (153 * monthFromMarch + 2) / 5 + 1) as u32;
    var month := (if monthFromMarch < 10 then monthFromMarch + 3 else monthFromMarch - 9) as u32;
    (yearOfEra + (if month <= 2 then 1 else 0), month, day)
  }

  lemma DateInEraShifts(era: int, dayOfEra: int)
    ensures var date := DateInEra(0, dayOfEra);
            DateInEra(era, dayOfEra) == date.(year := date.year + era * 400)
  {
  }

  function Civil64(days: i64): (r: (i64, u32, u32))
    requires -LAST_DAY - 7 <= days as int <= LAST_DAY + 6
    ensures Date(r.0 as int, r.1 as int, r.2 as int) == CivilFromDays(days as int)
  {
    hide DateInEra;
    var shifted := days + 719_468;
    var era := shifted / 146_097;
    var dayOfEra := shifted - era * 146_097;
    DateInEraShifts(era as int, dayOfEra as int);
    var (year, month, day) := EraDate64(dayOfEra);
    (year + era * 400, month, day)
  }

  /** The time of day of a local second count. */
  lemma TimeOfDay(seconds: int)
    requires 0 <= seconds < 86_400
    ensures seconds / 3600 < 24
    ensures seconds / 3600 * 3600 + seconds / 60 % 60 * 60 + seconds % 60 == seconds
  {
    assert seconds / 60 == seconds / 3600 * 60 + seconds / 60 % 60;
  }

  /** The clock reading is the civil date and time of day of the local second count. */
  function At(unix: i64, offset: i32): (t: LocalTime)
    ensures Valid(t.Day()) && t.hour < 24 && t.minute < 60 && t.second < 60 && t.offset == offset
    ensures DaysFromCivil(t.Day()) * 86_400 + t.hour as int * 3600 + t.minute as int * 60 + t.second as int
         == Saturate(unix as int + offset as int) as int
  {
    var local := Saturate(unix as int + offset as int);
    var days := local / 86_400;
    var seconds := local % 86_400;
    hide CivilFromDays, DaysFromCivil;
    DaysOfCivil(days as int);
    TimeOfDay(seconds as int);
    var (year, month, day) := Civil64(days);
    LocalTime(year, month, day,
              (seconds / 3600) as u32, (seconds / 60 % 60) as u32, (seconds % 60) as u32, offset)
  }

  /** What the day number computes inside an era. */
  lemma DayParts(date: Date)
    requires Valid(date)
    ensures var y := MarchYear(date);
            var yearOfEra := y - y / 400 * 400;
            var dayOfYear := (153 * MonthFromMarch(date.month) + 2) / 5 + date.day - 1;
            && 0 <= yearOfEra < 400 && 0 <= dayOfYear <= 366
            && DaysFromCivil(date)
            == y / 400 * 146_097 + (yearOfEra * 365 + yearOfEra / 4 - yearOfEra / 100 + dayOfYear) - 719_468
  {
  }

  lemma YearRange(date: Date)
    requires Valid(date) && -LAST_DAY - 7 <= DaysFromCivil(date) <= LAST_DAY + 6
    ensures var y := MarchYear(date); -800_000_000 <= y / 400 <= 800_000_000 && -400_000_000_000 <= y <= 400_000_000_000
  {
    DayParts(date);
    hide DaysFromCivil, MonthFromMarch;
  }

  function DayOfYear64(month: u32, day: u32): (d: i64)
    requires 1 <= month <= 12 && 1 <= day <= 31
    ensures d as int == (153 * MonthFromMarch(month as int) + 2) / 5 + day as int - 1
    ensures 0 <= d <= 400
  {
    (153 * ((month + 9) % 12) as i64 + 2) / 5 + day as i64 - 1
  }

  function DayOfEra64(yearOfEra: i64, dayOfYear: i64): (d: i64)
    requires 0 <= yearOfEra < 400 && 0 <= dayOfYear <= 400
    ensures d as int == yearOfEra as int * 365 + yearOfEra as int / 4 - yearOfEra as int / 100 + dayOfYear as int
    ensures 0 <= d < 200_000
  {
    yearOfEra * 365 + yearOfEra / 4 - yearOfEra / 100 + dayOfYear
  }

  /** The day number of a date that a 64-bit time can reach, or up to a week around. */
  function Days64(year: i64, month: u32, day: u32): (days: i64)
    requires Valid(Date(year as int, month as int, day as int))
    requires -LAST_DAY - 7 <= DaysFromCivil(Date(year as int, month as int, day as int)) <= LAST_DAY + 6
    ensures days as int == DaysFromCivil(Date(year as int, month as int, day as int))
  {
    DayParts(Date(year as int, month as int, day as int));
    YearRange(Date(year as int, month as int, day as int));
    var dayOfYear := DayOfYear64(month, day);
    hide DaysFromCivil, MonthFromMarch;
    var y := if month <= 2 then year - 1 else year;
    var era := y / 400;
    var yearOfEra := y - era * 400;
    era * 146_097 + DayOfEra64(yearOfEra, dayOfYear) - 719_468
  }

  /** The Monday and the Sunday a log directory is named after. */
  function Week(day: Date): (Date, Date) {
    var monday := WeekStart(DaysFromCivil(day));
    (CivilFromDays(monday), CivilFromDays(monday + 6))
  }

  /** They are a Monday and the sixth day after it, and the day lies between them. */
  lemma WeekHoldsDay(day: Date)
    requires Valid(day)
    ensures var (monday, sunday) := Week(day);
            && Valid(monday) && Valid(sunday)
            && SinceMonday(DaysFromCivil(monday)) == 0
            && sunday == AddDays(monday, 6)
            && (exists n: nat :: n <= 6 && day == AddDays(monday, n))
  {
    hide CivilFromDays, DaysFromCivil, AddDays, SinceMonday;
    var days := DaysFromCivil(day);
    var monday := WeekStart(days);
    DaysOfCivil(monday);
    DaysOfCivil(monday + 6);
    CivilAddsDays(monday, 6);
    CivilAddsDays(monday, days - monday);
    CivilOfDays(day);
    assert day == AddDays(CivilFromDays(monday), days - monday);
  }

  /** A 64-bit reading is a day a 64-bit time can reach. */
  lemma ReadingInRange(unix: i64, offset: i32)
    ensures -LAST_DAY - 1 <= DaysFromCivil(At(unix, offset).Day()) <= LAST_DAY
  {
    var t := At(unix, offset);
    var seconds := t.hour as int * 3600 + t.minute as int * 60 + t.second as int;
    assert 0 <= seconds < 86_400;
    hide At, DaysFromCivil;
  }

  /** The week of any 64-bit reading, in 64-bit arithmetic. */
  function WeekAt(unix: i64, offset: i32): (r: ((i64, u32, u32), (i64, u32, u32)))
    ensures var (monday, sunday) := Week(At(unix, offset).Day());
            && Date(r.0.0 as int, r.0.1 as int, r.0.2 as int) == monday
            && Date(r.1.0 as int, r.1.1 as int, r.1.2 as int) == sunday
  {
    ReadingInRange(unix, offset);
    var t := At(unix, offset);
    hide At, DaysFromCivil, CivilFromDays;
    var days := Days64(t.year, t.month, t.day);
    var monday := days - (days + 3) % 7;
    (Civil64(monday), Civil64(monday + 6))
  }
}
