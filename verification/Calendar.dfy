/**
 Calendar arithmetic, written twice in the source: dates to day numbers for reading
 RFC 3339 timestamps (section 5.6), and day numbers to dates for printing them.
 Integers are unbounded here; the source computes in 64 bits.
 */
module Calendar {
  datatype Date = Date(y: int, m: int, d: int)

  /** Rust's `/` and `%`: they truncate toward zero. */
  function TruncDiv(a: int, b: int): int
    requires b > 0
  {
    if a >= 0 then a / b else -((-a) / b)
  }

  function TruncRem(a: int, b: int): int
    requires b > 0
  {
    a - b * TruncDiv(a, b)
  }

  /** Days since 1970-01-01, as `days_from_civil` computes them. */
  function DaysFromCivil(date: Date): int {
    var y := if date.m <= 2 then date.y - 1 else date.y;
    var era := TruncDiv(if y >= 0 then y else y - 399, 400);
    var yoe := y - era * 400;
    var mp := TruncRem(date.m + 9, 12);
    var doy := TruncDiv(153 * mp + 2, 5) + date.d - 1;
    var doe := yoe * 365 + TruncDiv(yoe, 4) - TruncDiv(yoe, 100) + doy;
    era * 146097 + doe - 719468
  }

  /** The date of a day number, as `fmt_ms` computes it. */
  function CivilFromDays(days: int): Date {
    var z := days + 719468;
    var era, doe := z / 146097, z % 146097;
    var yoe := (doe - doe / 1460 + doe / 36524 - doe / 146096) / 365;
    var doy := doe - (365 * yoe + yoe / 4 - yoe / 100);
    var mp := (5 * doy + 2) / 153;
    var d := doy - (153 * mp + 2) / 5 + 1;
    var m := if mp < 10 then mp + 3 else mp - 9;
    Date(yoe + era * 400 + (if m <= 2 then 1 else 0), m, d)
  }

  // ----------------------------------------------- the proleptic Gregorian calendar

  predicate Leap(y: int) {
    y % 4 == 0 && (y % 100 != 0 || y % 400 == 0)
  }

  function MonthLength(y: int, m: int): int {
    if m == 2 then (if Leap(y) then 29 else 28)
    else if m == 4 || m == 6 || m == 9 || m == 11 then 30
    else 31
  }

  predicate ValidDate(date: Date) {
    1 <= date.m <= 12 && 1 <= date.d <= MonthLength(date.y, date.m)
  }

  function NextDay(date: Date): Date {
    if date.d < MonthLength(date.y, date.m) then date.(d := date.d + 1)
    else if date.m < 12 then Date(date.y, date.m + 1, 1)
    else Date(date.y + 1, 1, 1)
  }

  // ------------------------------------------------------------------ day counting

  /** Days before March-based year `y`, counted from March-based year 0. */
  function YearStart(y: int): int {
    365 * y + y / 4 - y / 100 + y / 400
  }

  /** Days before month `mp` of a March-based year. */
  function MonthStart(mp: int): int {
    (153 * mp + 2) / 5
  }

  function MarchYear(date: Date): int {
    if date.m <= 2 then date.y - 1 else date.y
  }

  function MarchMonth(m: int): int {
    if m <= 2 then m + 9 else m - 3
  }

  lemma EraSplit(y: int)
    ensures var era, yoe := y / 400, y % 400;
            YearStart(y) == era * 146097 + 365 * yoe + yoe / 4 - yoe / 100
  {
    var era, yoe := y / 400, y % 400;
    assert y == 400 * era + yoe;
    assert y / 4 == 100 * era + yoe / 4;
    assert y / 100 == 4 * era + yoe / 100;
  }

  lemma DaysAsCount(date: Date)
    requires 1 <= date.m <= 12
    ensures DaysFromCivil(date) == YearStart(MarchYear(date)) + MonthStart(MarchMonth(date.m)) + date.d - 1 - 719468
  {
    var y := MarchYear(date);
    var era := TruncDiv(if y >= 0 then y else y - 399, 400);
    assert era == y / 400;
    EraSplit(y);
  }

  lemma YearLength(y: int)
    ensures YearStart(y + 1) - YearStart(y) == if Leap(y + 1) then 366 else 365
  {
    DivStep(y, 4);
    DivStep(y, 100);
    DivStep(y, 400);
    assert (y + 1) % 400 == 0 ==> (y + 1) % 100 == 0 by { if (y + 1) % 400 == 0 { MultipleOf(y + 1, 400, 100); } }
    assert (y + 1) % 100 == 0 ==> (y + 1) % 4 == 0 by { if (y + 1) % 100 == 0 { MultipleOf(y + 1, 100, 4); } }
  }

  lemma DivStep(y: int, n: int)
    requires n > 0
    ensures (y + 1) / n == y / n + if (y + 1) % n == 0 then 1 else 0
  {
    var q, r := y / n, y % n;
    assert y + 1 == n * q + (r + 1);
    if r + 1 == n {
      DivMod(y + 1, n, q + 1, 0);
    } else {
      DivMod(y + 1, n, q, r + 1);
    }
  }

  lemma DivMod(x: int, n: int, q: int, r: int)
    requires n > 0 && x == n * q + r && 0 <= r < n
    ensures x / n == q && x % n == r
  {
    var e := x / n - q;
    assert n * e == r - x % n;
    assert e >= 1 ==> n * e >= n;
    assert e <= -1 ==> n * e <= -n;
  }

  lemma MultipleOf(x: int, n: int, k: int)
    requires k > 0 && n > 0 && n % k == 0 && x % n == 0
    ensures x % k == 0
  {
    var a, b := x / n, n / k;
    assert x == n * a && n == k * b;
    assert x == k * (b * a);
    DivMod(x, k, b * a, 0);
  }

  // --------------------------------------------------------- the two directions agree

  /** Within a March-based year the next day is the next place; its last day is followed by 1 March. */
  lemma NextInYear(date: Date)
    requires ValidDate(date)
    ensures var next := NextDay(date);
            && ValidDate(next)
            && if date.m == 2 && date.d == MonthLength(date.y, 2)
               then MarchYear(next) == MarchYear(date) + 1 && next.m == 3 && next.d == 1
                    && MonthStart(11) + date.d == (if Leap(MarchYear(next)) then 366 else 365)
               else MarchYear(next) == MarchYear(date)
                    && MonthStart(MarchMonth(next.m)) + next.d == MonthStart(MarchMonth(date.m)) + date.d + 1
  {
  }

  /** Any count built from year starts and month starts advances by one a day. */
  lemma CountAdvances(count: Date -> int, start: int -> int, date: Date)
    requires ValidDate(date)
    requires forall e: Date :: 1 <= e.m <= 12 ==>
               count(e) == start(MarchYear(e)) + MonthStart(MarchMonth(e.m)) + e.d - 719469
    requires forall y :: start(y + 1) - start(y) == if Leap(y + 1) then 366 else 365
    ensures count(NextDay(date)) == count(date) + 1
  {
    NextInYear(date);
    var y := MarchYear(date);
    assert start(y + 1) - start(y) == if Leap(y + 1) then 366 else 365;
  }

  /** One day later is one day number later: the count is the Gregorian calendar's own. */
  lemma DaysCountsDays(date: Date)
    requires ValidDate(date)
    ensures ValidDate(NextDay(date)) && DaysFromCivil(NextDay(date)) == DaysFromCivil(date) + 1
  {
    NextInYear(date);
    forall e: Date | 1 <= e.m <= 12
      ensures DaysFromCivil(e) == YearStart(MarchYear(e)) + MonthStart(MarchMonth(e.m)) + e.d - 719469
    {
      DaysAsCount(e);
    }
    forall y ensures YearStart(y + 1) - YearStart(y) == if Leap(y + 1) then 366 else 365 {
      YearLength(y);
    }
    CountAdvances(DaysFromCivil, YearStart, date);
  }

  lemma EpochIsZero()
    ensures DaysFromCivil(Date(1970, 1, 1)) == 0
  {
  }

  /** The quotients in the year-of-era formula, for century `c`, four-year block `b` and day `r` of the block. */
  lemma EraQuotients(c: int, b: int, r: int)
    requires 0 <= c <= 3 && 0 <= b <= 24 && 0 <= r <= 1460 && (r == 1460 ==> b < 24 || c == 3)
    ensures var doe, e := 36524 * c + 1461 * b + r, if 24 * c + b + r >= 1460 then 1 else 0;
            && 0 <= doe < 146097
            && doe - doe / 1460 + doe / 36524 - doe / 146096 == 365 * (100 * c + 4 * b) + (r - e)
  {
    var rest := 1461 * b + r;
    var doe, e := 36524 * c + rest, if 24 * c + b + r >= 1460 then 1 else 0;
    assert rest <= 36524 && (rest == 36524 ==> c == 3);
    var last := if rest == 36524 then 1 else 0;
    assert 0 <= 24 * c + b + r - 1460 * e < 1460;
    DivMod(doe, 146096, last, doe - 146096 * last);
    DivMod(doe, 36524, c + last, doe - 36524 * (c + last));
    DivMod(doe, 1460, 25 * c + b + e, doe - 1460 * (25 * c + b + e));
  }

  /** The year-of-era formula undoes the day-of-era sum. */
  lemma YearOfEra(yoe: int, doy: int)
    requires 0 <= yoe < 400 && 0 <= doy <= 365 && (doy == 365 ==> Leap(yoe + 1))
    ensures var doe := 365 * yoe + yoe / 4 - yoe / 100 + doy;
            0 <= doe < 146097 && (doe - doe / 1460 + doe / 36524 - doe / 146096) / 365 == yoe
  {
    var c, n := yoe / 100, yoe % 100;
    var b, a := n / 4, n % 4;
    assert yoe == 100 * c + 4 * b + a;
    DivMod(yoe, 4, 25 * c + b, a);
    assert doy == 365 ==> a == 3 && (b < 24 || c == 3);
    var r := 365 * a + doy;
    EraQuotients(c, b, r);
    var e := if 24 * c + b + r >= 1460 then 1 else 0;
    DivMod(365 * (100 * c + 4 * b) + (r - e), 365, yoe, r - e - 365 * a);
  }

  lemma MonthOfYear(mp: int, d: int)
    requires 0 <= mp <= 11 && 1 <= d <= MonthLength(4, if mp < 10 then mp + 3 else mp - 9)
    ensures var doy := MonthStart(mp) + d - 1;
            0 <= doy <= 365 && (doy == 365 ==> mp == 11 && d == 29) && (5 * doy + 2) / 153 == mp
  {
  }

  lemma CivilOfSplit(days: int, era: int, doe: int, yoe: int, mp: int)
    requires (days + 719468) / 146097 == era && (days + 719468) % 146097 == doe
    requires (doe - doe / 1460 + doe / 36524 - doe / 146096) / 365 == yoe
    requires (5 * (doe - (365 * yoe + yoe / 4 - yoe / 100)) + 2) / 153 == mp && 0 <= mp <= 11
    ensures CivilFromDays(days) ==
              Date(yoe + era * 400 + (if mp < 10 then 0 else 1), if mp < 10 then mp + 3 else mp - 9,
                   doe - (365 * yoe + yoe / 4 - yoe / 100) - MonthStart(mp) + 1)
  {
  }

  /** Splitting a day number back into era, year, month and day. */
  lemma CivilOfParts(days: int, era: int, yoe: int, mp: int, d: int)
    requires 0 <= yoe < 400 && 0 <= mp <= 11 && 1 <= d <= MonthLength(4, if mp < 10 then mp + 3 else mp - 9)
    requires mp == 11 && d == 29 ==> Leap(yoe + 1)
    requires days + 719468 == era * 146097 + 365 * yoe + yoe / 4 - yoe / 100 + MonthStart(mp) + d - 1
    ensures CivilFromDays(days) ==
              Date(yoe + era * 400 + (if mp < 10 then 0 else 1), if mp < 10 then mp + 3 else mp - 9, d)
  {
    var doy := MonthStart(mp) + d - 1;
    var z, doe := days + 719468, 365 * yoe + yoe / 4 - yoe / 100 + doy;
    MonthOfYear(mp, d);
    YearOfEra(yoe, doy);
    DivMod(z, 146097, era, doe);
    assert doe - (365 * yoe + yoe / 4 - yoe / 100) == doy;
    CivilOfSplit(days, era, doe, yoe, mp);
  }

  lemma CivilOfCount(date: Date, days: int)
    requires ValidDate(date)
    requires days == YearStart(MarchYear(date)) + MonthStart(MarchMonth(date.m)) + date.d - 1 - 719468
    ensures CivilFromDays(days) == date
  {
    var y := MarchYear(date);
    EraSplit(y);
    if date.m == 2 && date.d == 29 {
      LeapOfEra(y / 400, y % 400 + 1);
    }
    CivilOfParts(days, y / 400, y % 400, MarchMonth(date.m), date.d);
  }

  /** Printing undoes reading, for every valid date, of any year. */
  lemma CivilOfDays(date: Date)
    requires ValidDate(date)
    ensures CivilFromDays(DaysFromCivil(date)) == date
  {
    DaysAsCount(date);
    CivilOfCount(date, DaysFromCivil(date));
  }

  lemma LeapOfEra(era: int, y: int)
    ensures Leap(400 * era + y) <==> Leap(y)
  {
    var x := 400 * era + y;
    DivMod(x, 4, 100 * era + y / 4, y % 4);
    DivMod(x, 100, 4 * era + y / 100, y % 100);
    DivMod(x, 400, era + y / 400, y % 400);
  }

  /** Reading undoes printing, for every day number, negative ones included; what is printed is a date. */
  lemma DaysOfCivil(days: int)
    ensures ValidDate(CivilFromDays(days)) && DaysFromCivil(CivilFromDays(days)) == days
  {
    forall date | ValidDate(date) ensures CivilFromDays(DaysFromCivil(date)) == date {
      CivilOfDays(date);
    }
    forall date | ValidDate(date) ensures DaysFromCivil(NextDay(date)) == DaysFromCivil(date) + 1 {
      DaysCountsDays(date);
    }
    EpochIsZero();
    CountReaches(DaysFromCivil, CivilFromDays, days);
  }

  /** A count that advances by one a day, and is undone by `civil`, reaches every day number. */
  lemma {:induction false} CountReaches(count: Date -> int, civil: int -> Date, days: int)
    requires forall date :: ValidDate(date) ==> civil(count(date)) == date
    requires forall date :: ValidDate(date) ==> count(NextDay(date)) == count(date) + 1
    requires count(Date(1970, 1, 1)) == 0
    ensures ValidDate(civil(days)) && count(civil(days)) == days
    decreases if days >= 0 then days else -days
  {
    if days == 0 {
      assert civil(count(Date(1970, 1, 1))) == Date(1970, 1, 1);
    } else if days > 0 {
      CountReaches(count, civil, days - 1);
      var date := DayAfter(civil(days - 1));
      ReachedAt(count, civil, days, date);
    } else {
      CountReaches(count, civil, days + 1);
      var date := DayBefore(civil(days + 1));
      ReachedAt(count, civil, days, date);
    }
  }

  function PreviousDay(date: Date): Date {
    if date.d > 1 then date.(d := date.d - 1)
    else if date.m > 1 then Date(date.y, date.m - 1, MonthLength(date.y, date.m - 1))
    else Date(date.y - 1, 12, 31)
  }

  lemma DayBefore(date: Date) returns (before: Date)
    requires ValidDate(date)
    ensures ValidDate(before) && NextDay(before) == date
  {
    before := PreviousDay(date);
  }

  lemma DayAfter(date: Date) returns (after: Date)
    requires ValidDate(date)
    ensures ValidDate(after) && NextDay(date) == after
  {
    after := NextDay(date);
    NextInYear(date);
  }

  lemma ReachedAt(count: Date -> int, civil: int -> Date, days: int, date: Date)
    requires ValidDate(date) && count(date) == days && civil(count(date)) == date
    ensures ValidDate(civil(days)) && count(civil(days)) == days
  {
  }

  // -------------------------------------------------------------------- timestamps

  datatype Stamp = Stamp(date: Date, hour: int, minute: int, second: int)

  predicate ValidStamp(s: Stamp) {
    ValidDate(s.date) && 0 <= s.hour < 24 && 0 <= s.minute < 60 && 0 <= s.second < 60
  }

  /** The fields `fmt_ms` prints for a unix millisecond count. */
  function StampOf(ms: int): Stamp {
    var secs := ms / 1000;
    var days, sod := secs / 86400, secs % 86400;
    Stamp(CivilFromDays(days), sod / 3600, sod % 3600 / 60, sod % 60)
  }

  /** The instant `parse_rfc3339_ms` computes from its fields. */
  function InstantOf(s: Stamp, fracMs: int, offsetSeconds: int): int {
    (DaysFromCivil(s.date) * 86400 + s.hour * 3600 + s.minute * 60 + s.second - offsetSeconds) * 1000 + fracMs
  }

  lemma SecondsSplit(sod: int)
    requires 0 <= sod < 86400
    ensures sod == sod / 3600 * 3600 + sod % 3600 / 60 * 60 + sod % 60
    ensures 0 <= sod / 3600 < 24 && 0 <= sod % 3600 / 60 < 60 && 0 <= sod % 60 < 60
  {
    assert sod % 3600 == sod % 3600 / 60 * 60 + sod % 60;
  }

  lemma SecondsJoin(h: int, mi: int, s: int)
    requires 0 <= h < 24 && 0 <= mi < 60 && 0 <= s < 60
    ensures var sod := h * 3600 + mi * 60 + s;
            0 <= sod < 86400 && sod / 3600 == h && sod % 3600 / 60 == mi && sod % 60 == s
  {
  }

  /** Printed fields are valid, and reading them back with the milliseconds gives the instant. */
  lemma PrintedStampReadsBack(ms: int)
    ensures ValidStamp(StampOf(ms)) && InstantOf(StampOf(ms), ms % 1000, 0) == ms
  {
    var secs := ms / 1000;
    DaysOfCivil(secs / 86400);
    SecondsSplit(secs % 86400);
  }

  /** Reading fields and printing the instant gives the fields back, in any offset they were written with. */
  lemma ReadStampPrintsBack(s: Stamp, fracMs: int, offsetSeconds: int)
    requires ValidStamp(s) && 0 <= fracMs < 1000
    ensures StampOf(InstantOf(s, fracMs, offsetSeconds) + offsetSeconds * 1000) == s
  {
    CivilOfDays(s.date);
    SecondsJoin(s.hour, s.minute, s.second);
    var days, sod := DaysFromCivil(s.date), s.hour * 3600 + s.minute * 60 + s.second;
    var ms := (days * 86400 + sod) * 1000 + fracMs;
    assert InstantOf(s, fracMs, offsetSeconds) + offsetSeconds * 1000 == ms;
    SplitInstant(ms, days, sod, fracMs);
  }

  lemma SplitInstant(ms: int, days: int, sod: int, fracMs: int)
    requires 0 <= sod < 86400 && 0 <= fracMs < 1000 && ms == (days * 86400 + sod) * 1000 + fracMs
    ensures ms / 1000 == days * 86400 + sod && ms / 1000 / 86400 == days && ms / 1000 % 86400 == sod
  {
    DivMod(ms, 1000, days * 86400 + sod, fracMs);
    DivMod(days * 86400 + sod, 86400, days, sod);
  }
}
