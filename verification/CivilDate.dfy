/** Dates from day counts: utc_stamp in crates/approved_tests/src/main.rs, against
    the calendar it stands for, one day after the other. */
module CivilDate {
  datatype Date = Date(year: int, month: int, day: int)

  // ---------- the calendar ----------

  predicate Leap(y: int) {
    y % 4 == 0 && (y % 100 != 0 || y % 400 == 0)
  }

  function MonthLength(y: int, m: int): int {
    if m == 2 then if Leap(y) then 29 else 28
    else if m in {4, 6, 9, 11} then 30
    else 31
  }

  predicate Valid(d: Date) {
    1 <= d.month <= 12 && 1 <= d.day <= MonthLength(d.year, d.month)
  }

  function NextDay(d: Date): Date {
    if d.day < MonthLength(d.year, d.month) then d.(day := d.day + 1)
    else if d.month < 12 then Date(d.year, d.month + 1, 1)
    else Date(d.year + 1, 1, 1)
  }

  /** The day n days after the first of January 1970. */
  function Stepped(n: nat): Date {
    if n == 0 then Date(1970, 1, 1) else NextDay(Stepped(n - 1))
  }

  // ---------- the arithmetic ----------

  function YearOfEra(doe: int): int {
    (doe - doe / 1460 + doe / 36524 - doe / 146096) / 365
  }

  /** Days before March year y of an era. */
  function YearStart(y: int): int {
    365 * y + y / 4 - y / 100
  }

  function MonthAndDay(doy: int): (int, int) {
    var mp := (5 * doy + 2) / 153;
    (if mp < 10 then mp + 3 else mp - 9, doy - (153 * mp + 2) / 5 + 1)
  }

  /** The date of a day of a March year. */
  function DateOf(era: int, yoe: int, doy: int): Date {
    var (m, d) := MonthAndDay(doy);
    Date(yoe + era * 400 + if m <= 2 then 1 else 0, m, d)
  }

  function Civil(days: nat): Date {
    var z := days + 719468;
    var era := z / 146097;
    var doe := z - era * 146097;
    var yoe := YearOfEra(doe);
    DateOf(era, yoe, doe - YearStart(yoe))
  }

  // ---------- the March year is found ----------

  /** A March year ends with February of the next year. */
  predicate LongYear(y: int) {
    y % 4 == 3 && (y % 100 != 99 || y == 399)
  }

  function YearLength(y: int): int {
    if LongYear(y) then 366 else 365
  }

  /** Centuries, four-year spans and years of an era. */
  lemma YearStartParts(c: int, q: int, r: int)
    requires 0 <= c <= 3 && 0 <= q <= 24 && 0 <= r <= 3
    ensures var y := 100 * c + 4 * q + r;
            && y / 4 == 25 * c + q && y / 100 == c
            && YearStart(y) == 36524 * c + 1461 * q + 365 * r
            && (LongYear(y) <==> r == 3 && (q != 24 || c == 3))
  {
    var y := 100 * c + 4 * q + r;
    assert y % 4 == r && y % 100 == 4 * q + r;
  }

  lemma CorrectionParts(c: int, q: int, r: int, doy: int)
    requires 0 <= c <= 3 && 0 <= q <= 24 && 0 <= r <= 3 && 0 <= doy <= 365
    ensures var doe := 36524 * c + 1461 * q + 365 * r + doy;
            && doe / 1460 == 25 * c + q + (24 * c + q + 365 * r + doy) / 1460
            && doe / 36524 == c + (1461 * q + 365 * r + doy) / 36524
  {
    var doe := 36524 * c + 1461 * q + 365 * r + doy;
    assert doe == 1460 * (25 * c + q) + (24 * c + q + 365 * r + doy);
  }

  lemma OneOrNone(x: int, d: int)
    requires 0 <= x < 2 * d
    ensures x / d == if x >= d then 1 else 0
  {
    if x >= d {
      assert x == d + (x - d);
    }
  }

  /** The corrections leave the day of the year between 0 and 364. */
  lemma CorrectedDay(c: int, q: int, r: int, doy: int)
    requires 0 <= c <= 3 && 0 <= q <= 24 && 0 <= r <= 3
    requires 0 <= doy < if r == 3 && (q != 24 || c == 3) then 366 else 365
    ensures var doe := 36524 * c + 1461 * q + 365 * r + doy;
            var corrected := doy - (24 * c + q + 365 * r + doy) / 1460 + (1461 * q + 365 * r + doy) / 36524 - doe / 146096;
            0 <= corrected < 365
  {
    OneOrNone(24 * c + q + 365 * r + doy, 1460);
    OneOrNone(1461 * q + 365 * r + doy, 36524);
    OneOrNone(36524 * c + 1461 * q + 365 * r + doy, 146096);
  }

  lemma WholeYears(y: int, rest: int)
    requires 0 <= rest < 365
    ensures (365 * y + rest) / 365 == y
  {}

  /** Whatever day of a March year it is, the closed form finds the year. */
  lemma YearFound(y: int, doy: int)
    requires 0 <= y < 400 && 0 <= doy < YearLength(y)
    ensures YearOfEra(YearStart(y) + doy) == y
  {
    var c, q, r := y / 100, y % 100 / 4, y % 4;
    assert y == 100 * c + 4 * q + r;
    YearStartParts(c, q, r);
    CorrectionParts(c, q, r, doy);
    CorrectedDay(c, q, r, doy);
    var doe := 36524 * c + 1461 * q + 365 * r + doy;
    var rest := doy - (24 * c + q + 365 * r + doy) / 1460 + (1461 * q + 365 * r + doy) / 36524 - doe / 146096;
    WholeYears(y, rest);
    assert doe - doe / 1460 + doe / 36524 - doe / 146096 == 365 * y + rest;
  }

  lemma YearFollows(y: int)
    requires 0 <= y < 399
    ensures YearStart(y + 1) == YearStart(y) + YearLength(y)
  {}

  /** Counting from the first of March of the year 0, era by era. */
  function DayNumber(era: int, y: int, doy: int): int {
    era * 146097 + YearStart(y) + doy
  }

  predicate MarchDay(y: int, doy: int) {
    0 <= y < 400 && 0 <= doy < YearLength(y)
  }

  lemma YearsFitEra(y: int, doy: int)
    requires MarchDay(y, doy)
    ensures 0 <= YearStart(y) + doy < 146097
  {
    YearBound(y);
  }

  lemma YearBound(y: int)
    requires 0 <= y < 400
    ensures 0 <= YearStart(y) && YearStart(y) + YearLength(y) <= 146097
  {}

  /** The arithmetic reads the era, the March year and its day off the day number. */
  lemma CivilIsDateOf(days: nat, era: int, y: int, doy: int)
    requires MarchDay(y, doy) && days + 719468 == DayNumber(era, y, doy)
    ensures Civil(days) == DateOf(era, y, doy)
  {
    YearsFitEra(y, doy);
    YearFound(y, doy);
    assert (days + 719468) / 146097 == era;
  }

  // ---------- stepping ----------

  /** The day after, in March years. */
  lemma NextMarchDay(era: int, y: int, doy: int) returns (era': int, y': int, doy': int)
    requires MarchDay(y, doy)
    ensures MarchDay(y', doy') && DayNumber(era', y', doy') == DayNumber(era, y, doy) + 1
    ensures if doy + 1 < YearLength(y) then (era', y', doy') == (era, y, doy + 1)
            else doy' == 0 && 400 * era' + y' == 400 * era + y + 1
  {
    if doy + 1 < YearLength(y) {
      era', y', doy' := era, y, doy + 1;
    } else if y < 399 {
      YearFollows(y);
      era', y', doy' := era, y + 1, 0;
    } else {
      era', y', doy' := era + 1, 0, 0;
    }
  }

  lemma FoursVanish(k: int, y: int)
    ensures (4 * k + y) % 4 == y % 4
  {}

  lemma HundredsVanish(k: int, y: int)
    ensures (100 * k + y) % 100 == y % 100
  {}

  lemma ErasVanish(k: int, y: int)
    ensures (400 * k + y) % 400 == y % 400
  {}

  /** March year y of an era has its February in a leap year exactly when it is long. */
  lemma LongIsLeap(era: int, y: int)
    requires 0 <= y < 400
    ensures LongYear(y) <==> Leap(400 * era + y + 1)
  {
    FoursVanish(100 * era, y + 1);
    HundredsVanish(4 * era, y + 1);
    ErasVanish(era, y + 1);
    assert Leap(400 * era + (y + 1)) == Leap(y + 1);
  }

  /** Within a March year the day after has the date after. */
  lemma DateFollows(era: int, y: int, doy: int)
    requires MarchDay(y, doy) && doy + 1 < YearLength(y)
    ensures DateOf(era, y, doy + 1) == NextDay(DateOf(era, y, doy))
  {
    LongIsLeap(era, y);
    var mp := (5 * doy + 2) / 153;
    assert 0 <= mp <= 11;
  }

  lemma LastOfFebruary(era: int, y: int)
    requires 0 <= y < 400
    ensures NextDay(DateOf(era, y, YearLength(y) - 1)) == Date(400 * era + y + 1, 3, 1)
  {
    LongIsLeap(era, y);
  }

  lemma FirstOfMarch(era: int, y: int)
    ensures DateOf(era, y, 0) == Date(400 * era + y, 3, 1)
  {}

  /** The day after in March years has the date after. */
  lemma MarchFollows(era: int, y: int, doy: int) returns (era': int, y': int, doy': int)
    requires MarchDay(y, doy)
    ensures MarchDay(y', doy') && DayNumber(era', y', doy') == DayNumber(era, y, doy) + 1
    ensures DateOf(era', y', doy') == NextDay(DateOf(era, y, doy))
  {
    era', y', doy' := NextMarchDay(era, y, doy);
    if doy + 1 < YearLength(y) {
      DateFollows(era, y, doy);
    } else {
      LastOfFebruary(era, y);
      FirstOfMarch(era', y');
    }
  }

  lemma {:induction false} SteppedParts(days: nat) returns (era: int, y: int, doy: int)
    ensures MarchDay(y, doy) && days + 719468 == DayNumber(era, y, doy)
    ensures DateOf(era, y, doy) == Stepped(days)
  {
    if days == 0 {
      era, y, doy := 4, 369, 306;
    } else {
      era, y, doy := SteppedParts(days - 1);
      era, y, doy := MarchFollows(era, y, doy);
    }
  }

  /** For every day count the arithmetic gives the date that stepping day by day
      from the first of January 1970 gives. */
  lemma CivilIsStepped(days: nat)
    ensures Civil(days) == Stepped(days)
  {
    var era, y, doy := SteppedParts(days);
    CivilIsDateOf(days, era, y, doy);
  }

  lemma {:induction false} SteppedIsValid(days: nat)
    ensures Valid(Stepped(days))
  {
    if days > 0 {
      SteppedIsValid(days - 1);
    }
  }

  lemma CivilIsValid(days: nat)
    ensures Valid(Civil(days))
  {
    CivilIsStepped(days);
    SteppedIsValid(days);
  }

  // ---------- order ----------

  predicate Earlier(a: Date, b: Date) {
    || a.year < b.year
    || (a.year == b.year && a.month < b.month)
    || (a.year == b.year && a.month == b.month && a.day < b.day)
  }

  lemma NextIsLater(d: Date)
    ensures Earlier(d, NextDay(d))
  {}

  lemma EarlierIsTransitive(a: Date, b: Date, c: Date)
    requires Earlier(a, b) && Earlier(b, c)
    ensures Earlier(a, c)
  {}

  lemma {:induction false} SteppedOrder(a: nat, b: nat)
    requires a < b
    ensures Earlier(Stepped(a), Stepped(b))
    decreases b
  {
    NextIsLater(Stepped(b - 1));
    if a < b - 1 {
      SteppedOrder(a, b - 1);
      EarlierIsTransitive(Stepped(a), Stepped(b - 1), Stepped(b));
    }
  }

  lemma LaterDaysLaterDates(a: nat, b: nat)
    requires a < b
    ensures Earlier(Civil(a), Civil(b))
  {
    CivilIsStepped(a);
    CivilIsStepped(b);
    SteppedOrder(a, b);
  }

  // ---------- the whole stamp ----------

  datatype Stamp = Stamp(date: Date, hour: nat, minute: nat, second: nat)

  function UtcStamp(secs: nat): Stamp {
    var rem := secs % 86400;
    Stamp(Civil(secs / 86400), rem / 3600, rem % 3600 / 60, rem % 60)
  }

  /** The seconds of a stamp's day and its time of day are the seconds it was made from. */
  lemma {:induction false} StampAddsUp(secs: nat)
    ensures var s := UtcStamp(secs);
            && s.hour < 24 && s.minute < 60 && s.second < 60
            && exists day: nat :: s.date == Civil(day) && secs == 86400 * day + 3600 * s.hour + 60 * s.minute + s.second
  {
    var rem := secs % 86400;
    TimeParts(rem);
    assert secs == 86400 * (secs / 86400) + rem;
    assert UtcStamp(secs).date == Civil(secs / 86400);
  }

  predicate StampEarlier(a: Stamp, b: Stamp) {
    Earlier(a.date, b.date)
    || (a.date == b.date
        && (a.hour < b.hour || (a.hour == b.hour && (a.minute < b.minute || (a.minute == b.minute && a.second < b.second)))))
  }

  /** Later seconds have later stamps, so that no two have the same. */
  lemma LaterSecondsLaterStamps(a: nat, b: nat)
    requires a < b
    ensures StampEarlier(UtcStamp(a), UtcStamp(b))
  {
    if a / 86400 < b / 86400 {
      LaterDaysLaterDates(a / 86400, b / 86400);
    } else {
      assert a / 86400 == b / 86400;
      TimeOrder(a % 86400, b % 86400);
    }
  }

  /** Hours, minutes and seconds, put together again. */
  lemma TimeParts(a: nat)
    ensures a == 3600 * (a / 3600) + 60 * (a % 3600 / 60) + a % 60
    ensures 0 <= a % 3600 / 60 < 60 && 0 <= a % 60 < 60
  {
    var r := a % 3600;
    assert a == 3600 * (a / 3600) + r;
    assert r == 60 * (r / 60) + r % 60;
    SixtiesVanish(60 * (a / 3600), r);
  }

  lemma SixtiesVanish(k: int, r: int)
    ensures (60 * k + r) % 60 == r % 60
  {}

  lemma TimeOrder(a: nat, b: nat)
    requires a < b
    ensures a / 3600 < b / 3600 || (a / 3600 == b / 3600 && (a % 3600 / 60 < b % 3600 / 60 || (a % 3600 / 60 == b % 3600 / 60 && a % 60 < b % 60)))
  {
    TimeParts(a);
    TimeParts(b);
    PartsOrder(a / 3600, a % 3600 / 60, a % 60, b / 3600, b % 3600 / 60, b % 60);
  }

  lemma PartsOrder(h: int, m: int, s: int, h': int, m': int, s': int)
    requires 0 <= m < 60 && 0 <= s < 60 && 0 <= m' < 60 && 0 <= s' < 60
    requires 3600 * h + 60 * m + s < 3600 * h' + 60 * m' + s'
    ensures h < h' || (h == h' && (m < m' || (m == m' && s < s')))
  {}
}
