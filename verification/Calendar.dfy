/** The civil-calendar conversion of src/server.rs and its inverse. */
module Calendar {
  import opened Wrappers

  const EPOCH := 719468
  const ERA := 146097
  const DAY := 86400

  datatype Date = Date(year: int, month: int, day: int)

  // ----- the source's arithmetic -----

  function YearOfEra(doe: nat): int {
    (doe - doe / 1460 + doe / 36524 - doe / 146096) / 365
  }

  function YearStart(yoe: int): int {
    365 * yoe + yoe / 4 - yoe / 100
  }

  function MonthOf(doy: int): int {
    (5 * doy + 2) / 153
  }

  function MonthStart(mp: int): int {
    (153 * mp + 2) / 5
  }

  /** `civil`, the date part: days since 1970-01-01 to year, month and day. */
  function DateOf(days: nat): Date {
    var z := days + EPOCH;
    var era := z / ERA;
    var doe := z - era * ERA;
    var yoe := YearOfEra(doe);
    var doy := doe - YearStart(yoe);
    var mp := MonthOf(doy);
    var m := if mp < 10 then mp + 3 else mp - 9;
    var y := yoe + era * 400;
    Date(if m <= 2 then y + 1 else y, m, doy - MonthStart(mp) + 1)
  }

  /** `parse_iso`, the date part: year, month and day to days since 1970-01-01. */
  function DaysOf(v: Date): int {
    var yy := if v.month <= 2 then v.year - 1 else v.year;
    var era := if yy >= 0 then yy / 400 else 0 - (399 - yy) / 400;
    var yoe := yy - era * 400;
    var mp := if v.month > 2 then v.month - 3 else v.month + 9;
    era * ERA + YearStart(yoe) + (MonthStart(mp) + v.day - 1) - EPOCH
  }

  // ----- the Gregorian calendar -----

  predicate Leap(y: int) {
    y % 4 == 0 && (y % 100 != 0 || y % 400 == 0)
  }

  function MonthLength(y: int, m: int): int {
    if m == 2 then (if Leap(y) then 29 else 28)
    else if m == 4 || m == 6 || m == 9 || m == 11 then 30 else 31
  }

  predicate Valid(v: Date) {
    1 <= v.month <= 12 && 1 <= v.day <= MonthLength(v.year, v.month)
  }

  function Next(v: Date): Date {
    if v.day < MonthLength(v.year, v.month) then v.(day := v.day + 1)
    else if v.month < 12 then Date(v.year, v.month + 1, 1)
    else Date(v.year + 1, 1, 1)
  }

  // ----- years within a 400-year era, counted from March -----

  /** The March-based year `yoe` of an era has 366 days when the February it ends with is in a leap year. */
  function YearLength(yoe: int): int {
    if Leap(yoe + 1) then 366 else 365
  }

  lemma YearStartStep(yoe: int)
    requires 0 <= yoe < 399
    ensures YearStart(yoe + 1) == YearStart(yoe) + YearLength(yoe)
  {
    var y := yoe + 1;
    Carry4(yoe);
    Carry100(yoe);
    assert y % 400 == y;
    assert y % 100 == 0 ==> y % 4 == 0;
  }

  lemma Carry4(n: int)
    ensures (n + 1) / 4 == n / 4 + if (n + 1) % 4 == 0 then 1 else 0
  {
  }

  lemma Carry100(n: int)
    ensures (n + 1) / 100 == n / 100 + if (n + 1) % 100 == 0 then 1 else 0
  {
  }

  lemma {:induction false} YearStartFrom(a: int, b: int)
    requires 0 <= a < b <= 399
    ensures YearStart(a) + YearLength(a) <= YearStart(b)
    decreases b - a
  {
    YearStartStep(b - 1);
    if a + 1 < b { YearStartFrom(a, b - 1); }
  }

  /** The magic quotients: century `b`, four-year cycle `k`, day `q` of that cycle. */
  lemma YearParts(doe: nat, b: nat, k: nat, q: nat)
    requires b <= 3 && doe == 36524 * b + 1461 * k + q && q <= 1460 && 1461 * k + q < 36524
    ensures YearOfEra(doe) == 100 * b + 4 * k + (if q == 1460 then 3 else q / 365)
  {
    assert doe / 36524 == b;
    assert doe / 146096 == 0;
    var e := (24 * b + k + q) / 1460;
    assert k <= 24 && 0 <= e <= 1;
    assert doe == 1460 * (25 * b + k) + (24 * b + k + q);
    assert doe / 1460 == 25 * b + k + e;
    assert doe - doe / 1460 + doe / 36524 == 365 * (100 * b + 4 * k) + (q - e);
    assert (q - e) / 365 == if q == 1460 then 3 else q / 365;
  }

  lemma YearStartParts(b: nat, k: nat, i: nat)
    requires b <= 3 && k <= 24 && i <= 3
    ensures YearStart(100 * b + 4 * k + i) == 36524 * b + 1461 * k + 365 * i
  {
    var y := 100 * b + 4 * k + i;
    assert y / 4 == 25 * b + k;
    assert y / 100 == b;
  }

  /** The formula finds the year the day lies in. */
  lemma YearFound(doe: nat)
    requires doe < ERA
    ensures var yoe := YearOfEra(doe); 0 <= yoe <= 399 && 0 <= doe - YearStart(yoe) < YearLength(yoe)
  {
    if doe == 146096 {
      assert YearOfEra(doe) == 399;
    } else {
      var b, r := doe / 36524, doe % 36524;
      var k, q := r / 1461, r % 1461;
      YearParts(doe, b, k, q);
      var i := if q == 1460 then 3 else q / 365;
      YearStartParts(b, k, i);
      if q == 1460 {
        LongYear(b, k);
      }
    }
  }

  lemma LongYear(b: nat, k: nat)
    requires b <= 3 && k <= 23
    ensures YearLength(100 * b + 4 * k + 3) == 366
  {
    var y := 100 * b + 4 * (k + 1);
    assert y == 100 * b + 4 * k + 3 + 1;
    assert y % 4 == 0 && y % 100 == 4 * (k + 1);
  }

  lemma YearUnique(doe: nat, yoe: int)
    requires doe < ERA && 0 <= yoe <= 399 && 0 <= doe - YearStart(yoe) < YearLength(yoe)
    ensures YearOfEra(doe) == yoe
  {
    hide YearOfEra, YearStart, YearLength;
    YearFound(doe);
    var found := YearOfEra(doe);
    if found < yoe {
      YearStartFrom(found, yoe);
    } else if yoe < found {
      YearStartFrom(yoe, found);
    }
  }

  // ----- months of a March-based year -----

  /** Days in month `mp`, March being 0; February closes the year. */
  function MarchLength(mp: int, yearLength: int): int {
    if mp == 11 then yearLength - 337 else MonthStart(mp + 1) - MonthStart(mp)
  }

  lemma MonthFound(doy: int)
    requires 0 <= doy <= 365
    ensures var mp := MonthOf(doy); 0 <= mp <= 11 && MonthStart(mp) <= doy && (mp < 11 ==> doy < MonthStart(mp + 1))
  {
  }

  lemma MonthUnique(doy: int, mp: int)
    requires 0 <= doy <= 365 && 0 <= mp <= 11 && MonthStart(mp) <= doy && (mp < 11 ==> doy < MonthStart(mp + 1))
    ensures MonthOf(doy) == mp
  {
  }

  // ----- dates by parts -----

  /** Month `mp` and March-based year `y` as a calendar date. */
  function FromMarch(y: int, mp: int, d: int): Date {
    if mp < 10 then Date(y, mp + 3, d) else Date(y + 1, mp - 9, d)
  }

  lemma LeapPeriod(yoe: int, era: int)
    ensures Leap(yoe + era * 400) == Leap(yoe)
  {
    var y := yoe + era * 400;
    assert y % 4 == yoe % 4 by { Rest4(yoe, y, yoe / 4 + era * 100); }
    assert y % 100 == yoe % 100 by { Rest100(yoe, y, yoe / 100 + era * 4); }
    assert y % 400 == yoe % 400 by { Rest400(yoe, y, yoe / 400 + era); }
  }

  lemma Rest4(x: int, y: int, q: int)
    requires y == 4 * q + x % 4
    ensures y % 4 == x % 4
  {
  }

  lemma Rest100(x: int, y: int, q: int)
    requires y == 100 * q + x % 100
    ensures y % 100 == x % 100
  {
  }

  lemma Rest400(x: int, y: int, q: int)
    requires y == 400 * q + x % 400
    ensures y % 400 == x % 400
  {
  }

  lemma LengthFromMarch(yoe: int, era: int, mp: int, d: int)
    requires 0 <= mp <= 11
    ensures var v := FromMarch(yoe + era * 400, mp, d);
      1 <= v.month <= 12 && MonthLength(v.year, v.month) == MarchLength(mp, YearLength(yoe))
  {
    LeapPeriod(yoe + 1, era);
    assert yoe + era * 400 + 1 == (yoe + 1) + era * 400;
  }

  lemma DaysFromMarch(yoe: int, era: int, mp: int, d: int)
    requires 0 <= yoe <= 399 && 0 <= era && 0 <= mp <= 11
    ensures DaysOf(FromMarch(yoe + era * 400, mp, d)) == era * ERA + YearStart(yoe) + MonthStart(mp) + d - 1 - EPOCH
  {
    assert (yoe + era * 400) / 400 == era;
  }

  /** `civil` always gives a month in 1..12 and a day of that month, and the inverse formula undoes it. */
  lemma DateValid(days: nat)
    ensures Valid(DateOf(days)) && DaysOf(DateOf(days)) == days
  {
    hide YearOfEra, YearStart, MonthOf, MonthStart, DaysOf, MonthLength, YearLength;
    var z := days + EPOCH;
    var era, doe := z / ERA, z % ERA;
    assert z - era * ERA == doe;
    YearFound(doe);
    var yoe := YearOfEra(doe);
    var doy := doe - YearStart(yoe);
    YearLengths(yoe);
    MonthFound(doy);
    var mp := MonthOf(doy);
    assert DateOf(days) == FromMarch(yoe + era * 400, mp, doy - MonthStart(mp) + 1);
    LengthFromMarch(yoe, era, mp, doy - MonthStart(mp) + 1);
    MonthTable();
    DaysFromMarch(yoe, era, mp, doy - MonthStart(mp) + 1);
  }

  lemma YearLengths(yoe: int)
    ensures 365 <= YearLength(yoe) <= 366
  {
  }

  lemma MonthTable()
    ensures MonthStart(0) == 0 && MonthStart(11) == 337
  {
  }

  /** A date in March-based parts. */
  lemma ToMarch(v: Date) returns (yoe: int, era: int, mp: int)
    requires Valid(v) && 1 <= v.year
    ensures 0 <= yoe <= 399 && 0 <= era && 0 <= mp <= 11 && v == FromMarch(yoe + era * 400, mp, v.day)
    ensures 1 <= v.day <= MarchLength(mp, YearLength(yoe))
  {
    var yy := if v.month <= 2 then v.year - 1 else v.year;
    era, yoe := yy / 400, yy % 400;
    mp := if v.month > 2 then v.month - 3 else v.month + 9;
    LengthFromMarch(yoe, era, mp, v.day);
  }

  lemma InYear(yoe: int, mp: int, d: int)
    requires 0 <= mp <= 11 && 1 <= d <= MarchLength(mp, YearLength(yoe))
    ensures 0 <= MonthStart(mp) + d - 1 < YearLength(yoe) && MonthOf(MonthStart(mp) + d - 1) == mp
  {
    YearLengths(yoe);
    MonthUnique(MonthStart(mp) + d - 1, mp);
  }

  lemma InEra(yoe: int, doy: int)
    requires 0 <= yoe <= 399 && 0 <= doy < YearLength(yoe)
    ensures 0 <= YearStart(yoe) + doy < ERA && YearOfEra(YearStart(yoe) + doy) == yoe
  {
    hide YearOfEra;
    assert YearStart(399) == 145731 && YearStart(0) == 0;
    YearLengths(yoe);
    if yoe < 399 { YearStartFrom(yoe, 399); }
    YearUnique(YearStart(yoe) + doy, yoe);
  }

  /** The other way round: every valid date from 1970 on comes back. */
  lemma DateBack(v: Date)
    requires Valid(v) && 1 <= v.year && 0 <= DaysOf(v)
    ensures DateOf(DaysOf(v)) == v
  {
    hide YearOfEra, YearStart, MonthOf, MonthStart, DaysOf, Valid, MarchLength, YearLength;
    var yoe, era, mp := ToMarch(v);
    DaysFromMarch(yoe, era, mp, v.day);
    var doy := MonthStart(mp) + v.day - 1;
    InYear(yoe, mp, v.day);
    InEra(yoe, doy);
    var doe := YearStart(yoe) + doy;
    var z := DaysOf(v) + EPOCH;
    assert z == era * ERA + doe;
    assert z / ERA == era;
  }

  /** The next calendar date is one day later. */
  lemma DaysNext(v: Date)
    requires Valid(v) && 1 <= v.year
    ensures Valid(Next(v)) && DaysOf(Next(v)) == DaysOf(v) + 1
  {
    hide YearStart, MonthStart, DaysOf, MarchLength, YearLength;
    var yoe, era, mp := ToMarch(v);
    DaysFromMarch(yoe, era, mp, v.day);
    LengthFromMarch(yoe, era, mp, v.day);
    if v.day < MonthLength(v.year, v.month) {
      DaysFromMarch(yoe, era, mp, v.day + 1);
      assert Next(v) == FromMarch(yoe + era * 400, mp, v.day + 1);
    } else if mp < 11 {
      DaysFromMarch(yoe, era, mp + 1, 1);
      assert Next(v) == FromMarch(yoe + era * 400, mp + 1, 1);
      MonthStep(yoe, mp);
    } else if yoe < 399 {
      DaysFromMarch(yoe + 1, era, 0, 1);
      assert Next(v) == FromMarch(yoe + 1 + era * 400, 0, 1);
      YearStep(yoe);
    } else {
      DaysFromMarch(0, era + 1, 0, 1);
      assert Next(v) == FromMarch(0 + (era + 1) * 400, 0, 1);
      EraStep();
    }
  }

  lemma MonthStep(yoe: int, mp: int)
    requires 0 <= mp < 11
    ensures MonthStart(mp) + MarchLength(mp, YearLength(yoe)) == MonthStart(mp + 1)
  {
  }

  lemma YearStep(yoe: int)
    requires 0 <= yoe < 399
    ensures YearStart(yoe) + MonthStart(11) + MarchLength(11, YearLength(yoe)) == YearStart(yoe + 1) + MonthStart(0)
  {
    YearStartStep(yoe);
  }

  lemma EraStep()
    ensures YearStart(399) + MonthStart(11) + MarchLength(11, YearLength(399)) == ERA + YearStart(0) + MonthStart(0)
  {
  }

  /** `civil` is the Gregorian calendar: it starts on 1 January 1970 and each day is the next calendar date. */
  lemma CivilCounts(days: nat)
    ensures DateOf(0) == Date(1970, 1, 1)
    ensures DateOf(days + 1) == Next(DateOf(days))
  {
    hide DateOf, DaysOf, Valid, Next;
    assert DateOf(0) == Date(1970, 1, 1) by { Epoch(); }
    DateValid(days);
    YearPositive(days);
    DaysNext(DateOf(days));
    NextYear(DateOf(days));
    DateBack(Next(DateOf(days)));
  }

  lemma NextYear(v: Date)
    ensures v.year <= Next(v).year
  {
  }

  lemma Epoch()
    ensures DateOf(0) == Date(1970, 1, 1)
  {
  }

  lemma YearPositive(days: nat)
    ensures 1 <= DateOf(days).year
  {
    var z := days + EPOCH;
    YearFound(z - z / ERA * ERA);
  }
}
