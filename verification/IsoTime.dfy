/** The `server-time` text form of src/server.rs: `iso_time` and `parse_iso`. */
module IsoTime {
  import opened Wrappers
  import opened Calendar
  import opened Text

  const LAST_SECOND := 253402300799

  // ----- text -----

  function Digit(n: nat): char
    requires n < 10
  {
    '0' + n as char
  }

  function Decimal(n: nat): (r: string)
    ensures r != "" && forall i :: 0 <= i < |r| ==> '0' <= r[i] <= '9'
  {
    if n < 10 then [Digit(n)] else Decimal(n / 10) + [Digit(n % 10)]
  }

  function Zeros(k: nat): (r: string)
    ensures |r| == k && forall i :: 0 <= i < k ==> r[i] == '0'
  {
    seq(k, _ => '0')
  }

  /** Zero-padded on the left to at least `width`. */
  function Padded(n: nat, width: nat): (r: string)
    ensures r != "" && forall i :: 0 <= i < |r| ==> '0' <= r[i] <= '9'
  {
    var d := Decimal(n);
    if |d| < width then Zeros(width - |d|) + d else d
  }

  function TrimEnd(s: string, c: char): string {
    if s != "" && s[|s| - 1] == c then TrimEnd(s[..|s| - 1], c) else s
  }

  function Value(s: string): int
    requires forall i :: 0 <= i < |s| ==> '0' <= s[i] <= '9'
  {
    if s == "" then 0 else Value(s[..|s| - 1]) * 10 + (s[|s| - 1] as int - '0' as int)
  }

  predicate AllDigits(s: string) {
    s != "" && forall i :: 0 <= i < |s| ==> '0' <= s[i] <= '9'
  }

  /** `str::parse::<i64>`: an optional sign, then digits, within range. */
  function ParseI64(s: string): Option<int> {
    var neg := s != "" && s[0] == '-';
    var digits := if s != "" && (s[0] == '-' || s[0] == '+') then s[1..] else s;
    if !AllDigits(digits) then None
    else
      var v := if neg then 0 - Value(digits) else Value(digits);
      if -0x8000_0000_0000_0000 <= v < 0x8000_0000_0000_0000 then Some(v) else None
  }

  // ----- the two conversions -----

  function Format(v: Date, h: nat, mi: nat, s: nat): string
    requires 0 <= v.year && 0 <= v.month && 0 <= v.day
  {
    (Padded(v.year, 4) + "-" + (Padded(v.month, 2) + "-" + Padded(v.day, 2))) + "T" +
    ((Padded(h, 2) + ":" + (Padded(mi, 2) + ":" + Padded(s, 2))) + "." + "000Z")
  }

  function IsoTime(secs: nat): string {
    DateValid(secs / DAY);
    YearPositive(secs / DAY);
    Format(DateOf(secs / DAY), (secs % DAY) / 3600, (secs % 3600) / 60, secs % 60)
  }

  function Field(parts: seq<string>, i: nat, missing: string): Option<int> {
    ParseI64(if i < |parts| then parts[i] else missing)
  }

  predicate InRange(v: Date, h: int, mi: int, s: int) {
    && 0 <= v.year <= 9999 && 1 <= v.month <= 12 && 1 <= v.day <= 31
    && 0 <= h <= 23 && 0 <= mi <= 59 && 0 <= s <= 60
  }

  /** Fields in range to seconds; times before 1970 read as 0. */
  function Seconds(v: Date, h: int, mi: int, s: int): Option<nat> {
    if !InRange(v, h, mi, s) then None
    else
      var secs := DaysOf(v) * DAY + h * 3600 + mi * 60 + s;
      Some(if secs < 0 then 0 else secs)
  }

  function ParseIso(text: string): Option<nat> {
    match SplitOnce(text, 'T')
    case None => None
    case Some((date, time)) =>
      var d := Split(date, '-');
      var t := Split(Split(TrimEnd(time, 'Z'), '.')[0], ':');
      match (Field(d, 0, ""), Field(d, 1, ""), Field(d, 2, ""), Field(t, 0, ""), Field(t, 1, ""), Field(t, 2, "0"))
      case (Some(y), Some(mo), Some(da), Some(h), Some(mi), Some(se)) => Seconds(Date(y, mo, da), h, mi, se)
      case _ => None
  }

  // ----- text lemmas -----

  /** Three fields written between two separators read back. */
  lemma SplitThree(a: string, b: string, e: string, c: char)
    requires c !in a && c !in b && c !in e
    ensures Split(a + [c] + (b + [c] + e), c) == [a, b, e]
  {
    SplitAt(a, c, b + [c] + e);
    SplitAt(b, c, e);
    SplitNone(e, c);
  }

  lemma {:induction false} ZerosAdd(k: nat, s: string)
    requires AllDigits(s)
    ensures Value(Zeros(k) + s) == Value(s)
    decreases |s|
  {
    var t := Zeros(k) + s;
    assert t[..|t| - 1] == Zeros(k) + s[..|s| - 1];
    if |s| > 1 {
      ZerosAdd(k, s[..|s| - 1]);
    } else {
      assert t[..|t| - 1] == Zeros(k);
      ZerosNothing(k);
    }
  }

  lemma {:induction false} ZerosNothing(k: nat)
    ensures Value(Zeros(k)) == 0
  {
    if k > 0 {
      assert Zeros(k)[..k - 1] == Zeros(k - 1);
      ZerosNothing(k - 1);
    }
  }

  lemma {:induction false} DecimalValue(n: nat)
    ensures Value(Decimal(n)) == n
  {
    if n >= 10 {
      var d := Decimal(n / 10) + [Digit(n % 10)];
      assert d[..|d| - 1] == Decimal(n / 10);
      DecimalValue(n / 10);
    }
  }

  lemma PaddedValue(n: nat, width: nat)
    ensures AllDigits(Padded(n, width)) && Value(Padded(n, width)) == n
  {
    DecimalValue(n);
    var d := Decimal(n);
    if |d| < width { ZerosAdd(width - |d|, d); }
  }

  /** A written number reads back, if it is an i64 at all. */
  lemma PaddedParses(n: nat, width: nat)
    ensures ParseI64(Padded(n, width)) == if n < 0x8000_0000_0000_0000 then Some(n) else None
  {
    hide Padded, Value;
    PaddedValue(n, width);
  }

  lemma PaddedClean(n: nat, width: nat)
    ensures forall c :: c in "-T:.Z" ==> c !in Padded(n, width)
  {
  }

  // ----- the round trip -----

  lemma YearBounds(days: nat)
    ensures DateOf(days).year <= 9999 <==> days <= 2932896
  {
    hide YearOfEra, YearLength;
    var z := days + EPOCH;
    var era := z / ERA;
    var doe := z - era * ERA;
    YearFound(doe);
    YearLengths(YearOfEra(doe));
    assert YearStart(399) == 145731;
    if era == 24 && doe >= 146037 {
      LastYear();
      YearUnique(doe, 399);
    } else if era == 24 && YearOfEra(doe) == 399 {
      MonthOrder(doe - 145731);
    }
  }

  lemma LastYear()
    ensures YearLength(399) == 366
  {
  }

  lemma MonthOrder(doy: int)
    requires 0 <= doy <= 305
    ensures MonthOf(doy) < 10
  {
  }

  lemma TimeParts(secs: nat)
    ensures var h, mi, s := (secs % DAY) / 3600, (secs % 3600) / 60, secs % 60;
      0 <= h <= 23 && 0 <= mi <= 59 && 0 <= s <= 59 && secs == secs / DAY * DAY + h * 3600 + mi * 60 + s
  {
    var q, r := secs / DAY, secs % DAY;
    var h, x := r / 3600, r % 3600;
    assert secs % 3600 == x by { RestOfHour(secs, 24 * q + h, x); }
    assert secs % 60 == x % 60 by { RestOfMinute(secs, 1440 * q + 60 * h + x / 60, x % 60); }
  }

  lemma RestOfHour(y: int, q: int, x: int)
    requires y == 3600 * q + x && 0 <= x < 3600
    ensures y % 3600 == x
  {
  }

  lemma RestOfMinute(y: int, q: int, x: int)
    requires y == 60 * q + x && 0 <= x < 60
    ensures y % 60 == x
  {
  }

  /** Whatever was formatted is parsed field by field. */
  lemma ParseFormat(v: Date, h: nat, mi: nat, s: nat)
    requires 0 <= v.year && 0 <= v.month && 0 <= v.day
    ensures ParseIso(Format(v, h, mi, s)) == Seconds(v, h, mi, s)
  {
    hide Padded, ParseI64, Seconds, Split, SplitOnce;
    var y, m, d := Padded(v.year, 4), Padded(v.month, 2), Padded(v.day, 2);
    var hh, mm, ss := Padded(h, 2), Padded(mi, 2), Padded(s, 2);
    PaddedClean(v.year, 4);
    PaddedClean(v.month, 2);
    PaddedClean(v.day, 2);
    PaddedClean(h, 2);
    PaddedClean(mi, 2);
    PaddedClean(s, 2);
    var date := y + ['-'] + (m + ['-'] + d);
    var clock := hh + [':'] + (mm + [':'] + ss);
    Clean3(y, m, d, '-', 'T');
    SplitOnceAt(date, 'T', clock + ['.'] + "000Z");
    assert Format(v, h, mi, s) == date + ['T'] + (clock + ['.'] + "000Z");
    SplitThree(y, m, d, '-');
    assert TrimEnd(clock + ['.'] + "000Z", 'Z') == clock + ['.'] + "000" by { TrimZ(clock + ['.'] + "000"); }
    Clean3(hh, mm, ss, ':', '.');
    SplitAt(clock, '.', "000");
    SplitThree(hh, mm, ss, ':');
    PaddedParses(v.year, 4);
    PaddedParses(v.month, 2);
    PaddedParses(v.day, 2);
    PaddedParses(h, 2);
    PaddedParses(mi, 2);
    PaddedParses(s, 2);
    HugeFields(v, h, mi, s);
  }

  lemma HugeFields(v: Date, h: int, mi: int, s: int)
    ensures v.year > 9999 || v.month > 12 || v.day > 31 || h > 23 || mi > 59 || s > 60 ==> Seconds(v, h, mi, s) == None
  {
  }

  /** Which fields are accepted, second 60 included, and what they come to: nothing before 1970. */
  lemma ParseRange(v: Date, h: nat, mi: nat, s: nat)
    requires 0 <= v.year && 0 <= v.month && 0 <= v.day
    ensures ParseIso(Format(v, h, mi, s)) ==
      if v.year > 9999 || v.month !in {1, 2, 3, 4, 5, 6, 7, 8, 9, 10, 11, 12} || v.day < 1 || v.day > 31 ||
         h > 23 || mi > 59 || s > 60 then None
      else if v.year < 1970 then Some(0)
      else Some(86400 * DaysOf(v) + 3600 * h + 60 * mi + s)
  {
    hide Format, ParseIso;
    ParseFormat(v, h, mi, s);
    if InRange(v, h, mi, s) { EpochSide(v); }
  }

  /** Dates before 1970 have negative day numbers, later ones do not. */
  lemma EpochSide(v: Date)
    requires 0 <= v.year <= 9999 && 1 <= v.month <= 12 && 1 <= v.day <= 31
    ensures v.year < 1970 ==> DaysOf(v) <= -1
    ensures v.year >= 1970 ==> DaysOf(v) >= 0
  {
    var yy := if v.month <= 2 then v.year - 1 else v.year;
    var era := if yy >= 0 then yy / 400 else 0 - (399 - yy) / 400;
    var yoe := yy - era * 400;
    var mp := if v.month > 2 then v.month - 3 else v.month + 9;
    assert 0 <= MonthStart(mp) <= 337;
    assert if v.month > 2 then MonthStart(mp) <= 275 else MonthStart(mp) >= 306;
    EraDays(yy, era, yoe);
  }

  /** Whole March-based years since year 0, against 1970. */
  lemma EraDays(yy: int, era: int, yoe: int)
    requires yy == era * 400 + yoe && 0 <= yoe < 400 && -1 <= yy <= 9999 && -1 <= era <= 24
    ensures yy >= 1970 ==> era * ERA + YearStart(yoe) >= 719527
    ensures yy == 1969 ==> era * ERA + YearStart(yoe) == 719162
    ensures yy <= 1968 ==> era * ERA + YearStart(yoe) <= 718797
  {
    assert YearStart(yoe) <= 145731 && YearStart(yoe) >= 0;
  }

  // ----- the text itself -----

  lemma {:induction false} DecimalLength(n: nat, k: nat)
    requires k > 0 && n < Ten(k)
    ensures |Decimal(n)| <= k
    decreases k
  {
    if n >= 10 {
      assert n / 10 < Ten(k - 1) && k > 1;
      DecimalLength(n / 10, k - 1);
    }
  }

  function Ten(k: nat): nat {
    if k == 0 then 1 else 10 * Ten(k - 1)
  }

  /** The number the digits in `t[i..j]` spell. */
  function Spelled(t: string, i: nat, j: nat): int
    requires i <= j <= |t|
    decreases j - i
  {
    if i == j then 0 else Spelled(t, i, j - 1) * 10 + (t[j - 1] as int - 48)
  }

  /** A field is digits, perhaps signed, spelling a 64-bit number. */
  lemma ParseI64Means(s: string)
    ensures AllDigits(s) ==> var v := Spelled(s, 0, |s|);
      && ParseI64(s) == ParseI64("+" + s) == (if v < 0x8000_0000_0000_0000 then Some(v) else None)
      && ParseI64("-" + s) == (if v <= 0x8000_0000_0000_0000 then Some(-v) else None)
    ensures ParseI64(s).Some? ==> AllDigits(s) || (s != "" && s[0] in "+-" && AllDigits(s[1..]))
  {
    hide Value, Spelled, ParseI64;
    if AllDigits(s) {
      assert s[0..|s|] == s;
      SpelledValue(s, 0, |s|);
      ValueNat(s);
      Unsigned(s);
      Signed('+', s);
      Signed('-', s);
    }
    SignOrNot(s);
  }

  lemma SignOrNot(s: string)
    ensures ParseI64(s).Some? ==> AllDigits(s) || (s != "" && s[0] in "+-" && AllDigits(s[1..]))
  {
    hide Value;
  }

  lemma Unsigned(s: string)
    requires AllDigits(s)
    ensures ParseI64(s) ==
      if -0x8000_0000_0000_0000 <= Value(s) < 0x8000_0000_0000_0000 then Some(Value(s)) else None
  {
    hide Value;
  }

  lemma Signed(sign: char, s: string)
    requires sign in {'+', '-'} && AllDigits(s)
    ensures var v := if sign == '-' then 0 - Value(s) else Value(s);
      ParseI64([sign] + s) == if -0x8000_0000_0000_0000 <= v < 0x8000_0000_0000_0000 then Some(v) else None
  {
    hide Value;
    assert ([sign] + s)[1..] == s;
  }

  lemma {:induction false} ValueNat(s: string)
    requires forall i :: 0 <= i < |s| ==> '0' <= s[i] <= '9'
    ensures Value(s) >= 0
  {
    if s != "" { ValueNat(s[..|s| - 1]); }
  }

  lemma {:induction false} SpelledValue(t: string, i: nat, j: nat)
    requires i <= j <= |t| && forall k :: i <= k < j ==> '0' <= t[k] <= '9'
    ensures Value(t[i..j]) == Spelled(t, i, j)
    decreases j - i
  {
    if i < j {
      assert t[i..j][..j - i - 1] == t[i..j - 1];
      SpelledValue(t, i, j - 1);
    }
  }

  lemma PaddedWidth(n: nat, width: nat)
    requires width > 0 && n < Ten(width)
    ensures |Padded(n, width)| == width
  {
    DecimalLength(n, width);
  }

  /** `t[i..j]` is digits and spells `n`. */
  predicate FieldAt(t: string, i: nat, j: nat, n: nat) {
    i <= j <= |t| && (forall k :: i <= k < j ==> '0' <= t[k] <= '9') && Spelled(t, i, j) == n
  }

  lemma PaddedField(t: string, i: nat, n: nat, width: nat)
    requires width > 0 && n < Ten(width) && i + width <= |t| && t[i..i + width] == Padded(n, width)
    ensures FieldAt(t, i, i + width, n)
  {
    hide Padded;
    PaddedValue(n, width);
    forall k | i <= k < i + width ensures '0' <= t[k] <= '9' { assert t[k] == t[i..i + width][k - i]; }
    SpelledValue(t, i, i + width);
  }

  /** `YYYY-MM-DDThh:mm:ss.000Z`, every field at its place and of its width. */
  ghost predicate Stamp(t: string, v: Date, h: int, mi: int, s: int)
    requires 0 <= v.year && 0 <= v.month && 0 <= v.day && 0 <= h && 0 <= mi && 0 <= s
  {
    && |t| == 24 && t[4] == '-' && t[7] == '-' && t[10] == 'T' && t[13] == ':' && t[16] == ':' && t[19] == '.'
    && t[23] == 'Z' && FieldAt(t, 0, 4, v.year) && FieldAt(t, 5, 7, v.month) && FieldAt(t, 8, 10, v.day)
    && FieldAt(t, 11, 13, h) && FieldAt(t, 14, 16, mi) && FieldAt(t, 17, 19, s) && FieldAt(t, 20, 23, 0)
  }

  lemma FormatStamp(v: Date, h: nat, mi: nat, s: nat)
    requires 0 <= v.year <= 9999 && 0 <= v.month <= 99 && 0 <= v.day <= 99 && h <= 99 && mi <= 99 && s <= 99
    ensures Stamp(Format(v, h, mi, s), v, h, mi, s)
  {
    hide Padded, FieldAt;
    assert Ten(2) == 10 * Ten(1) == 100 && Ten(4) == 10 * Ten(3) && Ten(3) == 10 * Ten(2);
    var y, m, d := Padded(v.year, 4), Padded(v.month, 2), Padded(v.day, 2);
    var hh, mm, ss := Padded(h, 2), Padded(mi, 2), Padded(s, 2);
    PaddedWidth(v.year, 4);
    PaddedWidth(v.month, 2);
    PaddedWidth(v.day, 2);
    PaddedWidth(h, 2);
    PaddedWidth(mi, 2);
    PaddedWidth(s, 2);
    var t := Format(v, h, mi, s);
    FormatSlices(y, m, d, hh, mm, ss, t);
    PaddedField(t, 0, v.year, 4);
    PaddedField(t, 5, v.month, 2);
    PaddedField(t, 8, v.day, 2);
    PaddedField(t, 11, h, 2);
    PaddedField(t, 14, mi, 2);
    PaddedField(t, 17, s, 2);
    Millis(t);
  }

  lemma FormatSlices(y: string, m: string, d: string, hh: string, mm: string, ss: string, t: string)
    requires |y| == 4 && |m| == 2 && |d| == 2 && |hh| == 2 && |mm| == 2 && |ss| == 2
    requires t == (y + "-" + (m + "-" + d)) + "T" + ((hh + ":" + (mm + ":" + ss)) + "." + "000Z")
    ensures |t| == 24 && t[4] == '-' && t[7] == '-' && t[10] == 'T' && t[13] == ':' && t[16] == ':' && t[19] == '.'
    ensures t[20] == '0' && t[21] == '0' && t[22] == '0' && t[23] == 'Z'
    ensures t[0..4] == y && t[5..7] == m && t[8..10] == d && t[11..13] == hh && t[14..16] == mm && t[17..19] == ss
  {
  }

  lemma Millis(t: string)
    requires |t| == 24 && t[20] == '0' && t[21] == '0' && t[22] == '0'
    ensures FieldAt(t, 20, 23, 0)
  {
    assert Spelled(t, 20, 20) == 0 && Spelled(t, 20, 21) == 0 && Spelled(t, 20, 22) == 0;
  }

  /** Up to the last second of 9999 the text has 24 characters: the Gregorian date and the time of day. */
  lemma TextForm(secs: nat)
    requires secs <= LAST_SECOND
    ensures var v := DateOf(secs / 86400);
      && 0 <= v.year && 1 <= v.month <= 12 && 1 <= v.day <= 31
      && Stamp(IsoTime(secs), v, (secs % 86400) / 3600, (secs % 3600) / 60, secs % 60)
  {
    hide DateOf, Format, Stamp;
    DateValid(secs / DAY);
    YearPositive(secs / DAY);
    YearBounds(secs / DAY);
    TimeParts(secs);
    FormatStamp(DateOf(secs / DAY), (secs % DAY) / 3600, (secs % 3600) / 60, secs % 60);
  }

  lemma Clean3(a: string, b: string, e: string, sep: char, c: char)
    requires c !in a && c !in b && c !in e && c != sep
    ensures c !in a + [sep] + (b + [sep] + e)
  {
  }

  lemma TrimZ(s: string)
    requires s != "" && s[|s| - 1] != 'Z'
    ensures TrimEnd(s + "Z", 'Z') == s
  {
    assert (s + "Z")[..|s|] == s;
  }

  /** `parse_iso` undoes `iso_time` exactly up to the last second of the year 9999. */
  lemma RoundTrip(secs: nat)
    ensures ParseIso(IsoTime(secs)) == Some(secs) <==> secs <= LAST_SECOND
  {
    hide ParseIso, Format, DateOf, DaysOf, MonthLength;
    var v := DateOf(secs / DAY);
    var h, mi, s := (secs % DAY) / 3600, (secs % 3600) / 60, secs % 60;
    DateValid(secs / DAY);
    YearPositive(secs / DAY);
    MonthAtMost(v.year, v.month);
    TimeParts(secs);
    ParseFormat(v, h, mi, s);
    YearBounds(secs / DAY);
    DayBound(secs);
  }

  lemma MonthAtMost(y: int, m: int)
    ensures MonthLength(y, m) <= 31
  {
  }

  lemma DayBound(secs: nat)
    ensures secs / DAY <= 2932896 <==> secs <= LAST_SECOND
  {
  }
}
