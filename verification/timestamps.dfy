/** The timestamp text of `store.py`: every stored instant is fixed-width UTC text
    (the profile of section 5.1 of RFC 3339), so that SQL can compare columns as text. */
module Timestamps {
  import opened Models

  // --- the calendar -----------------------------------------------------

  datatype Date = Date(year: int, month: int, day: int) {
    predicate IsReal() {
      1 <= year && 1 <= month <= 12 && 1 <= day <= DaysInMonth(year, month)
    }

    predicate Before(that: Date) {
      year < that.year || (year == that.year && (month < that.month || (month == that.month && day < that.day)))
    }
  }

  predicate IsLeap(year: int) {
    year % 4 == 0 && (year % 100 != 0 || year % 400 == 0)
  }

  function DaysInMonth(year: int, month: int): int {
    if month == 2 then if IsLeap(year) then 29 else 28
    else if month == 4 || month == 6 || month == 9 || month == 11 then 30
    else 31
  }

  const FIRST_DAY := Date(1, 1, 1)

  function NextDay(d: Date): Date {
    if d.day < DaysInMonth(d.year, d.month) then d.(day := d.day + 1)
    else if d.month < 12 then Date(d.year, d.month + 1, 1)
    else Date(d.year + 1, 1, 1)
  }

  /** The date `n` days after the first of January of year 1: the calendar itself,
      day by day. */
  function DateOf(n: nat): (d: Date)
    ensures d.IsReal()
  {
    if n == 0 then FIRST_DAY else NextDay(DateOf(n - 1))
  }

  function DaysBeforeYear(year: int): int {
    var y := year - 1;
    365 * y + y / 4 - y / 100 + y / 400
  }

  function DaysBeforeMonth(year: int, month: int): int {
    if month <= 1 then 0 else DaysBeforeMonth(year, month - 1) + DaysInMonth(year, month - 1)
  }

  /** Days since the first of January of year 1, in closed form. */
  function DayNumber(d: Date): int {
    DaysBeforeYear(d.year) + DaysBeforeMonth(d.year, d.month) + d.day - 1
  }

  /** The months of a year begin where they do, a day later from March on in a leap year. */
  lemma MonthsBegin(year: int)
    ensures var leap := if year % 400 == 0 || (year % 4 == 0 && year % 100 != 0) then 1 else 0;
      && DaysBeforeMonth(year, 2) == 31 && DaysBeforeMonth(year, 3) == 59 + leap && DaysBeforeMonth(year, 4) == 90 + leap
      && DaysBeforeMonth(year, 5) == 120 + leap && DaysBeforeMonth(year, 6) == 151 + leap && DaysBeforeMonth(year, 7) == 181 + leap
      && DaysBeforeMonth(year, 8) == 212 + leap && DaysBeforeMonth(year, 9) == 243 + leap && DaysBeforeMonth(year, 10) == 273 + leap
      && DaysBeforeMonth(year, 11) == 304 + leap && DaysBeforeMonth(year, 12) == 334 + leap && DaysInMonth(year, 12) == 31
  {
    var leap := if IsLeap(year) then 1 else 0;
    assert DaysBeforeMonth(year, 2) == 31;
    assert DaysBeforeMonth(year, 3) == 59 + leap;
    assert DaysBeforeMonth(year, 5) == 120 + leap;
    assert DaysBeforeMonth(year, 7) == 181 + leap;
    assert DaysBeforeMonth(year, 9) == 243 + leap;
    assert DaysBeforeMonth(year, 11) == 304 + leap;
  }

  /** One more number counts one more multiple of `k`, if it is one. */
  lemma NextMultiple(year: int, k: int)
    requires k == 4 || k == 100 || k == 400
    ensures year / k == (year - 1) / k + if year % k == 0 then 1 else 0
  {
    if k == 4 {
      assert year / 4 == (year - 1) / 4 + if year % 4 == 0 then 1 else 0;
    } else if k == 100 {
      assert year / 100 == (year - 1) / 100 + if year % 100 == 0 then 1 else 0;
    } else {
      assert year / 400 == (year - 1) / 400 + if year % 400 == 0 then 1 else 0;
    }
  }

  lemma MultipleOfProduct(q: int)
    ensures 100 * q % 4 == 0 && 400 * q % 100 == 0
  {
  }

  lemma Multiples(year: int)
    ensures year % 400 == 0 ==> year % 100 == 0
    ensures year % 100 == 0 ==> year % 4 == 0
  {
    MultipleOfProduct(year / 400);
    MultipleOfProduct(year / 100);
  }

  lemma LeapDays(year: int)
    requires year >= 1
    ensures DaysBeforeYear(year + 1) == DaysBeforeYear(year) + 365 + if IsLeap(year) then 1 else 0
  {
    NextMultiple(year, 4);
    NextMultiple(year, 100);
    NextMultiple(year, 400);
    Multiples(year);
  }

  lemma YearEnds(year: int)
    requires year >= 1
    ensures DaysBeforeYear(year + 1) == DaysBeforeYear(year) + DaysBeforeMonth(year, 12) + 31
  {
    MonthsBegin(year);
    LeapDays(year);
  }

  lemma {:induction false} YearsGrow(a: int, b: int)
    requires 1 <= a <= b
    ensures DaysBeforeYear(a) <= DaysBeforeYear(b)
    decreases b - a
  {
    if a < b {
      YearsGrow(a, b - 1);
    }
  }

  lemma {:induction false} MonthsGrow(year: int, a: int, b: int)
    requires 1 <= a < b <= 12
    ensures DaysBeforeMonth(year, a) + DaysInMonth(year, a) <= DaysBeforeMonth(year, b)
    decreases b
  {
    if a < b - 1 {
      MonthsGrow(year, a, b - 1);
    }
  }

  /** Later dates have greater numbers. */
  lemma DayNumberGrows(a: Date, b: Date)
    requires a.IsReal() && b.IsReal() && a.Before(b)
    ensures DayNumber(a) < DayNumber(b)
  {
    if a.year < b.year {
      YearEnds(a.year);
      YearsGrow(a.year + 1, b.year);
      if a.month < 12 {
        MonthsGrow(a.year, a.month, 12);
      }
      StartsAtZero(b.year, b.month);
    } else if a.month < b.month {
      MonthsGrow(a.year, a.month, b.month);
    }
  }

  lemma {:induction false} StartsAtZero(year: int, month: int)
    ensures DaysBeforeMonth(year, month) >= 0
    decreases month
  {
    if month > 1 {
      StartsAtZero(year, month - 1);
    }
  }

  lemma NextDayCounts(d: Date)
    requires d.IsReal()
    ensures DayNumber(NextDay(d)) == DayNumber(d) + 1
  {
    if d.day == DaysInMonth(d.year, d.month) && d.month == 12 {
      YearEnds(d.year);
    }
  }

  /** The closed form counts the days of the calendar. */
  lemma {:induction false} DayNumberOfDate(n: nat)
    ensures DayNumber(DateOf(n)) == n
  {
    if n > 0 {
      DayNumberOfDate(n - 1);
      NextDayCounts(DateOf(n - 1));
    }
  }

  lemma DateOfDayNumber(d: Date)
    requires d.IsReal()
    ensures DayNumber(d) >= 0 && DateOf(DayNumber(d)) == d
  {
    YearsGrow(1, d.year);
    StartsAtZero(d.year, d.month);
    var e := DateOf(DayNumber(d));
    DayNumberOfDate(DayNumber(d));
    if d.Before(e) {
      DayNumberGrows(d, e);
    } else if e.Before(d) {
      DayNumberGrows(e, d);
    }
  }

  // --- date and time of day ---------------------------------------------

  const MICRO := 1_000_000

  /** What a stored timestamp keeps of an instant given in microseconds. */
  function Secs(t: int): int { t / MICRO }

  /** Seconds from the first instant of year 1 to the first of year 10000. */
  const END := 3652059 * 86400

  datatype Civil = Civil(date: Date, hour: int, minute: int, second: int) {
    predicate IsReal() {
      date.IsReal() && date.year <= 9999 && 0 <= hour < 24 && 0 <= minute < 60 && 0 <= second < 60
    }

    predicate Before(that: Civil) {
      || date.Before(that.date)
      || (date == that.date &&
          (hour < that.hour || (hour == that.hour &&
                                (minute < that.minute || (minute == that.minute && second < that.second)))))
    }
  }

  function CivilOf(s: int): Civil
    requires 0 <= s
  {
    var minutes := s / 60;
    var hours := minutes / 60;
    Civil(DateOf(hours / 24), hours % 24, minutes % 60, s % 60)
  }

  function Seconds(c: Civil): int {
    ((DayNumber(c.date) * 24 + c.hour) * 60 + c.minute) * 60 + c.second
  }

  lemma SecondsOfCivil(s: int)
    requires 0 <= s < END
    ensures CivilOf(s).IsReal() && Seconds(CivilOf(s)) == s
  {
    var n := s / 60 / 60 / 24;
    DayNumberOfDate(n);
    var d := DateOf(n);
    if d.year > 9999 {
      YearsGrow(10000, d.year);
      StartsAtZero(d.year, d.month);
    }
  }

  lemma CivilOfSeconds(c: Civil)
    requires c.IsReal()
    ensures 0 <= Seconds(c) < END && CivilOf(Seconds(c)) == c
  {
    DateOfDayNumber(c.date);
    DayNumberGrows(c.date, Date(10000, 1, 1));
    var hours := DayNumber(c.date) * 24 + c.hour;
    var minutes := hours * 60 + c.minute;
    assert Seconds(c) / 60 == minutes && minutes / 60 == hours && hours / 24 == DayNumber(c.date);
  }

  lemma SecondsGrow(a: Civil, b: Civil)
    requires a.IsReal() && b.IsReal() && a.Before(b)
    ensures Seconds(a) < Seconds(b)
  {
    if a.date != b.date {
      DayNumberGrows(a.date, b.date);
    }
  }

  // --- text -------------------------------------------------------------

  function Pow10(w: nat): (p: int)
    ensures p >= 1
  {
    if w == 0 then 1 else 10 * Pow10(w - 1)
  }

  function Digit(n: int): char
    requires 0 <= n < 10
  {
    '0' + n as char
  }

  /** `n` in `w` decimal digits. */
  function Pad(n: int, w: nat): (s: string)
    requires 0 <= n < Pow10(w)
    ensures |s| == w
  {
    if w == 0 then "" else Pad(n / 10, w - 1) + [Digit(n % 10)]
  }

  function Value(c: char): Option<int> {
    if '0' <= c <= '9' then Some(c as int - '0' as int) else None
  }

  /** The number a text of digits stands for. */
  function Number(s: string): Option<int> {
    if s == [] then Some(0)
    else
      var high, low := Number(s[..|s| - 1]), Value(s[|s| - 1]);
      if high.Some? && low.Some? then Some(10 * high.value + low.value) else None
  }

  /** Comparing two texts of blocks of the same widths compares the first blocks first. */
  lemma {:induction false} LessOfBlocks(a: string, b: string, c: string, d: string)
    requires |a| == |b|
    ensures Less(a + c, b + d) <==> Less(a, b) || (a == b && Less(c, d))
  {
    if a == [] {
      assert a + c == c && b + d == d;
    } else {
      assert (a + c)[1..] == a[1..] + c && (b + d)[1..] == b[1..] + d;
      LessOfBlocks(a[1..], b[1..], c, d);
      assert a == [a[0]] + a[1..] && b == [b[0]] + b[1..];
    }
  }

  lemma {:induction false} PadLess(m: int, n: int, w: nat)
    requires 0 <= m < Pow10(w) && 0 <= n < Pow10(w)
    ensures Less(Pad(m, w), Pad(n, w)) <==> m < n
    ensures Pad(m, w) == Pad(n, w) <==> m == n
  {
    if w > 0 {
      PadLess(m / 10, n / 10, w - 1);
      LessOfBlocks(Pad(m / 10, w - 1), Pad(n / 10, w - 1), [Digit(m % 10)], [Digit(n % 10)]);
      var a, b := Pad(m, w), Pad(n, w);
      assert a[..w - 1] == Pad(m / 10, w - 1) && a[w - 1] == Digit(m % 10);
      assert b[..w - 1] == Pad(n / 10, w - 1) && b[w - 1] == Digit(n % 10);
    }
  }

  lemma {:induction false} NumberOfPad(n: int, w: nat)
    requires 0 <= n < Pow10(w)
    ensures Number(Pad(n, w)) == Some(n)
  {
    if w > 0 {
      NumberOfPad(n / 10, w - 1);
      assert Pad(n, w)[..w - 1] == Pad(n / 10, w - 1);
    }
  }

  lemma {:induction false} PadOfNumber(s: string)
    requires Number(s).Some?
    ensures 0 <= Number(s).value < Pow10(|s|) && Pad(Number(s).value, |s|) == s
  {
    if s != [] {
      PadOfNumber(s[..|s| - 1]);
      assert s == s[..|s| - 1] + [s[|s| - 1]];
    }
  }

  lemma Widths()
    ensures Pow10(2) == 100 && Pow10(4) == 10000
  {
    assert Pow10(1) == 10 && Pow10(3) == 1000;
  }

  const SUFFIX := "+00:00"

  /** YYYY-MM-DDTHH:MM:SS+00:00. */
  function TextOf(c: Civil): (s: string)
    requires c.IsReal()
  {
    Widths();
    Pad(c.date.year, 4) + ("-" + (Pad(c.date.month, 2) + ("-" + (Pad(c.date.day, 2) + ("T" +
      (Pad(c.hour, 2) + (":" + (Pad(c.minute, 2) + (":" + (Pad(c.second, 2) + SUFFIX))))))))))
  }

  /** Reads a text of that shape; None is the ValueError for anything that names no
      real date and time. */
  function ReadText(s: string): (c: Option<Civil>)
    ensures c.Some? ==> c.value.IsReal()
  {
    if |s| != 25 || s[4] != '-' || s[7] != '-' || s[10] != 'T' || s[13] != ':' || s[16] != ':' || s[19..] != SUFFIX then None
    else
      var y, m, d := Number(s[..4]), Number(s[5..7]), Number(s[8..10]);
      var hh, mm, ss := Number(s[11..13]), Number(s[14..16]), Number(s[17..19]);
      if y.None? || m.None? || d.None? || hh.None? || mm.None? || ss.None? then None
      else
        var c := Civil(Date(y.value, m.value, d.value), hh.value, mm.value, ss.value);
        if c.IsReal() then Some(c) else None
  }

  /** A block of digits and a separator decide the comparison unless they are equal. */
  lemma BlockFirst(m: int, n: int, w: nat, sep: string, x: string, y: string)
    requires 0 <= m < Pow10(w) && 0 <= n < Pow10(w) && |x| == |y|
    ensures Less(Pad(m, w) + (sep + x), Pad(n, w) + (sep + y)) <==> m < n || (m == n && Less(x, y))
  {
    PadLess(m, n, w);
    LessOfBlocks(Pad(m, w), Pad(n, w), sep + x, sep + y);
    LessOfBlocks(sep, sep, x, y);
    NotLessThanItself(sep);
  }

  /** The order of the texts is the order of the dates and times they show. */
  lemma TextOrder(a: Civil, b: Civil)
    requires a.IsReal() && b.IsReal()
    ensures Less(TextOf(a), TextOf(b)) <==> a.Before(b)
  {
    Widths();
    var sa, sb := Pad(a.second, 2) + SUFFIX, Pad(b.second, 2) + SUFFIX;
    var ma, mb := Pad(a.minute, 2) + (":" + sa), Pad(b.minute, 2) + (":" + sb);
    var ha, hb := Pad(a.hour, 2) + (":" + ma), Pad(b.hour, 2) + (":" + mb);
    var da, db := Pad(a.date.day, 2) + ("T" + ha), Pad(b.date.day, 2) + ("T" + hb);
    var na, nb := Pad(a.date.month, 2) + ("-" + da), Pad(b.date.month, 2) + ("-" + db);
    NotLessThanItself("");
    assert SUFFIX + "" == SUFFIX;
    BlockFirst(a.second, b.second, 2, SUFFIX, "", "");
    BlockFirst(a.minute, b.minute, 2, ":", sa, sb);
    BlockFirst(a.hour, b.hour, 2, ":", ma, mb);
    BlockFirst(a.date.day, b.date.day, 2, "T", ha, hb);
    BlockFirst(a.date.month, b.date.month, 2, "-", da, db);
    BlockFirst(a.date.year, b.date.year, 4, "-", na, nb);
  }

  /** What is written is read back. */
  lemma ReadOfText(c: Civil)
    requires c.IsReal()
    ensures ReadText(TextOf(c)) == Some(c)
  {
    Widths();
    var s := TextOf(c);
    assert |s| == 25 && s[4] == '-' && s[7] == '-' && s[10] == 'T' && s[13] == ':' && s[16] == ':';
    assert s[..4] == Pad(c.date.year, 4) && s[5..7] == Pad(c.date.month, 2) && s[8..10] == Pad(c.date.day, 2);
    assert s[11..13] == Pad(c.hour, 2) && s[14..16] == Pad(c.minute, 2) && s[17..19] == Pad(c.second, 2);
    assert s[19..] == SUFFIX;
    NumberOfPad(c.date.year, 4);
    NumberOfPad(c.date.month, 2);
    NumberOfPad(c.date.day, 2);
    NumberOfPad(c.hour, 2);
    NumberOfPad(c.minute, 2);
    NumberOfPad(c.second, 2);
  }

  lemma Cut(s: string, i: nat, j: nat)
    requires i <= j <= |s|
    ensures s[i..] == s[i..j] + s[j..]
  {
  }

  lemma Fields(s: string)
    requires |s| == 25 && s[4] == '-' && s[7] == '-' && s[10] == 'T' && s[13] == ':' && s[16] == ':'
    ensures s == s[..4] + ("-" + (s[5..7] + ("-" + (s[8..10] + ("T" +
      (s[11..13] + (":" + (s[14..16] + (":" + (s[17..19] + s[19..]))))))))))
  {
    Cut(s, 0, 4);
    Cut(s, 4, 5);
    Cut(s, 5, 7);
    Cut(s, 7, 8);
    Cut(s, 8, 10);
    Cut(s, 10, 11);
    Cut(s, 11, 13);
    Cut(s, 13, 14);
    Cut(s, 14, 16);
    Cut(s, 16, 17);
    Cut(s, 17, 19);
    assert s[4..5] == "-" && s[7..8] == "-" && s[10..11] == "T" && s[13..14] == ":" && s[16..17] == ":";
    assert s == s[0..] && s[..4] == s[0..4];
  }

  /** What can be read is the text that would be written. */
  lemma TextOfRead(s: string)
    requires ReadText(s).Some?
    ensures TextOf(ReadText(s).value) == s
  {
    PadOfNumber(s[..4]);
    PadOfNumber(s[5..7]);
    PadOfNumber(s[8..10]);
    PadOfNumber(s[11..13]);
    PadOfNumber(s[14..16]);
    PadOfNumber(s[17..19]);
    Fields(s);
  }

  // --- stored instants --------------------------------------------------

  /** An aware datetime: the wall clock in microseconds since year 1, and its offset
      from UTC in microseconds. */
  datatype Moment = Moment(wall: int, offset: int) {
    function Instant(): int { wall - offset }

    /** Years 1 to 9999 of UTC; beyond them `astimezone` overflows. */
    predicate Storable() { 0 <= Instant() < END * MICRO }

    function Second(): int { Secs(Instant()) }
  }

  function AtSecond(n: int): Moment { Moment(n * MICRO, 0) }

  /** `_utc`. */
  function Utc(t: Moment): (s: string)
    requires t.Storable()
  {
    SecondsOfCivil(t.Second());
    TextOf(CivilOf(t.Second()))
  }

  /** `_parse` of a text: the instant, at offset zero. */
  function Parse(s: string): Option<Moment> {
    match ReadText(s)
    case Some(c) => Some(AtSecond(Seconds(c)))
    case None => None
  }

  lemma SecondIs(t: Moment)
    ensures t.Second() == (t.wall - t.offset) / 1_000_000
    ensures t.Instant() % MICRO == (t.wall - t.offset) % 1_000_000
  {
  }

  lemma TextEmbedsSeconds(t: Moment, u: Moment)
    requires t.Storable() && u.Storable()
    ensures Less(Utc(t), Utc(u)) <==> t.Second() < u.Second()
    ensures Utc(t) == Utc(u) <==> t.Second() == u.Second()
  {
    var a, b := CivilOf(t.Second()), CivilOf(u.Second());
    SecondsOfCivil(t.Second());
    SecondsOfCivil(u.Second());
    TextOrder(a, b);
    if a.Before(b) {
      SecondsGrow(a, b);
    } else if b.Before(a) {
      SecondsGrow(b, a);
    }
    ReadOfText(a);
    ReadOfText(b);
  }

  /** Stored timestamps compare as text exactly as their whole seconds compare as
      instants, whatever time zone they were given in. */
  lemma TextEmbedsOrder(t: Moment, u: Moment)
    requires t.Storable() && u.Storable()
    ensures Less(Utc(t), Utc(u)) <==> (t.wall - t.offset) / 1_000_000 < (u.wall - u.offset) / 1_000_000
    ensures Utc(t) == Utc(u) <==> (t.wall - t.offset) / 1_000_000 == (u.wall - u.offset) / 1_000_000
  {
    TextEmbedsSeconds(t, u);
    SecondIs(t);
    SecondIs(u);
  }

  lemma WholeSecond(t: Moment)
    ensures AtSecond(t.Second()) == Moment(t.Instant() - t.Instant() % MICRO, 0)
  {
  }

  lemma SecondOf(n: int)
    requires 0 <= n < END
    ensures AtSecond(n).Second() == n && AtSecond(n).Storable()
  {
  }

  lemma ParseOfText(c: Civil, n: int)
    requires c.IsReal() && Seconds(c) == n
    ensures Parse(TextOf(c)) == Some(AtSecond(n))
  {
    ReadOfText(c);
  }

  /** Reading a stored timestamp gives the instant, truncated to the second. */
  lemma ParseOfUtc(t: Moment)
    requires t.Storable()
    ensures Parse(Utc(t)) == Some(Moment(t.wall - t.offset - (t.wall - t.offset) % 1_000_000, 0))
  {
    ParseOfStored(t);
    SecondIs(t);
  }

  lemma ParseOfStored(t: Moment)
    requires t.Storable()
    ensures Parse(Utc(t)) == Some(Moment(t.Instant() - t.Instant() % MICRO, 0))
  {
    var n := t.Second();
    SecondsOfCivil(n);
    ParseOfText(CivilOf(n), n);
    WholeSecond(t);
  }

  lemma UtcOfSecond(c: Civil, n: int)
    requires c.IsReal() && Seconds(c) == n
    ensures AtSecond(n).Storable() && Utc(AtSecond(n)) == TextOf(c)
  {
    CivilOfSeconds(c);
    SecondOf(n);
  }

  /** Every text that can be read is the stored form of what it reads as. */
  lemma UtcOfParse(s: string)
    requires Parse(s).Some?
    ensures Parse(s).value.Storable() && Utc(Parse(s).value) == s
  {
    var c := ReadText(s).value;
    UtcOfSecond(c, Seconds(c));
    TextOfRead(s);
  }

  /** The comparison `not_before <= ?` on text: never late, and early by less than a
      second. */
  lemma DueWithinASecond(notBefore: Moment, now: Moment)
    requires notBefore.Storable() && now.Storable()
    ensures notBefore.Instant() <= now.Instant() ==> !Less(Utc(now), Utc(notBefore))
    ensures !Less(Utc(now), Utc(notBefore)) ==> notBefore.Instant() < now.Instant() + MICRO
  {
    TextEmbedsSeconds(now, notBefore);
  }

  /** Would the text comparison call `notBefore` due at `now`? */
  predicate Due(notBefore: Moment, now: Moment)
    requires notBefore.Storable() && now.Storable()
  {
    !Less(Utc(now), Utc(notBefore))
  }

  ghost predicate NeverEarly(notBefore: Moment)
    requires notBefore.Storable()
  {
    forall now: Moment :: now.Storable() && Due(notBefore, now) ==> notBefore.Instant() <= now.Instant()
  }

  lemma DueOnTime(notBefore: Moment, now: Moment)
    requires notBefore.Storable() && now.Storable() && notBefore.Instant() % MICRO == 0
    ensures Due(notBefore, now) <==> notBefore.Instant() <= now.Instant()
  {
    TextEmbedsSeconds(now, notBefore);
    WholeSecond(notBefore);
  }

  lemma DueTooEarly(notBefore: Moment)
    requires notBefore.Storable() && notBefore.Instant() % MICRO != 0
    ensures AtSecond(notBefore.Second()).Storable() && Due(notBefore, AtSecond(notBefore.Second()))
    ensures AtSecond(notBefore.Second()).Instant() < notBefore.Instant()
  {
    var now := AtSecond(notBefore.Second());
    WholeSecond(notBefore);
    SecondOf(notBefore.Second());
    TextEmbedsSeconds(now, notBefore);
  }

  /** A retry is never early, whenever it is looked at, if and only if its `not_before`
      is a whole second. */
  lemma NeverEarlyIff(notBefore: Moment)
    requires notBefore.Storable()
    ensures NeverEarly(notBefore) <==> (notBefore.wall - notBefore.offset) % 1_000_000 == 0
  {
    if notBefore.Instant() % MICRO == 0 {
      forall now: Moment | now.Storable()
        ensures Due(notBefore, now) ==> notBefore.Instant() <= now.Instant()
      {
        DueOnTime(notBefore, now);
      }
    } else {
      DueTooEarly(notBefore);
    }
  }

  /** A retry for second 1.5 is due at second 1.0. */
  lemma DueHalfASecondEarly()
    ensures Moment(1_500_000, 0).Storable() && Moment(1_000_000, 0).Storable()
    ensures Due(Moment(1_500_000, 0), Moment(1_000_000, 0))
  {
    DueTooEarly(Moment(1_500_000, 0));
  }
}
