/** Timestamp unwrapping and calendar arithmetic. */
module TimeUtils {
  import opened Bytes

  // ---------- unwrapping 32-bit timestamps ----------

  const WRAP: int := 0x1_0000_0000

  /** The handler's state: no timestamp seen, or the last accepted one and the number of wraps. */
  datatype Unwrapper = Unwrapper(lastTs: u32, numWrap: int)

  const FRESH := Unwrapper(0, -1)

  /** The value returned and the state after it. */
  function Unwrapped(s: Unwrapper, ts: u32): (int, Unwrapper) {
    if s.numWrap == -1 then (ts, Unwrapper(ts, 0))
    else if ts >= s.lastTs && ts - s.lastTs > 0xF000_0000 then (ts + (s.numWrap - 1) * WRAP, s)
    else
      var w := if ts < s.lastTs && s.lastTs >= 0xF000_0000 && ts < 0x0FFF_FFFF then s.numWrap + 1 else s.numWrap;
      (ts + w * WRAP, Unwrapper(ts, w))
  }

  class TimestampWrapAroundHandler {
    var lastTs: u32
    var numWrap: int

    ghost function Abs(): Unwrapper
      reads this
    {
      Unwrapper(lastTs, numWrap)
    }

    constructor ()
      ensures Abs() == FRESH
    {
      lastTs, numWrap := 0, -1;
    }

    method Unwrap(ts: u32) returns (r: int)
      modifies this
      ensures (r, Abs()) == Unwrapped(old(Abs()), ts)
    {
      if numWrap == -1 {
        lastTs := ts;
        numWrap := 0;
        return ts;
      }
      if ts < lastTs {
        if lastTs >= 0xF000_0000 && ts < 0x0FFF_FFFF {
          numWrap := numWrap + 1;
        }
      } else if ts - lastTs > 0xF000_0000 {
        return ts + (numWrap - 1) * WRAP;
      }
      lastTs := ts;
      r := ts + numWrap * WRAP;
    }
  }

  /** The number of whole wraps below a true timestamp. */
  function Epoch(t: int): int { t / WRAP }

  lemma SplitTime(t: int)
    ensures t == ToU32(t) + Epoch(t) * WRAP
  {
  }

  /** The handler stands at the true timestamp `ref`. */
  predicate StandsAt(s: Unwrapper, ref: int) { ref >= 0 && s.lastTs == ToU32(ref) && s.numWrap == Epoch(ref) }

  /** The steps for which a handler at `ref` returns the true timestamp `t`: forwards within an epoch by at
      most 0xF0000000, over the edge from its top sixteenth into its first; backwards within an epoch unless
      that would look like such a wrap, over the edge by less than 0x10000000. */
  predicate Follows(ref: int, t: int) {
    var edge := ToU32(ref) >= 0xF000_0000 && ToU32(t) < 0x0FFF_FFFF;
    if Epoch(t) == Epoch(ref) then t - ref <= 0xF000_0000 && (t < ref ==> !edge)
    else if Epoch(t) == Epoch(ref) + 1 then edge && ToU32(t) < ToU32(ref)
    else Epoch(t) == Epoch(ref) - 1 && ref - t < 0x1000_0000
  }

  /** One step returns the truth exactly for those. */
  lemma UnwrapExact(s: Unwrapper, ref: int, t: int)
    requires StandsAt(s, ref)
    ensures Unwrapped(s, ToU32(t)).0 == t <==> Follows(ref, t)
  {
    SplitTime(t);
    SplitTime(ref);
    var x, y, a, b := ToU32(t), ToU32(ref), Epoch(t), Epoch(ref);
    hide ToU32, Epoch;
  }

  /** And then it stands at the new timestamp, or stays where it was if that lies in the epoch before. */
  function NextRef(ref: int, t: int): int { if Epoch(t) < Epoch(ref) then ref else t }

  lemma UnwrapStands(s: Unwrapper, ref: int, t: int)
    requires StandsAt(s, ref) && Follows(ref, t)
    ensures StandsAt(Unwrapped(s, ToU32(t)).1, NextRef(ref, t))
  {
    SplitTime(t);
    SplitTime(ref);
  }

  /** Steps of less than 0x10000000 either way are always among them, wherever in its epoch the handler
      stands, and no wider window is. */
  lemma WindowFollows(ref: int, t: int)
    requires -0x1000_0000 < t - ref < 0x1000_0000
    ensures Follows(ref, t)
  {
    SplitTime(t);
    SplitTime(ref);
  }

  lemma WindowIsSharp()
    ensures !Follows(0xFFFF_FFFF, 0xFFFF_FFFF + 0x1000_0000)
    ensures !Follows(WRAP, WRAP - 0x1000_0000)
  {
  }

  /** The values returned for a run of true timestamps of which only the low bits arrive. */
  function UnwrapAll(s: Unwrapper, times: seq<int>): seq<int>
    decreases |times|
  {
    if times == [] then []
    else var r := Unwrapped(s, ToU32(times[0])); [r.0] + UnwrapAll(r.1, times[1..])
  }

  /** Each timestamp is within the window of the last accepted one. */
  predicate Close(ref: int, times: seq<int>)
    decreases |times|
  {
    times == []
    || (-0x1000_0000 < times[0] - ref < 0x1000_0000 && Close(NextRef(ref, times[0]), times[1..]))
  }

  lemma {:induction false} UnwrapFrom(s: Unwrapper, ref: int, times: seq<int>)
    requires StandsAt(s, ref) && Close(ref, times)
    ensures UnwrapAll(s, times) == times
    decreases |times|
  {
    if times != [] {
      WindowFollows(ref, times[0]);
      UnwrapExact(s, ref, times[0]);
      UnwrapStands(s, ref, times[0]);
      UnwrapFrom(Unwrapped(s, ToU32(times[0])).1, NextRef(ref, times[0]), times[1..]);
    }
  }

  /** On every run the handler returns the true timestamps. */
  lemma UnwrapRun(times: seq<int>)
    requires times != [] && 0 <= times[0] < WRAP && Close(times[0], times[1..])
    ensures UnwrapAll(FRESH, times) == times
  {
    UnwrapFrom(Unwrapper(times[0], 0), times[0], times[1..]);
  }

  // ---------- the calendar ----------

  /** A broken-down time as the C library has it: years from 1900, days of the month from 1. */
  datatype Tm = Tm(tmYear: int, tmMon: int, tmMday: int, tmHour: int, tmMin: int, tmSec: int)

  const MDAYS: seq<int> := [31, 28, 31, 30, 31, 30, 31, 31, 30, 31, 30, 31]
  const CUMUL_MDAYS: seq<int> := [0, 31, 59, 90, 120, 151, 181, 212, 243, 273, 304, 334]

  predicate LeapYear(year: int) { year % 4 == 0 && (year % 100 != 0 || year % 400 == 0) }

  function LeapDays(year: int): int { (year / 4 - 1970 / 4) - (year / 100 - 1970 / 100) + (year / 400 - 1970 / 400) }

  /** TmToSeconds. */
  function TmToSeconds(tm: Tm): int {
    var year, month, day := tm.tmYear + 1900, tm.tmMon, tm.tmMday - 1;
    if year < 1970 then -1
    else if month < 0 || month > 11 then -1
    else if day < 0 || day >= MDAYS[month] + (if LeapYear(year) && month == 1 then 1 else 0) then -1
    else if tm.tmHour < 0 || tm.tmHour > 23 then -1
    else if tm.tmMin < 0 || tm.tmMin > 59 then -1
    else if tm.tmSec < 0 || tm.tmSec > 59 then -1
    else
      var day1 := day + CUMUL_MDAYS[month] + LeapDays(year);
      var day2 := if LeapYear(year) && month <= 1 then day1 - 1 else day1;
      ((((year - 1970) * 365 + day2) * 24 + tm.tmHour) * 60 + tm.tmMin) * 60 + tm.tmSec
  }

  /** A date, with months and days counted from 0, and the day after it. */
  datatype Date = Date(year: int, month: int, day: int)

  function MonthLength(year: int, month: int): int
    requires 0 <= month < 12
  {
    if month == 1 then (if LeapYear(year) then 29 else 28)
    else if month in {3, 5, 8, 10} then 30 else 31
  }

  predicate ValidDate(d: Date) {
    d.year >= 1970 && 0 <= d.month < 12 && 0 <= d.day < MonthLength(d.year, d.month)
  }

  const FIRST_DAY := Date(1970, 0, 0)

  function Tomorrow(d: Date): (t: Date)
    requires ValidDate(d)
    ensures ValidDate(t)
  {
    if d.day + 1 < MonthLength(d.year, d.month) then d.(day := d.day + 1)
    else if d.month < 11 then Date(d.year, d.month + 1, 0)
    else Date(d.year + 1, 0, 0)
  }

  /** The `n`th day, counted one by one. */
  function DayByDay(n: nat): (d: Date)
    ensures ValidDate(d)
  {
    if n == 0 then FIRST_DAY else Tomorrow(DayByDay(n - 1))
  }

  predicate ValidTm(tm: Tm) {
    ValidDate(DateOf(tm)) && 0 <= tm.tmHour <= 23 && 0 <= tm.tmMin <= 59 && 0 <= tm.tmSec <= 59
  }

  function DateOf(tm: Tm): Date { Date(tm.tmYear + 1900, tm.tmMon, tm.tmMday - 1) }

  /** The day number that TmToSeconds computes. */
  function DayNumber(d: Date): int
    requires ValidDate(d)
  {
    var leapBefore := if LeapYear(d.year) && d.month <= 1 then LeapDays(d.year) - 1 else LeapDays(d.year);
    (d.year - 1970) * 365 + d.day + CUMUL_MDAYS[d.month] + leapBefore
  }

  lemma SecondsOfDay(tm: Tm)
    ensures ValidTm(tm) ==>
      TmToSeconds(tm) == DayNumber(DateOf(tm)) * 86400 + tm.tmHour * 3600 + tm.tmMin * 60 + tm.tmSec
    ensures !ValidTm(tm) ==> TmToSeconds(tm) == -1
  {
    hide LeapYear, LeapDays;
  }

  lemma LeapStep(year: int)
    requires year >= 1970
    ensures LeapDays(year + 1) == LeapDays(year) + (if LeapYear(year + 1) then 1 else 0)
  {
    Quotient(year, 4);
    Quotient(year, 100);
    Quotient(year, 400);
    assert (year + 1) % 400 == 0 ==> (year + 1) % 100 == 0;
    assert (year + 1) % 100 == 0 ==> (year + 1) % 4 == 0;
  }

  lemma Quotient(y: int, k: int)
    requires k > 0 && y >= 0
    ensures (y + 1) / k == y / k + (if (y + 1) % k == 0 then 1 else 0)
  {
    var q, r := y / k, y % k;
    assert y == k * q + r;
    if r == k - 1 {
      DivUnique(y + 1, k, q + 1, 0);
    } else {
      DivUnique(y + 1, k, q, r + 1);
    }
  }

  lemma NextDayNumber(d: Date)
    requires ValidDate(d)
    ensures DayNumber(Tomorrow(d)) == DayNumber(d) + 1
  {
    LeapStep(d.year);
    hide LeapYear, LeapDays;
  }

  /** The formula numbers the days as counting them does. */
  lemma {:induction false} DaysCounted(n: nat)
    ensures DayNumber(DayByDay(n)) == n
  {
    if n == 0 {
      assert LeapDays(1970) == 0;
    } else {
      DaysCounted(n - 1);
      NextDayNumber(DayByDay(n - 1));
    }
  }

  /** Every valid date is reached by counting. */
  lemma {:induction false} DateReached(d: Date)
    requires ValidDate(d)
    ensures DayNumber(d) >= 0 && DayByDay(DayNumber(d)) == d
    decreases d.year, d.month, d.day
  {
    if d == FIRST_DAY {
      assert LeapDays(1970) == 0;
    } else {
      var e := Yesterday(d);
      DateReached(e);
      NextDayNumber(e);
    }
  }

  function Yesterday(d: Date): (e: Date)
    requires ValidDate(d) && d != FIRST_DAY
    ensures ValidDate(e) && Tomorrow(e) == d
  {
    if d.day > 0 then d.(day := d.day - 1)
    else if d.month > 0 then Date(d.year, d.month - 1, MonthLength(d.year, d.month - 1) - 1)
    else Date(d.year - 1, 11, 30)
  }

  /** TmToSeconds gives the seconds of the days counted one by one from the first of January 1970, and -1
      exactly for what is not a time since then. */
  lemma SecondsCounted(tm: Tm)
    ensures TmToSeconds(tm) >= 0 <==> ValidTm(tm)
    ensures TmToSeconds(tm) < 0 ==> TmToSeconds(tm) == -1
    ensures ValidTm(tm) ==>
      var day := (TmToSeconds(tm) - tm.tmSec - tm.tmMin * 60 - tm.tmHour * 3600) / 86400;
      day >= 0 && DayByDay(day) == DateOf(tm)
      && TmToSeconds(tm) == day * 86400 + tm.tmHour * 3600 + tm.tmMin * 60 + tm.tmSec
  {
    hide DayByDay, DayNumber, TmToSeconds, ValidDate;
    SecondsOfDay(tm);
    if ValidTm(tm) {
      DateReached(DateOf(tm));
    }
  }

  /** Section 4.16 of the Base Definitions of POSIX.1-2017, Seconds Since the Epoch. */
  function PosixSeconds(tm: Tm, yday: int): int {
    tm.tmSec + tm.tmMin * 60 + tm.tmHour * 3600 + yday * 86400 + (tm.tmYear - 70) * 31536000
    + ((tm.tmYear - 69) / 4) * 86400 - ((tm.tmYear - 1) / 100) * 86400 + ((tm.tmYear + 299) / 400) * 86400
  }

  /** Days since the first of January, month by month. */
  function DayOfYear(d: Date): int
    requires ValidDate(d)
    decreases d.month
  {
    if d.month == 0 then d.day
    else d.day + MonthLength(d.year, d.month - 1) + DayOfYear(Date(d.year, d.month - 1, 0))
  }

  lemma DayOfYearIs(d: Date)
    requires ValidDate(d)
    ensures DayOfYear(d) == d.day + CUMUL_MDAYS[d.month] + (if LeapYear(d.year) && d.month > 1 then 1 else 0)
    decreases d.month
  {
    hide LeapYear;
    if d.month > 0 {
      DayOfYearIs(Date(d.year, d.month - 1, 0));
    }
  }

  lemma {:induction false} LeapDaysPosix(year: int)
    requires year >= 1970
    ensures LeapDays(year) - (if LeapYear(year) then 1 else 0)
         == (year - 1900 - 69) / 4 - (year - 1900 - 1) / 100 + (year - 1900 + 299) / 400
    decreases year
  {
    if year > 1970 {
      LeapDaysPosix(year - 1);
      LeapStep(year - 1);
      Quotient(year - 1 - 1969, 4);
      Quotient(year - 1 - 1901, 100);
      Quotient(year - 1 - 1601, 400);
      LeapAgain(year - 1);
    }
  }

  /** The POSIX terms count a leap year in the year after it. */
  lemma LeapAgain(year: int)
    requires year >= 1970
    ensures (if (year + 1 - 1969) % 4 == 0 then 1 else 0) - (if (year + 1 - 1901) % 100 == 0 then 1 else 0)
            + (if (year + 1 - 1601) % 400 == 0 then 1 else 0)
         == if LeapYear(year) then 1 else 0
  {
    assert (year + 1 - 1969) % 4 == year % 4;
    assert (year + 1 - 1901) % 100 == year % 100;
    assert (year + 1 - 1601) % 400 == year % 400;
    assert year % 400 == 0 ==> year % 100 == 0;
    assert year % 100 == 0 ==> year % 4 == 0;
  }

  lemma SecondsArePosix(tm: Tm)
    requires ValidTm(tm)
    ensures TmToSeconds(tm) == PosixSeconds(tm, DayOfYear(DateOf(tm)))
  {
    hide LeapYear, LeapDays, DayOfYear, TmToSeconds;
    SecondsOfDay(tm);
    DayOfYearIs(DateOf(tm));
    LeapDaysPosix(tm.tmYear + 1900);
  }

  // ---------- the order of times ----------

  predicate EarlierDate(d: Date, e: Date) {
    d.year < e.year || (d.year == e.year && (d.month < e.month || (d.month == e.month && d.day < e.day)))
  }

  function Clock(tm: Tm): int { tm.tmHour * 3600 + tm.tmMin * 60 + tm.tmSec }

  /** Year, month, day, hour, minute, second, in this order. */
  predicate Earlier(a: Tm, b: Tm) {
    var d, e := DateOf(a), DateOf(b);
    EarlierDate(d, e)
    || (d == e && (a.tmHour < b.tmHour
                   || (a.tmHour == b.tmHour && (a.tmMin < b.tmMin || (a.tmMin == b.tmMin && a.tmSec < b.tmSec)))))
  }

  lemma {:induction false} DaysOrdered(d: Date, e: Date)
    requires ValidDate(d) && ValidDate(e) && EarlierDate(d, e)
    ensures DayNumber(d) < DayNumber(e)
    decreases e.year, e.month, e.day
  {
    hide DayNumber, MonthLength;
    var y := Yesterday(e);
    NextDayNumber(y);
    if y != d {
      EarlierYesterday(d, e);
      DaysOrdered(d, y);
    }
  }

  lemma EarlierYesterday(d: Date, e: Date)
    requires ValidDate(d) && ValidDate(e) && EarlierDate(d, e) && Yesterday(e) != d
    ensures EarlierDate(d, Yesterday(e))
  {
    hide LeapYear;
  }

  lemma ClockRange(tm: Tm)
    requires ValidTm(tm)
    ensures 0 <= Clock(tm) < 86400
  {
  }

  /** Strictly increasing: earlier times have fewer seconds, and only they do. */
  lemma SecondsOrdered(a: Tm, b: Tm)
    requires ValidTm(a) && ValidTm(b)
    ensures Earlier(a, b) <==> TmToSeconds(a) < TmToSeconds(b)
  {
    hide DayNumber, TmToSeconds, ValidDate;
    SecondsOfDay(a);
    SecondsOfDay(b);
    ClockRange(a);
    ClockRange(b);
    var d, e := DateOf(a), DateOf(b);
    if EarlierDate(d, e) {
      DaysOrdered(d, e);
    } else if EarlierDate(e, d) {
      DaysOrdered(e, d);
    }
  }
}
