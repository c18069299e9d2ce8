/** src/utils/dateValidators.ts: "today or earlier" and "today or later" checks on the
    values of `<input type="date">` fields. Days are numbered consecutively, day 0
    being 1970-01-01; `today` is the current local calendar day, passed in. */
module DateValidators {
  import opened Js

  predicate IsLeapYear(y: int) {
    (y % 4 == 0 && y % 100 != 0) || y % 400 == 0
  }

  function DaysInMonth(y: int, m: int): int
    requires 1 <= m <= 12
  {
    if m == 2 then (if IsLeapYear(y) then 29 else 28)
    else if m == 4 || m == 6 || m == 9 || m == 11 then 30
    else 31
  }

  /** A month and day that exist in year `y`. */
  predicate ValidDate(y: int, m: int, d: int) {
    1 <= m <= 12 && 1 <= d <= DaysInMonth(y, m)
  }

  /** Day number of a proleptic Gregorian date (the days-from-civil computation). */
  function DaysFromCivil(y: int, m: int, d: int): int
    requires 1 <= m <= 12
  {
    var y' := if m <= 2 then y - 1 else y;
    var era := y' / 400;
    var yoe := y' - era * 400;
    var mp := if m > 2 then m - 3 else m + 9;
    var doy := (153 * mp + 2) / 5 + d - 1;
    var doe := yoe * 365 + yoe / 4 - yoe / 100 + doy;
    era * 146097 + doe - 719468
  }

  /** The calendar day after a valid date. */
  function NextDate(y: int, m: int, d: int): (int, int, int)
    requires ValidDate(y, m, d)
  {
    if d < DaysInMonth(y, m) then (y, m, d + 1)
    else if m < 12 then (y, m + 1, 1)
    else (y + 1, 1, 1)
  }

  /** The day number of a March-based year `yp` (March 1 of `yp`), before the shift
      to 1970. */
  function YearStart(yp: int): int {
    var era := yp / 400;
    var yoe := yp - era * 400;
    era * 146097 + yoe * 365 + yoe / 4 - yoe / 100
  }

  /** Leap years repeat every 400 years. */
  lemma LeapPeriodic(era: int, yoe: int)
    ensures IsLeapYear(era * 400 + yoe) == IsLeapYear(yoe)
  {
    EraShift4(era, yoe);
    EraShift100(era, yoe);
    EraShift400(era, yoe);
  }

  lemma EraShift4(era: int, yoe: int)
    ensures (era * 400 + yoe) % 4 == yoe % 4
  {
    assert era * 400 + yoe == 4 * (era * 100 + yoe / 4) + yoe % 4;
  }

  lemma EraShift100(era: int, yoe: int)
    ensures (era * 400 + yoe) % 100 == yoe % 100
  {
    assert era * 400 + yoe == 100 * (era * 4 + yoe / 100) + yoe % 100;
  }

  lemma EraShift400(era: int, yoe: int)
    ensures (era * 400 + yoe) % 400 == yoe % 400
  {
    assert era * 400 + yoe == 400 * (era + yoe / 400) + yoe % 400;
  }

  /** Inside a 400-year era a March-based year has 365 days, plus one when its
      February falls in a leap year. */
  lemma YearLengthInEra(yoe: int)
    requires 1 <= yoe < 400
    ensures yoe * 365 + yoe / 4 - yoe / 100 - ((yoe - 1) * 365 + (yoe - 1) / 4 - (yoe - 1) / 100)
            == if IsLeapYear(yoe) then 366 else 365
  {
  }

  /** The March-based year from March 1 of `y - 1` to March 1 of `y` contains
      February of `y`, so it has 366 days exactly when `y` is a leap year. */
  lemma YearLength(y: int)
    ensures YearStart(y) - YearStart(y - 1) == if IsLeapYear(y) then 366 else 365
  {
    var era := y / 400;
    var yoe := y - era * 400;
    assert y == era * 400 + yoe;
    LeapPeriodic(era, yoe);
    if yoe == 0 {
      assert (y - 1) / 400 == era - 1;
      assert YearStart(y - 1) == (era - 1) * 146097 + 399 * 365 + 99 - 3;
    } else {
      assert (y - 1) / 400 == era;
      YearLengthInEra(yoe);
    }
  }

  /** Moving to the next day inside the same March-based year adds one. */
  lemma MonthStep(y: int, m: int)
    requires 1 <= m < 12 && m != 2
    ensures DaysFromCivil(y, m + 1, 1) == DaysFromCivil(y, m, DaysInMonth(y, m)) + 1
  {
  }

  /** The day after the last of February is March 1. */
  lemma FebruaryStep(y: int)
    ensures DaysFromCivil(y, 3, 1) == DaysFromCivil(y, 2, DaysInMonth(y, 2)) + 1
  {
    YearLength(y);
    assert DaysFromCivil(y, 3, 1) == YearStart(y) - 719468;
    assert DaysFromCivil(y, 2, DaysInMonth(y, 2)) == YearStart(y - 1) + 337 + DaysInMonth(y, 2) - 1 - 719468;
  }

  /** Day numbers count days: the next calendar day is always one more, so the
      numbering keeps the calendar order. */
  lemma NextDateSpec(y: int, m: int, d: int)
    requires ValidDate(y, m, d)
    ensures var n := NextDate(y, m, d);
            ValidDate(n.0, n.1, n.2) && DaysFromCivil(n.0, n.1, n.2) == DaysFromCivil(y, m, d) + 1
  {
    if d == DaysInMonth(y, m) {
      if m == 2 {
        FebruaryStep(y);
      } else if m < 12 {
        MonthStep(y, m);
      }
    }
  }

  /** `n` written with exactly `width` digits, padded with leading zeros. */
  function Fixed(n: nat, width: nat): (s: string)
    ensures |s| == width && AllDigits(s)
  {
    if width == 0 then [] else Fixed(n / 10, width - 1) + [('0' as int + n % 10) as char]
  }

  /** A number below 10^width reads back from its padded rendering. */
  lemma {:induction false} FixedRoundTrip(n: nat, width: nat)
    requires n < Pow10(width)
    ensures DecimalValue(Fixed(n, width)) == n
  {
    if width > 0 {
      FixedRoundTrip(n / 10, width - 1);
      var s := Fixed(n, width);
      assert s[..|s| - 1] == Fixed(n / 10, width - 1);
    }
  }

  /** A run of digits is the padded rendering of its own value. */
  lemma {:induction false} FixedOfDigits(t: string)
    requires AllDigits(t)
    ensures Fixed(DecimalValue(t), |t|) == t
  {
    if t != [] {
      var p := t[..|t| - 1];
      FixedOfDigits(p);
      assert t == p + [t[|t| - 1]];
    }
  }

  /** The value an `<input type="date">` holds for a date: "YYYY-MM-DD". */
  function IsoDate(y: nat, m: nat, d: nat): string {
    Fixed(y, 4) + "-" + Fixed(m, 2) + "-" + Fixed(d, 2)
  }

  /** A string shaped "DDDD-DD-DD" is the rendering of the numbers its digit runs spell. */
  lemma IsoDateOfParts(s: string)
    requires |s| == 10 && s[4] == '-' && s[7] == '-'
    requires AllDigits(s[..4]) && AllDigits(s[5..7]) && AllDigits(s[8..])
    ensures s == IsoDate(DecimalValue(s[..4]), DecimalValue(s[5..7]), DecimalValue(s[8..]))
  {
    FixedOfDigits(s[..4]);
    FixedOfDigits(s[5..7]);
    FixedOfDigits(s[8..]);
    assert s == s[..4] + "-" + s[5..7] + "-" + s[8..];
  }

  /** The day a "YYYY-MM-DD" string names, or None when the string is not such a date
      (JS's `Invalid Date`). Only the rendering of a valid date parses, and it parses
      to that date's day number. */
  function ParseIsoDate(s: string): (r: Option<int>)
    ensures r.Some? ==> |s| == 10 && AllDigits(s[..4]) && AllDigits(s[5..7]) && AllDigits(s[8..])
    ensures r.Some? ==> var y, m, d := DecimalValue(s[..4]), DecimalValue(s[5..7]), DecimalValue(s[8..]);
                        ValidDate(y, m, d) && s == IsoDate(y, m, d) && r.value == DaysFromCivil(y, m, d)
  {
    if |s| == 10 && s[4] == '-' && s[7] == '-'
       && AllDigits(s[..4]) && AllDigits(s[5..7]) && AllDigits(s[8..])
    then
      var y, m, d := DecimalValue(s[..4]), DecimalValue(s[5..7]), DecimalValue(s[8..]);
      IsoDateOfParts(s);
      if ValidDate(y, m, d) then Some(DaysFromCivil(y, m, d)) else None
    else None
  }

  /** Every valid date of a four-digit year, as the date input writes it, parses to
      its own day number. */
  lemma IsoDateParses(y: nat, m: nat, d: nat)
    requires y < 10000 && ValidDate(y, m, d)
    ensures ParseIsoDate(IsoDate(y, m, d)) == Some(DaysFromCivil(y, m, d))
  {
    var a, b, c := Fixed(y, 4), Fixed(m, 2), Fixed(d, 2);
    var s := IsoDate(y, m, d);
    assert s[..4] == a && s[4] == '-' && s[5..7] == b && s[7] == '-' && s[8..] == c;
    assert Pow10(4) == 10000 && Pow10(2) == 100;
    FixedRoundTrip(y, 4);
    FixedRoundTrip(m, 2);
    FixedRoundTrip(d, 2);
    assert DecimalValue(s[..4]) == y && DecimalValue(s[5..7]) == m && DecimalValue(s[8..]) == d;
  }

  /** The local calendar day that `new Date(s)` followed by `setHours(0, 0, 0, 0)`
      lands on: a date-only string is read as midnight UTC, then truncated to
      midnight in the local zone, `offsetMinutes` ahead of UTC. */
  function LocalDayAsParsed(s: string, offsetMinutes: int): Option<int> {
    match ParseIsoDate(s)
    case None => None
    case Some(day) => Some((day * 1440 + offsetMinutes) / 1440)
  }

  /** What `new Date()` tells the checks: the current local calendar day, and how
      many minutes the local zone is ahead of UTC. */
  datatype Clock = Clock(today: int, offsetMinutes: int)

  /** `isPastOrToday` as written: the instant comparison after local truncation. */
  predicate IsPastOrTodayAsWritten(s: string, today: int, offsetMinutes: int) {
    s != "" && match LocalDayAsParsed(s, offsetMinutes)
               case None => false
               case Some(d) => d <= today
  }

  /** `isFutureOrToday` as written. */
  predicate IsFutureOrTodayAsWritten(s: string, today: int, offsetMinutes: int) {
    s != "" && match LocalDayAsParsed(s, offsetMinutes)
               case None => false
               case Some(d) => d >= today
  }

  /** West of UTC the truncation lands on the day before the one written, so a date
      naming today is judged to be in the past and not "today or later". */
  lemma TodayRejectedWestOfUtc(s: string, today: int, offsetMinutes: int)
    requires ParseIsoDate(s) == Some(today)
    requires -1440 < offsetMinutes < 0
    ensures LocalDayAsParsed(s, offsetMinutes) == Some(today - 1)
    ensures !IsFutureOrTodayAsWritten(s, today, offsetMinutes)
    ensures IsPastOrTodayAsWritten(s, today + 1, offsetMinutes)
  {
    assert (today * 1440 + offsetMinutes) / 1440 == today - 1 by {
      assert (today - 1) * 1440 <= today * 1440 + offsetMinutes < today * 1440;
    }
  }

  /** A concrete instance: "2026-10-15" entered on 2026-10-15 in a UTC-4 zone. */
  lemma InsuranceExpiringTodayRejected()
    ensures ParseIsoDate("2026-10-15") == Some(DaysFromCivil(2026, 10, 15))
    ensures !IsFutureOrTodayAsWritten("2026-10-15", DaysFromCivil(2026, 10, 15), -240)
  {
    var s := "2026-10-15";
    assert s[..4] == "2026" && s[5..7] == "10" && s[8..] == "15";
    assert DecimalValue("2026") == 2026 by {
      assert "2026"[..3] == "202" && "202"[..2] == "20" && "20"[..1] == "2" && "2"[..0] == "";
    }
    assert DecimalValue("10") == 10 by { assert "10"[..1] == "1" && "1"[..0] == ""; }
    assert DecimalValue("15") == 15 by { assert "15"[..1] == "1" && "1"[..0] == ""; }
    TodayRejectedWestOfUtc(s, DaysFromCivil(2026, 10, 15), -240);
  }

  /** At UTC or east of it the truncation keeps the written day. */
  lemma AsWrittenKeepsDayEastOfUtc(s: string, offsetMinutes: int)
    requires 0 <= offsetMinutes < 1440
    ensures LocalDayAsParsed(s, offsetMinutes) == ParseIsoDate(s)
  {
  }

  /** The calendar day the field names, read in the local zone as the user typed it. */
  function CalendarDay(s: string): Option<int> {
    ParseIsoDate(s)
  }

  /** `isPastOrToday` as intended: the calendar day written is today or earlier. An
      empty or unparseable value fails. */
  predicate IsPastOrToday(s: string, today: int) {
    s != "" && CalendarDay(s).Some? && CalendarDay(s).value <= today
  }

  /** `isFutureOrToday` as intended: the calendar day written is today or later. */
  predicate IsFutureOrToday(s: string, today: int) {
    s != "" && CalendarDay(s).Some? && CalendarDay(s).value >= today
  }

  /** Every valid date satisfies at least one of the two checks, both exactly on
      today, and the empty string satisfies neither. */
  lemma DatePredicatesCover(s: string, today: int)
    ensures !IsPastOrToday("", today) && !IsFutureOrToday("", today)
    ensures CalendarDay(s).Some? ==> IsPastOrToday(s, today) || IsFutureOrToday(s, today)
    ensures IsPastOrToday(s, today) && IsFutureOrToday(s, today) <==> CalendarDay(s) == Some(today)
  {
    if CalendarDay(s).Some? {
      assert s != "";
    }
  }

  /** The intended checks agree with the written ones for every zone at or east of
      UTC. */
  lemma IntendedMatchesAsWrittenEastOfUtc(s: string, today: int, offsetMinutes: int)
    requires 0 <= offsetMinutes < 1440
    ensures IsPastOrToday(s, today) == IsPastOrTodayAsWritten(s, today, offsetMinutes)
    ensures IsFutureOrToday(s, today) == IsFutureOrTodayAsWritten(s, today, offsetMinutes)
  {
    AsWrittenKeepsDayEastOfUtc(s, offsetMinutes);
  }
}
