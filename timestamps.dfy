/**
 * A reading of the wall clock (`datetime.now()`), passed in as fields, and the
 * two renderings the handlers make of it: `strftime('%Y%m%d_%H%M%S')` in the
 * correlation id and `isoformat()` in the log entry.
 */
module Timestamps {
  import opened Text

  predicate IsLeapYear(year: int) {
    year % 4 == 0 && (year % 100 != 0 || year % 400 == 0)
  }

  function DaysInMonth(year: int, month: int): (days: int)
    requires 1 <= month <= 12
    ensures 28 <= days <= 31
  {
    if month == 2 then (if IsLeapYear(year) then 29 else 28)
    else if month == 4 || month == 6 || month == 9 || month == 11 then 30
    else 31
  }

  /** A naive local date and time, as `datetime` holds it. */
  datatype Clock = Clock(year: int, month: int, day: int,
                         hour: int, minute: int, second: int, microsecond: int)
  {
    /** The ranges `datetime` enforces; years before 1000 are outside the model. */
    predicate Valid() {
      && 1000 <= year <= 9999
      && 1 <= month <= 12
      && 1 <= day <= DaysInMonth(year, month)
      && 0 <= hour < 24
      && 0 <= minute < 60
      && 0 <= second < 60
      && 0 <= microsecond < 1000000
    }
  }

  /** Two readings that agree down to the second. */
  predicate SameSecond(a: Clock, b: Clock) {
    && a.year == b.year && a.month == b.month && a.day == b.day
    && a.hour == b.hour && a.minute == b.minute && a.second == b.second
  }

  /** `now.strftime('%Y%m%d_%H%M%S')`. */
  function Strftime(now: Clock): (r: string)
    requires now.Valid()
    ensures |r| == 15 && r[8] == '_'
  {
    Pad(now.year, 4) + Pad(now.month, 2) + Pad(now.day, 2) + "_"
      + Pad(now.hour, 2) + Pad(now.minute, 2) + Pad(now.second, 2)
  }

  /** Where each field of the `%Y%m%d_%H%M%S` layout sits. */
  lemma StampLayout(y: string, mo: string, d: string, h: string, mi: string, sec: string)
    requires |y| == 4 && |mo| == 2 && |d| == 2 && |h| == 2 && |mi| == 2 && |sec| == 2
    ensures var r := y + mo + d + "_" + h + mi + sec;
      && r[0..4] == y && r[4..6] == mo && r[6..8] == d
      && r[9..11] == h && r[11..13] == mi && r[13..15] == sec
  {
  }

  /** Eight digits of date, `_`, six digits of time, each field reading back as the clock's. */
  lemma StrftimeFields(now: Clock)
    requires now.Valid()
    ensures var r := Strftime(now);
      && DigitsAt(r, 0, 4, now.year) && DigitsAt(r, 4, 6, now.month) && DigitsAt(r, 6, 8, now.day)
      && DigitsAt(r, 9, 11, now.hour) && DigitsAt(r, 11, 13, now.minute) && DigitsAt(r, 13, 15, now.second)
  {
    StampLayout(Pad(now.year, 4), Pad(now.month, 2), Pad(now.day, 2),
                Pad(now.hour, 2), Pad(now.minute, 2), Pad(now.second, 2));
  }

  /** The stamp determines the reading to the second, and nothing finer. */
  lemma StrftimeSecondResolution(a: Clock, b: Clock)
    requires a.Valid() && b.Valid()
    ensures Strftime(a) == Strftime(b) <==> SameSecond(a, b)
  {
    StrftimeFields(a);
    StrftimeFields(b);
  }

  /** The `.ffffff` suffix `isoformat()` adds only for a non-zero microsecond. */
  function Fraction(microsecond: nat): (r: string)
    requires microsecond < 1000000
    ensures microsecond == 0 ==> r == []
    ensures microsecond != 0 ==> |r| == 7 && r[0] == '.'
  {
    if microsecond == 0 then [] else "." + Pad(microsecond, 6)
  }

  /** The `YYYY-MM-DDTHH:MM:SS` frame around already formatted fields. */
  function IsoText(y: string, mo: string, d: string, h: string, mi: string, sec: string, frac: string): string {
    y + "-" + mo + "-" + d + "T" + h + ":" + mi + ":" + sec + frac
  }

  /** `now.isoformat()`: `YYYY-MM-DDTHH:MM:SS`, then `.ffffff` only for a non-zero microsecond. */
  function IsoFormat(now: Clock): (r: string)
    requires now.Valid()
    ensures |r| == if now.microsecond == 0 then 19 else 26
  {
    IsoText(Pad(now.year, 4), Pad(now.month, 2), Pad(now.day, 2),
            Pad(now.hour, 2), Pad(now.minute, 2), Pad(now.second, 2), Fraction(now.microsecond))
  }

  /** Where each field of the ISO layout sits. */
  lemma IsoLayout(y: string, mo: string, d: string, h: string, mi: string, sec: string, frac: string)
    requires |y| == 4 && |mo| == 2 && |d| == 2 && |h| == 2 && |mi| == 2 && |sec| == 2
    ensures var r := IsoText(y, mo, d, h, mi, sec, frac);
      && r[0..4] == y && r[5..7] == mo && r[8..10] == d
      && r[11..13] == h && r[14..16] == mi && r[17..19] == sec && r[19..] == frac
      && r[4] == '-' && r[7] == '-' && r[10] == 'T' && r[13] == ':' && r[16] == ':'
  {
  }

  /** Each field of the ISO text reads back as the clock's. */
  lemma IsoFormatFields(now: Clock)
    requires now.Valid()
    ensures var r := IsoFormat(now);
      && r[4] == '-' && r[7] == '-' && r[10] == 'T' && r[13] == ':' && r[16] == ':'
      && DigitsAt(r, 0, 4, now.year) && DigitsAt(r, 5, 7, now.month) && DigitsAt(r, 8, 10, now.day)
      && DigitsAt(r, 11, 13, now.hour) && DigitsAt(r, 14, 16, now.minute) && DigitsAt(r, 17, 19, now.second)
  {
    var y, mo, d := Pad(now.year, 4), Pad(now.month, 2), Pad(now.day, 2);
    var h, mi, sec := Pad(now.hour, 2), Pad(now.minute, 2), Pad(now.second, 2);
    var r := IsoText(y, mo, d, h, mi, sec, Fraction(now.microsecond));
    IsoLayout(y, mo, d, h, mi, sec, Fraction(now.microsecond));
    DigitsFrom(r, 0, 4, y);
    DigitsFrom(r, 5, 7, mo);
    DigitsFrom(r, 8, 10, d);
    DigitsFrom(r, 11, 13, h);
    DigitsFrom(r, 14, 16, mi);
    DigitsFrom(r, 17, 19, sec);
  }

  /** Where the microseconds sit in the ISO layout. */
  lemma IsoFractionLayout(y: string, mo: string, d: string, h: string, mi: string, sec: string, micro: string)
    requires |y| == 4 && |mo| == 2 && |d| == 2 && |h| == 2 && |mi| == 2 && |sec| == 2 && |micro| == 6
    ensures IsoText(y, mo, d, h, mi, sec, "." + micro)[19] == '.'
    ensures IsoText(y, mo, d, h, mi, sec, "." + micro)[20..26] == micro
  {
    var front := y + "-" + mo + "-" + d + "T" + h + ":" + mi + ":" + sec;
    assert IsoText(y, mo, d, h, mi, sec, "." + micro) == front + ("." + micro);
  }

  /** The microseconds, when not zero, follow a `.` after the seconds and read back as the clock's. */
  lemma IsoFormatMicroseconds(now: Clock)
    requires now.Valid() && now.microsecond != 0
    ensures var r := IsoFormat(now);
      r[19] == '.' && DigitsAt(r, 20, 26, now.microsecond)
  {
    var y, mo, d := Pad(now.year, 4), Pad(now.month, 2), Pad(now.day, 2);
    var h, mi, sec := Pad(now.hour, 2), Pad(now.minute, 2), Pad(now.second, 2);
    var micro := Pad(now.microsecond, 6);
    assert IsoFormat(now) == IsoText(y, mo, d, h, mi, sec, "." + micro);
    IsoFractionLayout(y, mo, d, h, mi, sec, micro);
    DigitsFrom(IsoFormat(now), 20, 26, micro);
  }
}
