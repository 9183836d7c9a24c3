/**
 * Durations as Python's `timedelta` holds them, in whole microseconds:
 * the subtitle timestamp `HH:MM:SS,mmm` and the remaining-time estimate
 * shown while a job runs.
 */
module Timing {
  import opened Wrappers
  import opened Text
  import opened Arith

  const MicrosPerSecond: nat := 1_000_000
  const SecondsPerDay: nat := 86_400
  const MillisPerDay: nat := 86_400_000

  /** `timedelta.days`: whole days, rounded towards minus infinity. */
  function DaysOf(us: int): int {
    us / (SecondsPerDay * MicrosPerSecond)
  }

  /** `timedelta.seconds`: the seconds within the day, excluding whole days. */
  function SecondsOf(us: int): (r: nat)
    ensures r < SecondsPerDay
  {
    (us / MicrosPerSecond) % SecondsPerDay
  }

  /** `timedelta.microseconds`: the microseconds within the second. */
  function MicrosecondsOf(us: int): (r: nat)
    ensures r < MicrosPerSecond
  {
    us % MicrosPerSecond
  }

  /** The three normalised fields of a timedelta add back up to the duration. */
  lemma FieldsRecompose(us: int)
    ensures DaysOf(us) * SecondsPerDay * MicrosPerSecond + SecondsOf(us) * MicrosPerSecond + MicrosecondsOf(us) == us
  {
    var secs := us / MicrosPerSecond;
    assert us == secs * MicrosPerSecond + MicrosecondsOf(us);
    assert secs == (secs / SecondsPerDay) * SecondsPerDay + SecondsOf(us);
    assert DaysOf(us) == secs / SecondsPerDay by {
      DivDiv(us, MicrosPerSecond, SecondsPerDay);
    }
  }

  /**
   * The subtitle timestamp `HH:MM:SS,mmm`: hours, minutes and seconds of
   * `timedelta.seconds` (so hours wrap after a day) and the milliseconds of
   * `timedelta.microseconds`, truncated.
   */
  function Timestamp(us: int): (r: string)
    ensures |r| == 12 && r[2] == ':' && r[5] == ':' && r[8] == ','
  {
    var s := SecondsOf(us);
    Pad2(s / 3600) + ":" + Pad2(s / 60 % 60) + ":" + Pad2(s % 60) + "," + Pad3(MicrosecondsOf(us) / 1000)
  }

  /**
   * A well-formed `HH:MM:SS,mmm`: two-digit hours below 24, minutes and
   * seconds below 60, three-digit milliseconds, with `:`, `:` and `,` between.
   */
  predicate IsClockShape(t: string) {
    && |t| == 12 && t[2] == ':' && t[5] == ':' && t[8] == ','
    && AllDigits(t[0..2]) && AllDigits(t[3..5]) && AllDigits(t[6..8]) && AllDigits(t[9..12])
    && DigitsValue(t[0..2]) < 24 && DigitsValue(t[3..5]) < 60 && DigitsValue(t[6..8]) < 60
  }

  /** Reads a timestamp back as milliseconds since the start of its day. */
  function ReadTimestamp(t: string): int
    requires IsClockShape(t)
  {
    ((DigitsValue(t[0..2]) * 60 + DigitsValue(t[3..5])) * 60 + DigitsValue(t[6..8])) * 1000 + DigitsValue(t[9..12])
  }

  /** The milliseconds within the day that a timestamp denotes: microseconds truncated to milliseconds, modulo a day. */
  function MillisOfDay(us: int): nat {
    (us / 1000) % MillisPerDay
  }

  /**
   * Reading a rendered timestamp back gives the duration truncated to whole
   * milliseconds and reduced modulo one day.
   */
  lemma TimestampRoundTrip(us: int)
    ensures IsClockShape(Timestamp(us))
    ensures ReadTimestamp(Timestamp(us)) == MillisOfDay(us)
  {
    var s := SecondsOf(us);
    var ms := MicrosecondsOf(us) / 1000;
    var t := Timestamp(us);
    assert t[0..2] == Pad2(s / 3600);
    assert t[3..5] == Pad2(s / 60 % 60);
    assert t[6..8] == Pad2(s % 60);
    assert t[9..12] == Pad3(ms);
    assert ReadTimestamp(t) == s * 1000 + ms by {
      assert s / 60 / 60 == s / 3600 by { DivDiv(s, 60, 60); }
      assert (s / 3600 * 60 + s / 60 % 60) == s / 60;
      assert s / 60 * 60 + s % 60 == s;
    }
    // (us / 10^6 mod 86400) * 1000 + (us mod 10^6) / 1000 == (us / 1000) mod (86400 * 1000)
    var q := us / 1000;
    assert us / MicrosPerSecond == q / 1000 by { DivDiv(us, 1000, 1000); }
    assert MicrosecondsOf(us) / 1000 == q % 1000 by {
      assert us == q * 1000 + us % 1000;
      assert us == (q / 1000) * MicrosPerSecond + ((q % 1000) * 1000 + us % 1000);
      DivUnique(us, MicrosPerSecond, q / 1000, (q % 1000) * 1000 + us % 1000);
      DivUnique(MicrosecondsOf(us), 1000, q % 1000, us % 1000);
    }
    var k := q / 1000;
    assert q == k * 1000 + q % 1000;
    assert q == (k / SecondsPerDay) * MillisPerDay + ((k % SecondsPerDay) * 1000 + q % 1000);
    DivUnique(q, MillisPerDay, k / SecondsPerDay, (k % SecondsPerDay) * 1000 + q % 1000);
  }

  /** The four fields of a well-formed timestamp can be recovered from the milliseconds it reads back to. */
  lemma ReadTimestampFields(t: string)
    requires IsClockShape(t)
    ensures ReadTimestamp(t) % 1000 == DigitsValue(t[9..12])
    ensures ReadTimestamp(t) / 1000 % 60 == DigitsValue(t[6..8])
    ensures ReadTimestamp(t) / 1000 / 60 % 60 == DigitsValue(t[3..5])
    ensures ReadTimestamp(t) / 1000 / 60 / 60 == DigitsValue(t[0..2])
  {
    var a := (DigitsValue(t[0..2]) * 60 + DigitsValue(t[3..5])) * 60 + DigitsValue(t[6..8]);
    DigitsValueBelow(t[9..12]);
    assert Pow10(3) == 1000;
    DivUnique(ReadTimestamp(t), 1000, a, DigitsValue(t[9..12]));
    DivUnique(a, 60, DigitsValue(t[0..2]) * 60 + DigitsValue(t[3..5]), DigitsValue(t[6..8]));
    DivUnique(a / 60, 60, DigitsValue(t[0..2]), DigitsValue(t[3..5]));
  }

  /** Two well-formed timestamps that read back to the same milliseconds are the same text. */
  lemma ReadTimestampInjective(t1: string, t2: string)
    requires IsClockShape(t1) && IsClockShape(t2)
    requires ReadTimestamp(t1) == ReadTimestamp(t2)
    ensures t1 == t2
  {
    ReadTimestampFields(t1);
    ReadTimestampFields(t2);
    DigitsValueInjective(t1[0..2], t2[0..2]);
    DigitsValueInjective(t1[3..5], t2[3..5]);
    DigitsValueInjective(t1[6..8], t2[6..8]);
    DigitsValueInjective(t1[9..12], t2[9..12]);
    assert t1 == t1[0..2] + [':'] + t1[3..5] + [':'] + t1[6..8] + [','] + t1[9..12];
    assert t2 == t2[0..2] + [':'] + t2[3..5] + [':'] + t2[6..8] + [','] + t2[9..12];
  }

  /** Timestamps wrap after 24 hours: a day more renders the same. */
  lemma TimestampWrapsDaily(us: int)
    ensures Timestamp(us + SecondsPerDay * MicrosPerSecond) == Timestamp(us)
  {
    var d := us + SecondsPerDay * MicrosPerSecond;
    assert d == (us / MicrosPerSecond + SecondsPerDay) * MicrosPerSecond + us % MicrosPerSecond;
    DivUnique(d, MicrosPerSecond, us / MicrosPerSecond + SecondsPerDay, us % MicrosPerSecond);
    var k := us / MicrosPerSecond;
    assert k + SecondsPerDay == (k / SecondsPerDay + 1) * SecondsPerDay + k % SecondsPerDay;
    DivUnique(k + SecondsPerDay, SecondsPerDay, k / SecondsPerDay + 1, k % SecondsPerDay);
  }

  /** The remaining-time estimate: not yet computable, or a duration in microseconds. */
  datatype Estimate = StillComputing | Remaining(micros: int)

  /**
   * `estimate_remaining_time`: with a start time and positive progress `p`,
   * the total is the elapsed time scaled by 100 / p and the remainder is the
   * total minus the elapsed time; otherwise the estimate is still being
   * computed. The total is floored to whole microseconds.
   */
  function EstimateRemaining(start: Option<int>, now: int, progress: int): (r: Estimate)
    ensures r.StillComputing? <==> start.None? || progress <= 0
    ensures r.Remaining? ==>
              var elapsed := now - start.value;
              var total := r.micros + elapsed;
              total * progress <= elapsed * 100 < (total + 1) * progress
  {
    if start.Some? && progress > 0 then
      var elapsed := now - start.value;
      var total := elapsed * 100 / progress;
      assert total * progress <= elapsed * 100 < (total + 1) * progress by {
        assert elapsed * 100 == total * progress + (elapsed * 100) % progress;
      }
      Remaining(total - elapsed)
    else
      StillComputing
  }

  /**
   * For a non-negative elapsed time and progress in 1..100 the remainder is
   * never negative, is zero at 100 and equals the elapsed time at 50.
   */
  lemma EstimateBounds(start: int, now: int, progress: int)
    requires now >= start && 0 < progress <= 100
    ensures var r := EstimateRemaining(Some(start), now, progress);
            r.Remaining? && r.micros >= 0
            && (progress == 100 ==> r.micros == 0)
            && (progress == 50 ==> r.micros == now - start)
  {
    var elapsed := now - start;
    var r := EstimateRemaining(Some(start), now, progress);
    var total := r.micros + elapsed;
    assert total * progress <= elapsed * 100 < (total + 1) * progress;
    if total < elapsed {
      MulMono(total + 1, elapsed, progress);
      MulMono(progress, 100, elapsed);
    }
    if progress == 100 {
      assert total * 100 <= elapsed * 100 < (total + 1) * 100;
    }
    if progress == 50 {
      assert total * 50 <= elapsed * 100 < (total + 1) * 50;
    }
  }

  /** More progress never makes the remainder larger. */
  lemma EstimateShrinks(start: int, now: int, p1: int, p2: int)
    requires now >= start && 0 < p1 <= p2
    ensures EstimateRemaining(Some(start), now, p1).micros >= EstimateRemaining(Some(start), now, p2).micros
  {
    var a := (now - start) * 100;
    var t1 := a / p1;
    var t2 := a / p2;
    assert t2 * p2 <= a && a < (t1 + 1) * p1 by {
      assert a == t2 * p2 + a % p2;
      assert a == t1 * p1 + a % p1;
    }
    if t2 > t1 {
      MulMono(t1 + 1, t2, p1);
      assert t2 >= 0;
      MulMono(p1, p2, t2);
    }
  }

  /** `H:MM:SS`: hours of any width, then two-digit minutes and seconds. */
  predicate IsClockText(c: string) {
    && |c| >= 7 && c[|c| - 6] == ':' && c[|c| - 3] == ':'
    && AllDigits(c[..|c| - 6]) && AllDigits(c[|c| - 5..|c| - 3]) && AllDigits(c[|c| - 2..])
  }

  /** The number of seconds an `H:MM:SS` text denotes. */
  function ReadClock(c: string): nat
    requires IsClockText(c)
  {
    DigitsValue(c[..|c| - 6]) * 3600 + DigitsValue(c[|c| - 5..|c| - 3]) * 60 + DigitsValue(c[|c| - 2..])
  }

  /** The `H:MM:SS` part of `str(timedelta)` for the seconds within a day. */
  function ClockText(s: nat): (r: string)
    requires s < SecondsPerDay
    ensures 7 <= |r| <= 8 && IsClockText(r)
    ensures |r| == 7 <==> s < 36000
  {
    NatToString(s / 3600) + ":" + Pad2(s / 60 % 60) + ":" + Pad2(s % 60)
  }

  /** The clock text reads back to the seconds it was made from. */
  lemma ClockTextReadsBack(s: nat)
    requires s < SecondsPerDay
    ensures ReadClock(ClockText(s)) == s
  {
    var c := ClockText(s);
    var h := NatToString(s / 3600);
    assert c[..|c| - 6] == h;
    assert c[|c| - 5..|c| - 3] == Pad2(s / 60 % 60);
    assert c[|c| - 2..] == Pad2(s % 60);
    NatToStringRoundTrip(s / 3600);
    assert s / 60 / 60 == s / 3600 by { DivDiv(s, 60, 60); }
    assert s / 3600 * 60 + s / 60 % 60 == s / 60;
    assert s / 60 * 60 + s % 60 == s;
  }

  /**
   * `str(timedelta).split('.')[0]`: the clock text of `timedelta.seconds`,
   * preceded by `D day, ` or `D days, ` exactly when the days field is not zero.
   */
  function DurationText(us: int): (r: string)
    ensures EndsWith(r, ClockText(SecondsOf(us)))
    ensures DaysOf(us) == 0 <==> r == ClockText(SecondsOf(us))
    ensures DaysOf(us) != 0 ==> IntToString(DaysOf(us)) + " day" <= r
  {
    var clock := ClockText(SecondsOf(us));
    var days := DaysOf(us);
    if days == 0 then clock
    else
      var head := IntToString(days) + " " + DayWord(days);
      assert (head + " " + clock)[..|IntToString(days) + " day"|] == IntToString(days) + " day";
      assert (head + " " + clock)[|head| + 1..] == clock;
      head + " " + clock
  }

  /** "day," for a count of 1 or -1, "days," otherwise, as `timedelta` spells it. */
  function DayWord(days: int): string
  {
    if days == 1 || days == -1 then "day," else "days,"
  }

  /**
   * Below one day the text is just the clock, and it reads back to the
   * whole seconds of the duration.
   */
  lemma DurationTextWithinDay(us: int)
    requires 0 <= us < SecondsPerDay * MicrosPerSecond
    ensures DurationText(us) == ClockText(SecondsOf(us))
    ensures IsClockText(DurationText(us)) && ReadClock(DurationText(us)) == us / MicrosPerSecond
  {
    assert DaysOf(us) == 0;
    assert us / MicrosPerSecond < SecondsPerDay;
    assert SecondsOf(us) == us / MicrosPerSecond;
    var clock := ClockText(SecondsOf(us));
    assert DurationText(us) == clock;
    ClockTextReadsBack(SecondsOf(us));
  }

  /**
   * From one day on, the text reads back as the days count, the word "day,"
   * or, unless the count is 1 or -1, "days,", and the clock text of the
   * seconds, separated by single spaces.
   */
  lemma DurationTextWithDays(us: int) returns (days: string, unit: string, clock: string)
    requires DaysOf(us) != 0
    ensures DurationText(us) == days + " " + unit + " " + clock
    ensures ' ' !in days && |days| >= 1 && (days[0] == '-' ==> AllDigits(days[1..])) && (days[0] != '-' ==> AllDigits(days))
    ensures ReadInt(days) == DaysOf(us)
    ensures unit == "day," <==> DaysOf(us) == 1 || DaysOf(us) == -1
    ensures unit == "day," || unit == "days,"
    ensures IsClockText(clock) && ReadClock(clock) == SecondsOf(us)
  {
    days := IntToString(DaysOf(us));
    unit := DayWord(DaysOf(us));
    clock := ClockText(SecondsOf(us));
    IntToStringRoundTrip(DaysOf(us));
    ClockTextReadsBack(SecondsOf(us));
  }

  /** The text shown in the remaining-time label: a placeholder until an estimate exists, then its duration text. */
  function EstimateText(e: Estimate): (r: string)
    ensures r == "Wird berechnet..." <==> e.StillComputing?
    ensures e.Remaining? ==> r == DurationText(e.micros)
  {
    match e
    case StillComputing => "Wird berechnet..."
    case Remaining(us) =>
      var r := DurationText(us);
      assert EndsWith(r, ClockText(SecondsOf(us)));
      assert r[|r| - 3] == ':';
      r
  }
}
