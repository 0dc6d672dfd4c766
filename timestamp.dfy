/**
 * `format_timestamp` of the Python worker `transcribe_video.py`: a
 * millisecond count split into hours, minutes, seconds and milliseconds and
 * written as `[HH:]MM:SS,mmm`, with the reading of such a timestamp back.
 *
 * Timestamps are taken in whole milliseconds: the float-to-millisecond
 * rounding that precedes the arithmetic in the worker is not part of this model.
 */
module Timestamp {
  import opened Decimal
  import opened Text

  const MsPerHour: nat := 3_600_000
  const MsPerMinute: nat := 60_000
  const MsPerSecond: nat := 1_000

  /** A timestamp split into its four fields. */
  datatype Clock = Clock(hours: nat, minutes: nat, seconds: nat, millis: nat)

  /** The millisecond count a clock stands for. */
  function ClockValue(c: Clock): nat
  {
    c.hours * MsPerHour + c.minutes * MsPerMinute + c.seconds * MsPerSecond + c.millis
  }

  /**
   * Splits a millisecond count by successive integer division and remainder
   * (on non-negative operands Python's `//` and `%` agree with Dafny's).
   */
  function Decompose(totalMs: nat): (c: Clock)
    ensures c.minutes < 60 && c.seconds < 60 && c.millis < 1000
    ensures ClockValue(c) == totalMs
  {
    var hours := totalMs / MsPerHour;
    var afterHours := totalMs % MsPerHour;
    var minutes := afterHours / MsPerMinute;
    var afterMinutes := afterHours % MsPerMinute;
    Clock(hours, minutes, afterMinutes / MsPerSecond, afterMinutes % MsPerSecond)
  }

  lemma MulStep(a: nat, d: nat)
    ensures (a + 1) * d == a * d + d
  {
  }

  lemma MulMonotone(a: nat, b: nat, d: nat)
    requires a <= b
    ensures a * d <= b * d
  {
  }

  lemma DivModUnique(n: nat, d: nat, q: nat, r: nat)
    requires 0 <= r < d && n == q * d + r
    ensures n / d == q && n % d == r
  {
    var q', r' := n / d, n % d;
    assert n == q' * d + r';
    if q' < q {
      MulMonotone(q' + 1, q, d);
      MulStep(q', d);
    } else if q < q' {
      MulMonotone(q + 1, q', d);
      MulStep(q, d);
    }
  }

  /** The field bounds pin the split down: any bounded split of the total is the one `Decompose` gives. */
  lemma DecomposeUnique(totalMs: nat, c: Clock)
    requires c.minutes < 60 && c.seconds < 60 && c.millis < 1000
    requires ClockValue(c) == totalMs
    ensures Decompose(totalMs) == c
  {
    var belowHour := c.minutes * MsPerMinute + c.seconds * MsPerSecond + c.millis;
    DivModUnique(totalMs, MsPerHour, c.hours, belowHour);
    var belowMinute := c.seconds * MsPerSecond + c.millis;
    DivModUnique(belowHour, MsPerMinute, c.minutes, belowMinute);
    DivModUnique(belowMinute, MsPerSecond, c.seconds, c.millis);
  }

  /** The text of clock `c`: `[HH:]MM:SS<marker>mmm`, with the hours field only when `withHours`. */
  function ClockText(c: Clock, withHours: bool, decimalMarker: string): string
  {
    var tail := PadNat(c.minutes, 2) + ":" + PadNat(c.seconds, 2) + decimalMarker + PadNat(c.millis, 3);
    if withHours then PadNat(c.hours, 2) + ":" + tail else tail
  }

  /** `format_timestamp`: the hours field is written only when asked for or non-zero. */
  function FormatTimestamp(totalMs: nat, alwaysIncludeHours: bool := false, decimalMarker: string := ","): string
  {
    var c := Decompose(totalMs);
    ClockText(c, alwaysIncludeHours || c.hours > 0, decimalMarker)
  }

  /** What precedes the minutes field when hours are shown: two or more digits and a colon. */
  predicate HoursPrefix(head: string) {
    |head| >= 3 && head[|head| - 1] == ':' && AllDigits(head[..|head| - 1])
  }

  /**
   * Reads the `MM:SS<marker>mmm` part of a timestamp: 2 minute digits, a
   * colon, 2 second digits, the marker and 3 millisecond digits.
   */
  function ParseMinutes(tail: string, decimalMarker: string): Option<Clock>
    requires |tail| == 8 + |decimalMarker|
  {
    var k := |decimalMarker|;
    var minutes, seconds, millis := tail[..2], tail[3..5], tail[5 + k..];
    if AllDigits(minutes) && tail[2] == ':' && AllDigits(seconds)
       && tail[5..5 + k] == decimalMarker && AllDigits(millis)
    then Some(Clock(0, ValueOf(minutes), ValueOf(seconds), ValueOf(millis)))
    else None
  }

  /**
   * Reads the fields of a timestamp in the layout `ClockText` writes: the
   * last `8 + |decimalMarker|` characters as `MM:SS<marker>mmm`, preceded by
   * nothing or by an hours field and a colon.
   */
  function ParseClock(s: string, decimalMarker: string): Option<Clock>
  {
    var k := |decimalMarker|;
    if |s| < 8 + k then None
    else
      var t := |s| - (8 + k);
      var head := s[..t];
      match ParseMinutes(s[t..], decimalMarker)
      case None => None
      case Some(c) =>
        if head == [] then Some(c)
        else if HoursPrefix(head) then Some(c.(hours := ValueOf(head[..t - 1])))
        else None
  }

  /** Reads a timestamp back into its millisecond count. */
  function ParseTimestamp(s: string, decimalMarker: string): Option<nat>
  {
    match ParseClock(s, decimalMarker)
    case None => None
    case Some(c) => Some(ClockValue(c))
  }

  lemma PadFields(c: Clock)
    requires c.minutes < 60 && c.seconds < 60 && c.millis < 1000
    ensures |PadNat(c.minutes, 2)| == 2 && AllDigits(PadNat(c.minutes, 2)) && ValueOf(PadNat(c.minutes, 2)) == c.minutes
    ensures |PadNat(c.seconds, 2)| == 2 && AllDigits(PadNat(c.seconds, 2)) && ValueOf(PadNat(c.seconds, 2)) == c.seconds
    ensures |PadNat(c.millis, 3)| == 3 && AllDigits(PadNat(c.millis, 3)) && ValueOf(PadNat(c.millis, 3)) == c.millis
    ensures |PadNat(c.hours, 2)| >= 2 && AllDigits(PadNat(c.hours, 2)) && ValueOf(PadNat(c.hours, 2)) == c.hours
  {
    assert Pow10(2) == 100 && Pow10(3) == 1000;
    PadNatProperties(c.minutes, 2);
    PadNatProperties(c.seconds, 2);
    PadNatProperties(c.millis, 3);
    PadNatProperties(c.hours, 2);
  }

  /**
   * The hours field is present exactly when it is asked for or the time is
   * at least one hour; otherwise the timestamp is the 8 characters of
   * `MM:SS` and `mmm` around the marker.
   */
  lemma TimestampLength(totalMs: nat, alwaysIncludeHours: bool, decimalMarker: string)
    ensures var r := FormatTimestamp(totalMs, alwaysIncludeHours, decimalMarker);
      (|r| > 8 + |decimalMarker| <==> alwaysIncludeHours || totalMs >= MsPerHour)
      && (|r| == 8 + |decimalMarker| || |r| >= 11 + |decimalMarker|)
  {
    var c := Decompose(totalMs);
    PadFields(c);
    assert c.hours > 0 <==> totalMs >= MsPerHour;
  }

  lemma ParseMinutesAssembled(tail: string, mm: string, ss: string, decimalMarker: string, mmm: string)
    requires |mm| == 2 && |ss| == 2 && |mmm| == 3
    requires AllDigits(mm) && AllDigits(ss) && AllDigits(mmm)
    requires tail == mm + ":" + ss + decimalMarker + mmm
    ensures |tail| == 8 + |decimalMarker|
    ensures ParseMinutes(tail, decimalMarker) == Some(Clock(0, ValueOf(mm), ValueOf(ss), ValueOf(mmm)))
  {
    var k := |decimalMarker|;
    assert tail[..2] == mm && tail[2] == ':' && tail[3..5] == ss;
    assert tail[5..5 + k] == decimalMarker && tail[5 + k..] == mmm;
  }

  /** An hours field and its colon in front of a readable `MM:SS<marker>mmm` set the hours. */
  lemma ParseWithHead(head: string, tail: string, decimalMarker: string, c: Clock)
    requires |tail| == 8 + |decimalMarker| && ParseMinutes(tail, decimalMarker) == Some(c)
    requires head == [] || HoursPrefix(head)
    ensures ParseClock(head + tail, decimalMarker)
      == Some(if head == [] then c else c.(hours := ValueOf(head[..|head| - 1])))
  {
    var s := head + tail;
    assert s[..|head|] == head && s[|head|..] == tail;
  }

  /** A clock written with its hours field reads back as itself. */
  lemma HoursTextRoundTrip(c: Clock, decimalMarker: string)
    requires c.minutes < 60 && c.seconds < 60 && c.millis < 1000
    ensures ParseClock(ClockText(c, true, decimalMarker), decimalMarker) == Some(c)
  {
    PadFields(c);
    var mm, ss, mmm := PadNat(c.minutes, 2), PadNat(c.seconds, 2), PadNat(c.millis, 3);
    var head := PadNat(c.hours, 2) + ":";
    assert head[..|head| - 1] == PadNat(c.hours, 2);
    var tail := mm + ":" + ss + decimalMarker + mmm;
    ParseMinutesAssembled(tail, mm, ss, decimalMarker, mmm);
    ParseWithHead(head, tail, decimalMarker, Clock(0, c.minutes, c.seconds, c.millis));
  }

  /** A clock under one hour written without its hours field reads back as itself. */
  lemma MinutesTextRoundTrip(c: Clock, decimalMarker: string)
    requires c.minutes < 60 && c.seconds < 60 && c.millis < 1000 && c.hours == 0
    ensures ParseClock(ClockText(c, false, decimalMarker), decimalMarker) == Some(c)
  {
    var tail := ClockText(c, false, decimalMarker);
    assert |tail| == 8 + |decimalMarker| && ParseMinutes(tail, decimalMarker) == Some(c) by {
      PadFields(c);
      var mm, ss, mmm := PadNat(c.minutes, 2), PadNat(c.seconds, 2), PadNat(c.millis, 3);
      ParseMinutesAssembled(mm + ":" + ss + decimalMarker + mmm, mm, ss, decimalMarker, mmm);
    }
    assert tail[..0] == [] && tail[0..] == tail;
  }

  /** Formatting then reading gives back the millisecond count, for any options and marker. */
  lemma TimestampRoundTrip(totalMs: nat, alwaysIncludeHours: bool, decimalMarker: string)
    ensures ParseTimestamp(FormatTimestamp(totalMs, alwaysIncludeHours, decimalMarker), decimalMarker) == Some(totalMs)
  {
    var c := Decompose(totalMs);
    if alwaysIncludeHours || c.hours > 0 {
      HoursTextRoundTrip(c, decimalMarker);
    } else {
      MinutesTextRoundTrip(c, decimalMarker);
    }
  }

  /** Different millisecond counts never format alike under the same options. */
  lemma TimestampInjective(a: nat, b: nat, alwaysIncludeHours: bool, decimalMarker: string)
    requires FormatTimestamp(a, alwaysIncludeHours, decimalMarker) == FormatTimestamp(b, alwaysIncludeHours, decimalMarker)
    ensures a == b
  {
    TimestampRoundTrip(a, alwaysIncludeHours, decimalMarker);
    TimestampRoundTrip(b, alwaysIncludeHours, decimalMarker);
  }

  /** The characters a timestamp with the default comma marker is made of. */
  predicate TimestampChars(s: string) {
    forall i :: 0 <= i < |s| ==> IsDigit(s[i]) || s[i] == ':' || s[i] == ','
  }

  lemma TimestampCharsAppend(a: string, b: string)
    requires TimestampChars(a) && TimestampChars(b)
    ensures TimestampChars(a + b)
  {
  }

  /** With the default options a timestamp holds only digits, colons and the comma. */
  lemma TimestampCharacters(totalMs: nat)
    ensures TimestampChars(FormatTimestamp(totalMs))
  {
    var c := Decompose(totalMs);
    PadFields(c);
    var mm, ss, mmm := PadNat(c.minutes, 2), PadNat(c.seconds, 2), PadNat(c.millis, 3);
    TimestampCharsAppend(mm, ":");
    TimestampCharsAppend(mm + ":", ss);
    TimestampCharsAppend(mm + ":" + ss, ",");
    TimestampCharsAppend(mm + ":" + ss + ",", mmm);
    var tail := mm + ":" + ss + "," + mmm;
    if c.hours > 0 {
      var hh := PadNat(c.hours, 2);
      TimestampCharsAppend(hh, ":");
      TimestampCharsAppend(hh + ":", tail);
    }
  }
}
