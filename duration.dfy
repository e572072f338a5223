/**
 * parseDuration: a number of seconds rendered as an itunes:duration clock
 * string, H:MM:SS or M:SS, with Go's truncating integer division.
 */
module Duration {
  import opened Wrappers
  import opened Decimal
  import opened PodcastTypes

  /** Go's integer "/" for a positive divisor: the quotient truncated toward zero. */
  function Quot(a: int, b: int): (q: int)
    requires b > 0
    ensures a >= 0 ==> 0 <= a - b * q < b
    ensures a < 0 ==> -b < a - b * q <= 0
  {
    if a >= 0 then a / b else -((-a) / b)
  }

  /** Go's "%" for a positive divisor: the remainder takes the sign of the dividend. */
  function Rem(a: int, b: int): (r: int)
    requires b > 0
    ensures a == b * Quot(a, b) + r
    ensures a >= 0 ==> 0 <= r < b
    ensures a < 0 ==> -b < r <= 0
  {
    a - b * Quot(a, b)
  }

  /** h := duration / 3600: whole hours, truncated toward zero. */
  function Hours(d: int): (h: int)
    ensures d >= 0 ==> 0 <= h && 3600 * h <= d < 3600 * (h + 1)
    ensures d < 0 ==> h <= 0 && 3600 * (h - 1) < d <= 3600 * h
  {
    Quot(d, 3600)
  }

  /** m := (duration % 3600) / 60: whole minutes past the hour, with the sign of the duration. */
  function Minutes(d: int): (m: int)
    ensures d >= 0 ==> 0 <= m < 60
    ensures d < 0 ==> -60 < m <= 0
  {
    Quot(Rem(d, 3600), 60)
  }

  /**
   * s := duration % 3600 % 60: seconds past the minute, with the sign of the
   * duration. For every duration, negative ones included, the three fields
   * recompose it.
   */
  function Seconds(d: int): (s: int)
    ensures d >= 0 ==> 0 <= s < 60
    ensures d < 0 ==> -60 < s <= 0
    ensures 3600 * Hours(d) + 60 * Minutes(d) + s == d
  {
    Rem(Rem(d, 3600), 60)
  }

  /** parseDuration: the layout is chosen by the first of h > 9, h > 0, m > 9 that holds. */
  function ParseDuration(duration: int64): (r: string)
    ensures |r| >= 4 && ':' in r
    ensures duration >= 0 ==> r[|r| - 3] == ':' && AllDigits(r[|r| - 2..])
  {
    var h, m, s := Hours(duration as int), Minutes(duration as int), Seconds(duration as int);
    if h > 9 then Pad2(h) + ":" + Pad2(m) + ":" + Pad2(s)
    else if h > 0 then FormatInt(h) + ":" + Pad2(m) + ":" + Pad2(s)
    else if m > 9 then Pad2(m) + ":" + Pad2(s)
    else FormatInt(m) + ":" + Pad2(s)
  }

  /** For a non-negative duration, hours, minutes and seconds are its mixed-radix digits. */
  lemma ClockFields(d: int)
    requires d >= 0
    ensures Hours(d) == d / 3600 && Minutes(d) == d % 3600 / 60 && Seconds(d) == d % 60
    ensures Hours(d) >= 0 && 0 <= Minutes(d) < 60 && 0 <= Seconds(d) < 60
    ensures Hours(d) * 3600 + Minutes(d) * 60 + Seconds(d) == d
  {
  }

  /** Splits a string at every occurrence of a separator; n separators give n + 1 fields. */
  function SplitOn(s: string, sep: char): (parts: seq<string>)
    ensures |parts| >= 1
    decreases |s|
  {
    if s == [] then [""]
    else if s[0] == sep then [""] + SplitOn(s[1..], sep)
    else var rest := SplitOn(s[1..], sep); [[s[0]] + rest[0]] + rest[1..]
  }

  lemma {:induction false} SplitOnNoSep(s: string, sep: char)
    requires sep !in s
    ensures SplitOn(s, sep) == [s]
    decreases |s|
  {
    if s != [] {
      SplitOnNoSep(s[1..], sep);
      assert [s[0]] + s[1..] == s;
    }
  }

  lemma {:induction false} SplitOnField(a: string, sep: char, b: string)
    requires sep !in a
    ensures SplitOn(a + [sep] + b, sep) == [a] + SplitOn(b, sep)
    decreases |a|
  {
    if a == [] {
      assert a + [sep] + b == [sep] + b;
      assert ([sep] + b)[1..] == b;
    } else {
      var s := a + [sep] + b;
      assert s[1..] == a[1..] + [sep] + b;
      SplitOnField(a[1..], sep, b);
      assert [a[0]] + a[1..] == a;
    }
  }

  /** A two-place clock field: exactly two digits denoting a value below sixty. */
  function ReadTwoPlaces(f: string): (r: Option<nat>)
    ensures r.Some? ==> r.value < 60 && |f| == 2
  {
    if |f| == 2 && AllDigits(f) && ValueOf(f) < 60 then Some(ValueOf(f)) else None
  }

  /**
   * Reads an H:MM:SS or M:SS clock string back into seconds: a leading
   * decimal field, then one or two two-place fields below sixty.
   */
  function ReadClock(s: string): (r: Option<int>)
    ensures r.Some? ==> r.value >= 0
  {
    var parts := SplitOn(s, ':');
    if |parts| == 3 then
      match (ParseNat(parts[0]), ReadTwoPlaces(parts[1]), ReadTwoPlaces(parts[2]))
      case (Some(h), Some(m), Some(sec)) => Some(h * 3600 + m * 60 + sec)
      case _ => None
    else if |parts| == 2 then
      match (ParseNat(parts[0]), ReadTwoPlaces(parts[1]))
      case (Some(m), Some(sec)) => Some(m * 60 + sec)
      case _ => None
    else None
  }

  /**
   * For a non-negative duration the four layouts come down to two: the
   * leading field is the plain decimal of the hours (or, below an hour, of
   * the minutes) whichever of "%d" or "%02d" printed it, and each later
   * field is a two-place "%02d".
   */
  lemma LayoutOfNonNegative(d: int64)
    requires d >= 0
    ensures var h, m, s := Hours(d as int), Minutes(d as int), Seconds(d as int);
      ParseDuration(d) ==
        if h > 0 then NatToString(h) + ":" + Pad2(m) + ":" + Pad2(s)
        else NatToString(m) + ":" + Pad2(s)
  {
    ClockFields(d as int);
  }

  /** An M:SS-shaped string splits into its two fields. */
  lemma SplitTwoFields(a: string, b: string)
    requires ':' !in a && ':' !in b
    ensures SplitOn(a + ":" + b, ':') == [a, b]
  {
    SplitOnNoSep(b, ':');
    assert a + ":" + b == a + [':'] + b;
    SplitOnField(a, ':', b);
  }

  /** An H:MM:SS-shaped string splits into its three fields. */
  lemma SplitThreeFields(a: string, b: string, c: string)
    requires ':' !in a && ':' !in b && ':' !in c
    ensures SplitOn(a + ":" + b + ":" + c, ':') == [a, b, c]
  {
    SplitTwoFields(b, c);
    assert a + ":" + b + ":" + c == a + [':'] + (b + ":" + c);
    SplitOnField(a, ':', b + ":" + c);
  }

  /** A two-place "%02d" field below sixty reads back to its value. */
  lemma ReadTwoPlacesPad2(n: int)
    requires 0 <= n < 60
    ensures ReadTwoPlaces(Pad2(n)) == Some(n)
  {
    Pad2RoundTrip(n);
  }

  /** Reading an M:SS clock string. */
  lemma ReadClockTwo(m: nat, s: nat)
    requires s < 60
    ensures ReadClock(NatToString(m) + ":" + Pad2(s)) == Some(m * 60 + s)
  {
    Pad2RoundTrip(s);
    SplitTwoFields(NatToString(m), Pad2(s));
    NatRoundTrip(m);
    ReadTwoPlacesPad2(s);
  }

  /** Reading an H:MM:SS clock string. */
  lemma ReadClockThree(h: nat, m: nat, s: nat)
    requires m < 60 && s < 60
    ensures ReadClock(NatToString(h) + ":" + Pad2(m) + ":" + Pad2(s)) == Some(h * 3600 + m * 60 + s)
  {
    Pad2RoundTrip(m);
    Pad2RoundTrip(s);
    SplitThreeFields(NatToString(h), Pad2(m), Pad2(s));
    NatRoundTrip(h);
    ReadTwoPlacesPad2(m);
    ReadTwoPlacesPad2(s);
  }

  /**
   * The clock string of a non-negative duration has three fields exactly
   * when the duration is an hour or more, its leading field is the canonical
   * decimal of the hours (or of the minutes, below an hour), and every later
   * field is two digits wide.
   */
  lemma DurationShape(d: int64)
    requires d >= 0
    ensures var parts := SplitOn(ParseDuration(d), ':');
      (|parts| == 3 <==> d >= 3600) && (|parts| == 2 <==> d < 3600) &&
      parts[0] == NatToString(if d >= 3600 then Hours(d as int) else Minutes(d as int)) &&
      forall i :: 1 <= i < |parts| ==> |parts[i]| == 2 && AllDigits(parts[i])
  {
    var h, m, s := Hours(d as int), Minutes(d as int), Seconds(d as int);
    ClockFields(d as int);
    LayoutOfNonNegative(d);
    Pad2RoundTrip(m);
    Pad2RoundTrip(s);
    if h > 0 {
      SplitThreeFields(NatToString(h), Pad2(m), Pad2(s));
    } else {
      SplitTwoFields(NatToString(m), Pad2(s));
    }
  }

  /** Reading the clock string of a non-negative duration back recovers the duration. */
  lemma DurationRoundTrip(d: int64)
    requires d >= 0
    ensures ReadClock(ParseDuration(d)) == Some(d as int)
  {
    var h, m, s := Hours(d as int), Minutes(d as int), Seconds(d as int);
    ClockFields(d as int);
    LayoutOfNonNegative(d);
    if h > 0 {
      ReadClockThree(h, m, s);
    } else {
      ReadClockTwo(m, s);
    }
  }

  /** Distinct non-negative durations render differently. */
  lemma ParseDurationInjective(a: int64, b: int64)
    requires a >= 0 && b >= 0 && ParseDuration(a) == ParseDuration(b)
    ensures a == b
  {
    DurationRoundTrip(a);
    DurationRoundTrip(b);
  }

  /** 533 seconds: under ten minutes, M:SS. */
  lemma DurationExampleMinutes()
    ensures ParseDuration(533) == "8:53"
  {
    assert Hours(533) == 0 && Minutes(533) == 8 && Seconds(533) == 53;
    assert ParseDuration(533) == FormatInt(8) + ":" + Pad2(53);
    assert Pad2(53) == "53" by { assert NatToString(53) == "53"; }
  }

  /** 600 seconds: ten minutes or more, MM:SS. */
  lemma DurationExampleTenMinutes()
    ensures ParseDuration(600) == "10:00"
  {
    assert Hours(600) == 0 && Minutes(600) == 10 && Seconds(600) == 0;
    assert ParseDuration(600) == Pad2(10) + ":" + Pad2(0);
    assert Pad2(10) == "10" by { assert NatToString(10) == "10"; }
  }

  /** 3725 seconds: under ten hours, H:MM:SS. */
  lemma DurationExampleHours()
    ensures ParseDuration(3725) == "1:02:05"
  {
    assert Hours(3725) == 1 && Minutes(3725) == 2 && Seconds(3725) == 5;
  }

  /** 36000 seconds: ten hours or more, HH:MM:SS. */
  lemma DurationExampleTenHours()
    ensures ParseDuration(36000) == "10:00:00"
  {
    assert Hours(36000) == 10 && Minutes(36000) == 0 && Seconds(36000) == 0;
    assert Pad2(10) == "10";
  }

  /**
   * A negative input, as written: truncating division makes every field zero
   * or negative, so the M:SS layout is chosen with signed fields.
   */
  lemma NegativeDurationSigned()
    ensures ParseDuration(-65) == "-1:-5"
  {
    assert Hours(-65) == 0 && Minutes(-65) == -1 && Seconds(-65) == -5;
    assert ParseDuration(-65) == FormatInt(-1) + ":" + Pad2(-5);
    assert Pad2(-5) == "-5";
  }

  /** A negative whole hour, as written: the hour field is dropped and the result reads as zero. */
  lemma NegativeDurationLosesHour()
    ensures ParseDuration(-3600) == "0:00"
  {
    assert Hours(-3600) == -1 && Minutes(-3600) == 0 && Seconds(-3600) == 0;
    assert ParseDuration(-3600) == FormatInt(0) + ":" + Pad2(0);
  }
}
