/** `calculateDuration`: how long ago a session started, as display text. */
module Duration {
  import opened Wrappers
  import opened Records
  import opened Text

  const MillisPerMinute := 60000

  /** Whole minutes elapsed from `start` to `now`, rounded down (negative for
      a start in the future). */
  function ElapsedMinutes(start: int, now: int): (d: int)
    ensures d * MillisPerMinute <= now - start < (d + 1) * MillisPerMinute
  {
    (now - start) / MillisPerMinute
  }

  /** `Unknown` for a missing login time, `Invalid` for one that does not
      parse; otherwise `<d> mins` below an hour and `<h>h <m>m` from an hour
      on. */
  function CalculateDuration(login: Stamp, now: int): (r: string)
    ensures login == Missing ==> r == "Unknown"
    ensures login == Unparsable ==> r == "Invalid"
  {
    match login
    case Missing => "Unknown"
    case Unparsable => "Invalid"
    case Millis(start) => FormatMinutes(ElapsedMinutes(start, now))
  }

  /** The text for `diff` elapsed minutes. */
  function FormatMinutes(diff: int): (r: string)
    ensures (|r| >= 5 && r[|r| - 5..] == " mins") <==> diff < 60
  {
    if diff < 60 then IntToString(diff) + " mins"
    else
      var r := IntToString(diff / 60) + "h " + IntToString(diff % 60) + "m";
      assert r[|r| - 1] == 'm';
      r
  }

  /** Below an hour (a future login time included) the text counts minutes. */
  lemma MinutesForm(start: int, now: int)
    requires ElapsedMinutes(start, now) < 60
    ensures CalculateDuration(Millis(start), now) == IntToString(ElapsedMinutes(start, now)) + " mins"
  {
  }

  /** From an hour on the text is `<h>h <m>m`, where `h` whole hours and `m`
      minutes, `0 <= m < 60`, make up the elapsed minutes. */
  lemma HoursForm(start: int, now: int)
    requires ElapsedMinutes(start, now) >= 60
    ensures exists h: nat, m: nat ::
              && h >= 1 && m < 60
              && h * 60 + m == ElapsedMinutes(start, now)
              && CalculateDuration(Millis(start), now) == NatToString(h) + "h " + NatToString(m) + "m"
  {
    var d := ElapsedMinutes(start, now);
    var h: nat, m: nat := d / 60, d % 60;
    assert h * 60 + m == d;
    assert CalculateDuration(Millis(start), now) == NatToString(h) + "h " + NatToString(m) + "m";
  }

  /** First position of `c` in `s`. */
  function IndexOf(s: string, c: char): (r: Option<nat>)
    ensures r.Some? ==> r.value < |s| && s[r.value] == c
    ensures r.Some? ==> forall j :: 0 <= j < r.value ==> s[j] != c
    ensures r.None? ==> forall j :: 0 <= j < |s| ==> s[j] != c
  {
    if s == [] then None
    else if s[0] == c then Some(0)
    else match IndexOf(s[1..], c)
      case None => None
      case Some(k) => Some(k + 1)
  }

  /** Reads a duration text back as minutes. */
  function ParseDuration(s: string): Option<int>
  {
    if |s| >= 5 && s[|s| - 5..] == " mins" then ParseInt(s[..|s| - 5])
    else match IndexOf(s, 'h')
      case None => None
      case Some(k) =>
        if k + 2 < |s| && s[k + 1] == ' ' && s[|s| - 1] == 'm' then
          match (ParseInt(s[..k]), ParseInt(s[k + 2..|s| - 1]))
          case (Some(h), Some(m)) => Some(h * 60 + m)
          case _ => None
        else None
  }

  lemma MinutesRoundTrip(d: int)
    requires d < 60
    ensures ParseDuration(FormatMinutes(d)) == Some(d)
  {
    var a, s := IntToString(d), FormatMinutes(d);
    assert s[|s| - 5..] == " mins";
    assert s[..|s| - 5] == a;
    IntToStringRoundTrip(d);
  }

  /** An hours text splits at its `h` into the two numbers it was made of. */
  lemma HoursTextParts(a: string, b: string)
    requires a != [] && AllDigits(a)
    ensures var s := a + "h " + b + "m";
            ParseDuration(s) == match (ParseInt(a), ParseInt(b))
                                case (Some(h), Some(m)) => Some(h * 60 + m)
                                case _ => None
  {
    var s := a + "h " + b + "m";
    assert !(|s| >= 5 && s[|s| - 5..] == " mins") by {
      assert s[|s| - 1] == 'm';
    }
    assert IndexOf(s, 'h') == Some(|a|) by {
      assert s[|a|] == 'h';
      forall j | 0 <= j < |a|
        ensures s[j] != 'h'
      {
        assert s[j] == a[j] && IsDigit(a[j]);
      }
    }
    assert s[..|a|] == a;
    assert s[|a| + 2..|s| - 1] == b;
  }

  lemma HoursRoundTrip(d: int)
    requires d >= 60
    ensures ParseDuration(FormatMinutes(d)) == Some(d)
  {
    var a, b := NatToString(d / 60), NatToString(d % 60);
    assert FormatMinutes(d) == a + "h " + b + "m";
    HoursTextParts(a, b);
    IntToStringRoundTrip(d / 60);
    IntToStringRoundTrip(d % 60);
  }

  /** The text loses nothing: it reads back as the elapsed whole minutes. */
  lemma DurationRoundTrip(start: int, now: int)
    ensures ParseDuration(CalculateDuration(Millis(start), now)) == Some(ElapsedMinutes(start, now))
  {
    var d := ElapsedMinutes(start, now);
    if d < 60 {
      MinutesRoundTrip(d);
    } else {
      HoursRoundTrip(d);
    }
  }

  /** The sentinels cannot be confused with a measured duration. */
  lemma SentinelsDistinct(start: int, now: int)
    ensures CalculateDuration(Millis(start), now) != "Unknown"
    ensures CalculateDuration(Millis(start), now) != "Invalid"
  {
    DurationRoundTrip(start, now);
    assert ParseDuration("Unknown") == None;
    assert ParseDuration("Invalid") == None;
  }

  lemma HourSampleText()
    ensures FormatMinutes(75) == "1h 15m"
  {
    assert 75 / 60 == 1 && 75 % 60 == 15;
    assert NatToString(1) == "1";
    assert NatToString(15) == NatToString(1) + [DigitChar(5)] == "15";
  }

  lemma MinuteSampleText()
    ensures FormatMinutes(10) == "10 mins"
  {
    assert IntToString(10) == "10";
  }

  /** A session that started 75 minutes ago shows `1h 15m`; one that started
      ten minutes ago shows `10 mins`; one without a login time `Unknown`. */
  lemma DurationSamples(now: int)
    ensures CalculateDuration(Millis(now - 75 * MillisPerMinute), now) == "1h 15m"
    ensures CalculateDuration(Millis(now - 10 * MillisPerMinute), now) == "10 mins"
    ensures CalculateDuration(Missing, now) == "Unknown"
  {
    assert ElapsedMinutes(now - 75 * MillisPerMinute, now) == 75;
    assert ElapsedMinutes(now - 10 * MillisPerMinute, now) == 10;
    HourSampleText();
    MinuteSampleText();
  }
}
