/**
 * `formatTime`, which the mini player (src/components/player.tsx) and the full-screen
 * player (src/components/full-screen-player.tsx) each define in the same words: `NaN`
 * shows as `0:00`, any other time as whole minutes and two-digit seconds.
 */
module TimeDisplay {
  import opened Strings
  import opened Wrappers
  import opened Clock
  import opened Tracks

  /** A time a media element or the YouTube player can report: `NaN`, or not negative. */
  predicate IsMediaTime(t: TimeValue) {
    t.NaN? || t.value >= 0.0
  }

  /**
   * For a time that is not negative, `Math.floor(t / 60)` is the whole minutes of
   * `floor(t)`, and `t % 60` (which for such `t` is `t - 60 * Math.floor(t / 60)`) floors
   * to its leftover seconds.
   */
  lemma FloorSplit(t: real)
    requires t >= 0.0
    ensures (t / 60.0).Floor == t.Floor / 60
    ensures (t - 60.0 * ((t / 60.0).Floor as real)).Floor == t.Floor % 60
  {
    var n := t.Floor;
    var m := (t / 60.0).Floor;
    assert 60.0 * (m as real) <= t < 60.0 * (m as real) + 60.0;
    assert 60 * m <= n;
    assert n < 60 * m + 60;
    var q := n / 60;
    assert 60 * q <= n < 60 * q + 60;
    assert m == q;
    var r := t - 60.0 * (m as real);
    assert (n - 60 * m) as real <= r < (n - 60 * m) as real + 1.0;
  }

  function FormatTime(t: TimeValue): (r: string)
    requires IsMediaTime(t)
    ensures t.NaN? ==> r == "0:00"
    ensures t.Seconds? ==> r == Mss(t.value.Floor as nat) && ParseClock(r) == Some(t.value.Floor as nat)
  {
    match t
    case NaN => "0:00"
    case Seconds(v) =>
      var minutes := (v / 60.0).Floor;
      var seconds := (v - 60.0 * (minutes as real)).Floor;
      var n: nat := v.Floor;
      FloorSplit(v);
      MssRoundTrip(n);
      assert minutes == n / 60 && seconds == n % 60;
      NatToString(minutes) + ":" + Pad2(NatToString(seconds))
  }

  /**
   * The text is `m:ss` with the seconds field two digits under 60, reading back as the
   * whole seconds of `t`; times within the same second print the same.
   */
  lemma FormatTimeShape(t: real, u: real)
    requires t >= 0.0 && u >= 0.0
    ensures var s := FormatTime(Seconds(t));
      |s| >= 4 && s[|s| - 3] == ':' && AllDigits(s[|s| - 2..]) &&
      ParseDigits(s[|s| - 2..]) == t.Floor % 60
    ensures FormatTime(Seconds(t)) == FormatTime(Seconds(u)) <==> t.Floor == u.Floor
  {
    MssSecondsField(t.Floor as nat);
    if FormatTime(Seconds(t)) == FormatTime(Seconds(u)) {
      MssInjective(t.Floor as nat, u.Floor as nat);
    }
  }

  /** An unknown duration and the start of a track print alike. */
  lemma NaNLooksLikeZero()
    ensures FormatTime(NaN) == FormatTime(Seconds(0.0))
  {
    assert NatToString(0) == "0";
    assert Pad2("0") == "00";
  }

  /** `(position / duration) * 100`, a progress slider's value. */
  function Percent(position: real, duration: real): real
    requires duration != 0.0
  {
    position / duration * 100.0
  }
}
