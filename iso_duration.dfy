/**
 * `formatDuration`: the YouTube Data API reports a video's length as an ISO 8601
 * duration (section 4.4.3.2 of ISO 8601:2004, e.g. `PT1H5M30S`). The source reads it
 * with the unanchored regular expression `PT(\d+H)?(\d+M)?(\d+S)?` and renders the
 * total as `m:ss`. The two copies of the function (in the search action and in the
 * search flow) are the same code and are modelled once here.
 */
module IsoDuration {
  import opened Strings
  import opened Wrappers
  import opened Clock

  /** Length of the run of ASCII digits (`\d`) starting at position `i`. */
  function DigitRun(d: string, i: nat): (n: nat)
    requires i <= |d|
    ensures i + n <= |d|
    ensures forall k :: i <= k < i + n ==> IsDigit(d[k])
    ensures i + n < |d| ==> !IsDigit(d[i + n])
    decreases |d| - i
  {
    if i == |d| || !IsDigit(d[i]) then 0 else 1 + DigitRun(d, i + 1)
  }

  /**
   * The optional group `(\d+U)?` tried at position `i`: the value of the digits and
   * the position after the designator `U` when the maximal digit run is followed by
   * `U`, otherwise 0 and `i` unchanged. A shorter digit run cannot help, since the
   * character after it is a digit; and nothing after the group can fail, so the
   * regular expression never backtracks into it. `parseInt(match[k]) || 0` gives 0
   * for an unmatched group.
   */
  function Component(d: string, i: nat, designator: char): (r: (nat, nat))
    requires i <= |d|
    ensures i <= r.1 <= |d|
  {
    var n := DigitRun(d, i);
    if n > 0 && i + n < |d| && d[i + n] == designator
    then (ParseDigits(d[i..i + n]), i + n + 1)
    else (0, i)
  }

  /** Seconds denoted by the hour, minute and second groups tried from position `i` on. */
  function GroupSeconds(d: string, i: nat): nat
    requires i <= |d|
  {
    var h := Component(d, i, 'H');
    var m := Component(d, h.1, 'M');
    var s := Component(d, m.1, 'S');
    3600 * h.0 + 60 * m.0 + s.0
  }

  /**
   * Seconds denoted by the first `PT` in `d` and the hour, minute and second groups
   * after it; 0 when there is no `PT`.
   */
  function DurationSeconds(d: string): nat {
    var p := IndexOf(d, "PT");
    if p == -1 then 0 else GroupSeconds(d, p + 2)
  }

  /**
   * `formatDuration(duration)`: `"0:00"` when the text has no `PT`; otherwise the
   * hours, minutes and seconds after the first `PT` are summed into seconds and
   * rendered as `m:ss`. The result is always a well-formed clock text, and it reads
   * back as the number of seconds the duration denotes.
   */
  function FormatDuration(d: string): (r: string)
    ensures ParseClock(r) == Some(DurationSeconds(d))
    ensures !Contains(d, "PT") ==> r == "0:00"
  {
    var total := DurationSeconds(d);
    MssRoundTrip(total);
    assert total == 0 ==> Mss(total) == "0:00";
    Mss(total)
  }

  /** The `#U` part of a time designator: empty when the component is absent. */
  function Part(v: Option<nat>, designator: char): string {
    match v
    case None => ""
    case Some(n) => NatToString(n) + [designator]
  }

  /** Seconds denoted by the optional hour, minute and second components. */
  function TotalSeconds(h: Option<nat>, m: Option<nat>, s: Option<nat>): nat {
    3600 * h.GetOr(0) + 60 * m.GetOr(0) + s.GetOr(0)
  }

  lemma DigitRunExact(d: string, i: nat, n: nat)
    requires i + n <= |d|
    requires forall k :: i <= k < i + n ==> IsDigit(d[k])
    requires i + n == |d| || !IsDigit(d[i + n])
    ensures DigitRun(d, i) == n
    decreases n
  {
    if n > 0 {
      DigitRunExact(d, i + 1, n - 1);
    }
  }

  /** No `(\d+U)?` group matches at the start of `s`. */
  predicate NoGroup(s: string, designator: char) {
    Component(s, 0, designator).1 == 0
  }

  lemma DigitRunShift(pre: string, rest: string)
    ensures DigitRun(pre + rest, |pre|) == DigitRun(rest, 0)
  {
    var d := pre + rest;
    var n := DigitRun(rest, 0);
    forall k | |pre| <= k < |pre| + n ensures IsDigit(d[k]) {
      assert d[k] == rest[k - |pre|];
    }
    if |pre| + n < |d| {
      assert d[|pre| + n] == rest[n];
    }
    DigitRunExact(d, |pre|, n);
  }

  /** A group is matched the same way whatever text precedes it. */
  lemma ComponentShift(pre: string, rest: string, designator: char)
    ensures var c := Component(rest, 0, designator);
      Component(pre + rest, |pre|, designator) == (c.0, |pre| + c.1)
  {
    var d := pre + rest;
    DigitRunShift(pre, rest);
    var n := DigitRun(rest, 0);
    if n > 0 && n < |rest| {
      assert d[|pre| + n] == rest[n];
    }
    assert d[|pre|..|pre| + n] == rest[0..n];
  }

  /** The group for `U` reads `#U` back as its number. */
  lemma ComponentOfSomePart(n: nat, designator: char, rest: string)
    requires !IsDigit(designator)
    ensures Component(NatToString(n) + [designator] + rest, 0, designator)
         == (n, |NatToString(n)| + 1)
  {
    var x := NatToString(n);
    var d := x + [designator] + rest;
    forall k | 0 <= k < |x| ensures IsDigit(d[k]) {
      assert d[k] == x[k];
    }
    assert d[|x|] == designator;
    DigitRunExact(d, 0, |x|);
    assert d[0..|x|] == x;
    ParseNatToString(n);
  }

  /** A group for another designator does not match at a `#U` part. */
  lemma NoGroupAtOtherPart(v: Option<nat>, other: char, rest: string, designator: char)
    requires !IsDigit(other) && other != designator
    requires NoGroup(rest, designator)
    ensures NoGroup(Part(v, other) + rest, designator)
  {
    match v
    case None =>
      assert Part(v, other) + rest == rest;
    case Some(n) =>
      var x := NatToString(n);
      var d := x + [other] + rest;
      assert Part(v, other) + rest == d;
      forall k | 0 <= k < |x| ensures IsDigit(d[k]) {
        assert d[k] == x[k];
      }
      assert d[|x|] == other;
      DigitRunExact(d, 0, |x|);
  }

  /** The group for `U` at a `#U` part reads it; at an absent part it skips nothing. */
  lemma ComponentOfPart(pre: string, v: Option<nat>, designator: char, rest: string)
    requires !IsDigit(designator)
    requires NoGroup(rest, designator)
    ensures Component(pre + (Part(v, designator) + rest), |pre|, designator)
         == (v.GetOr(0), |pre| + |Part(v, designator)|)
  {
    ComponentShift(pre, Part(v, designator) + rest, designator);
    match v
    case None =>
      assert Part(v, designator) + rest == rest;
    case Some(n) =>
      assert Part(v, designator) + rest == NatToString(n) + [designator] + rest;
      ComponentOfSomePart(n, designator, rest);
  }

  /** The same for a part at the very end of the text. */
  lemma ComponentOfLastPart(pre: string, v: Option<nat>, designator: char)
    requires !IsDigit(designator)
    ensures Component(pre + Part(v, designator), |pre|, designator).0 == v.GetOr(0)
  {
    ComponentShift(pre, Part(v, designator), designator);
    match v
    case None =>
    case Some(n) =>
      assert Part(v, designator) == NatToString(n) + [designator] + [];
      ComponentOfSomePart(n, designator, []);
  }

  /** With the `PT` at the start, the groups are tried from position 2. */
  lemma FormatDurationAtStart(d: string)
    requires |d| >= 2 && d[..2] == "PT"
    ensures DurationSeconds(d) == GroupSeconds(d, 2)
  {
    assert OccursAt(d, "PT", 0);
    assert IndexOf(d, "PT") == 0;
  }

  lemma Regroup(a: string, b: string, c: string, e: string)
    ensures a + b + c + e == a + (b + (c + e))
    ensures a + b + c + e == (a + b) + (c + e)
    ensures a + b + c + e == (a + b + c) + (e + [])
  {
  }

  /** The time-only duration `PT[#H][#M][#S]`. */
  function TimeText(h: Option<nat>, m: Option<nat>, s: Option<nat>): string {
    "PT" + Part(h, 'H') + Part(m, 'M') + Part(s, 'S')
  }

  lemma TrailingGroups(m: Option<nat>, s: Option<nat>)
    ensures NoGroup(Part(s, 'S'), 'M') && NoGroup(Part(m, 'M') + Part(s, 'S'), 'H')
  {
    assert NoGroup([], 'M') && NoGroup([], 'H');
    NoGroupAtOtherPart(s, 'S', [], 'M');
    NoGroupAtOtherPart(s, 'S', [], 'H');
    assert Part(s, 'S') + [] == Part(s, 'S');
    NoGroupAtOtherPart(m, 'M', Part(s, 'S'), 'H');
  }

  /** Where the minute and second groups start in a time-only duration. */
  predicate GroupStarts(h: Option<nat>, m: Option<nat>, s: Option<nat>, d: string, i1: nat, i2: nat) {
    d == TimeText(h, m, s) && i1 == 2 + |Part(h, 'H')| && i2 == i1 + |Part(m, 'M')|
  }

  lemma TimeTextShape(h: Option<nat>, m: Option<nat>, s: Option<nat>, d: string, i1: nat, i2: nat)
    requires GroupStarts(h, m, s, d, i1, i2)
    ensures |d| == i2 + |Part(s, 'S')| && d[..2] == "PT"
    ensures d == "PT" + (Part(h, 'H') + (Part(m, 'M') + Part(s, 'S')))
    ensures d == ("PT" + Part(h, 'H')) + (Part(m, 'M') + Part(s, 'S'))
  {
    var ph, pm, ps := Part(h, 'H'), Part(m, 'M'), Part(s, 'S');
    Regroup("PT", ph, pm, ps);
    PrefixOfConcat("PT", ph + (pm + ps));
  }

  lemma HourGroup(h: Option<nat>, m: Option<nat>, s: Option<nat>, d: string, i1: nat, i2: nat)
    requires GroupStarts(h, m, s, d, i1, i2)
    ensures |d| >= 2 && d[..2] == "PT"
    ensures i1 <= |d| && Component(d, 2, 'H') == (h.GetOr(0), i1)
  {
    TrailingGroups(m, s);
    TimeTextShape(h, m, s, d, i1, i2);
    ComponentOfPart("PT", h, 'H', Part(m, 'M') + Part(s, 'S'));
  }

  lemma MinuteGroup(h: Option<nat>, m: Option<nat>, s: Option<nat>, d: string, i1: nat, i2: nat)
    requires GroupStarts(h, m, s, d, i1, i2)
    ensures i2 <= |d| && Component(d, i1, 'M') == (m.GetOr(0), i2)
  {
    TrailingGroups(m, s);
    TimeTextShape(h, m, s, d, i1, i2);
    ComponentOfPart("PT" + Part(h, 'H'), m, 'M', Part(s, 'S'));
  }

  lemma SecondGroup(h: Option<nat>, m: Option<nat>, s: Option<nat>, d: string, i1: nat, i2: nat)
    requires GroupStarts(h, m, s, d, i1, i2)
    ensures i2 <= |d| && Component(d, i2, 'S').0 == s.GetOr(0)
  {
    var pre := "PT" + Part(h, 'H') + Part(m, 'M');
    assert |pre| == i2;
    ComponentOfLastPart(pre, s, 'S');
  }

  /**
   * Every time-only duration `PT[#H][#M][#S]` denotes its total number of seconds:
   * hours fold into minutes, absent components count as zero.
   */
  lemma {:induction false} TimeTextSeconds(h: Option<nat>, m: Option<nat>, s: Option<nat>)
    ensures DurationSeconds(TimeText(h, m, s)) == TotalSeconds(h, m, s)
  {
    var d := TimeText(h, m, s);
    var i1 := 2 + |Part(h, 'H')|;
    var i2 := i1 + |Part(m, 'M')|;
    assert GroupStarts(h, m, s, d, i1, i2);
    HourGroup(h, m, s, d, i1, i2);
    MinuteGroup(h, m, s, d, i1, i2);
    SecondGroup(h, m, s, d, i1, i2);
    SecondsFromComponents(d, h.GetOr(0), m.GetOr(0), s.GetOr(0), i1, i2);
  }

  /** So every time-only duration formats as the `m:ss` text of its total. */
  lemma FormatTimeDesignators(h: Option<nat>, m: Option<nat>, s: Option<nat>)
    ensures FormatDuration(TimeText(h, m, s)) == Mss(TotalSeconds(h, m, s))
  {
    TimeTextSeconds(h, m, s);
  }

  lemma PrefixOfConcat(a: string, b: string)
    ensures (a + b)[..|a|] == a
  {
  }

  lemma SecondsFromComponents(d: string, h: nat, m: nat, s: nat, i1: nat, i2: nat)
    requires |d| >= 2 && d[..2] == "PT"
    requires i1 <= |d| && i2 <= |d|
    requires Component(d, 2, 'H') == (h, i1)
    requires Component(d, i1, 'M') == (m, i2)
    requires Component(d, i2, 'S').0 == s
    ensures DurationSeconds(d) == 3600 * h + 60 * m + s
  {
    FormatDurationAtStart(d);
  }

  /** A duration with a date component (`P#DT…`) has no literal `PT` and formats as `0:00`. */
  lemma {:induction false} DateComponentGivesZero(days: nat, time: string)
    requires forall k :: 0 <= k < |time| ==> time[k] != 'P'
    ensures FormatDuration("P" + NatToString(days) + "DT" + time) == "0:00"
  {
    var d := "P" + NatToString(days) + "DT" + time;
    forall i: nat | i + 2 <= |d| ensures !OccursAt(d, "PT", i) {
      if i == 0 {
        assert d[1] == NatToString(days)[0];
      } else if i <= |NatToString(days)| + 2 {
        assert d[i] != 'P' by {
          if i <= |NatToString(days)| { assert d[i] == NatToString(days)[i - 1]; }
        }
      } else {
        assert d[i] == time[i - |NatToString(days)| - 3];
      }
      assert d[i..i + 2][0] == d[i];
    }
    assert Mss(0) == "0:00";
  }

  /** An example reduces to a clock text and the components that spell it. */
  lemma ExampleOf(d: string, h: Option<nat>, m: Option<nat>, s: Option<nat>, clock: string)
    requires TimeText(h, m, s) == d
    requires Mss(TotalSeconds(h, m, s)) == clock
    ensures FormatDuration(d) == clock
  {
    FormatTimeDesignators(h, m, s);
  }

  lemma ExampleHoursMinutes()
    ensures FormatDuration("PT1H5M") == "65:00"
  {
    assert TimeText(Some(1), Some(5), None) == "PT1H5M";
    assert TotalSeconds(Some(1), Some(5), None) == 3900;
    assert Mss(3900) == "65:00" by {
      assert NatToString(65) == "65";
      assert Pad2(NatToString(0)) == "00";
    }
    ExampleOf("PT1H5M", Some(1), Some(5), None, "65:00");
  }

  lemma ExampleMinutesSeconds()
    ensures FormatDuration("PT3M7S") == "3:07"
  {
    assert TimeText(None, Some(3), Some(7)) == "PT3M7S";
    assert TotalSeconds(None, Some(3), Some(7)) == 187;
    assert Mss(187) == "3:07" by {
      assert NatToString(3) == "3";
      assert Pad2(NatToString(7)) == "07";
    }
    ExampleOf("PT3M7S", None, Some(3), Some(7), "3:07");
  }

  lemma ExampleSeconds()
    ensures FormatDuration("PT45S") == "0:45"
  {
    assert TimeText(None, None, Some(45)) == "PT45S";
    assert TotalSeconds(None, None, Some(45)) == 45;
    assert Mss(45) == "0:45" by {
      assert NatToString(0) == "0";
      assert Pad2(NatToString(45)) == "45";
    }
    ExampleOf("PT45S", None, None, Some(45), "0:45");
  }

  /** `PT1H5M` gives `65:00`, `PT3M7S` gives `3:07` and `PT45S` gives `0:45`. */
  lemma Examples()
    ensures FormatDuration("PT1H5M") == "65:00"
    ensures FormatDuration("PT3M7S") == "3:07"
    ensures FormatDuration("PT45S") == "0:45"
  {
    ExampleHoursMinutes();
    ExampleMinutesSeconds();
    ExampleSeconds();
  }
}
