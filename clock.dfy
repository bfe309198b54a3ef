/**
 * The `m:ss` clock text used for every duration and position on screen: whole
 * minutes (hours are folded into minutes), a colon, and the seconds padded to two
 * digits. Both YouTube duration formatters and both player `formatTime`s end in
 * this rendering.
 */
module Clock {
  import opened Strings
  import opened Wrappers

  /** The two-digit seconds field, `String(n).padStart(2, "0")`. */
  function TwoDigits(n: nat): (s: string)
    requires n < 60
    ensures |s| == 2 && AllDigits(s) && ParseDigits(s) == n
  {
    var d := NatToString(n);
    ParseNatToString(n);
    if n < 10 then
      assert d == [DigitChar(n)];
      DigitRoundTrip(n);
      var s := Pad2(d);
      assert s == ['0', DigitChar(n)];
      assert s[..1] == ['0'];
      s
    else
      assert |d| == 2 by { assert n / 10 < 10; }
      Pad2(d)
  }

  /** `${Math.floor(total / 60)}:${String(total % 60).padStart(2, "0")}`. */
  function Mss(total: nat): string {
    NatToString(total / 60) + ":" + Pad2(NatToString(total % 60))
  }

  /** Reads an `m:ss` text back into seconds; `None` for anything else. */
  function ParseClock(s: string): Option<nat> {
    var i := IndexOf(s, ":");
    if i == -1 then None
    else
      var m := s[..i];
      var ss := s[i + 1..];
      if m != [] && AllDigits(m) && |ss| == 2 && AllDigits(ss) && ParseDigits(ss) < 60
      then Some(60 * ParseDigits(m) + ParseDigits(ss))
      else None
  }

  /** The colon of a clock text is the first one. */
  lemma ColonPosition(m: string, rest: string)
    requires AllDigits(m)
    ensures IndexOf(m + ":" + rest, ":") == |m|
  {
    var s := m + ":" + rest;
    assert OccursAt(s, ":", |m|) by { assert s[|m|..|m| + 1] == [':']; }
    forall k: nat | k < |m| ensures !OccursAt(s, ":", k) {
      assert s[k] == m[k];
      assert s[k..k + 1] == [s[k]];
    }
  }

  /**
   * `Mss` loses nothing: reading the text back gives the total again. So the
   * minutes field times 60 plus the seconds field is the total, and the seconds
   * field is two digits between 00 and 59.
   */
  lemma MssRoundTrip(total: nat)
    ensures ParseClock(Mss(total)) == Some(total)
  {
    var m := NatToString(total / 60);
    var ss := Pad2(NatToString(total % 60));
    assert ss == TwoDigits(total % 60);
    ColonPosition(m, ss);
    var s := Mss(total);
    assert s[..|m|] == m && s[|m| + 1..] == ss;
    ParseNatToString(total / 60);
  }

  /** Different totals give different texts. */
  lemma MssInjective(a: nat, b: nat)
    requires Mss(a) == Mss(b)
    ensures a == b
  {
    MssRoundTrip(a);
    MssRoundTrip(b);
  }

  /** The text ends in a colon and two digits that read as a number under 60. */
  lemma MssSecondsField(total: nat)
    ensures var s := Mss(total);
      |s| >= 4 && s[|s| - 3] == ':' && AllDigits(s[|s| - 2..]) &&
      ParseDigits(s[|s| - 2..]) == total % 60
  {
    var s := Mss(total);
    var ss := TwoDigits(total % 60);
    assert s == NatToString(total / 60) + ":" + ss;
    assert s[|s| - 2..] == ss;
  }
}
