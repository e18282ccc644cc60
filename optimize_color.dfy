/**
 * The two integer helpers of scripts/optimize_color.py: the `H:MM:SS`
 * rendering of a duration used in its progress report, and the
 * downsampling ratio that brings a raster's shorter side to a target size.
 */
module OptimizeColor {
  import opened Wrappers
  import opened Text

  /** Python 3's `round` of a float to an int: to the nearest integer, ties to the even one. */
  function Round(x: real): (r: int)
    ensures -0.5 <= r as real - x <= 0.5
    ensures (r as real - x == 0.5 || x - r as real == 0.5) ==> r % 2 == 0
  {
    var f := x.Floor;
    var d := x - f as real;
    if d < 0.5 then f
    else if d > 0.5 then f + 1
    else if f % 2 == 0 then f
    else f + 1
  }

  /** `divmod(t, 3600)` then `divmod(rest, 60)`: Python's floor division, which
      agrees with Dafny's for a positive divisor. */
  function Clock(t: int): (r: (int, int, int))
    ensures r.0 * 3600 + r.1 * 60 + r.2 == t
    ensures 0 <= r.1 < 60 && 0 <= r.2 < 60
  {
    var rest := t % 3600;
    (t / 3600, rest / 60, rest % 60)
  }

  /** Hours, minutes and seconds with minutes and seconds below 60 are unique. */
  lemma ClockUnique(t: int, h: int, m: int, s: int)
    requires h * 3600 + m * 60 + s == t
    requires 0 <= m < 60 && 0 <= s < 60
    ensures Clock(t) == (h, m, s)
  {
    var c := Clock(t);
    assert 0 <= m * 60 + s < 3600;
    assert h == c.0;
  }

  /** `'%02i' % n` for `0 <= n < 100`: exactly two digits that read back as `n`. */
  function TwoDigits(n: int): (r: string)
    requires 0 <= n < 100
    ensures |r| == 2 && AllDigits(r) && DigitsValue(r) == n
  {
    var d := Digits(n);
    DigitsRoundTrip(n);
    assert |d| <= 2 by {
      if n >= 10 {
        assert Digits(n / 10) == [DigitChar(n / 10)];
      }
    }
    LeadingZeros(2 - |d|, d);
    PadLeft(d, 2, '0')
  }

  /** `'%2i' % h`: the hours right-aligned in two columns. */
  function Hours(h: int): (r: string)
    ensures |r| >= 2
  {
    PadLeft(SignedDigits(h), 2, ' ')
  }

  /** `'%2i:%02i:%02i' % (h, m, s)` once minutes and seconds are below 60. */
  function Clockface(h: int, m: int, s: int): (r: string)
    requires 0 <= m < 60 && 0 <= s < 60
    ensures |r| >= 8
  {
    Hours(h) + ":" + TwoDigits(m) + ":" + TwoDigits(s)
  }

  /** `time_string(seconds)`: the rounded seconds as hours, minutes and seconds. */
  function TimeString(seconds: real): (r: string)
    ensures |r| >= 8
  {
    var (h, m, s) := Clock(Round(seconds));
    Clockface(h, m, s)
  }

  /** The hours field has a space before a single digit, is the digits
      themselves from 10 up, and is exactly two characters from -9 to 99. */
  lemma HoursField(h: int)
    ensures 0 <= h < 10 ==> Hours(h) == [' ', DigitChar(h)]
    ensures 10 <= h ==> Hours(h) == Digits(h)
    ensures -10 < h < 100 <==> |Hours(h)| == 2
  {
    if 0 <= h < 10 {
      assert SignedDigits(h) == [DigitChar(h)];
    } else if 10 <= h {
      DigitsLength(h);
      assert seq(0, _ => ' ') + Digits(h) == Digits(h);
    } else if h <= -10 {
      DigitsLength(-h);
    }
  }

  /** Three fields joined by colons, the last two of width two, sliced out again. */
  lemma Colons(a: string, b: string, c: string)
    requires |b| == 2 && |c| == 2
    ensures var r := a + ":" + b + ":" + c;
      && |r| == |a| + 6
      && r[..|a|] == a && r[|a|] == ':' && r[|a| + 1..|a| + 3] == b
      && r[|a| + 3] == ':' && r[|a| + 4..] == c
  {
    var r := a + ":" + b + ":" + c;
    assert r[..|a|] == a;
    assert r[|a| + 1..|a| + 3] == b;
    assert r[|a| + 4..] == c;
  }

  /** The rendering is the hours field, then the minutes and the seconds
      fields, each after a colon, at fixed distances from the end. */
  lemma ClockfaceLayout(h: int, m: int, s: int)
    requires 0 <= m < 60 && 0 <= s < 60
    ensures var r := Clockface(h, m, s);
      && |r| == |Hours(h)| + 6
      && r[..|r| - 6] == Hours(h)
      && r[|r| - 6] == ':' && r[|r| - 3] == ':'
      && r[|r| - 5..|r| - 3] == TwoDigits(m)
      && r[|r| - 2..] == TwoDigits(s)
  {
    Colons(Hours(h), TwoDigits(m), TwoDigits(s));
  }

  /** `r` reads back as the hours field `hours`, then two colon-led fields of
      two digits each that read back as `m` and `s`. */
  predicate ReadsBack(r: string, hours: string, m: int, s: int)
  {
    && |r| == |hours| + 6 && r[..|hours|] == hours
    && r[|hours|] == ':' && r[|hours| + 3] == ':'
    && AllDigits(r[|hours| + 1..|hours| + 3]) && DigitsValue(r[|hours| + 1..|hours| + 3]) == m
    && AllDigits(r[|hours| + 4..]) && DigitsValue(r[|hours| + 4..]) == s
  }

  /** The rendering of hours, minutes and seconds reads back as them. */
  lemma ClockfaceFields(h: int, m: int, s: int)
    requires 0 <= m < 60 && 0 <= s < 60
    ensures ReadsBack(Clockface(h, m, s), Hours(h), m, s)
  {
    Colons(Hours(h), TwoDigits(m), TwoDigits(s));
  }

  /** The rendering of `seconds` reads back as the rounded seconds: the hours
      field, then the minutes and the seconds `Clock` splits the rounded total
      into. */
  lemma TimeStringFields(seconds: real)
    ensures var c := Clock(Round(seconds));
      ReadsBack(TimeString(seconds), Hours(c.0), c.1, c.2)
  {
    var c := Clock(Round(seconds));
    ClockfaceFields(c.0, c.1, c.2);
  }

  /** 3599.5 seconds round to the even 3600, one hour: the rendering is ` 1:00:00`. */
  lemma TimeStringTie()
    ensures TimeString(3599.5) == " 1:00:00"
  {
    assert Round(3599.5) == 3600;
    assert Clock(3600) == (1, 0, 0);
    assert Hours(1) == " 1";
    assert TwoDigits(0) == "00";
    assert Clockface(1, 0, 0) == " 1:00:00";
  }

  /** Numbers of 10 or more take two digits or more, and 100 or more take three. */
  lemma {:induction false} DigitsLength(n: nat)
    ensures 10 <= n ==> |Digits(n)| >= 2
    ensures 100 <= n ==> |Digits(n)| >= 3
    ensures n < 100 ==> |Digits(n)| <= 2
  {
    if n >= 10 {
      DigitsLength(n / 10);
    }
  }

  /** `calc_downsample`'s default target size, in pixels. */
  const DefaultTarget: int := 400

  /** `calc_downsample(w, h, target)`: the shorter side divided by the target;
      a zero target raises `ZeroDivisionError` (`None`). */
  function CalcDownsample(w: int, h: int, target: int): (r: Option<real>)
    ensures r.None? <==> target == 0
    ensures r.Some? ==> r.value * target as real == (if w < h then w else h) as real
  {
    if target == 0 then None
    else if w > h then Some(h as real / target as real)
    else Some(w as real / target as real)
  }

  /** The ratio does not depend on the orientation of the raster. */
  lemma DownsampleSymmetric(w: int, h: int, target: int)
    ensures CalcDownsample(w, h, target) == CalcDownsample(h, w, target)
  {
  }

  /** Dividing the shorter side by the ratio gives the target back. */
  lemma DownsampleReachesTarget(w: int, h: int, target: int)
    requires target != 0 && w > 0 && h > 0
    ensures var ratio := CalcDownsample(w, h, target).value;
      ratio != 0.0 && (if w < h then w else h) as real / ratio == target as real
  {
    var ratio := CalcDownsample(w, h, target).value;
    var side := (if w < h then w else h) as real;
    assert ratio * target as real == side;
    assert ratio != 0.0;
    assert side / ratio == target as real by {
      assert side == target as real * ratio;
    }
  }
}
