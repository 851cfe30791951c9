/**
 * A corrected degrees-minutes-seconds pair. The sign is carried by the
 * degrees and applies to the whole angle, and minutes and seconds are
 * magnitudes: -5 degrees 30 minutes is -5.5 degrees. Unlike `from_dms` and
 * `to_dms` as written, this pair is inverse on negative degrees too.
 */
module SignedDms {
  import opened Numeric
  import opened Angles

  /** The magnitude, in degrees, that a triple stands for: `|d| + m/60 + s/3600`. */
  function Magnitude(t: Dms): real {
    Abs(t.0 as real) + t.1 as real / 60.0 + t.2 as real / 3600.0
  }

  /** The degree angle of magnitude `|d| + m/60 + s/3600`, on the side of zero that `d` is on. */
  function FromDms(t: Dms): (a: Angle)
    ensures a.IsDegrees()
    ensures Abs(a.Unwrap()) == Magnitude(t)
    ensures t.0 < 0 ==> a.Unwrap() <= t.0 as real
    ensures 0 <= t.0 ==> t.0 as real <= a.Unwrap()
  {
    var f := t.1 as real / 60.0 + t.2 as real / 3600.0;
    if t.0 < 0 then Degrees(t.0 as real - f) else Degrees(t.0 as real + f)
  }

  /**
   * Truncated degrees, then the minutes and seconds of what is left of the
   * magnitude. Within the range of `i32` the degrees are the value truncated
   * toward zero and the triple is the magnitude rounded down to the second.
   */
  function ToDms(a: Angle): (t: Dms)
    ensures t.1 < 60 && t.2 < 60
    ensures var dd := a.ToDegrees().Unwrap();
      Abs(dd) < 2147483648.0 ==>
        t.0 as int == Trunc(dd) && Magnitude(t) <= Abs(dd) < Magnitude(t) + 1.0 / 3600.0
  {
    var dd := a.ToDegrees().Unwrap();
    var d := Trunc(dd) as real;
    var f := Abs(dd - d);
    var m := Trunc(f * 60.0) as real;
    var s := (f - m / 60.0) * 3600.0;
    MagnitudeSplit(dd, d, f, m, s);
    TruncOfInteger(Trunc(dd));
    TruncOfInteger(Trunc(f * 60.0));
    (SaturateI32(d), SaturateU32(m), SaturateU32(s))
  }

  /** The arithmetic behind `ToDms`: the rest of the magnitude splits into minutes and seconds in [0, 60). */
  lemma MagnitudeSplit(dd: real, d: real, f: real, m: real, s: real)
    requires d == Trunc(dd) as real && f == Abs(dd - d)
    requires m == Trunc(f * 60.0) as real
    requires s == (f - m / 60.0) * 3600.0
    ensures Abs(dd) == Abs(d) + f && 0.0 <= f < 1.0
    ensures 0.0 <= m < 60.0 && 0.0 <= s < 60.0
    ensures m / 60.0 + Trunc(s) as real / 3600.0 <= f < m / 60.0 + (Trunc(s) as real + 1.0) / 3600.0
  {
    var y := f * 60.0;
    assert 0.0 <= y - m < 1.0;
    assert s == (y - m) * 60.0;
    var k := Trunc(s) as real;
    assert k <= s < k + 1.0;
    assert k / 3600.0 <= (y - m) / 60.0 < (k + 1.0) / 3600.0;
  }

  /** The corrected pair is inverse on every triple with minutes and seconds below 60, negative degrees included. */
  lemma DmsInverse(t: Dms)
    requires t.1 < 60 && t.2 < 60
    ensures ToDms(FromDms(t)) == t
  {
    var f := t.1 as real / 60.0 + t.2 as real / 3600.0;
    assert 0.0 <= f < 1.0;
    var dd := FromDms(t).Unwrap();
    assert Trunc(dd) == t.0 as int;
    var d := t.0 as real;
    assert Abs(dd - d) == f;
    assert f * 60.0 == t.1 as real + t.2 as real / 60.0;
    assert Trunc(f * 60.0) == t.1 as int;
    assert (f - t.1 as real / 60.0) * 3600.0 == t.2 as real;
    TruncOfInteger(t.0 as int);
    TruncOfInteger(t.1 as int);
    TruncOfInteger(t.2 as int);
  }

  /**
   * The corrected pair still cannot express an angle in (-1, 0): its whole
   * degrees are 0, which has no sign, so -0.5 degrees comes back as +0.5.
   */
  lemma SignLostBelowOneDegree()
    ensures ToDms(Degrees(-0.5)) == (0, 30, 0)
    ensures FromDms((0, 30, 0)) == Degrees(0.5)
  {
    assert Trunc(-0.5) == 0;
    assert Trunc(0.5 * 60.0) == 30;
    TruncOfInteger(0);
    TruncOfInteger(30);
  }
}
