/**
 * What the angle type promises across several calls: conversions lose
 * nothing, `from_dms` undoes `to_dms`, and the parser reads back exactly the
 * number text of its input (and the displayed radian form, but not the
 * displayed degree form).
 */
module AngleProperties {
  import opened Wrappers
  import opened Text
  import opened Numeric
  import opened Angles

  // ---- Unit conversion ----

  /** Converting twice to the same unit changes nothing more. */
  lemma ConversionsIdempotent(a: Angle)
    ensures a.ToDegrees().ToDegrees() == a.ToDegrees()
    ensures a.ToRadians().ToRadians() == a.ToRadians()
  {
  }

  /** Going through the other unit and back gives the direct conversion (in exact arithmetic). */
  lemma ConversionsRoundTrip(a: Angle)
    ensures a.ToRadians().ToDegrees() == a.ToDegrees()
    ensures a.ToDegrees().ToRadians() == a.ToRadians()
  {
  }

  /** A quarter of a half-turn in radians, as written with f64 precision, is 45 degrees to within 1e-9. */
  lemma QuarterTurnInDegrees()
    ensures var x := Radians(0.7853981633974483).ToDegrees().Unwrap();
      44.999999999 < x < 45.000000001
  {
  }

  // ---- Degrees, minutes, seconds ----

  /** `to_dms` undoes `from_dms` on every non-negative triple with minutes and seconds below 60. */
  lemma DmsInverse(t: Dms)
    requires 0 <= t.0 && t.1 < 60 && t.2 < 60
    ensures Angle.FromDms(t).ToDms() == t
  {
    var dd := DmsValue(t);
    var f := t.1 as real / 60.0 + t.2 as real / 3600.0;
    assert 0.0 <= f < 1.0;
    assert Trunc(dd) == t.0 as int;
    var y := (dd - t.0 as real) * 60.0;
    assert y == t.1 as real + t.2 as real / 60.0;
    assert Trunc(y) == t.1 as int;
    var s := (dd - t.0 as real - t.1 as real / 60.0) * 3600.0;
    assert s == t.2 as real;
    TruncOfInteger(t.0 as int);
    TruncOfInteger(t.1 as int);
    TruncOfInteger(t.2 as int);
  }

  /** A whole number of degrees, negative ones included, survives the DMS round trip. */
  lemma DmsInverseWholeDegrees(d: int32)
    ensures Angle.FromDms((d, 0, 0)).ToDms() == (d, 0, 0)
  {
    var dd := d as real;
    assert Angle.FromDms((d, 0, 0)) == Degrees(dd);
    TruncOfInteger(d as int);
    assert (dd - dd) * 60.0 == 0.0;
    TruncOfInteger(0);
    assert DmsOfDegrees(dd) == (d, 0, 0);
  }

  /** Every triple `to_dms` produces is one that `from_dms` followed by `to_dms` reproduces. */
  lemma DmsStable(a: Angle)
    ensures Angle.FromDms(a.ToDms()).ToDms() == a.ToDms()
  {
    var t := a.ToDms();
    if a.ToDegrees().Unwrap() < 0.0 {
      DmsInverseWholeDegrees(t.0);
    } else {
      assert 0 <= t.0 by {
        TruncOfInteger(Trunc(a.ToDegrees().Unwrap()));
      }
      DmsInverse(t);
    }
  }

  /**
   * As written, the documented inverse fails for a negative angle with minutes:
   * (-5, 30, 0) composes to -4.5 degrees, which decomposes to (-4, 0, 0).
   */
  lemma NegativeDmsNotInverse()
    ensures Angle.FromDms((-5, 30, 0)) == Degrees(-4.5)
    ensures Angle.FromDms((-5, 30, 0)).ToDms() == (-4, 0, 0)
  {
  }

  /** Minutes of 60 or more are not undone either: `(0, 60, 0)` composes to 1 degree, which decomposes to `(1, 0, 0)`. */
  lemma NonNormalDmsNotInverse()
    ensures Angle.FromDms((0, 60, 0)) == Degrees(1.0)
    ensures Angle.FromDms((0, 60, 0)).ToDms() == (1, 0, 0)
  {
    TruncOfInteger(1);
    TruncOfInteger(0);
  }

  // ---- Parsing ----

  /**
   * `s` is the number text `p`, then whitespace `w`, then one or more copies of
   * the unit marker `suffix` (`t`), where `p` does not end in whitespace and
   * `p + w` does not end in the marker.
   */
  predicate UnitText(s: string, p: string, w: string, t: string, suffix: string)
    requires |suffix| > 0
  {
    s == p + w + t && t != [] && Repeats(t, suffix) && AllWhitespace(w)
    && !EndsInWhitespace(p) && !EndsWith(p + w, suffix)
  }

  /** Every text ending in a marker splits that way, with `NumberText` as its number text. */
  lemma UnitTextExists(s: string, suffix: string)
    requires |suffix| > 0 && EndsWith(s, suffix)
    ensures exists w, t :: UnitText(s, NumberText(s, suffix), w, t, suffix)
  {
    var q := TrimEndMatches(s, suffix);
    var p := TrimEnd(q);
    PrefixSplit(s, q, p);
    assert p == NumberText(s, suffix);
    assert q != s;
    assert UnitText(s, p, q[|p|..], s[|q|..], suffix);
  }

  /** A prefix `p` of a prefix `q` of `s` cuts `s` into three consecutive pieces. */
  lemma PrefixSplit(s: string, q: string, p: string)
    requires |p| <= |q| <= |s| && q == s[..|q|] && p == q[..|p|]
    ensures s == p + q[|p|..] + s[|q|..]
    ensures q[|p|..] + s[|q|..] == s[|p|..]
  {
    assert p + q[|p|..] == q;
  }

  /** The number text of a marked text is exactly its `p`. */
  lemma NumberTextOf(s: string, p: string, w: string, t: string, suffix: string)
    requires |suffix| > 0 && UnitText(s, p, w, t, suffix)
    ensures NumberText(s, suffix) == p
  {
    assert s == (p + w) + t;
    TrimEndMatchesOf(p + w, t, suffix);
    TrimEndOf(p, w);
  }

  /** A degree text `p w ºº…º` parses to `Degrees` of the parse of `p`, or to its float error. */
  lemma FromStrDegrees<E>(s: string, p: string, w: string, t: string, parse: string -> Result<real, E>)
    requires UnitText(s, p, w, t, DegreeSuffix)
    ensures parse(p).Ok? ==> FromStr(s, parse) == Ok(Degrees(parse(p).value))
    ensures parse(p).Err? ==> FromStr(s, parse) == Err(ParseFloatError(parse(p).error))
  {
    assert EndsWith(s, DegreeSuffix) by {
      assert s[|s| - 1] == t[|t| - 1];
    }
    NumberTextOf(s, p, w, t, DegreeSuffix);
  }

  /** A radian text `p w rad.…rad.` parses to `Radians` of the parse of `p`, or to its float error. */
  lemma FromStrRadians<E>(s: string, p: string, w: string, t: string, parse: string -> Result<real, E>)
    requires UnitText(s, p, w, t, RadianSuffix)
    ensures parse(p).Ok? ==> FromStr(s, parse) == Ok(Radians(parse(p).value))
    ensures parse(p).Err? ==> FromStr(s, parse) == Err(ParseFloatError(parse(p).error))
  {
    assert EndsWith(s, RadianSuffix) by {
      assert s[|s| - 4..] == t[|t| - 4..];
    }
    assert !EndsWith(s, DegreeSuffix) by {
      assert s[|s| - 1] == s[|s| - 4..][3] == '.';
    }
    NumberTextOf(s, p, w, t, RadianSuffix);
  }

  /** Every marker is stripped, however often it repeats: "45ºº" reads as "45". */
  lemma FromStrRepeatedDegreeMarker<E>(parse: string -> Result<real, E>)
    ensures parse("45").Ok? ==> FromStr("45\U{00BA}\U{00BA}", parse) == Ok(Degrees(parse("45").value))
  {
    assert Repeats("\U{00BA}\U{00BA}", DegreeSuffix) by {
      assert "\U{00BA}\U{00BA}"[..1] == DegreeSuffix;
      assert DegreeSuffix[..0] == [];
    }
    assert "45\U{00BA}\U{00BA}" == "45" + "" + "\U{00BA}\U{00BA}";
    FromStrDegrees("45\U{00BA}\U{00BA}", "45", "", "\U{00BA}\U{00BA}", parse);
  }

  /** Whitespace before the marker is trimmed, and a bad number is a float error: "1x rad.rad." reads as "1x". */
  lemma FromStrRepeatedRadianMarker<E>(parse: string -> Result<real, E>)
    ensures parse("1x").Err? ==> FromStr("1x rad.rad.", parse) == Err(ParseFloatError(parse("1x").error))
  {
    assert Repeats("rad.rad.", RadianSuffix) by {
      assert "rad.rad."[..4] == RadianSuffix;
      assert RadianSuffix[..0] == [];
    }
    assert AllWhitespace(" ");
    assert "1x rad.rad." == "1x" + " " + "rad.rad.";
    FromStrRadians("1x rad.rad.", "1x", " ", "rad.rad.", parse);
  }

  // ---- Display against the parser ----

  /** The degree sign `Display` prints is not the marker the parser accepts: a displayed degree angle is rejected. */
  lemma DisplayedDegreesRejected<E>(x: real, fmt: real -> string, parse: string -> Result<real, E>)
    ensures FromStr(Degrees(x).Display(fmt), parse) == Err(UnrecognizedUnit)
  {
  }

  /**
   * Whatever the float formatter writes, the displayed form of a radian angle
   * carries a unit the parser recognises as radians, and the parser hands the
   * formatter's output, trimmed of trailing whitespace, to the float parser.
   */
  lemma DisplayedRadiansRecognised<E>(x: real, fmt: real -> string, parse: string -> Result<real, E>)
    ensures NumberText(Radians(x).Display(fmt), RadianSuffix) == TrimEnd(fmt(x))
    ensures FromStr(Radians(x).Display(fmt), parse) != Err(UnrecognizedUnit)
    ensures FromStr(Radians(x).Display(fmt), parse).Ok? ==> FromStr(Radians(x).Display(fmt), parse).value.IsRadians()
  {
    var s := Radians(x).Display(fmt);
    var q := fmt(x) + " ";
    assert s == q + RadianSuffix;
    assert s[|s| - 4..] == RadianSuffix;
    assert !EndsWith(q, RadianSuffix) by {
      assert q[|q| - 1] == ' ';
    }
    assert Repeats(RadianSuffix, RadianSuffix) by {
      assert RadianSuffix[..0] == [];
    }
    TrimEndMatchesOf(q, RadianSuffix, RadianSuffix);
    assert TrimEnd(q) == TrimEnd(fmt(x)) by {
      assert IsWhitespace(q[|q| - 1]);
      assert q[..|q| - 1] == fmt(x);
    }
    assert NumberText(s, RadianSuffix) == TrimEnd(q);
    assert !EndsWith(s, DegreeSuffix) by {
      assert s[|s| - 1] == '.';
    }
  }

  /**
   * A displayed radian angle reads back as itself, provided the float formatter
   * leaves no trailing whitespace and the float parser reads its output back.
   */
  lemma DisplayedRadiansRoundTrip<E>(x: real, fmt: real -> string, parse: string -> Result<real, E>)
    requires !EndsInWhitespace(fmt(x)) && parse(fmt(x)) == Ok(x)
    ensures FromStr(Radians(x).Display(fmt), parse) == Ok(Radians(x))
  {
    var s := Radians(x).Display(fmt);
    assert s == fmt(x) + " " + RadianSuffix;
    assert Repeats(RadianSuffix, RadianSuffix) by {
      assert RadianSuffix[..0] == [];
    }
    assert AllWhitespace(" ");
    assert !EndsWith(fmt(x) + " ", RadianSuffix) by {
      var q := fmt(x) + " ";
      assert q[|q| - 1] == ' ';
    }
    FromStrRadians(s, fmt(x), " ", RadianSuffix, parse);
  }
}
