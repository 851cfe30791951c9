/**
 * The `Angle` type of src/angle.rs: a magnitude tagged with its unit, its
 * unit conversions, its degrees-minutes-seconds form, its textual form and
 * the parser error type. Magnitudes are exact reals; the float parser and
 * the float formatter of the standard library are parameters.
 */
module Angles {
  import opened Wrappers
  import opened Text
  import opened Numeric

  /** The exact value of `std::f64::consts::PI`. */
  const Pi: real := 3.141592653589793115997963468544185161590576171875

  /** The marker the parser accepts for degrees: U+00BA, the masculine ordinal indicator. */
  const DegreeSuffix: string := "\U{00BA}"
  /** The marker the parser accepts for radians. */
  const RadianSuffix: string := "rad."
  /** The marker `Display` prints after a degree value: U+00B0, the degree sign. */
  const DegreeSign: string := "\U{00B0}"
  /** What `Display` prints after a radian value. */
  const RadianUnit: string := " rad."

  /** Degrees, minutes and seconds, as `(i32, u32, u32)`. */
  type Dms = (int32, uint32, uint32)

  datatype Angle = Degrees(real) | Radians(real)
  {
    /** The number the angle wraps, whatever its unit. */
    function Unwrap(): (x: real)
      ensures this == Degrees(x) || this == Radians(x)
    {
      match this
      case Degrees(d) => d
      case Radians(r) => r
    }

    function IsDegrees(): (b: bool)
      ensures b <==> this == Degrees(Unwrap())
    {
      Degrees?
    }

    function IsRadians(): (b: bool)
      ensures b <==> !IsDegrees()
      ensures b <==> this == Radians(Unwrap())
    {
      Radians?
    }

    /** The angle as a fraction of a full turn: the unit-independent measure conversions keep. */
    ghost function Turns(): real {
      match this
      case Degrees(d) => d / 360.0
      case Radians(r) => r / (2.0 * Pi)
    }

    /** The same angle in degrees; a degree angle comes back unchanged. */
    function ToDegrees(): (a: Angle)
      ensures a.IsDegrees()
      ensures IsDegrees() ==> a == this
      ensures a.Turns() == Turns()
    {
      match this
      case Degrees(_) => this
      case Radians(r) => Degrees(r * 180.0 / Pi)
    }

    /** The same angle in radians; a radian angle comes back unchanged. */
    function ToRadians(): (a: Angle)
      ensures a.IsRadians()
      ensures IsRadians() ==> a == this
      ensures a.Turns() == Turns()
    {
      match this
      case Degrees(d) => Radians(d * (Pi / 180.0))
      case Radians(_) => this
    }

    /**
     * Whole degrees, whole minutes and whole seconds of the angle in degrees;
     * see `DmsOfDegrees`.
     */
    function ToDms(): (t: Dms)
      ensures t.1 < 60 && t.2 < 60
      ensures var dd := ToDegrees().Unwrap();
        0.0 <= dd < 2147483648.0 ==> DmsValue(t) <= dd < DmsValue(t) + 1.0 / 3600.0
      ensures ToDegrees().Unwrap() < 0.0 ==> t.1 == 0 && t.2 == 0
      ensures var dd := ToDegrees().Unwrap();
        -2147483649.0 < dd < 0.0 ==> t.0 as real - 1.0 < dd <= t.0 as real
      ensures 2147483648.0 <= ToDegrees().Unwrap() ==> t.0 as int == MaxI32
      ensures ToDegrees().Unwrap() <= -2147483649.0 ==> t.0 as int == MinI32
      ensures var dd := ToDegrees().Unwrap();
        0.0 <= dd ==>
          t.1 as real / 60.0 + t.2 as real / 3600.0 <= dd - Trunc(dd) as real
          < t.1 as real / 60.0 + (t.2 as real + 1.0) / 3600.0
    {
      DmsOfDegrees(ToDegrees().Unwrap())
    }

    /** The degree angle `d + m/60 + s/3600`; documented as the inverse of `ToDms`. */
    static function FromDms(t: Dms): (a: Angle)
      ensures a.IsDegrees()
      ensures a.Unwrap() == DmsValue(t)
    {
      var d := t.0 as real;
      var m := t.1 as real;
      var s := t.2 as real;
      Degrees(d + m / 60.0 + s / 3600.0)
    }

    /**
     * `Display`: the number, as the float formatter `fmt` writes it, followed
     * by the degree sign U+00B0 or by " rad.".
     */
    function Display(fmt: real -> string): (r: string)
      ensures IsDegrees() ==> EndsWith(r, DegreeSign) && r[..|r| - |DegreeSign|] == fmt(Unwrap())
      ensures IsRadians() ==> EndsWith(r, RadianUnit) && r[..|r| - |RadianUnit|] == fmt(Unwrap())
    {
      match this
      case Degrees(d) => fmt(d) + DegreeSign
      case Radians(r) => fmt(r) + RadianUnit
    }
  }

  /**
   * The body of `to_dms` once the angle is in degrees (`dd`): each step
   * truncates toward zero and each cast saturates. For a non-negative value in
   * the range of `i32` the triple is the value rounded down to the second; for a
   * negative value the minutes and seconds come out as 0; degrees beyond the
   * range of `i32` saturate.
   */
  function DmsOfDegrees(dd: real): (t: Dms)
    ensures t.1 < 60 && t.2 < 60
    ensures 0.0 <= dd < 2147483648.0 ==> DmsValue(t) <= dd < DmsValue(t) + 1.0 / 3600.0
    ensures dd < 0.0 ==> t.1 == 0 && t.2 == 0
    ensures -2147483649.0 < dd < 0.0 ==> t.0 as real - 1.0 < dd <= t.0 as real
    ensures 2147483648.0 <= dd ==> t.0 as int == MaxI32
    ensures dd <= -2147483649.0 ==> t.0 as int == MinI32
    ensures 0.0 <= dd ==>
      t.1 as real / 60.0 + t.2 as real / 3600.0 <= dd - Trunc(dd) as real
      < t.1 as real / 60.0 + (t.2 as real + 1.0) / 3600.0
  {
    var d := Trunc(dd) as real;
    var m := Trunc((dd - d) * 60.0) as real;
    var s := (dd - d - m / 60.0) * 3600.0;
    FractionSplit(dd, d, m, s);
    TruncOfInteger(Trunc(dd));
    (SaturateI32(d), SaturateU32(m), SaturateU32(s))
  }

  /**
   * The arithmetic behind `ToDms`: with `d` the truncated degrees, `m` the
   * truncated minutes of the rest and `s` the seconds that remain, a
   * non-negative value splits into minutes and seconds in [0, 60), and a
   * negative one leaves minutes and seconds at or below 0.
   */
  lemma FractionSplit(dd: real, d: real, m: real, s: real)
    requires d == Trunc(dd) as real
    requires m == Trunc((dd - d) * 60.0) as real
    requires s == (dd - d - m / 60.0) * 3600.0
    ensures 0.0 <= dd ==> 0.0 <= m < 60.0 && 0.0 <= s < 60.0 && Trunc(m) as real == m
    ensures 0.0 <= dd ==> d + m / 60.0 + Trunc(s) as real / 3600.0 <= dd < d + m / 60.0 + (Trunc(s) as real + 1.0) / 3600.0
    ensures dd < 0.0 ==> m <= 0.0 && s <= 0.0
  {
  }

  /** The number of degrees a DMS triple stands for, read as `d + m/60 + s/3600`. */
  function DmsValue(t: Dms): real {
    t.0 as real + t.1 as real / 60.0 + t.2 as real / 3600.0
  }

  /** `ParseAngleError`; `E` is the float parser's own error, which the second variant wraps. */
  datatype ParseAngleError<E> = UnrecognizedUnit | ParseFloatError(cause: E)
  {
    /** `Error::source`: the wrapped float error, and nothing for an unrecognised unit. */
    function Source(): (r: Option<E>)
      ensures r.None? <==> this == UnrecognizedUnit
      ensures r.Some? ==> this == ParseFloatError(r.value)
    {
      match this
      case UnrecognizedUnit => None
      case ParseFloatError(e) => Some(e)
    }
  }

  /** The number text of `s`: strip every trailing copy of `suffix`, then trailing whitespace. */
  function NumberText(s: string, suffix: string): (p: string)
    requires |suffix| > 0
    ensures |p| <= |s| && p == s[..|p|]
  {
    TrimEnd(TrimEndMatches(s, suffix))
  }

  /**
   * `FromStr::from_str`, with `parse` standing for `str::parse::<f64>`. A text
   * ending in U+00BA is a degree angle, else one ending in "rad." is a radian
   * angle, else the unit is unrecognised; the number is whatever `parse`
   * makes of the text left once the markers and trailing whitespace are gone.
   */
  function FromStr<E>(s: string, parse: string -> Result<real, E>): (r: Result<Angle, ParseAngleError<E>>)
    ensures r == Err(UnrecognizedUnit) <==> !EndsWith(s, DegreeSuffix) && !EndsWith(s, RadianSuffix)
    ensures r.Ok? && r.value.IsDegrees() ==> EndsWith(s, DegreeSuffix)
    ensures r.Ok? && r.value.IsRadians() ==> !EndsWith(s, DegreeSuffix) && EndsWith(s, RadianSuffix)
  {
    if EndsWith(s, DegreeSuffix) then
      match parse(NumberText(s, DegreeSuffix))
      case Ok(d) => Ok(Degrees(d))
      case Err(e) => Err(ParseFloatError(e))
    else if EndsWith(s, RadianSuffix) then
      match parse(NumberText(s, RadianSuffix))
      case Ok(r) => Ok(Radians(r))
      case Err(e) => Err(ParseFloatError(e))
    else
      Err(UnrecognizedUnit)
  }
}
