# Angle: degrees, radians, DMS and text, in Dafny

A model of the `Angle` type of the toy project's `src/angle.rs`. An angle is
a magnitude tagged with its unit, `Degrees(x)` or `Radians(x)`. The type has:

- tag queries (`is_degrees`, `is_radians`) and payload access (`unwrap`);
- unit conversions (`to_degrees` and `to_radians`), each returning its input
  unchanged when it is already in the target unit;
- decomposition into degrees, minutes and seconds (`to_dms`), where every step
  truncates toward zero and the `as i32` / `as u32` casts saturate;
- composition from degrees, minutes and seconds (`from_dms`);
- a textual form (`Display`) and a parser (`FromStr`) with the error type
  `ParseAngleError` and its `source`.

Magnitudes are exact `real`s. `Pi` is the exact value of `f64::consts::PI`.
The standard library's float parser (`str::parse::<f64>`) and float formatter
are not modelled. They enter as function parameters, `parse: string ->
Result<real, E>` and `fmt: real -> string`, and `E` is the float parser's own
error, which `ParseAngleError.ParseFloatError` wraps. Strings are sequences
of Unicode scalar values.

Files and modules:

- `wrappers.dfy` (`Wrappers`): `Option`, `Result`.
- `text.dfy` (`Text`): `ends_with`, `trim_end_matches`, `trim_end` and
  `char::is_whitespace`. The two trimming functions come with lemmas showing
  that what they keep is uniquely determined.
- `numeric.dfy` (`Numeric`): `trunc` and the saturating float-to-integer casts.
- `angle.dfy` (`Angles`): the `Angle` and `ParseAngleError` datatypes and
  `from_str`.
- `angle_properties.dfy` (`AngleProperties`): properties that relate several
  operations.
- `signed_dms.dfy` (`SignedDms`): a corrected degrees-minutes-seconds pair
  (see "## Findings").

The parser has one quirk. It accepts U+00BA (`º`, the
masculine ordinal indicator) as the degree marker (src/angle.rs:151-152).
`Display` and the interactive prompt use U+00B0 (`°`, the degree sign)
(src/angle.rs:117, src/main.rs:41). So the parser rejects the displayed form
of a degree angle with `UnrecognizedUnit` (`DisplayedDegreesRejected`). The
displayed form of a radian angle reads back as itself
(`DisplayedRadiansRoundTrip`), provided the float formatter and the float
parser agree.

The parser reads the number in three steps:

- It strips every trailing copy of the marker, so `"45ºº"` reads as `45`.
- It then strips all trailing Unicode whitespace.
- It hands what is left to `str::parse::<f64>` and accepts whatever that accepts.

`from_str` tests the degree marker first. That order cannot be observed,
because no string ends in both `º` and `rad.`.

## Model

| member | source | states |
|---|---|---|
| `Angles.Angle.Unwrap` | src/angle.rs:34-39 | the result is the payload: the angle is `Degrees` or `Radians` of it |
| `Angles.Angle.IsDegrees` | src/angle.rs:42-48 | true exactly when the angle is `Degrees` of its payload |
| `Angles.Angle.IsRadians` | src/angle.rs:51-57 | true exactly when `IsDegrees` is false, i.e. the two tags are exclusive and exhaustive; true exactly when the angle is `Radians` of its payload |
| `Angles.Angle.ToDegrees` | src/angle.rs:63-68 | the result is in degrees; a degree angle is returned unchanged; the angle measured in turns is unchanged |
| `Angles.Angle.ToRadians` | src/angle.rs:74-79 | the result is in radians; a radian angle is returned unchanged; the angle measured in turns is unchanged |
| `AngleProperties.ConversionsIdempotent` | src/angle.rs:59-79 | converting a second time to the same unit changes nothing |
| `AngleProperties.ConversionsRoundTrip` | src/angle.rs:59-79 | converting to the other unit first and then to the target unit gives the same result as converting directly (exact arithmetic) |
| `AngleProperties.QuarterTurnInDegrees` | src/angle.rs:63-68 | `Radians(0.7853981633974483)` converts to 45 degrees within 1e-9 |
| `Numeric.Trunc` | src/angle.rs:92-93 | the result is the integer part rounded toward zero: within 1 of `x` and on the side of zero |
| `Numeric.SaturateI32` | src/angle.rs:96 | `as i32`: the truncated value when it is in range, otherwise the nearest bound |
| `Numeric.SaturateU32` | src/angle.rs:96 | `as u32`: the truncated value when it is in range; 0 for any value at or below 0; the upper bound above the range |
| `Angles.DmsOfDegrees` | src/angle.rs:90-96 | minutes and seconds are below 60. For `0 <= dd < 2^31` the triple is `dd` rounded down to the second. For negative `dd`, minutes and seconds are 0 and the degrees are `dd` truncated toward zero. Beyond the range of `i32` the degrees saturate. For every non-negative `dd`, including those beyond the range, the minutes and seconds are the fraction `dd - trunc(dd)` rounded down to the second |
| `Angles.Angle.ToDms` | src/angle.rs:89-97 | all six facts of `DmsOfDegrees`, stated of the angle's value in degrees |
| `Angles.Angle.FromDms` | src/angle.rs:103-111 | the result is always in degrees and has the value `d + m/60 + s/3600` |
| `AngleProperties.DmsInverse` | src/angle.rs:99-111 | for `d >= 0`, `m < 60` and `s < 60`, `to_dms(from_dms((d, m, s))) == (d, m, s)` |
| `AngleProperties.DmsInverseWholeDegrees` | src/angle.rs:89-111 | a whole number of degrees, negatives included, survives `from_dms` followed by `to_dms` |
| `AngleProperties.DmsStable` | src/angle.rs:89-111 | every triple that `to_dms` returns comes back unchanged from `from_dms` followed by `to_dms` |
| `AngleProperties.NegativeDmsNotInverse` | src/angle.rs:101-102 | `from_dms((-5, 30, 0))` is -4.5 degrees, and decomposing it gives `(-4, 0, 0)` |
| `AngleProperties.NonNormalDmsNotInverse` | src/angle.rs:101-102 | `from_dms((0, 60, 0))` is 1 degree, and decomposing it gives `(1, 0, 0)` |
| `SignedDms.FromDms` | src/angle.rs:99-111 | corrected composition: always in degrees; its magnitude is `abs(d) + m/60 + s/3600`; it is at or below `d` for negative `d` and at or above `d` otherwise |
| `SignedDms.ToDms` | src/angle.rs:81-97 | corrected decomposition: minutes and seconds below 60; within the range of `i32`, the degrees are the value truncated toward zero and the triple is the magnitude rounded down to the second |
| `SignedDms.DmsInverse` | src/angle.rs:99-102 | the corrected pair is inverse on every triple with `m < 60` and `s < 60`, negative degrees included |
| `SignedDms.SignLostBelowOneDegree` | src/angle.rs:83-86 | the corrected pair still loses the sign of an angle in (-1, 0): -0.5 degrees decomposes to `(0, 30, 0)`, which composes to +0.5 degrees |
| `Angles.ParseAngleError.Source` | src/angle.rs:138-145 | `None` exactly for `UnrecognizedUnit`; otherwise the wrapped float error |
| `Text.EndsWith` | src/angle.rs:151 | `str::ends_with` (also used at line 158): true exactly when `s` is some text followed by `suffix`, so the last characters of `s` are `suffix` |
| `Text.IsWhitespace` | src/angle.rs:152 | `char::is_whitespace`: true exactly for the 25 characters with the Unicode White_Space property, which `trim_end` strips here and at line 159 |
| `Text.TrimEndMatches` | src/angle.rs:152 | the result is a prefix of the input, what was cut off is whole copies of the pattern, and the result does not end in the pattern |
| `Text.TrimEnd` | src/angle.rs:152 | the result is a prefix of the input, what was cut off is whitespace, and the result does not end in whitespace |
| `Text.TrimEndMatchesOf` | src/angle.rs:159 | for `p` that does not end in the pattern, stripping the pattern from `p` followed by copies of the pattern gives exactly `p` |
| `Text.TrimEndOf` | src/angle.rs:152 | for `p` that does not end in whitespace, trimming `p` followed by whitespace gives exactly `p` |
| `Angles.NumberText` | src/angle.rs:152 | the number text handed to the float parser is a prefix of the input |
| `Angles.FromStr` | src/angle.rs:150-168 | `UnrecognizedUnit` exactly when the text ends in neither `º` nor `rad.`; a degree result only for text ending in `º`; a radian result only for text ending in `rad.` and not in `º` |
| `AngleProperties.UnitTextExists` | src/angle.rs:151-159 | every text ending in a marker is its number text, then whitespace, then one or more copies of the marker |
| `AngleProperties.NumberTextOf` | src/angle.rs:152 | a text of that shape has exactly that number text |
| `AngleProperties.FromStrDegrees` | src/angle.rs:151-157 | a degree-marked text gives `Degrees` of the parsed number text, or `ParseFloatError` wrapping the parser's error |
| `AngleProperties.FromStrRadians` | src/angle.rs:158-164 | a radian-marked text gives `Radians` of the parsed number text, or `ParseFloatError` wrapping the parser's error |
| `AngleProperties.FromStrRepeatedDegreeMarker` | src/angle.rs:151-152 | `"45ºº"` reads as the number `"45"` |
| `AngleProperties.FromStrRepeatedRadianMarker` | src/angle.rs:158-162 | `"1x rad.rad."` hands `"1x"` to the float parser, and its failure becomes `ParseFloatError` |
| `Angles.Angle.Display` | src/angle.rs:114-121 | a degree angle prints as the formatted number followed by U+00B0; a radian angle prints as the formatted number followed by `" rad."` |
| `AngleProperties.DisplayedRadiansRecognised` | src/angle.rs:118 | whatever the formatter, the displayed radian form is never `UnrecognizedUnit`, and any angle it parses to is in radians; the text handed to the float parser is the formatter's output without trailing whitespace |
| `AngleProperties.DisplayedDegreesRejected` | src/angle.rs:114-121 | whatever the formatter and the parser, the displayed form of a degree angle parses to `UnrecognizedUnit` |
| `AngleProperties.DisplayedRadiansRoundTrip` | src/angle.rs:114-121 | if the float formatter leaves no trailing whitespace and the float parser reads its output back, the displayed form of a radian angle parses back to the same angle |

## Findings

| source | as written | input that shows it | evidently intended | confidence | as-written member | corrected member |
|---|---|---|---|---|---|---|
| src/angle.rs:101-102 | `from_dms` adds minutes and seconds to negative degrees. `to_dms` then saturates the negative minutes and seconds to 0. So `to_dms` does not undo `from_dms` for negative degrees with minutes or seconds | `(-5, 30, 0)`: `from_dms` gives -4.5 degrees and `to_dms` gives `(-4, 0, 0)` | the sign of the degrees applies to the whole angle, and minutes and seconds are magnitudes (the doc comment at src/angle.rs:84-86 says minutes and seconds cannot be negative), so the round trip holds for every triple with minutes and seconds below 60 | not executed; medium | `AngleProperties.NegativeDmsNotInverse` | `SignedDms.DmsInverse` |

`Angles.Angle.ToDms` and `Angles.Angle.FromDms` still model the code as
written. `SignedDms.ToDms` and `SignedDms.FromDms` are the corrected pair.
Nothing else in the model composes or decomposes DMS triples.

The corrected pair has one limit of its own. A triple's sign lives in its
whole degrees, and an angle in (-1, 0) has 0 whole degrees. So -0.5 degrees
decomposes to `(0, 30, 0)`, which composes to +0.5 degrees
(`SignedDms.SignLostBelowOneDegree`). Covering those angles would need a sign
apart from the degrees, which the `(i32, u32, u32)` shape does not have.

The documented inverse also fails for minutes or seconds of 60 or more, in
the code as written: `(0, 60, 0)` composes to 1 degree, which decomposes to
`(1, 0, 0)` (`AngleProperties.NonNormalDmsNotInverse`). Such a triple is
another spelling of a normalised one, so no decomposition can give it back.
The inverse is therefore stated only for minutes and seconds below 60.

## Left out

- IEEE-754 behaviour: rounding in the π/180 scaling and in the DMS steps, NaN, the infinities and -0.0. Magnitudes are exact reals, so the DMS round trip is exact here, while in `f64` it can lose a second at the boundary.
- `to_degrees` in the standard library multiplies by a rounded constant for 180/π. The model divides by the exact `f64::consts::PI` instead, so converting there and back is exact.
- The grammar of `str::parse::<f64>` and the output of float `Display`. These are standard-library behaviour and appear only as the parameters `parse` and `fmt`.
- AngleProperties.DmsInverse: stated only for minutes and seconds below 60, because larger ones are other spellings of a normalised triple and cannot come back from `to_dms` (`AngleProperties.NonNormalDmsNotInverse`).
- The English text of the error messages in `impl Display for ParseAngleError` (src/angle.rs:129-136). It is fixed text with no logic.
- The derived traits: `Angle` derives `Clone`, `Copy` and `Debug` (src/angle.rs:24), and `ParseAngleError` derives `Debug`, `Clone`, `Eq` and `PartialEq` (src/angle.rs:123). Dafny datatypes are values, so copying needs no model. The program has no `==` on `Angle`. Where contracts compare angles (`IsDegrees`, `ToDegrees`, `DisplayedRadiansRoundTrip` and others), `==` is structural equality of exact values, which the program itself cannot evaluate.
- src/main.rs: argument parsing, prompting and its retry loop, printing, `process::exit`, and the turtle window and pen setup. These are I/O and calls into external libraries.
- The `text` and `dragon` modules (src/main.rs:10, 12, 157) are not part of this model. Their sources are not available.
- src/bin/test_getopts.rs is a demo of the option-parsing library and has no logic of its own.
