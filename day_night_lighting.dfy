/**
 * The values the day-night cycle derives from a normalised time (UpdateDayNightCycle in
 * Assets/Script/DayNightCycleController.cs, lines 113-169): the sun's pitch, the sun's and the
 * ambient intensity, the shadow mode and the `HH:MM` clock string.
 */
module DayNightLighting {
  import opened Wrappers

  /** A colour with red, green, blue and alpha channels. */
  datatype Color = Color(r: real, g: real, b: real, a: real)

  /**
   * An animation curve: its number of keys and its evaluation, which the engine computes and
   * which is left uninterpreted here.
   */
  datatype Curve = Curve(keyCount: nat, evaluate: real -> real)

  /** A colour gradient, with its evaluation left uninterpreted. */
  datatype Gradient = Gradient(evaluate: real -> Color)

  /** The engine's shadow modes of a light; the cycle itself writes only `Soft` and `NoShadows`. */
  datatype LightShadows = NoShadows | Hard | Soft

  /** What the cycle reads and writes of the sun light: its type, local Euler angles, intensity, colour, shadows. */
  datatype SunState = SunState(isDirectional: bool, pitch: real, yaw: real, roll: real,
                               intensity: real, color: Color, shadows: LightShadows)

  /** What the cycle writes of the global lighting settings, and whether the skybox has a tint colour. */
  datatype AmbientState = AmbientState(intensity: real, light: Color, skyboxHasTint: bool, skyboxTint: Color)

  /** The inspector's lighting settings of the cycle. */
  datatype Lighting = Lighting(baseSunIntensity: real,
                               sunIntensityCurve: Option<Curve>, sunColorGradient: Option<Gradient>,
                               ambientIntensityCurve: Option<Curve>, ambientColorGradient: Option<Gradient>,
                               enableShadows: bool)

  /** The sun's rotation about its local x axis, in degrees (line 116). */
  function SunPitch(t: real): (pitch: real)
    ensures (pitch + 90.0) / 360.0 == t
    ensures 0.0 <= t < 1.0 ==> -90.0 <= pitch < 270.0
  {
    t * 360.0 - 90.0
  }

  /**
   * The value of an optional curve at `t`, or `default` when the curve is unassigned or has no
   * keys (lines 127-131 with default 1; lines 143-146 with the current ambient intensity).
   */
  function EvaluateOr(curve: Option<Curve>, t: real, default: real): (v: real)
    ensures curve.None? || curve.value.keyCount == 0 ==> v == default
    ensures curve.Some? && curve.value.keyCount > 0 ==> v == curve.value.evaluate(t)
  {
    if curve.Some? && curve.value.keyCount > 0 then curve.value.evaluate(t) else default
  }

  /** The sun's intensity: the base intensity scaled by the curve, whose multiplier defaults to 1 (line 132). */
  function SunIntensity(base: real, curve: Option<Curve>, t: real): (i: real)
  {
    base * EvaluateOr(curve, t, 1.0)
  }

  /** The value an optional gradient gives a colour at `t`, the current colour when there is none
    * (lines 135-138 and 147-149). */
  function ColorOr(gradient: Option<Gradient>, t: real, current: Color): Color
  {
    if gradient.Some? then gradient.value.evaluate(t) else current
  }

  /** The shadow mode chosen by the shadows flag (lines 160 and 188). */
  function ShadowMode(enableShadows: bool): (mode: LightShadows)
    ensures mode == Soft <==> enableShadows
    ensures mode == NoShadows <==> !enableShadows
  {
    if enableShadows then Soft else NoShadows
  }

  /**
   * The sun as the cycle leaves it at time `t` (lines 115-139 and 157-161): pitched by the time,
   * the other two angles and the light type kept, the intensity scaled by the curve, the colour
   * from the gradient when there is one, and the shadow mode of the flag.
   */
  function LitSun(sun: SunState, lighting: Lighting, t: real): (r: SunState)
    ensures r.isDirectional == sun.isDirectional && r.yaw == sun.yaw && r.roll == sun.roll
    ensures r.pitch == SunPitch(t)
    ensures r.intensity == SunIntensity(lighting.baseSunIntensity, lighting.sunIntensityCurve, t)
    ensures lighting.sunColorGradient.None? ==> r.color == sun.color
    ensures lighting.sunColorGradient.Some? ==> r.color == lighting.sunColorGradient.value.evaluate(t)
    ensures r.shadows == Soft <==> lighting.enableShadows
    ensures !lighting.enableShadows ==> r.shadows == NoShadows
  {
    sun.(pitch := SunPitch(t),
         intensity := SunIntensity(lighting.baseSunIntensity, lighting.sunIntensityCurve, t),
         color := ColorOr(lighting.sunColorGradient, t, sun.color),
         shadows := ShadowMode(lighting.enableShadows))
  }

  /**
   * The global lighting settings as the cycle leaves them at time `t` (lines 142-154): each
   * follows its curve or gradient when that is usable and is kept otherwise; the skybox tint
   * follows the ambient gradient only when the skybox has a tint colour.
   */
  function LitAmbient(ambient: AmbientState, lighting: Lighting, t: real): (r: AmbientState)
    ensures r.skyboxHasTint == ambient.skyboxHasTint
    ensures r.intensity == EvaluateOr(lighting.ambientIntensityCurve, t, ambient.intensity)
    ensures lighting.ambientColorGradient.None? ==> r.light == ambient.light && r.skyboxTint == ambient.skyboxTint
    ensures lighting.ambientColorGradient.Some? ==> r.light == lighting.ambientColorGradient.value.evaluate(t)
    ensures !ambient.skyboxHasTint ==> r.skyboxTint == ambient.skyboxTint
    ensures lighting.ambientColorGradient.Some? && ambient.skyboxHasTint ==> r.skyboxTint == r.light
  {
    var g := lighting.ambientColorGradient;
    ambient.(intensity := EvaluateOr(lighting.ambientIntensityCurve, t, ambient.intensity),
             light := ColorOr(g, t, ambient.light),
             skyboxTint := if g.Some? && ambient.skyboxHasTint then g.value.evaluate(t) else ambient.skyboxTint)
  }

  /** Rendering depends on the time and the settings only: rendering the same time twice changes nothing more. */
  lemma RenderingIdempotent(sun: SunState, ambient: AmbientState, lighting: Lighting, t: real)
    ensures LitSun(LitSun(sun, lighting, t), lighting, t) == LitSun(sun, lighting, t)
    ensures LitAmbient(LitAmbient(ambient, lighting, t), lighting, t) == LitAmbient(ambient, lighting, t)
  {
  }

  /** C#'s `%` on integers: the remainder takes the sign of the dividend. */
  function Remainder(a: int, b: int): (r: int)
    requires b > 0
    ensures -b < r < b
    ensures a >= 0 ==> r == a % b
    ensures a <= 0 ==> r <= 0
  {
    if a >= 0 then a % b else -((-a) % b)
  }

  /** The remainder by 24 leaves a whole number of days: the dividend minus it is a multiple of 24. */
  lemma RemainderBy24(a: int)
    ensures (a - Remainder(a, 24)) % 24 == 0
    ensures a < 0 ==> Remainder(a, 24) == 0 || Remainder(a, 24) == a % 24 - 24
  {
    if a >= 0 {
      assert a == 24 * (a / 24) + a % 24;
      assert a - Remainder(a, 24) == 24 * (a / 24);
    } else {
      var q, m := (-a) / 24, (-a) % 24;
      assert -a == 24 * q + m;
      assert a - Remainder(a, 24) == 24 * (-q);
      if m != 0 {
        assert a == 24 * (-q - 1) + (24 - m);
        assert a % 24 == 24 - m;
      }
    }
  }

  /** The hour shown by the clock string: the floor of the hours elapsed, C#-remaindered by 24 (line 166). */
  function Hours(t: real): (h: int)
  {
    Remainder((t * 24.0).Floor, 24)
  }

  /** The minute shown by the clock string: the floor of the fractional hour times 60 (line 167). */
  function Minutes(t: real): (m: int)
    ensures 0 <= m < 60
  {
    var hours := t * 24.0;
    ((hours - hours.Floor as real) * 60.0).Floor
  }

  /** The character of a decimal digit. */
  function DigitChar(d: int): (c: char)
    requires 0 <= d < 10
    ensures '0' <= c <= '9'
    ensures c as int - '0' as int == d
  {
    ('0' as int + d) as char
  }

  predicate IsDigit(c: char)
  {
    '0' <= c <= '9'
  }

  /** The number a string of decimal digits denotes, most significant digit first. */
  function DecimalValue(s: string): (n: int)
    decreases |s|
  {
    if s == [] then 0
    else DecimalValue(s[..|s| - 1]) * 10 + (s[|s| - 1] as int - '0' as int)
  }

  /** The shortest decimal spelling of a natural number. */
  function Digits(n: nat): (s: string)
    ensures 1 <= |s|
    ensures forall i :: 0 <= i < |s| ==> IsDigit(s[i])
    ensures DecimalValue(s) == n
    ensures n >= 10 ==> |s| >= 2
    ensures n < 10 ==> |s| == 1
    ensures n >= 100 ==> |s| >= 3
    decreases n
  {
    if n < 10 then [DigitChar(n)]
    else
      var prefix := Digits(n / 10);
      var s := prefix + [DigitChar(n % 10)];
      assert s[..|s| - 1] == prefix;
      s
  }

  /**
   * The custom numeric format "00" (line 168): at least two digits, zero-padded, with a minus
   * sign in front of a negative number.
   */
  function Format00(n: int): (s: string)
    ensures 0 <= n < 100 ==> |s| == 2 && IsDigit(s[0]) && IsDigit(s[1]) && DecimalValue(s) == n
    ensures -100 < n < 0 ==> |s| == 3 && s[0] == '-' && IsDigit(s[1]) && IsDigit(s[2]) && DecimalValue(s[1..]) == -n
    ensures n >= 100 ==> |s| >= 3
  {
    if n < 0 then "-" + Pad2(-n) else Pad2(n)
  }

  /** Zero-pads the decimal spelling of a natural number to two digits. */
  function Pad2(n: nat): (s: string)
    ensures 0 <= n < 100 ==> |s| == 2 && IsDigit(s[0]) && IsDigit(s[1]) && DecimalValue(s) == n
    ensures n >= 100 ==> |s| >= 3
  {
    if n < 10 then
      var s := ['0', DigitChar(n)];
      assert s[..1] == ['0'];
      assert ['0'][..0] == [];
      assert DecimalValue(['0']) == 0;
      s
    else Digits(n)
  }

  /** The clock string of line 168. */
  function ClockString(t: real): string
  {
    Format00(Hours(t)) + ":" + Format00(Minutes(t))
  }

  /** Minutes elapsed since midnight, the reference the hour and minute agree with. */
  function MinuteOfDay(t: real): int
  {
    (t * 1440.0).Floor
  }

  /** For a time that is not negative, the hour lies in 0..23. */
  lemma HoursInRange(t: real)
    requires t >= 0.0
    ensures 0 <= Hours(t) < 24
    ensures t < 1.0 ==> Hours(t) == (t * 24.0).Floor
  {
  }

  /**
   * For a time in [0, 1), the clock shows the minute of the day: the hour followed by the minute,
   * read as hours and minutes, is the number of whole minutes since midnight.
   */
  lemma ClockShowsMinuteOfDay(t: real)
    requires 0.0 <= t < 1.0
    ensures Hours(t) * 60 + Minutes(t) == MinuteOfDay(t)
  {
    var hours := t * 24.0;
    var h := hours.Floor;
    var f := hours - h as real;
    var m := (f * 60.0).Floor;
    assert 0 <= h < 24;
    assert Hours(t) == h;
    assert t * 1440.0 == (h * 60) as real + f * 60.0;
    assert (t * 1440.0).Floor == h * 60 + m;
  }

  /**
   * For any time that is not negative, the clock string has length 5: two digits of an hour in
   * 0..23, a colon, two digits of a minute in 0..59.
   */
  lemma ClockStringShape(t: real)
    requires t >= 0.0
    ensures var s := ClockString(t);
      |s| == 5 && s[2] == ':' &&
      IsDigit(s[0]) && IsDigit(s[1]) && IsDigit(s[3]) && IsDigit(s[4]) &&
      DecimalValue(s[..2]) == Hours(t) && 0 <= Hours(t) < 24 &&
      DecimalValue(s[3..]) == Minutes(t) && 0 <= Minutes(t) < 60
  {
    HoursInRange(t);
    var s := ClockString(t);
    var hh := Format00(Hours(t));
    var mm := Format00(Minutes(t));
    assert s == hh + ":" + mm;
    assert s[..2] == hh;
    assert s[3..] == mm;
  }

  /** A negative time, which a large reversed step can leave, shows a negative hour and six characters. */
  lemma ClockStringOfNegativeTime()
    ensures Hours(-0.3) == -8 && Minutes(-0.3) == 48
    ensures ClockString(-0.3) == "-08:48"
  {
    assert (-0.3 * 24.0).Floor == -8;
    assert Pad2(8) == "08";
    assert Pad2(48) == "48" by {
      assert Digits(4) == "4";
      assert Digits(48) == "4" + "8";
    }
  }

  /** The clock at the landmarks of the day, and the floor just before midnight. */
  lemma ClockStringLandmarks()
    ensures ClockString(0.0) == "00:00"
    ensures ClockString(0.25) == "06:00"
    ensures ClockString(0.5) == "12:00"
    ensures ClockString(0.75) == "18:00"
    ensures ClockString(1.0) == "00:00"
    ensures ClockString(0.9999) == "23:59"
  {
    assert Pad2(0) == "00";
    assert Pad2(6) == "06";
    assert Pad2(12) == "12" by { assert Digits(1) == "1"; }
    assert Pad2(18) == "18" by { assert Digits(1) == "1"; }
    assert Pad2(23) == "23" by { assert Digits(2) == "2"; }
    assert Pad2(59) == "59" by { assert Digits(5) == "5"; }
    assert (0.9999 * 24.0).Floor == 23;
    assert Minutes(0.9999) == 59;
  }

  /** The sun is at its lowest at midnight, on the horizon at sunrise and sunset, highest at noon. */
  lemma SunPitchLandmarks()
    ensures SunPitch(0.0) == -90.0
    ensures SunPitch(0.25) == 0.0
    ensures SunPitch(0.5) == 90.0
    ensures SunPitch(0.75) == 180.0
  {
  }

  /** The sun's pitch rises strictly with the time. */
  lemma SunPitchIncreasing(t1: real, t2: real)
    requires t1 < t2
    ensures SunPitch(t1) < SunPitch(t2)
  {
  }

  /** Without a usable curve the sun shines at its base intensity, whatever the time. */
  lemma SunIntensityWithoutCurve(base: real, curve: Option<Curve>, t1: real, t2: real)
    requires curve.None? || curve.value.keyCount == 0
    ensures SunIntensity(base, curve, t1) == base == SunIntensity(base, curve, t2)
  {
  }

  /** With a usable curve the sun's intensity is the base scaled by the curve's value. */
  lemma SunIntensityWithCurve(base: real, curve: Curve, t: real)
    requires curve.keyCount > 0
    ensures SunIntensity(base, Some(curve), t) == base * curve.evaluate(t)
    ensures curve.evaluate(t) == 1.0 ==> SunIntensity(base, Some(curve), t) == base
    ensures base == 0.0 ==> SunIntensity(base, Some(curve), t) == 0.0
  {
  }
}
