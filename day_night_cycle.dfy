/**
 * The day-night cycle component (Assets/Script/DayNightCycleController.cs): the time fields it
 * keeps, the per-frame advance, the rendering of the derived values into the sun light and the
 * global lighting settings, the public setters and the start-up check for a sun light.
 */
module DayNightCycle {
  import opened Wrappers
  import opened DayNightTime
  import opened DayNightLighting

  /** The scene light that plays the sun: the properties of it that the cycle reads or writes. */
  class Light {
    var isDirectional: bool
    /** The local Euler angles, in degrees. */
    var pitch: real
    var yaw: real
    var roll: real
    var intensity: real
    var color: Color
    var shadows: LightShadows

    function State(): SunState
      reads this
    {
      SunState(isDirectional, pitch, yaw, roll, intensity, color, shadows)
    }

    constructor (directional: bool, yaw: real, roll: real, color: Color)
      ensures isDirectional == directional && this.yaw == yaw && this.roll == roll && this.color == color
      ensures pitch == 0.0 && intensity == 1.0 && shadows == NoShadows
    {
      isDirectional := directional;
      pitch, this.yaw, this.roll := 0.0, yaw, roll;
      intensity := 1.0;
      this.color := color;
      shadows := NoShadows;
    }
  }

  /** The engine's global lighting settings the cycle writes (its `RenderSettings`). */
  class RenderSettings {
    var ambientIntensity: real
    var ambientLight: Color
    /** Whether a skybox material with a `_Tint` colour is set. */
    var skyboxHasTint: bool
    var skyboxTint: Color

    function State(): AmbientState
      reads this
    {
      AmbientState(ambientIntensity, ambientLight, skyboxHasTint, skyboxTint)
    }

    constructor (intensity: real, light: Color, hasTint: bool, tint: Color)
      ensures ambientIntensity == intensity && ambientLight == light
      ensures skyboxHasTint == hasTint && skyboxTint == tint
    {
      ambientIntensity, ambientLight := intensity, light;
      skyboxHasTint, skyboxTint := hasTint, tint;
    }
  }

  class DayNightCycleController {
    var dayDurationInSeconds: real
    var currentTimeNormalized: real
    var timeScaleMultiplier: real
    var isTimeReversed: bool
    var sunLight: Light?
    var baseSunIntensity: real
    var sunIntensityCurve: Option<Curve>
    var sunColorGradient: Option<Gradient>
    var ambientIntensityCurve: Option<Curve>
    var ambientColorGradient: Option<Gradient>
    var isDayEnableShadows: bool
    var currentTimeString: string
    var currentSunIntensityDebug: real
    /** The component's enabled flag; the engine stops calling `Update` once it is false. */
    var enabled: bool
    const renderSettings: RenderSettings

    /** A component as the scene creates it: the inspector's references and the declared defaults (lines 8-51). */
    constructor (sun: Light?, render: RenderSettings,
                 sunCurve: Option<Curve>, sunGradient: Option<Gradient>,
                 ambientCurve: Option<Curve>, ambientGradient: Option<Gradient>)
      ensures dayDurationInSeconds == 120.0 && currentTimeNormalized == 0.25
      ensures timeScaleMultiplier == 1.0 && !isTimeReversed
      ensures sunLight == sun && baseSunIntensity == 1.0
      ensures sunIntensityCurve == sunCurve && sunColorGradient == sunGradient
      ensures ambientIntensityCurve == ambientCurve && ambientColorGradient == ambientGradient
      ensures isDayEnableShadows && currentTimeString == "" && currentSunIntensityDebug == 0.0
      ensures enabled && renderSettings == render
    {
      dayDurationInSeconds := 120.0;
      currentTimeNormalized := 0.25;
      timeScaleMultiplier := 1.0;
      isTimeReversed := false;
      sunLight := sun;
      baseSunIntensity := 1.0;
      sunIntensityCurve, sunColorGradient := sunCurve, sunGradient;
      ambientIntensityCurve, ambientColorGradient := ambientCurve, ambientGradient;
      isDayEnableShadows := true;
      currentTimeString := "";
      currentSunIntensityDebug := 0.0;
      enabled := true;
      renderSettings := render;
    }

    /** The time lies in the range the inspector allows. */
    predicate InDay()
      reads this
    {
      0.0 <= currentTimeNormalized <= 1.0
    }

    /** The step the current settings give a frame of `deltaTime` seconds. */
    function StepFor(deltaTime: real): real
      reads this
      requires dayDurationInSeconds != 0.0
    {
      FrameStep(deltaTime, dayDurationInSeconds, timeScaleMultiplier)
    }

    /** The lighting settings the inspector gives the component. */
    function Settings(): Lighting
      reads this
    {
      Lighting(baseSunIntensity, sunIntensityCurve, sunColorGradient,
               ambientIntensityCurve, ambientColorGradient, isDayEnableShadows)
    }

    /**
     * Writes the values derived from `timeNormalized` into the scene (lines 113-169), section by
     * section: the sun, the global lighting settings, the clock string.
     */
    method UpdateDayNightCycle(timeNormalized: real)
      modifies this`currentTimeString, this`currentSunIntensityDebug, sunLight, renderSettings
      ensures sunLight != null ==>
        sunLight.State() == LitSun(old(sunLight.State()), Settings(), timeNormalized) &&
        currentSunIntensityDebug == sunLight.intensity
      ensures sunLight == null ==> currentSunIntensityDebug == old(currentSunIntensityDebug)
      ensures renderSettings.State() == LitAmbient(old(renderSettings.State()), Settings(), timeNormalized)
      ensures currentTimeString == ClockString(timeNormalized)
    {
      RenderSun(timeNormalized);
      RenderAmbient(timeNormalized);
      var hours := Hours(timeNormalized);
      var minutes := Minutes(timeNormalized);
      currentTimeString := Format00(hours) + ":" + Format00(minutes);
    }

    /** The sun's rotation, intensity, colour (lines 115-139) and shadow mode (lines 157-161). */
    method RenderSun(timeNormalized: real)
      modifies this`currentSunIntensityDebug, sunLight
      ensures sunLight != null ==>
        sunLight.State() == LitSun(old(sunLight.State()), Settings(), timeNormalized) &&
        currentSunIntensityDebug == sunLight.intensity
      ensures sunLight == null ==> currentSunIntensityDebug == old(currentSunIntensityDebug)
    {
      if sunLight == null {
        return;
      }
      sunLight.pitch := SunPitch(timeNormalized);
      var curveMultiplier := 1.0;
      if sunIntensityCurve.Some? && sunIntensityCurve.value.keyCount > 0 {
        curveMultiplier := sunIntensityCurve.value.evaluate(timeNormalized);
      }
      assert curveMultiplier == EvaluateOr(sunIntensityCurve, timeNormalized, 1.0);
      sunLight.intensity := baseSunIntensity * curveMultiplier;
      currentSunIntensityDebug := sunLight.intensity;
      if sunColorGradient.Some? {
        sunLight.color := sunColorGradient.value.evaluate(timeNormalized);
      }
      sunLight.shadows := if isDayEnableShadows then Soft else NoShadows;
    }

    /** The ambient intensity and colour and the skybox tint (lines 142-154). */
    method RenderAmbient(timeNormalized: real)
      modifies renderSettings
      ensures renderSettings.State() == LitAmbient(old(renderSettings.State()), Settings(), timeNormalized)
    {
      if ambientIntensityCurve.Some? && ambientIntensityCurve.value.keyCount > 0 {
        renderSettings.ambientIntensity := ambientIntensityCurve.value.evaluate(timeNormalized);
      }
      if ambientColorGradient.Some? {
        renderSettings.ambientLight := ambientColorGradient.value.evaluate(timeNormalized);
        if renderSettings.skyboxHasTint {
          renderSettings.skyboxTint := ambientColorGradient.value.evaluate(timeNormalized);
        }
      }
    }

    /**
     * Start-up (lines 54-81): without an assigned sun, take the light the scene search found if it
     * is directional; with none, disable the component; otherwise render the current time.
     */
    method Start(found: Light?)
      modifies this`sunLight, this`enabled, this`currentTimeString, this`currentSunIntensityDebug
      modifies sunLight, found, renderSettings
      ensures old(sunLight) != null ==>
        sunLight == old(sunLight) && enabled == old(enabled) &&
        sunLight.State() == LitSun(old(sunLight.State()), Settings(), currentTimeNormalized)
      ensures old(sunLight) != null && found != null && found != old(sunLight) ==> unchanged(found)
      ensures old(sunLight) == null && found != null && old(found.isDirectional) ==>
        sunLight == found && enabled == old(enabled) &&
        found.State() == LitSun(old(found.State()), Settings(), currentTimeNormalized)
      ensures sunLight != null ==>
        currentSunIntensityDebug == sunLight.intensity &&
        renderSettings.State() == LitAmbient(old(renderSettings.State()), Settings(), currentTimeNormalized) &&
        currentTimeString == ClockString(currentTimeNormalized)
      ensures old(sunLight) == null && (found == null || !old(found.isDirectional)) ==>
        sunLight == null && !enabled &&
        currentTimeString == old(currentTimeString) &&
        currentSunIntensityDebug == old(currentSunIntensityDebug) && unchanged(renderSettings) &&
        (found != null ==> unchanged(found))
    {
      if sunLight == null {
        sunLight := found;
        if sunLight != null && !sunLight.isDirectional {
          sunLight := null;
        }
        if sunLight == null {
          enabled := false;
          return;
        }
      }
      UpdateDayNightCycle(currentTimeNormalized);
    }

    /**
     * One frame (lines 83-111): with a sun, move the time by this frame's step, wrap it once and
     * render the new time; without one, do nothing.
     */
    method Update(deltaTime: real)
      requires dayDurationInSeconds != 0.0
      modifies this`currentTimeNormalized, this`currentTimeString, this`currentSunIntensityDebug
      modifies sunLight, renderSettings
      ensures old(sunLight) == null ==>
        currentTimeNormalized == old(currentTimeNormalized) &&
        currentTimeString == old(currentTimeString) &&
        currentSunIntensityDebug == old(currentSunIntensityDebug) && unchanged(renderSettings)
      ensures sunLight != null ==>
        currentTimeNormalized == Step(old(currentTimeNormalized), old(StepFor(deltaTime)), isTimeReversed) &&
        sunLight.State() == LitSun(old(sunLight.State()), Settings(), currentTimeNormalized) &&
        currentSunIntensityDebug == sunLight.intensity &&
        renderSettings.State() == LitAmbient(old(renderSettings.State()), Settings(), currentTimeNormalized) &&
        currentTimeString == ClockString(currentTimeNormalized)
      ensures sunLight != null && old(InDay()) && -1.0 < old(StepFor(deltaTime)) < 1.0 ==>
        0.0 <= currentTimeNormalized < 1.0 &&
        currentTimeNormalized == Frac(old(currentTimeNormalized) + Signed(old(StepFor(deltaTime)), isTimeReversed))
    {
      if sunLight == null {
        return;
      }
      var timeDeltaThisFrame := FrameStep(deltaTime, dayDurationInSeconds, timeScaleMultiplier);
      ghost var t0, t1 := currentTimeNormalized, Step(currentTimeNormalized, timeDeltaThisFrame, isTimeReversed);
      if isTimeReversed {
        currentTimeNormalized := currentTimeNormalized - timeDeltaThisFrame;
      } else {
        currentTimeNormalized := currentTimeNormalized + timeDeltaThisFrame;
      }
      if currentTimeNormalized >= 1.0 {
        currentTimeNormalized := currentTimeNormalized - 1.0;
      } else if currentTimeNormalized < 0.0 {
        currentTimeNormalized := currentTimeNormalized + 1.0;
      }
      assert currentTimeNormalized == t1;
      if 0.0 <= t0 <= 1.0 && -1.0 < timeDeltaThisFrame < 1.0 {
        StepStaysInDay(t0, timeDeltaThisFrame, isTimeReversed);
      }
      UpdateDayNightCycle(currentTimeNormalized);
    }

    /** Sets the time scale, raising a negative one to 0 (lines 173-176). */
    method SetTimeScaleMultiplier(multiplier: real)
      modifies this`timeScaleMultiplier
      ensures timeScaleMultiplier >= 0.0
      ensures timeScaleMultiplier == (if multiplier > 0.0 then multiplier else 0.0)
    {
      timeScaleMultiplier := AtLeastZero(multiplier);
    }

    /** Sets the direction of time (lines 178-181). */
    method SetTimeReversed(reverse: bool)
      modifies this`isTimeReversed
      ensures isTimeReversed == reverse
    {
      isTimeReversed := reverse;
    }

    /** Sets the shadows flag and, with a sun, its shadow mode at once (lines 183-190). */
    method SetIsDayEnableShadows(enable: bool)
      modifies this`isDayEnableShadows, sunLight
      ensures isDayEnableShadows == enable
      ensures sunLight != null ==> sunLight.State() == old(sunLight.State()).(shadows := ShadowMode(enable))
    {
      isDayEnableShadows := enable;
      if sunLight != null {
        sunLight.shadows := if isDayEnableShadows then Soft else NoShadows;
      }
    }

    /**
     * Jumps to a time, clamped into [0, 1], and renders it at once while the game plays and a sun
     * exists (lines 192-199).
     */
    method SetCurrentTimeNormalized(time: real, isPlaying: bool)
      modifies this`currentTimeNormalized, this`currentTimeString, this`currentSunIntensityDebug
      modifies sunLight, renderSettings
      ensures currentTimeNormalized == Clamp01(time) && InDay()
      ensures isPlaying && sunLight != null ==>
        sunLight.State() == LitSun(old(sunLight.State()), Settings(), currentTimeNormalized) &&
        currentSunIntensityDebug == sunLight.intensity &&
        renderSettings.State() == LitAmbient(old(renderSettings.State()), Settings(), currentTimeNormalized) &&
        currentTimeString == ClockString(currentTimeNormalized)
      ensures !(isPlaying && sunLight != null) ==>
        currentTimeString == old(currentTimeString) &&
        currentSunIntensityDebug == old(currentSunIntensityDebug) &&
        unchanged(renderSettings) && (sunLight != null ==> unchanged(sunLight))
    {
      currentTimeNormalized := Clamp01(time);
      if isPlaying && sunLight != null {
        UpdateDayNightCycle(currentTimeNormalized);
      }
    }
  }
}
