/** The scene's lighting as a function of the time of day (hours), and the
    rule that turns a pointer hit on the ground into a planting position. */
module GardenScene {
  import opened Types

  const DayAmbient: real := 1.5
  const NightAmbient: real := 0.35
  const DawnAmbient: real := 0.4   // where the dawn ramp starts, and the dusk ramp ends
  const RampSlope: real := 1.1     // ambient change per hour on both ramps

  /** Full day: strictly between 6 and 18 o'clock. */
  predicate IsDay(t: real)
  {
    6.0 < t < 18.0
  }

  /** Ambient light: the day level by day, a linear ramp up on (5, 6] and down
      on [18, 19), and the night level otherwise. */
  function AmbientIntensity(t: real): (r: real)
    ensures IsDay(t) ==> r == DayAmbient
    ensures 5.0 < t <= 6.0 ==> r == DawnAmbient + (t - 5.0) * RampSlope
    ensures 18.0 <= t < 19.0 ==> r == DayAmbient - (t - 18.0) * RampSlope
    ensures (t <= 5.0 || t >= 19.0) ==> r == NightAmbient
    ensures NightAmbient <= r <= DayAmbient
  {
    if t > 6.0 && t < 18.0 then DayAmbient
    else if t > 5.0 && t <= 6.0 then DawnAmbient + (t - 5.0) * RampSlope
    else if t >= 18.0 && t < 19.0 then DayAmbient - (t - 18.0) * RampSlope
    else NightAmbient
  }

  /** Direct (sun) light: a step between the day and the night level. */
  function DirectIntensity(t: real): (r: real)
    ensures r == 3.0 <==> IsDay(t)
    ensures r == 0.5 <==> !IsDay(t)
  {
    if t > 6.0 && t < 18.0 then 3.0 else 0.5
  }

  /** Environment-map contribution: the same day band, 1 against 0.2. */
  function EnvironmentIntensity(t: real): (r: real)
    ensures r == 1.0 <==> IsDay(t)
    ensures r == 0.2 <==> !IsDay(t)
  {
    if t > 6.0 && t < 18.0 then 1.0 else 0.2
  }

  /** Whether the star field is drawn. */
  predicate StarsVisible(t: real)
  {
    t < 5.0 || t > 19.0
  }

  /** The sun's angle on its arc, as a fraction of a full turn: a quarter turn
      below the horizon at midnight, rising through the horizon at 6, overhead
      at 12 and setting at 18. */
  function SunAngleTurns(t: real): (a: real)
    ensures t == 6.0 ==> a == 0.0
    ensures t == 12.0 ==> a == 0.25
    ensures t == 18.0 ==> a == 0.5
    ensures t == 0.0 ==> a == -0.25
  {
    t / 24.0 - 0.25
  }

  /** The sun climbs steadily: one full turn per 24 hours. */
  lemma SunAngleSteady(t: real, u: real)
    ensures SunAngleTurns(u) - SunAngleTurns(t) == (u - t) / 24.0
  {
  }

  /** The ramps meet the day level: no jump at 6 or at 18. */
  lemma AmbientMeetsDayLevel()
    ensures AmbientIntensity(6.0) == DayAmbient
    ensures AmbientIntensity(18.0) == DayAmbient
  {
  }

  /** On (5, 19) ambient light changes by at most RampSlope per hour, so it is
      continuous there, in particular at 6 and at 18. */
  lemma AmbientLipschitzInside(t: real, u: real)
    requires 5.0 < t <= u < 19.0
    ensures -(u - t) * RampSlope <= AmbientIntensity(u) - AmbientIntensity(t) <= (u - t) * RampSlope
  {
    var a, b := AmbientIntensity(t), AmbientIntensity(u);
    if t <= 6.0 && u >= 18.0 {
      // dawn ramp to dusk ramp: both sides lie below the day level
      assert b - a <= DayAmbient - a == (6.0 - t) * RampSlope;
      assert a - b <= DayAmbient - b == (u - 18.0) * RampSlope;
    } else if t <= 6.0 && u > 6.0 {
      assert b - a == (6.0 - t) * RampSlope;
    } else if t < 18.0 && u >= 18.0 {
      assert a - b == (u - 18.0) * RampSlope;
    }
  }

  /** At 5 and 19 the ambient light does jump, from the night level 0.35 to at
      least the ramp end 0.4: continuity holds only at 6 and 18. */
  lemma AmbientJumpsAtNightEdges(t: real)
    ensures AmbientIntensity(5.0) == NightAmbient && AmbientIntensity(19.0) == NightAmbient
    ensures 5.0 < t <= 6.0 ==> AmbientIntensity(t) - AmbientIntensity(5.0) > 0.05
    ensures 18.0 <= t < 19.0 ==> AmbientIntensity(t) - AmbientIntensity(19.0) > 0.05
  {
  }

  /** Ambient light is symmetric about noon. */
  lemma AmbientSymmetric(t: real)
    ensures AmbientIntensity(t) == AmbientIntensity(24.0 - t)
  {
    var u := 24.0 - t;
    if 5.0 < t <= 6.0 {
      assert 18.0 <= u < 19.0;
      assert DawnAmbient + (t - 5.0) * RampSlope == DayAmbient - (u - 18.0) * RampSlope;
    } else if 18.0 <= t < 19.0 {
      assert 5.0 < u <= 6.0;
      assert DawnAmbient + (u - 5.0) * RampSlope == DayAmbient - (t - 18.0) * RampSlope;
    }
  }

  /** Stars never shine by day, and whenever they shine the ambient light is at
      the night level and the sun at its night intensity. */
  lemma StarsOnlyAtNight(t: real)
    requires StarsVisible(t)
    ensures !IsDay(t)
    ensures AmbientIntensity(t) == NightAmbient
    ensures DirectIntensity(t) == 0.5 && EnvironmentIntensity(t) == 0.2
  {
  }

  /** Sample points: noon is full day, 3 o'clock is night with stars. */
  lemma LightingSamples()
    ensures AmbientIntensity(12.0) == DayAmbient && !StarsVisible(12.0)
    ensures AmbientIntensity(0.0) == NightAmbient && StarsVisible(3.0)
    ensures AmbientIntensity(5.5) == 0.95 && AmbientIntensity(18.5) == 0.95
  {
  }

  /** A pointer-down event in the scene: the name of the object it hit and
      the intersection point. */
  datatype Hit = Hit(objectName: string, point: Vec3)

  /** The ground's click handler: only a hit on the object named "ground"
      plants, at the hit's x and z with y forced to 0. */
  function GroundClick(h: Hit): (r: Option<Vec3>)
    ensures r.Some? <==> h.objectName == "ground"
    ensures r.Some? ==> r.value.x == h.point.x && r.value.y == 0.0 && r.value.z == h.point.z
  {
    if h.objectName == "ground" then Some(Vec3(h.point.x, 0.0, h.point.z)) else None
  }

  /** Resolving a ground click twice changes nothing: the result is already a
      point on the ground. */
  lemma GroundClickIdempotent(h: Hit)
    requires h.objectName == "ground"
    ensures GroundClick(Hit("ground", GroundClick(h).value)) == GroundClick(h)
  {
  }
}
