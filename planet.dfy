/** One mounted Planet component: its angular speeds, the per-frame update of
    its spin angle, orbital angle and pulse scale, and the props it hands to
    each of its moons. */
module PlanetMotion {
  import opened JsMath
  import opened SolarTypes
  import opened FrameClock

  /** The props of a Planet. selectId is the body that a click on it selects:
      the body itself at top level, the top-level parent for a moon. */
  datatype PlanetProps = PlanetProps(
    body: Body,
    distance: real,
    size: real,
    showOrbit: bool,
    showLabel: bool,
    isSelected: bool,
    selectId: string)

  /** orbitalSpeed: 2*PI*60 / orbitalPeriod, or 0 without a (non-zero) period. */
  function OrbitalSpeed(body: Body): (w: real)
    ensures !NumTruthy(body.orbitalPeriod) ==> w == 0.0
    ensures NumTruthy(body.orbitalPeriod) ==> w * body.orbitalPeriod.value == 2.0 * PI * 60.0
    ensures w > 0.0 <==> NumTruthy(body.orbitalPeriod) && body.orbitalPeriod.value > 0.0
  {
    if !NumTruthy(body.orbitalPeriod) then 0.0
    else (2.0 * PI * 60.0) / body.orbitalPeriod.value
  }

  /** rotationSpeed: the same formula with the rotation period converted from hours to days. */
  function RotationSpeed(body: Body): (w: real)
    requires body.rotationPeriod != 0.0
    ensures w * (body.rotationPeriod / 24.0) == 2.0 * PI * 60.0
    ensures w < 0.0 <==> body.rotationPeriod < 0.0
  {
    (2.0 * PI * 60.0) / (body.rotationPeriod / 24.0)
  }

  /** The refs the frame callback updates: mesh rotation.y, the orbital angle
      accumulator, the orbit group's rotation.y and the mesh scale. */
  datatype Motion = Motion(spin: real, orbitalPosition: real, orbitAngle: real, scale: real)

  /** The orbit advances only for a body with a truthy distance and a positive orbital speed. */
  predicate OrbitMoves(body: Body) {
    NumTruthy(body.distanceFromSun) && OrbitalSpeed(body) > 0.0
  }

  /** The camera is following this very body. */
  predicate InFollowMode(props: PlanetProps, controls: Controls, nav: Navigation) {
    nav.cameraMode == Follow && controls.selectedBody == Some(props.body.id)
  }

  /** The pulse of a selected body; sinNow is sin(Date.now() * 0.004). */
  function PulseScale(sinNow: real): real {
    1.0 + sinNow * 0.1
  }

  /** The Planet frame callback, as a function of the refs before the frame. */
  function PlanetFrame(m: Motion, props: PlanetProps, controls: Controls, nav: Navigation, sinNow: real, delta: real): (r: Motion)
    requires props.body.rotationPeriod != 0.0
    ensures IsPaused(controls.timeScale) ==> r == m
    ensures !IsPaused(controls.timeScale) ==> r.spin == Advance(m.spin, RotationSpeed(props.body), controls.timeScale, delta)
    ensures !IsPaused(controls.timeScale) && OrbitMoves(props.body) ==>
      r.orbitAngle == r.orbitalPosition == Advance(m.orbitalPosition, OrbitalSpeed(props.body), controls.timeScale, delta)
    ensures !OrbitMoves(props.body) ==> r.orbitalPosition == m.orbitalPosition && r.orbitAngle == m.orbitAngle
    ensures !IsPaused(controls.timeScale) ==> (r.scale != 1.0 ==> props.isSelected && !InFollowMode(props, controls, nav))
  {
    if IsPaused(controls.timeScale) then m
    else
      var spin := Advance(m.spin, RotationSpeed(props.body), controls.timeScale, delta);
      var orbitalPosition :=
        if OrbitMoves(props.body) then Advance(m.orbitalPosition, OrbitalSpeed(props.body), controls.timeScale, delta)
        else m.orbitalPosition;
      var orbitAngle := if OrbitMoves(props.body) then orbitalPosition else m.orbitAngle;
      var scale := if props.isSelected && !InFollowMode(props, controls, nav) then PulseScale(sinNow) else 1.0;
      Motion(spin, orbitalPosition, orbitAngle, scale)
  }

  /** A paused frame leaves every ref as it was. */
  lemma PausedFrameKeepsMotion(m: Motion, props: PlanetProps, controls: Controls, nav: Navigation, sinNow: real, delta: real)
    requires props.body.rotationPeriod != 0.0
    requires IsPaused(controls.timeScale)
    ensures PlanetFrame(m, props, controls, nav, sinNow, delta) == m
  {
  }

  /** Unpaused, the orbital angle of a moving body grows by 2*PI*timeScale*delta / period:
      one full turn every period / timeScale seconds. */
  lemma OrbitAdvance(m: Motion, props: PlanetProps, controls: Controls, nav: Navigation, sinNow: real, delta: real)
    requires props.body.rotationPeriod != 0.0
    requires !IsPaused(controls.timeScale) && OrbitMoves(props.body)
    ensures var m' := PlanetFrame(m, props, controls, nav, sinNow, delta);
      && (m'.orbitalPosition - m.orbitalPosition) * props.body.orbitalPeriod.value
         == 2.0 * PI * controls.timeScale * delta
      && m'.orbitAngle == m'.orbitalPosition
  {
    var w := OrbitalSpeed(props.body);
    var p := props.body.orbitalPeriod.value;
    var m' := PlanetFrame(m, props, controls, nav, sinNow, delta);
    assert (m'.orbitalPosition - m.orbitalPosition) * 60.0 == w * controls.timeScale * delta;
    calc {
      (m'.orbitalPosition - m.orbitalPosition) * p * 60.0;
      w * controls.timeScale * delta * p;
      (w * p) * controls.timeScale * delta;
      2.0 * PI * 60.0 * controls.timeScale * delta;
    }
  }

  /** With the same frame, a body with half the orbital period advances twice as far. */
  lemma HalfPeriodTwiceTheAdvance(m1: Motion, m2: Motion, props1: PlanetProps, props2: PlanetProps,
                                  controls: Controls, nav: Navigation, sinNow: real, delta: real)
    requires props1.body.rotationPeriod != 0.0 && props2.body.rotationPeriod != 0.0
    requires !IsPaused(controls.timeScale)
    requires NumTruthy(props1.body.distanceFromSun) && NumTruthy(props2.body.distanceFromSun)
    requires props2.body.orbitalPeriod.Some? && props2.body.orbitalPeriod.value > 0.0
    requires props1.body.orbitalPeriod == Some(2.0 * props2.body.orbitalPeriod.value)
    ensures PlanetFrame(m2, props2, controls, nav, sinNow, delta).orbitalPosition - m2.orbitalPosition
         == 2.0 * (PlanetFrame(m1, props1, controls, nav, sinNow, delta).orbitalPosition - m1.orbitalPosition)
  {
    var w1, w2 := OrbitalSpeed(props1.body), OrbitalSpeed(props2.body);
    var p := props2.body.orbitalPeriod.value;
    assert w1 * (2.0 * p) == w2 * p;
    assert (w2 - 2.0 * w1) * p == 0.0;
    assert w2 == 2.0 * w1;
    AdvanceProportionalToSpeed(m2.orbitalPosition, w1, 2.0, controls.timeScale, delta);
    assert Advance(m2.orbitalPosition, w1, controls.timeScale, delta) - m2.orbitalPosition
        == Advance(m1.orbitalPosition, w1, controls.timeScale, delta) - m1.orbitalPosition;
  }

  /** A body whose period is negative or missing, or that has no distance,
      never moves along its orbit: neither the accumulator nor the orbit group turns. */
  lemma NonOrbitingBodyStaysPut(m: Motion, props: PlanetProps, controls: Controls, nav: Navigation, sinNow: real, delta: real)
    requires props.body.rotationPeriod != 0.0
    requires !NumTruthy(props.body.distanceFromSun) || props.body.orbitalPeriod.None? || props.body.orbitalPeriod.value <= 0.0
    ensures PlanetFrame(m, props, controls, nav, sinNow, delta).orbitalPosition == m.orbitalPosition
    ensures PlanetFrame(m, props, controls, nav, sinNow, delta).orbitAngle == m.orbitAngle
  {
  }

  /** Triton's orbital period is negative, so it never orbits. */
  lemma TritonNeverOrbits(m: Motion, props: PlanetProps, controls: Controls, nav: Navigation, sinNow: real, delta: real)
    requires props.body == Triton
    ensures PlanetFrame(m, props, controls, nav, sinNow, delta).orbitalPosition == m.orbitalPosition
  {
    NonOrbitingBodyStaysPut(m, props, controls, nav, sinNow, delta);
  }

  /** A negative rotation period turns the spin angle backwards, as for Venus. */
  lemma RetrogradeSpin(m: Motion, props: PlanetProps, controls: Controls, nav: Navigation, sinNow: real, delta: real)
    requires props.body.rotationPeriod < 0.0
    requires !IsPaused(controls.timeScale) && delta > 0.0
    ensures PlanetFrame(m, props, controls, nav, sinNow, delta).spin < m.spin
  {
    AdvanceFollowsSpeedSign(m.spin, RotationSpeed(props.body), controls.timeScale, delta);
  }

  /** Unpaused, a selected body that the camera is not following pulses within
      [0.9, 1.1]; every other body is drawn at scale 1. */
  lemma PulseRange(m: Motion, props: PlanetProps, controls: Controls, nav: Navigation, sinNow: real, delta: real)
    requires props.body.rotationPeriod != 0.0
    requires !IsPaused(controls.timeScale)
    requires -1.0 <= sinNow <= 1.0
    ensures var s := PlanetFrame(m, props, controls, nav, sinNow, delta).scale;
      && (props.isSelected && !InFollowMode(props, controls, nav) ==> 0.9 <= s <= 1.1)
      && (!props.isSelected || InFollowMode(props, controls, nav) ==> s == 1.0)
  {
  }

  /** What a Planet reports to the scene every frame, paused or not. */
  datatype Report = Report(id: string, position: Vec3, size: real)

  /** The refs of one mounted Planet component. */
  class PlanetInstance {
    var spin: real
    var orbitalPosition: real
    var orbitAngle: real
    var scale: real

    function Snapshot(): Motion
      reads this
    {
      Motion(spin, orbitalPosition, orbitAngle, scale)
    }

    /** Mounting: the orbital accumulator starts at a random angle in [0, 2*PI),
        while the orbit group itself starts unrotated. */
    constructor (seedDraw: real)
      requires 0.0 <= seedDraw < 1.0
      ensures Snapshot() == Motion(0.0, seedDraw * PI * 2.0, 0.0, 1.0)
      ensures 0.0 <= orbitalPosition < 2.0 * PI
    {
      spin := 0.0;
      orbitalPosition := seedDraw * PI * 2.0;
      orbitAngle := 0.0;
      scale := 1.0;
    }

    /** The useFrame callback: report position and size, then, unless paused,
        spin, orbit and pulse. worldPosition is the group's world position
        before this frame's update. */
    method Frame(props: PlanetProps, controls: Controls, nav: Navigation, worldPosition: Vec3, sinNow: real, delta: real)
      returns (report: Report)
      requires props.body.rotationPeriod != 0.0
      modifies this
      ensures report == Report(props.body.id, worldPosition, props.size)
      ensures Snapshot() == PlanetFrame(old(Snapshot()), props, controls, nav, sinNow, delta)
    {
      report := Report(props.body.id, worldPosition, props.size);
      if IsPaused(controls.timeScale) {
        return;
      }
      var effectiveTimeScale := EffectiveTimeScale(controls.timeScale);
      spin := spin + RotationSpeed(props.body) * effectiveTimeScale * delta;
      if NumTruthy(props.body.distanceFromSun) && OrbitalSpeed(props.body) > 0.0 {
        orbitalPosition := orbitalPosition + OrbitalSpeed(props.body) * effectiveTimeScale * delta;
        orbitAngle := orbitalPosition;
      }
      var isInFollowMode := nav.cameraMode == Follow && controls.selectedBody == Some(props.body.id);
      if props.isSelected && !isInFollowMode {
        scale := 1.0 + sinNow * 0.1;
      } else {
        scale := 1.0;
      }
    }
  }

  /** The orbit ring is drawn only when asked for and at a non-zero distance. */
  predicate OrbitRingShown(props: PlanetProps) {
    props.showOrbit && props.distance != 0.0
  }

  /** The props of moon number index: placed at size * (2 + 1.5 * index), a
      fifth of the parent's size, never selected, without an orbit ring, and
      selecting what the parent selects. */
  function MoonProps(parent: PlanetProps, index: nat): (p: PlanetProps)
    requires index < |parent.body.moons|
    ensures p.body == parent.body.moons[index]
    ensures !p.isSelected && !OrbitRingShown(p)
    ensures p.selectId == parent.selectId && p.showLabel == parent.showLabel
  {
    PlanetProps(parent.body.moons[index], parent.size * (2.0 + index as real * 1.5), parent.size * 0.2,
                false, parent.showLabel, false, parent.selectId)
  }

  /** For a parent of positive size, moons sit further out the later they are
      listed, every moon's sphere clears the parent's, and neighbouring moons do
      not touch. */
  lemma MoonPlacement(parent: PlanetProps, i: nat, j: nat)
    requires parent.size > 0.0
    requires i < j < |parent.body.moons|
    ensures MoonProps(parent, i).distance < MoonProps(parent, j).distance
    ensures MoonProps(parent, i).distance - MoonProps(parent, i).size > parent.size
    ensures MoonProps(parent, j).distance - MoonProps(parent, i).distance
         > MoonProps(parent, i).size + MoonProps(parent, j).size
  {
    var s := parent.size;
    assert MoonProps(parent, j).distance - MoonProps(parent, i).distance == s * 1.5 * (j - i) as real;
    assert (j - i) as real >= 1.0;
    assert s * 1.5 * (j - i) as real >= s * 1.5;
  }

  /** A moon never pulses: unpaused, its scale is always 1. */
  lemma MoonNeverPulses(parent: PlanetProps, index: nat, m: Motion, controls: Controls, nav: Navigation, sinNow: real, delta: real)
    requires index < |parent.body.moons|
    requires parent.body.moons[index].rotationPeriod != 0.0
    requires !IsPaused(controls.timeScale)
    ensures PlanetFrame(m, MoonProps(parent, index), controls, nav, sinNow, delta).scale == 1.0
  {
  }
}
