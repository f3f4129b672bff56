/** The per-frame angle update shared by the planet, cloud-layer and ring
    callbacks: each tests for a pause the same way and scales its angular speed
    by timeScale / 60 and by the frame's delta. */
module FrameClock {

  /** Every callback treats a time scale of zero or less as paused. */
  predicate IsPaused(timeScale: real) {
    timeScale <= 0.0
  }

  /** The time scale in simulated days per frame at an assumed 60 frames per second. */
  function EffectiveTimeScale(timeScale: real): real {
    timeScale / 60.0
  }

  /** angle += speed * (timeScale / 60) * delta, unless paused. */
  function Advance(angle: real, speed: real, timeScale: real, delta: real): (a: real)
    ensures IsPaused(timeScale) ==> a == angle
    ensures !IsPaused(timeScale) ==> (a - angle) * 60.0 == speed * timeScale * delta
  {
    if IsPaused(timeScale) then angle
    else angle + speed * EffectiveTimeScale(timeScale) * delta
  }

  /** With a non-negative speed and delta the angle never goes back. */
  lemma AdvanceNeverDecreases(angle: real, speed: real, timeScale: real, delta: real)
    requires speed >= 0.0 && delta >= 0.0
    ensures Advance(angle, speed, timeScale, delta) >= angle
  {
    if !IsPaused(timeScale) {
      assert speed * timeScale >= 0.0;
      assert speed * timeScale * delta >= 0.0;
    }
  }

  /** An unpaused frame with a positive delta moves the angle in the direction of the speed. */
  lemma AdvanceFollowsSpeedSign(angle: real, speed: real, timeScale: real, delta: real)
    requires !IsPaused(timeScale) && delta > 0.0
    ensures speed > 0.0 ==> Advance(angle, speed, timeScale, delta) > angle
    ensures speed < 0.0 ==> Advance(angle, speed, timeScale, delta) < angle
    ensures speed == 0.0 ==> Advance(angle, speed, timeScale, delta) == angle
  {
    var k := EffectiveTimeScale(timeScale) * delta;
    assert k > 0.0;
    assert Advance(angle, speed, timeScale, delta) == angle + speed * k;
  }

  /** The step is proportional to the speed: a body twice as fast moves twice as far. */
  lemma AdvanceProportionalToSpeed(angle: real, speed: real, factor: real, timeScale: real, delta: real)
    ensures Advance(angle, factor * speed, timeScale, delta) - angle
         == factor * (Advance(angle, speed, timeScale, delta) - angle)
  {
    var k := EffectiveTimeScale(timeScale) * delta;
    if !IsPaused(timeScale) {
      assert Advance(angle, factor * speed, timeScale, delta) - angle == (factor * speed) * k;
      assert Advance(angle, speed, timeScale, delta) - angle == speed * k;
    }
  }
}
