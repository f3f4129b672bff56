/** The asteroid belt: the loop that fills the position, colour and size
    buffers from random draws, the belt's slow turning, and the four major
    asteroids placed around it. Math.random's draws are parameters, and so
    are sin and cos. */
module AsteroidBelt {
  import opened JsMath
  import opened SolarTypes
  import opened FrameClock
  import Scene

  /** The component's props; the defaults and the values the simulation passes coincide. */
  datatype BeltProps = BeltProps(innerRadius: real, outerRadius: real, asteroidCount: nat, maxHeight: real, sizeScale: real)

  const SceneBelt: BeltProps := BeltProps(2.1, 3.3, 2000, 0.2, 1.0)

  /** The nine draws one asteroid consumes, in the order the loop takes them. */
  datatype AsteroidDraws = AsteroidDraws(
    radial: real, angle: real, height: real,
    kind: real, red: real, green: real, blue: real,
    sizeClass: real, size: real)

  predicate Unit(x: real) {
    0.0 <= x < 1.0
  }

  predicate ValidDraws(d: AsteroidDraws) {
    Unit(d.radial) && Unit(d.angle) && Unit(d.height) && Unit(d.kind)
    && Unit(d.red) && Unit(d.green) && Unit(d.blue) && Unit(d.sizeClass) && Unit(d.size)
  }

  datatype Rgb = Rgb(r: real, g: real, b: real)

  datatype Rock = Rock(position: Vec3, color: Rgb, size: real)

  /** The composition classes: carbonaceous, silicaceous and metallic. */
  datatype AsteroidClass = CType | SType | MType

  function ClassOf(draw: real): (c: AsteroidClass)
    ensures c == CType <==> draw < 0.75
    ensures c == SType <==> 0.75 <= draw < 0.92
    ensures c == MType <==> 0.92 <= draw
  {
    if draw < 0.75 then CType else if draw < 0.92 then SType else MType
  }

  function RadialPosition(p: BeltProps, d: AsteroidDraws): real {
    p.innerRadius + (p.outerRadius - p.innerRadius) * d.radial
  }

  function AngleOf(d: AsteroidDraws): real {
    d.angle * PI * 2.0
  }

  function HeightOf(p: BeltProps, d: AsteroidDraws): real {
    (d.height - 0.5) * 2.0 * p.maxHeight
  }

  function ColorOf(d: AsteroidDraws): Rgb {
    match ClassOf(d.kind)
    case CType => Rgb(0.2 + d.red * 0.1, 0.2 + d.green * 0.1, 0.2 + d.blue * 0.1)
    case SType => Rgb(0.7 + d.red * 0.2, 0.6 + d.green * 0.2, 0.4 + d.blue * 0.1)
    case MType => Rgb(0.8 + d.red * 0.2, 0.8 + d.green * 0.2, 0.8 + d.blue * 0.2)
  }

  /** The size before sizeScale: small below 0.8, medium below 0.95, large above. */
  function BaseSize(d: AsteroidDraws): real {
    if d.sizeClass < 0.8 then 0.02 + d.size * 0.08
    else if d.sizeClass < 0.95 then 0.1 + d.size * 0.2
    else 0.3 + d.size * 0.7
  }

  /** One iteration of the generation loop, as a value. */
  function AsteroidOf(p: BeltProps, d: AsteroidDraws, sin: real -> real, cos: real -> real): (a: Rock)
    ensures a.position.y == HeightOf(p, d)
    ensures a.size == BaseSize(d) * p.sizeScale
  {
    var r := RadialPosition(p, d);
    var angle := AngleOf(d);
    Rock(Vec3(r * cos(angle), HeightOf(p, d), r * sin(angle)), ColorOf(d), BaseSize(d) * p.sizeScale)
  }

  /** The radial position lies in [inner, outer) (it is inner itself for an empty belt). */
  lemma RadialWithinBelt(p: BeltProps, d: AsteroidDraws)
    requires p.innerRadius <= p.outerRadius && Unit(d.radial)
    ensures p.innerRadius <= RadialPosition(p, d) <= p.outerRadius
    ensures p.innerRadius < p.outerRadius ==> RadialPosition(p, d) < p.outerRadius
  {
    var w := p.outerRadius - p.innerRadius;
    assert 0.0 <= w * d.radial by { ProductNonNegative(w, d.radial); }
    assert w - w * d.radial == w * (1.0 - d.radial);
    ProductNonNegative(w, 1.0 - d.radial);
    if w > 0.0 {
      ProductPositive(w, 1.0 - d.radial);
      assert w * d.radial < w;
      assert RadialPosition(p, d) == p.innerRadius + w * d.radial;
    }
  }

  /** The height lies in [-maxHeight, maxHeight). */
  lemma HeightWithinDisk(p: BeltProps, d: AsteroidDraws)
    requires p.maxHeight > 0.0 && ValidDraws(d)
    ensures -p.maxHeight <= HeightOf(p, d) < p.maxHeight
  {
    var t := (d.height - 0.5) * 2.0;
    assert HeightOf(p, d) == t * p.maxHeight;
    assert HeightOf(p, d) + p.maxHeight == (t + 1.0) * p.maxHeight;
    assert p.maxHeight - HeightOf(p, d) == (1.0 - t) * p.maxHeight;
    assert -1.0 <= t < 1.0;
    ProductNonNegative(t + 1.0, p.maxHeight);
    ProductPositive(1.0 - t, p.maxHeight);
    assert (1.0 - t) * p.maxHeight == p.maxHeight - t * p.maxHeight;
  }

  /** The squared distance from the y axis, i.e. from the Sun as seen from above. */
  function PlanarDistanceSquared(v: Vec3): real {
    v.x * v.x + v.z * v.z
  }

  /** Every asteroid lies on the circle of its radial position, in the x-z plane. */
  lemma OnItsCircle(p: BeltProps, d: AsteroidDraws, sin: real -> real, cos: real -> real)
    requires sin(AngleOf(d)) * sin(AngleOf(d)) + cos(AngleOf(d)) * cos(AngleOf(d)) == 1.0
    ensures PlanarDistanceSquared(AsteroidOf(p, d, sin, cos).position) == RadialPosition(p, d) * RadialPosition(p, d)
  {
    var r := RadialPosition(p, d);
    var s := sin(AngleOf(d));
    var c := cos(AngleOf(d));
    calc {
      (r * c) * (r * c) + (r * s) * (r * s);
      r * r * (s * s + c * c);
      r * r;
    }
  }

  /** Each class keeps its channels in its band, and every channel lies in [0.2, 1.0). */
  lemma ColorBands(d: AsteroidDraws)
    requires ValidDraws(d)
    ensures var c := ColorOf(d);
      && (ClassOf(d.kind) == CType ==> 0.2 <= c.r < 0.3 && 0.2 <= c.g < 0.3 && 0.2 <= c.b < 0.3)
      && (ClassOf(d.kind) == SType ==> 0.7 <= c.r < 0.9 && 0.6 <= c.g < 0.8 && 0.4 <= c.b < 0.5)
      && (ClassOf(d.kind) == MType ==> 0.8 <= c.r < 1.0 && 0.8 <= c.g < 1.0 && 0.8 <= c.b < 1.0)
      && 0.2 <= c.r < 1.0 && 0.2 <= c.g < 1.0 && 0.2 <= c.b < 1.0
  {
  }

  /** Small, medium and large asteroids take [0.02, 0.1), [0.1, 0.3) and [0.3, 1.0) before scaling. */
  lemma SizeBands(d: AsteroidDraws)
    requires ValidDraws(d)
    ensures d.sizeClass < 0.8 ==> 0.02 <= BaseSize(d) < 0.1
    ensures 0.8 <= d.sizeClass < 0.95 ==> 0.1 <= BaseSize(d) < 0.3
    ensures 0.95 <= d.sizeClass ==> 0.3 <= BaseSize(d) < 1.0
    ensures 0.02 <= BaseSize(d) < 1.0
  {
  }

  /** Slot i of the three buffers holds asteroid a. */
  predicate SlotHolds(positions: array<real>, colors: array<real>, sizes: array<real>, i: nat, a: Rock)
    reads positions, colors, sizes
  {
    && 3 * i + 2 < positions.Length && 3 * i + 2 < colors.Length && i < sizes.Length
    && positions[3 * i] == a.position.x && positions[3 * i + 1] == a.position.y && positions[3 * i + 2] == a.position.z
    && colors[3 * i] == a.color.r && colors[3 * i + 1] == a.color.g && colors[3 * i + 2] == a.color.b
    && sizes[i] == a.size
  }

  /** The position part of one iteration: slots 3i..3i+2 of the position buffer. */
  method WritePosition(positions: array<real>, i: nat, p: BeltProps, d: AsteroidDraws, sin: real -> real, cos: real -> real)
    requires 3 * i + 2 < positions.Length
    modifies positions
    ensures var a := AsteroidOf(p, d, sin, cos);
      positions[3 * i] == a.position.x && positions[3 * i + 1] == a.position.y && positions[3 * i + 2] == a.position.z
    ensures forall k :: 0 <= k < positions.Length && (k < 3 * i || 3 * i + 2 < k) ==> positions[k] == old(positions[k])
  {
    var radialPosition := p.innerRadius + (p.outerRadius - p.innerRadius) * d.radial;
    var angle := d.angle * PI * 2.0;
    var height := (d.height - 0.5) * 2.0 * p.maxHeight;
    var x := radialPosition * cos(angle);
    var z := radialPosition * sin(angle);
    var y := height;
    positions[i * 3] := x;
    positions[i * 3 + 1] := y;
    positions[i * 3 + 2] := z;
  }

  /** The colour part of one iteration: slots 3i..3i+2 of the colour buffer, by composition class. */
  method WriteColor(colors: array<real>, i: nat, d: AsteroidDraws)
    requires 3 * i + 2 < colors.Length
    modifies colors
    ensures var c := ColorOf(d); colors[3 * i] == c.r && colors[3 * i + 1] == c.g && colors[3 * i + 2] == c.b
    ensures forall k :: 0 <= k < colors.Length && (k < 3 * i || 3 * i + 2 < k) ==> colors[k] == old(colors[k])
  {
    if d.kind < 0.75 {
      colors[i * 3] := 0.2 + d.red * 0.1;
      colors[i * 3 + 1] := 0.2 + d.green * 0.1;
      colors[i * 3 + 2] := 0.2 + d.blue * 0.1;
    } else if d.kind < 0.92 {
      colors[i * 3] := 0.7 + d.red * 0.2;
      colors[i * 3 + 1] := 0.6 + d.green * 0.2;
      colors[i * 3 + 2] := 0.4 + d.blue * 0.1;
    } else {
      colors[i * 3] := 0.8 + d.red * 0.2;
      colors[i * 3 + 1] := 0.8 + d.green * 0.2;
      colors[i * 3 + 2] := 0.8 + d.blue * 0.2;
    }
  }

  /** The size part of one iteration: slot i of the size buffer. */
  method WriteSize(sizes: array<real>, i: nat, p: BeltProps, d: AsteroidDraws)
    requires i < sizes.Length
    modifies sizes
    ensures sizes[i] == BaseSize(d) * p.sizeScale
    ensures forall k :: 0 <= k < sizes.Length && k != i ==> sizes[k] == old(sizes[k])
  {
    var size;
    if d.sizeClass < 0.8 {
      size := 0.02 + d.size * 0.08;
    } else if d.sizeClass < 0.95 {
      size := 0.1 + d.size * 0.2;
    } else {
      size := 0.3 + d.size * 0.7;
    }
    sizes[i] := size * p.sizeScale;
  }

  /** One iteration of the loop: it writes slots 3i..3i+2 of the position and
      colour buffers and slot i of the size buffer, and nothing else. */
  method FillSlot(positions: array<real>, colors: array<real>, sizes: array<real>, i: nat,
                  p: BeltProps, d: AsteroidDraws, sin: real -> real, cos: real -> real)
    requires positions != colors && positions != sizes && colors != sizes
    requires 3 * i + 2 < positions.Length && 3 * i + 2 < colors.Length && i < sizes.Length
    modifies positions, colors, sizes
    ensures SlotHolds(positions, colors, sizes, i, AsteroidOf(p, d, sin, cos))
    ensures forall k :: 0 <= k < positions.Length && (k < 3 * i || 3 * i + 2 < k) ==> positions[k] == old(positions[k])
    ensures forall k :: 0 <= k < colors.Length && (k < 3 * i || 3 * i + 2 < k) ==> colors[k] == old(colors[k])
    ensures forall k :: 0 <= k < sizes.Length && k != i ==> sizes[k] == old(sizes[k])
  {
    WritePosition(positions, i, p, d, sin, cos);
    WriteColor(colors, i, d);
    WriteSize(sizes, i, p, d);
  }

  /** The useMemo body: three zero-filled buffers, then one iteration per asteroid,
      iteration i writing only slots 3i..3i+2 of the position and colour buffers
      and slot i of the size buffer. */
  method GenerateBelt(p: BeltProps, draws: seq<AsteroidDraws>, sin: real -> real, cos: real -> real)
    returns (positions: array<real>, colors: array<real>, sizes: array<real>)
    requires |draws| == p.asteroidCount
    ensures fresh(positions) && fresh(colors) && fresh(sizes)
    ensures positions.Length == 3 * p.asteroidCount && colors.Length == 3 * p.asteroidCount
    ensures sizes.Length == p.asteroidCount
    ensures forall i :: 0 <= i < p.asteroidCount ==> SlotHolds(positions, colors, sizes, i, AsteroidOf(p, draws[i], sin, cos))
  {
    var count := p.asteroidCount;
    positions := new real[count * 3](_ => 0.0);
    colors := new real[count * 3](_ => 0.0);
    sizes := new real[count](_ => 0.0);
    var i := 0;
    while i < count
      invariant 0 <= i <= count
      invariant forall j :: 0 <= j < i ==> SlotHolds(positions, colors, sizes, j, AsteroidOf(p, draws[j], sin, cos))
    {
      FillSlot(positions, colors, sizes, i, p, draws[i], sin, cos);
      i := i + 1;
    }
  }

  /** The belt's turn about y: 0.01 radians per second of clock time. */
  function BeltRotation(elapsed: real): (r: real)
    ensures r * 100.0 == elapsed
  {
    elapsed * 0.01
  }

  /** The points object; each frame sets its rotation from the clock. */
  class BeltPoints {
    var rotation: real

    constructor ()
      ensures rotation == 0.0
    {
      rotation := 0.0;
    }

    method Frame(elapsed: real)
      modifies this
      ensures rotation == BeltRotation(elapsed)
    {
      rotation := elapsed * 0.01;
    }
  }

  /** The belt ignores the time scale: while a paused frame leaves every
      time-scaled angle where it was, the belt keeps turning with the clock. */
  lemma BeltTurnsWhilePaused(angle: real, speed: real, timeScale: real, delta: real, e1: real, e2: real)
    requires IsPaused(timeScale) && e1 < e2
    ensures Advance(angle, speed, timeScale, delta) == angle
    ensures BeltRotation(e1) < BeltRotation(e2)
  {
  }

  /** The four major asteroids; only the fields the placement reads are kept. */
  const Ceres: Body := Body("ceres", "Ceres", DwarfPlanet, 473.0, Some(2.77), Some(1682.0), 9.1, 4.0, Some(0.076), [], false)
  const Vesta: Body := Body("vesta", "Vesta", Asteroid, 263.0, Some(2.36), Some(1326.0), 5.3, 27.0, Some(0.089), [], false)
  const Pallas: Body := Body("pallas", "Pallas", Asteroid, 258.0, Some(2.77), Some(1686.0), 7.8, 78.0, Some(0.231), [], false)
  const Hygiea: Body := Body("hygiea", "Hygiea", Asteroid, 215.0, Some(3.14), Some(2031.0), 13.8, 0.0, Some(0.117), [], false)

  const MajorAsteroids: seq<Body> := [Ceres, Vesta, Pallas, Hygiea]

  /** distanceFromSun || 2.5 */
  function MajorRadius(body: Body): (r: real)
    ensures NumTruthy(body.distanceFromSun) ==> r == body.distanceFromSun.value
    ensures !NumTruthy(body.distanceFromSun) ==> r == 2.5
  {
    if NumTruthy(body.distanceFromSun) then body.distanceFromSun.value else 2.5
  }

  datatype MajorPoint = MajorPoint(position: Vec3, size: real)

  /** Major asteroid k of n sits at angle 2πk/n on its radius, with a small random height. */
  function MajorPlacement(k: nat, n: nat, body: Body, heightDraw: real, sizeScale: real,
                          sin: real -> real, cos: real -> real): (m: MajorPoint)
    requires n > 0
    ensures m.size == 0.2 * sizeScale
    ensures Unit(heightDraw) ==> -0.05 <= m.position.y < 0.05
    ensures m.position.x * sin((k as real / n as real) * PI * 2.0) == m.position.z * cos((k as real / n as real) * PI * 2.0)
  {
    var angle := (k as real / n as real) * PI * 2.0;
    MajorPoint(Vec3(MajorRadius(body) * cos(angle), (heightDraw - 0.5) * 0.1, MajorRadius(body) * sin(angle)),
               0.2 * sizeScale)
  }

  /** The major asteroids are a quarter turn apart, lie within the belt's
      radii, and stay within 0.05 of the ecliptic. */
  lemma MajorsWithinBelt(k: nat, heightDraw: real, sizeScale: real, sin: real -> real, cos: real -> real)
    requires k < |MajorAsteroids| && Unit(heightDraw)
    ensures var m := MajorPlacement(k, |MajorAsteroids|, MajorAsteroids[k], heightDraw, sizeScale, sin, cos);
      && m.position.x == MajorRadius(MajorAsteroids[k]) * cos(k as real * PI / 2.0)
      && m.position.z == MajorRadius(MajorAsteroids[k]) * sin(k as real * PI / 2.0)
      && SceneBelt.innerRadius <= MajorRadius(MajorAsteroids[k]) <= SceneBelt.outerRadius
      && -0.05 <= m.position.y < 0.05
      && m.size == 0.2 * sizeScale
  {
    assert (k as real / 4.0) * PI * 2.0 == k as real * PI / 2.0;
  }

  /** A body at the given distance, standing for one edge of the belt in the scene's distance mapping. */
  function EdgeBody(au: real): Body {
    Body("belt-edge", "Belt edge", Asteroid, 0.0, Some(au), None, 1.0, 0.0, None, [], false)
  }

  /** As written, the belt's radii are astronomical units used as scene units,
      while the Sun is drawn as a sphere of radius 8: every asteroid of the
      belt lies inside the Sun. */
  lemma BeltInsideSun(d: AsteroidDraws, sin: real -> real, cos: real -> real)
    requires ValidDraws(d)
    requires sin(AngleOf(d)) * sin(AngleOf(d)) + cos(AngleOf(d)) * cos(AngleOf(d)) == 1.0
    ensures var a := AsteroidOf(SceneBelt, d, sin, cos);
      a.position.x * a.position.x + a.position.y * a.position.y + a.position.z * a.position.z
        < Scene.StarSize * Scene.StarSize
  {
    var a := AsteroidOf(SceneBelt, d, sin, cos);
    var r := RadialPosition(SceneBelt, d);
    RadialWithinBelt(SceneBelt, d);
    HeightWithinDisk(SceneBelt, d);
    OnItsCircle(SceneBelt, d, sin, cos);
    SquareMonotone(r, 3.3);
    var y := a.position.y;
    if y >= 0.0 {
      SquareMonotone(y, 0.2);
    } else {
      SquareMonotone(-y, 0.2);
    }
  }

  /** ln vanishes at 1 and grows strictly from there on. */
  ghost predicate LnIncreasing(ln: real -> real) {
    && ln(1.0) == 0.0
    && forall x: real, y: real :: 1.0 <= x < y ==> ln(x) < ln(y)
  }

  /** The belt with its radii mapped through the scene's distance mapping, like every planet's orbit. */
  function CorrectedBelt(mode: ScaleMode, ln: real -> real): BeltProps {
    SceneBelt.(innerRadius := Scene.RenderDistance(EdgeBody(SceneBelt.innerRadius), mode, ln),
               outerRadius := Scene.RenderDistance(EdgeBody(SceneBelt.outerRadius), mode, ln))
  }

  /** With the mapping applied, the belt lies between the orbits of Mars and Jupiter in every scale mode. */
  lemma CorrectedBeltBetweenMarsAndJupiter(mode: ScaleMode, ln: real -> real)
    requires LnIncreasing(ln)
    ensures 0.0 < Scene.RenderDistance(Mars, mode, ln) < CorrectedBelt(mode, ln).innerRadius
      < CorrectedBelt(mode, ln).outerRadius < Scene.RenderDistance(Jupiter, mode, ln)
  {
    if mode == Logarithmic {
      assert ln(1.0) < ln(1.524 + 1.0) < ln(2.1 + 1.0) < ln(3.3 + 1.0) < ln(5.204 + 1.0);
    }
  }

  /** An asteroid of a belt strictly between two circles lies, seen from above, strictly between them. */
  lemma AsteroidBetweenCircles(p: BeltProps, d: AsteroidDraws, sin: real -> real, cos: real -> real, lo: real, hi: real)
    requires Unit(d.radial)
    requires sin(AngleOf(d)) * sin(AngleOf(d)) + cos(AngleOf(d)) * cos(AngleOf(d)) == 1.0
    requires 0.0 <= lo < p.innerRadius < p.outerRadius < hi
    ensures lo * lo < PlanarDistanceSquared(AsteroidOf(p, d, sin, cos).position) < hi * hi
  {
    RadialWithinBelt(p, d);
    OnItsCircle(p, d, sin, cos);
    var r := RadialPosition(p, d);
    SquareMonotone(lo, r);
    SquareMonotone(r, hi);
  }

  /** Every asteroid of the corrected belt lies, seen from above, between the orbits of Mars and Jupiter. */
  lemma CorrectedAsteroidBetweenOrbits(mode: ScaleMode, ln: real -> real, d: AsteroidDraws, sin: real -> real, cos: real -> real)
    requires LnIncreasing(ln) && Unit(d.radial)
    requires sin(AngleOf(d)) * sin(AngleOf(d)) + cos(AngleOf(d)) * cos(AngleOf(d)) == 1.0
    ensures Scene.RenderDistance(Mars, mode, ln) * Scene.RenderDistance(Mars, mode, ln)
      < PlanarDistanceSquared(AsteroidOf(CorrectedBelt(mode, ln), d, sin, cos).position)
      < Scene.RenderDistance(Jupiter, mode, ln) * Scene.RenderDistance(Jupiter, mode, ln)
  {
    CorrectedBeltBetweenMarsAndJupiter(mode, ln);
    AsteroidBetweenCircles(CorrectedBelt(mode, ln), d, sin, cos, Scene.RenderDistance(Mars, mode, ln), Scene.RenderDistance(Jupiter, mode, ln));
  }
}
