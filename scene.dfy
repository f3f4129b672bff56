/** The scene: how each body's render distance and size follow from the scale
    mode, the props handed to each top-level Planet, the positions and sizes
    the planets report back, and the camera that follows the selected body. */
module Scene {
  import opened JsMath
  import opened SolarTypes
  import opened FrameClock
  import opened PlanetMotion

  /** Distance and size multipliers of a scale mode. */
  datatype ScaleFactors = ScaleFactors(distance: real, size: real)

  function ScaleFactorsOf(mode: ScaleMode): (f: ScaleFactors)
    ensures f.distance >= 1.2 && f.size >= 0.8
  {
    match mode
    case Realistic => ScaleFactors(1.5, 0.8)
    case Visible => ScaleFactors(2.0, 1.2)
    case Logarithmic => ScaleFactors(1.2, 1.1)
  }

  const EarthRadiusKm: real := 6371.0
  const StarSize: real := 8.0
  const MinLogSize: real := 0.4

  /** The orbit distance in AU that the distance formulas see: a falsy distance counts as 0. */
  function AuOf(body: Body): real {
    if NumTruthy(body.distanceFromSun) then body.distanceFromSun.value else 0.0
  }

  /** Render distance. ln is Math.log. */
  function RenderDistance(body: Body, mode: ScaleMode, ln: real -> real): (d: real)
    ensures !NumTruthy(body.distanceFromSun) ==> d == 0.0
    ensures NumTruthy(body.distanceFromSun) && mode == Realistic ==> d == 37.5 * AuOf(body)
    ensures NumTruthy(body.distanceFromSun) && mode == Visible ==> d == 50.0 * AuOf(body)
  {
    if mode == Logarithmic && NumTruthy(body.distanceFromSun) then
      ln(body.distanceFromSun.value + 1.0) * 20.0
    else if NumTruthy(body.distanceFromSun) then
      body.distanceFromSun.value * ScaleFactorsOf(mode).distance * 25.0
    else 0.0
  }

  /** ln is non-decreasing from 1 on and vanishes at 1. */
  ghost predicate LnMonotone(ln: real -> real) {
    && ln(1.0) == 0.0
    && forall x: real, y: real :: 1.0 <= x <= y ==> ln(x) <= ln(y)
  }

  /** In every scale mode, a body further from the Sun is drawn no closer to it. */
  lemma DistanceOrderPreserved(b1: Body, b2: Body, mode: ScaleMode, ln: real -> real)
    requires LnMonotone(ln)
    requires 0.0 <= AuOf(b1) <= AuOf(b2)
    ensures 0.0 <= RenderDistance(b1, mode, ln) <= RenderDistance(b2, mode, ln)
  {
    if mode == Logarithmic {
      assert ln(1.0) <= ln(AuOf(b1) + 1.0) <= ln(AuOf(b2) + 1.0);
    } else {
      var k := ScaleFactorsOf(mode).distance * 25.0;
      assert RenderDistance(b1, mode, ln) == AuOf(b1) * k;
      assert RenderDistance(b2, mode, ln) == AuOf(b2) * k;
    }
  }

  /** The size tier of the realistic and visible modes, by radius in km. */
  datatype Tier = Giant | LargeTerrestrial | Small | VerySmall

  function TierOf(radius: real): (t: Tier)
    ensures t == Giant <==> radius > 20000.0
    ensures t == LargeTerrestrial <==> 3000.0 < radius <= 20000.0
    ensures t == Small <==> 1500.0 < radius <= 3000.0
    ensures t == VerySmall <==> radius <= 1500.0
  {
    if radius > 20000.0 then Giant
    else if radius > 3000.0 then LargeTerrestrial
    else if radius > 1500.0 then Small
    else VerySmall
  }

  /** The tier size before the mode factor: a multiple of the radius relative to
      Earth's, with a floor per tier. */
  function TierSize(radius: real): (s: real)
    ensures s >= 0.7
    ensures TierOf(radius) == Giant ==> s >= 2.2
    ensures TierOf(radius) == LargeTerrestrial ==> s >= 1.2
    ensures TierOf(radius) == Small ==> s >= 0.9
  {
    var relativeToEarth := radius / EarthRadiusKm;
    match TierOf(radius)
    case Giant => Max(relativeToEarth * 0.65, 2.2)
    case LargeTerrestrial => Max(relativeToEarth * 1.6, 1.2)
    case Small => Max(relativeToEarth * 2.0, 0.9)
    case VerySmall => Max(relativeToEarth * 3.0, 0.7)
  }

  /** Render size. The star is fixed at 8; the logarithmic mode uses
      2 * ln(radius / Earth radius + 1) with a floor of 0.4; the other modes
      use the tier size times the mode's size factor. */
  function RenderSize(body: Body, mode: ScaleMode, ln: real -> real): (s: real)
    ensures body.kind == Star ==> s == StarSize
    ensures s >= MinLogSize
    ensures body.kind != Star && mode != Logarithmic ==> s >= 0.7 * ScaleFactorsOf(mode).size
  {
    if body.kind == Star then StarSize
    else if mode == Logarithmic then Max(ln(body.radius / EarthRadiusKm + 1.0) * 2.0, MinLogSize)
    else TierSize(body.radius) * ScaleFactorsOf(mode).size
  }

  /** Within one tier a larger radius is never drawn smaller. */
  lemma SizeMonotoneWithinTier(b1: Body, b2: Body, mode: ScaleMode, ln: real -> real)
    requires b1.kind != Star && b2.kind != Star && mode != Logarithmic
    requires TierOf(b1.radius) == TierOf(b2.radius) && b1.radius <= b2.radius
    ensures RenderSize(b1, mode, ln) <= RenderSize(b2, mode, ln)
  {
    var r1, r2 := b1.radius / EarthRadiusKm, b2.radius / EarthRadiusKm;
    assert r1 <= r2;
    assert TierSize(b1.radius) <= TierSize(b2.radius);
  }

  /** In the logarithmic mode size is monotone in the radius across all bodies but the star. */
  lemma LogSizeMonotone(b1: Body, b2: Body, ln: real -> real)
    requires LnMonotone(ln)
    requires b1.kind != Star && b2.kind != Star
    requires 0.0 <= b1.radius <= b2.radius
    ensures RenderSize(b1, Logarithmic, ln) <= RenderSize(b2, Logarithmic, ln)
  {
    var x1, x2 := b1.radius / EarthRadiusKm + 1.0, b2.radius / EarthRadiusKm + 1.0;
    assert 1.0 <= x1 <= x2;
    assert ln(x1) <= ln(x2);
  }

  /** Across a tier boundary size is not monotone: a body just under 20000 km
      is drawn larger than one just over it. */
  lemma TierBoundaryInversion(b1: Body, b2: Body, mode: ScaleMode, ln: real -> real)
    requires b1.kind != Star && b2.kind != Star && mode != Logarithmic
    requires b1.radius == 19999.0 && b2.radius == 20001.0
    ensures RenderSize(b1, mode, ln) > RenderSize(b2, mode, ln)
  {
    var k := ScaleFactorsOf(mode).size;
    assert TierSize(19999.0) >= 19999.0 / EarthRadiusKm * 1.6;
    assert TierSize(20001.0) == 2.2;
  }

  /** In the visible mode Jupiter (radius 69911 km) is drawn larger than the Sun. */
  lemma JupiterOutsizesSunWhenVisible(ln: real -> real)
    ensures RenderSize(Jupiter, Visible, ln) > RenderSize(Sun, Visible, ln)
  {
    assert TierSize(Jupiter.radius) >= 69911.0 / EarthRadiusKm * 0.65;
  }

  /** Render the ring only for bodies that have a distance key at all. */
  function RenderBody(body: Body, controls: Controls, ln: real -> real): (p: PlanetProps)
    ensures p.body == body && p.selectId == body.id
    ensures p.isSelected <==> controls.selectedBody == Some(body.id)
    ensures p.showOrbit <==> controls.showOrbits && body.distanceFromSun.Some?
  {
    PlanetProps(body, RenderDistance(body, controls.scaleMode, ln), RenderSize(body, controls.scaleMode, ln),
                controls.showOrbits && body.distanceFromSun.Some?, controls.showLabels,
                controls.selectedBody == Some(body.id), body.id)
  }

  /** The Sun has no orbit ring and sits at the centre in every mode. */
  lemma SunAtCentre(controls: Controls, ln: real -> real)
    ensures RenderBody(Sun, controls, ln).distance == 0.0
    ensures RenderBody(Sun, controls, ln).size == StarSize
    ensures !OrbitRingShown(RenderBody(Sun, controls, ln))
  {
  }

  /** The callback a click on a rendered body fires. */
  function ClickCallback(props: PlanetProps): Callback {
    BodySelect(Some(props.selectId))
  }

  /** A click on any moon of a top-level body selects the top-level body. */
  lemma ClickOnMoonSelectsParent(body: Body, controls: Controls, ln: real -> real, index: nat)
    requires index < |body.moons|
    ensures ClickCallback(MoonProps(RenderBody(body, controls, ln), index)) == BodySelect(Some(body.id))
  {
  }

  /** The world position of a top-level planet's group: (distance, 0, 0) turned
      by angle about the y axis; sin and cos are Math.sin and Math.cos. */
  function OrbitPosition(distance: real, angle: real, sin: real -> real, cos: real -> real): Vec3 {
    Vec3(distance * cos(angle), 0.0, -(distance * sin(angle)))
  }

  lemma OrbitPositionOnCircle(distance: real, angle: real, sin: real -> real, cos: real -> real)
    requires sin(angle) * sin(angle) + cos(angle) * cos(angle) == 1.0
    ensures NormSquared(OrbitPosition(distance, angle, sin, cos)) == distance * distance
    ensures OrbitPosition(distance, angle, sin, cos).y == 0.0
  {
    var s, c := sin(angle), cos(angle);
    calc {
      NormSquared(OrbitPosition(distance, angle, sin, cos));
      (distance * c) * (distance * c) + 0.0 * 0.0 + (-(distance * s)) * (-(distance * s));
      distance * distance * (s * s + c * c);
      distance * distance;
    }
  }

  /** The follow distance for a target of the given rendered size, in four size bands. */
  function FollowBaseDistance(size: real): (d: real)
    ensures d >= 2.5 && d >= 1.5 * size
    ensures size >= 6.0 ==> d >= 20.0
    ensures size >= 2.0 ==> d >= 8.0
    ensures size >= 1.0 ==> d >= 4.0
  {
    if size >= 6.0 then Max(size * 2.5, 20.0)
    else if size >= 2.0 then Max(size * 2.2, 8.0)
    else if size >= 1.0 then Max(size * 1.8, 4.0)
    else Max(size * 1.5, 2.5)
  }

  /** A larger target is never followed from closer up, across all bands. */
  lemma FollowBaseDistanceMonotone(s1: real, s2: real)
    requires s1 <= s2
    ensures FollowBaseDistance(s1) <= FollowBaseDistance(s2)
  {
  }

  /** The camera offset: to the side, above and behind the target. */
  function FollowOffset(base: real): Vec3 {
    Vec3(base * 0.7, base * 0.5, base * 1.2)
  }

  /** Where the camera wants to be when following a target of the given size. */
  function IdealCamera(target: Vec3, size: real): (c: Vec3)
    ensures Sub(c, target) == FollowOffset(FollowBaseDistance(size))
  {
    Add(target, FollowOffset(FollowBaseDistance(size)))
  }

  /** The ideal camera lies outside the followed body's sphere. */
  lemma IdealCameraOutsideBody(target: Vec3, size: real)
    requires size > 0.0
    ensures NormSquared(Sub(IdealCamera(target, size), target)) > size * size
  {
    var b := FollowBaseDistance(size);
    SquareMonotone(1.5 * size, b);
    assert NormSquared(FollowOffset(b)) == 2.18 * (b * b);
  }

  const FollowLerpAlpha: real := 0.02

  /** The camera state the scene owns: the last followed id, the camera position
      and the orbit controls' target. */
  datatype CameraView = CameraView(lastFollowed: Option<string>, camera: Vec3, pivot: Vec3)

  /** The follow branch for a truthy selected id. */
  function FollowStep(v: CameraView, positions: map<string, Vec3>, sizes: map<string, real>, id: string): (r: CameraView)
    ensures r.lastFollowed == Some(id)
    ensures id in positions && id in sizes && sizes[id] != 0.0 ==>
      && r.pivot == positions[id]
      && Sub(r.camera, IdealCamera(positions[id], sizes[id])) == Scale(0.98, Sub(v.camera, IdealCamera(positions[id], sizes[id])))
    ensures !(id in positions && id in sizes && sizes[id] != 0.0) ==> r.camera == v.camera && r.pivot == v.pivot
  {
    var v' := v.(lastFollowed := Some(id));
    if id in positions && id in sizes && sizes[id] != 0.0 then
      v'.(camera := Lerp(v.camera, IdealCamera(positions[id], sizes[id]), FollowLerpAlpha), pivot := positions[id])
    else v'
  }

  /** The free branch: point the orbit controls at the last followed body, if its position is known. */
  function FreeRecentre(v: CameraView, positions: map<string, Vec3>): (r: CameraView)
    ensures r.lastFollowed == v.lastFollowed && r.camera == v.camera
    ensures IdTruthy(v.lastFollowed) && v.lastFollowed.value in positions ==> r.pivot == positions[v.lastFollowed.value]
    ensures !(IdTruthy(v.lastFollowed) && v.lastFollowed.value in positions) ==> r == v
  {
    if IdTruthy(v.lastFollowed) && v.lastFollowed.value in positions then v.(pivot := positions[v.lastFollowed.value])
    else v
  }

  /** The camera part of the scene's frame callback. */
  function CameraFrame(v: CameraView, positions: map<string, Vec3>, sizes: map<string, real>,
                       controls: Controls, nav: Navigation): (r: CameraView)
    ensures nav.cameraMode != Follow ==> r.camera == v.camera && r.lastFollowed == v.lastFollowed
    ensures nav.cameraMode == Follow && IdTruthy(controls.selectedBody) ==> r.lastFollowed == controls.selectedBody
    ensures nav.cameraMode == Follow && !IdTruthy(controls.selectedBody) ==> r == v
    ensures nav.cameraMode == Free && IdTruthy(v.lastFollowed) && v.lastFollowed.value in positions ==>
      r.pivot == positions[v.lastFollowed.value]
    ensures nav.cameraMode == Free && !(IdTruthy(v.lastFollowed) && v.lastFollowed.value in positions) ==> r == v
    ensures nav.cameraMode == Overview ==> r == v
  {
    var afterFollow :=
      if nav.cameraMode == Follow && IdTruthy(controls.selectedBody) then FollowStep(v, positions, sizes, controls.selectedBody.value)
      else v;
    if nav.cameraMode == Free then FreeRecentre(afterFollow, positions) else afterFollow
  }

  /** Following a known target moves the camera 2% of the way to the ideal
      position and aims the controls at the target; an unknown target is only
      remembered. */
  lemma FollowFrame(v: CameraView, positions: map<string, Vec3>, sizes: map<string, real>, controls: Controls, nav: Navigation)
    requires nav.cameraMode == Follow && IdTruthy(controls.selectedBody)
    ensures var id := controls.selectedBody.value;
      var r := CameraFrame(v, positions, sizes, controls, nav);
      && r.lastFollowed == Some(id)
      && (id in positions && id in sizes && sizes[id] != 0.0 ==>
            && r.pivot == positions[id]
            && Sub(r.camera, IdealCamera(positions[id], sizes[id])) == Scale(0.98, Sub(v.camera, IdealCamera(positions[id], sizes[id]))))
      && (!(id in positions && id in sizes && sizes[id] != 0.0) ==> r.camera == v.camera && r.pivot == v.pivot)
  {
  }

  /** Outside follow mode the camera never moves by itself; the free mode only
      re-aims the controls at the last followed body, and the overview mode does nothing. */
  lemma CameraStillOutsideFollow(v: CameraView, positions: map<string, Vec3>, sizes: map<string, real>, controls: Controls, nav: Navigation)
    requires nav.cameraMode != Follow
    ensures var r := CameraFrame(v, positions, sizes, controls, nav);
      && r.camera == v.camera && r.lastFollowed == v.lastFollowed
      && (nav.cameraMode == Overview ==> r == v)
      && ((nav.cameraMode == Free && IdTruthy(v.lastFollowed) && v.lastFollowed.value in positions)
            ==> r.pivot == positions[v.lastFollowed.value])
  {
  }

  /** Once a body has been followed, some body is always remembered. */
  lemma LastFollowedPersists(v: CameraView, positions: map<string, Vec3>, sizes: map<string, real>, controls: Controls, nav: Navigation)
    requires IdTruthy(v.lastFollowed)
    ensures IdTruthy(CameraFrame(v, positions, sizes, controls, nav).lastFollowed)
  {
  }

  function Pow(x: real, n: nat): real {
    if n == 0 then 1.0 else x * Pow(x, n - 1)
  }

  /** n frames with the same reports and inputs. */
  function CameraFrames(v: CameraView, positions: map<string, Vec3>, sizes: map<string, real>,
                        controls: Controls, nav: Navigation, n: nat): CameraView
    decreases n
  {
    if n == 0 then v else CameraFrames(CameraFrame(v, positions, sizes, controls, nav), positions, sizes, controls, nav, n - 1)
  }

  lemma ScaleTwice(a: real, b: real, u: Vec3)
    ensures Scale(a, Scale(b, u)) == Scale(a * b, u)
  {
  }

  /** Following a target that stays put, the camera's distance to its ideal
      position shrinks by the factor 0.98 per frame: after n frames what is left
      of the initial offset is 0.98^n of it. */
  lemma {:induction false} FollowConverges(v: CameraView, positions: map<string, Vec3>, sizes: map<string, real>,
                                           controls: Controls, nav: Navigation, n: nat)
    requires nav.cameraMode == Follow && IdTruthy(controls.selectedBody)
    requires var id := controls.selectedBody.value; id in positions && id in sizes && sizes[id] != 0.0
    ensures var id := controls.selectedBody.value;
      var ideal := IdealCamera(positions[id], sizes[id]);
      Sub(CameraFrames(v, positions, sizes, controls, nav, n).camera, ideal) == Scale(Pow(0.98, n), Sub(v.camera, ideal))
    decreases n
  {
    var id := controls.selectedBody.value;
    var ideal := IdealCamera(positions[id], sizes[id]);
    if n == 0 {
      assert Scale(1.0, Sub(v.camera, ideal)) == Sub(v.camera, ideal);
    } else {
      var v1 := CameraFrame(v, positions, sizes, controls, nav);
      FollowFrame(v, positions, sizes, controls, nav);
      FollowConverges(v1, positions, sizes, controls, nav, n - 1);
      ScaleTwice(Pow(0.98, n - 1), 0.98, Sub(v.camera, ideal));
      assert Pow(0.98, n - 1) * 0.98 == Pow(0.98, n);
    }
  }

  /** The scene's time accumulator: advanced by delta * timeScale unless paused. */
  function AdvanceTime(time: real, delta: real, timeScale: real): (t: real)
    ensures IsPaused(timeScale) ==> t == time
    ensures !IsPaused(timeScale) ==> t - time == delta * timeScale
  {
    if IsPaused(timeScale) then time else time + delta * timeScale
  }

  lemma TimeNeverGoesBack(time: real, delta: real, timeScale: real)
    requires delta >= 0.0
    ensures AdvanceTime(time, delta, timeScale) >= time
  {
    if !IsPaused(timeScale) {
      assert delta * timeScale >= 0.0;
    }
  }

  const InitialCamera: Vec3 := Vec3(0.0, 20.0, 50.0)

  /** The refs of the scene: the time accumulator, the reported positions and
      sizes, the last followed id, and the camera and controls target it drives. */
  class SceneState {
    var time: real
    var positions: map<string, Vec3>
    var sizes: map<string, real>
    var lastFollowed: Option<string>
    var camera: Vec3
    var pivot: Vec3

    function View(): CameraView
      reads this
    {
      CameraView(lastFollowed, camera, pivot)
    }

    /** Mounting: nothing reported, nothing followed, the canvas camera at
        (0, 20, 50) looking at the origin. */
    constructor ()
      ensures time == 0.0 && positions == map[] && sizes == map[]
      ensures View() == CameraView(None, InitialCamera, Origin)
    {
      time := 0.0;
      positions := map[];
      sizes := map[];
      lastFollowed := None;
      camera := InitialCamera;
      pivot := Origin;
    }

    /** A planet reports its world position; only that id's entry changes. */
    method HandlePositionUpdate(id: string, position: Vec3)
      modifies this
      ensures positions == old(positions)[id := position]
      ensures sizes == old(sizes) && time == old(time) && View() == old(View())
    {
      positions := positions[id := position];
    }

    /** A planet reports its rendered size; only that id's entry changes. */
    method HandleSizeUpdate(id: string, size: real)
      modifies this
      ensures sizes == old(sizes)[id := size]
      ensures positions == old(positions) && time == old(time) && View() == old(View())
    {
      sizes := sizes[id := size];
    }

    /** The effect run when the camera mode changes: entering the free mode
        aims the controls at the last followed body. */
    method CameraModeChanged(nav: Navigation)
      modifies this
      ensures View() == (if nav.cameraMode == Free then FreeRecentre(old(View()), positions) else old(View()))
      ensures positions == old(positions) && sizes == old(sizes) && time == old(time)
    {
      if nav.cameraMode == Free && IdTruthy(lastFollowed) && lastFollowed.value in positions {
        pivot := positions[lastFollowed.value];
      }
    }

    /** The scene's frame callback. */
    method Frame(delta: real, controls: Controls, nav: Navigation)
      modifies this
      ensures time == AdvanceTime(old(time), delta, controls.timeScale)
      ensures View() == CameraFrame(old(View()), positions, sizes, controls, nav)
      ensures positions == old(positions) && sizes == old(sizes)
    {
      var isPaused := controls.timeScale <= 0.0;
      if !isPaused {
        time := time + delta * controls.timeScale;
      }
      if nav.cameraMode == Follow && IdTruthy(controls.selectedBody) {
        var id := controls.selectedBody.value;
        lastFollowed := Some(id);
        if id in positions && id in sizes && sizes[id] != 0.0 {
          var targetPosition := positions[id];
          var baseDistance := FollowBaseDistance(sizes[id]);
          var followDistance := Vec3(baseDistance * 0.7, baseDistance * 0.5, baseDistance * 1.2);
          var cameraPosition := Add(targetPosition, followDistance);
          camera := Lerp(camera, cameraPosition, 0.02);
          pivot := targetPosition;
        }
      }
      if nav.cameraMode == Free && IdTruthy(lastFollowed) && lastFollowed.value in positions {
        pivot := positions[lastFollowed.value];
      }
    }
  }

  /** The map after the first n of a sequence of reports, applied in order:
      later reports win. */
  function Record<V>(m: map<string, V>, ids: seq<string>, values: seq<V>, n: nat): map<string, V>
    requires n <= |ids| == |values|
  {
    if n == 0 then m else Record(m, ids, values, n - 1)[ids[n - 1] := values[n - 1]]
  }

  /** After the first n reports, each reported id is present and, when ids are
      distinct, holds exactly its own report. */
  lemma {:induction false} RecordHolds<V>(m: map<string, V>, ids: seq<string>, values: seq<V>, n: nat, k: nat)
    requires n <= |ids| == |values|
    requires k < n
    requires forall i, j :: 0 <= i < j < |ids| ==> ids[i] != ids[j]
    ensures ids[k] in Record(m, ids, values, n) && Record(m, ids, values, n)[ids[k]] == values[k]
  {
    if k < n - 1 {
      RecordHolds(m, ids, values, n - 1, k);
      assert ids[n - 1] != ids[k];
    }
  }

  /** An id that was not reported keeps its old entry, or stays absent. */
  lemma {:induction false} RecordKeepsOthers<V>(m: map<string, V>, ids: seq<string>, values: seq<V>, n: nat, key: string)
    requires n <= |ids| == |values|
    requires key !in ids[..n]
    ensures key in Record(m, ids, values, n) <==> key in m
    ensures key in m ==> Record(m, ids, values, n)[key] == m[key]
  {
    if n > 0 {
      assert ids[n - 1] == ids[..n][n - 1];
      assert key !in ids[..n - 1] by {
        assert forall i :: 0 <= i < n - 1 ==> ids[..n - 1][i] == ids[..n][i];
      }
      RecordKeepsOthers(m, ids, values, n - 1, key);
    }
  }

  function IdsOf(props: seq<PlanetProps>): (ids: seq<string>)
    ensures |ids| == |props| && forall i :: 0 <= i < |props| ==> ids[i] == props[i].body.id
  {
    seq(|props|, i requires 0 <= i < |props| => props[i].body.id)
  }

  function SizesOf(props: seq<PlanetProps>): (sizes: seq<real>)
    ensures |sizes| == |props| && forall i :: 0 <= i < |props| ==> sizes[i] == props[i].size
  {
    seq(|props|, i requires 0 <= i < |props| => props[i].size)
  }

  /** Every planet's callback of one frame, in mount order: each updates its
      own refs and hands back the report it makes. */
  method PlanetsFrame(planets: seq<PlanetInstance>, props: seq<PlanetProps>, worldPositions: seq<Vec3>,
                      sinNow: real, delta: real, controls: Controls, nav: Navigation)
    returns (reports: seq<Report>)
    requires |planets| == |props| == |worldPositions|
    requires forall i, j :: 0 <= i < j < |planets| ==> planets[i] != planets[j]
    requires forall i :: 0 <= i < |props| ==> props[i].body.rotationPeriod != 0.0
    modifies planets
    ensures |reports| == |planets|
    ensures forall i :: 0 <= i < |planets| ==> reports[i] == Report(props[i].body.id, worldPositions[i], props[i].size)
    ensures forall i :: 0 <= i < |planets| ==>
      planets[i].Snapshot() == PlanetFrame(old(planets[i].Snapshot()), props[i], controls, nav, sinNow, delta)
  {
    reports := [];
    var i := 0;
    while i < |planets|
      invariant 0 <= i <= |planets| && |reports| == i
      invariant forall k :: 0 <= k < i ==> reports[k] == Report(props[k].body.id, worldPositions[k], props[k].size)
      invariant forall k :: 0 <= k < i ==>
        planets[k].Snapshot() == PlanetFrame(old(planets[k].Snapshot()), props[k], controls, nav, sinNow, delta)
      invariant forall k :: i <= k < |planets| ==> planets[k].Snapshot() == old(planets[k].Snapshot())
    {
      var report := planets[i].Frame(props[i], controls, nav, worldPositions[i], sinNow, delta);
      reports := reports + [report];
      i := i + 1;
    }
  }

  /** The scene's two report handlers applied to each report in turn. */
  method ApplyReports(scene: SceneState, reports: seq<Report>)
    modifies scene
    ensures scene.positions == Record(old(scene.positions), IdsOfReports(reports), PositionsOf(reports), |reports|)
    ensures scene.sizes == Record(old(scene.sizes), IdsOfReports(reports), ReportedSizes(reports), |reports|)
    ensures scene.time == old(scene.time) && scene.View() == old(scene.View())
  {
    var i := 0;
    while i < |reports|
      invariant 0 <= i <= |reports|
      invariant scene.positions == Record(old(scene.positions), IdsOfReports(reports), PositionsOf(reports), i)
      invariant scene.sizes == Record(old(scene.sizes), IdsOfReports(reports), ReportedSizes(reports), i)
      invariant scene.time == old(scene.time) && scene.View() == old(scene.View())
    {
      scene.HandlePositionUpdate(reports[i].id, reports[i].position);
      scene.HandleSizeUpdate(reports[i].id, reports[i].size);
      i := i + 1;
    }
  }

  function IdsOfReports(reports: seq<Report>): (ids: seq<string>)
    ensures |ids| == |reports| && forall i :: 0 <= i < |reports| ==> ids[i] == reports[i].id
  {
    seq(|reports|, i requires 0 <= i < |reports| => reports[i].id)
  }

  function PositionsOf(reports: seq<Report>): (ps: seq<Vec3>)
    ensures |ps| == |reports| && forall i :: 0 <= i < |reports| ==> ps[i] == reports[i].position
  {
    seq(|reports|, i requires 0 <= i < |reports| => reports[i].position)
  }

  function ReportedSizes(reports: seq<Report>): (sizes: seq<real>)
    ensures |sizes| == |reports| && forall i :: 0 <= i < |reports| ==> sizes[i] == reports[i].size
  {
    seq(|reports|, i requires 0 <= i < |reports| => reports[i].size)
  }

  /** The planets' callbacks of one frame and their reports to the scene. Each
      callback touches only its own planet's refs and the scene's two report
      maps, so running the callbacks in mount order and then applying their
      reports in the same order ends in the same state as interleaving them. */
  method PlanetsReport(scene: SceneState, planets: seq<PlanetInstance>, props: seq<PlanetProps>, worldPositions: seq<Vec3>,
                       sinNow: real, delta: real, controls: Controls, nav: Navigation)
    requires |planets| == |props| == |worldPositions|
    requires forall i, j :: 0 <= i < j < |planets| ==> planets[i] != planets[j]
    requires forall i :: 0 <= i < |props| ==> props[i].body.rotationPeriod != 0.0
    modifies scene, planets
    ensures forall i :: 0 <= i < |planets| ==>
      planets[i].Snapshot() == PlanetFrame(old(planets[i].Snapshot()), props[i], controls, nav, sinNow, delta)
    ensures scene.positions == Record(old(scene.positions), IdsOf(props), worldPositions, |props|)
    ensures scene.sizes == Record(old(scene.sizes), IdsOf(props), SizesOf(props), |props|)
    ensures scene.time == old(scene.time) && scene.View() == old(scene.View())
  {
    var reports := PlanetsFrame(planets, props, worldPositions, sinNow, delta, controls, nav);
    assert IdsOfReports(reports) == IdsOf(props);
    assert PositionsOf(reports) == worldPositions;
    assert ReportedSizes(reports) == SizesOf(props);
    ApplyReports(scene, reports);
  }

  /** One rendered frame: every mounted planet runs its callback and reports
      first, then the scene's callback reads this frame's reports. */
  method RunFrame(scene: SceneState, planets: seq<PlanetInstance>, props: seq<PlanetProps>, worldPositions: seq<Vec3>,
                  sinNow: real, delta: real, controls: Controls, nav: Navigation)
    requires |planets| == |props| == |worldPositions|
    requires forall i, j :: 0 <= i < j < |planets| ==> planets[i] != planets[j]
    requires forall i :: 0 <= i < |props| ==> props[i].body.rotationPeriod != 0.0
    modifies scene, planets
    ensures forall i :: 0 <= i < |planets| ==>
      planets[i].Snapshot() == PlanetFrame(old(planets[i].Snapshot()), props[i], controls, nav, sinNow, delta)
    ensures scene.positions == Record(old(scene.positions), IdsOf(props), worldPositions, |props|)
    ensures scene.sizes == Record(old(scene.sizes), IdsOf(props), SizesOf(props), |props|)
    ensures scene.time == AdvanceTime(old(scene.time), delta, controls.timeScale)
    ensures scene.View() == CameraFrame(old(scene.View()), scene.positions, scene.sizes, controls, nav)
  {
    PlanetsReport(scene, planets, props, worldPositions, sinNow, delta, controls, nav);
    scene.Frame(delta, controls, nav);
  }

  /** Because planets report before the scene reads, a followed body that
      reported this frame is followed at this frame's position and size. */
  lemma FollowUsesThisFramesReport(old_positions: map<string, Vec3>, old_sizes: map<string, real>, props: seq<PlanetProps>,
                                   worldPositions: seq<Vec3>, k: nat, v: CameraView, controls: Controls, nav: Navigation)
    requires |props| == |worldPositions| && k < |props|
    requires forall i, j :: 0 <= i < j < |props| ==> props[i].body.id != props[j].body.id
    requires nav.cameraMode == Follow && controls.selectedBody == Some(props[k].body.id) && props[k].body.id != ""
    requires props[k].size != 0.0
    ensures var positions := Record(old_positions, IdsOf(props), worldPositions, |props|);
      var sizes := Record(old_sizes, IdsOf(props), SizesOf(props), |props|);
      var r := CameraFrame(v, positions, sizes, controls, nav);
      && r.pivot == worldPositions[k]
      && r.camera == Lerp(v.camera, IdealCamera(worldPositions[k], props[k].size), FollowLerpAlpha)
  {
    var ids := IdsOf(props);
    RecordHolds(old_positions, ids, worldPositions, |props|, k);
    RecordHolds(old_sizes, ids, SizesOf(props), |props|, k);
  }
}
