/** The shared data model of the simulation: the tree of celestial bodies, the
    simulation controls and the navigation state, their partial updates, and the
    callbacks the panels hand to the simulation. */
module SolarTypes {

  datatype Option<+T> = None | Some(value: T)

  /** JavaScript truthiness of an optional number: present and not zero. */
  predicate NumTruthy(o: Option<real>) {
    o.Some? && o.value != 0.0
  }

  /** JavaScript truthiness of a nullable id: present and not the empty string. */
  predicate IdTruthy(o: Option<string>) {
    o.Some? && o.value != ""
  }

  /** The five kinds of celestial body. */
  datatype BodyType = Star | Planet | Moon | DwarfPlanet | Asteroid

  /** The string literal the data table uses for each kind. */
  function BodyTypeName(k: BodyType): string {
    match k
    case Star => "star"
    case Planet => "planet"
    case Moon => "moon"
    case DwarfPlanet => "dwarf-planet"
    case Asteroid => "asteroid"
  }

  /** Reads a kind back from its string literal; any other string is no kind. */
  function ParseBodyType(s: string): (k: Option<BodyType>)
    ensures k.Some? ==> BodyTypeName(k.value) == s
    ensures k.None? ==> forall t: BodyType :: BodyTypeName(t) != s
  {
    if s == "star" then Some(Star)
    else if s == "planet" then Some(Planet)
    else if s == "moon" then Some(Moon)
    else if s == "dwarf-planet" then Some(DwarfPlanet)
    else if s == "asteroid" then Some(Asteroid)
    else None
  }

  lemma BodyTypeNameRoundTrip(k: BodyType)
    ensures ParseBodyType(BodyTypeName(k)) == Some(k)
  {
  }

  /** A celestial body. An absent moon list is the empty sequence and an absent
      ring flag is false; the physical and educational fields that no
      computation reads are not part of the model. */
  datatype Body = Body(
    id: string,
    name: string,
    kind: BodyType,
    radius: real,                  // km
    distanceFromSun: Option<real>, // AU
    orbitalPeriod: Option<real>,   // Earth days, negative for a retrograde orbit
    rotationPeriod: real,          // hours, negative for retrograde rotation
    axialTilt: real,               // degrees
    eccentricity: Option<real>,
    moons: seq<Body>,
    hasRings: bool)

  /** Depth-first search of a body list and of all moons below it. */
  function FindInTree(bodies: seq<Body>, id: string): (r: Option<Body>)
    ensures r.Some? ==> r.value.id == id
    ensures (exists i :: 0 <= i < |bodies| && bodies[i].id == id) ==> r.Some?
    decreases bodies
  {
    if bodies == [] then None
    else if bodies[0].id == id then Some(bodies[0])
    else
      match FindInTree(bodies[0].moons, id)
      case Some(m) => Some(m)
      case None => FindInTree(bodies[1..], id)
  }

  datatype ScaleMode = Realistic | Visible | Logarithmic

  datatype DemoMode = RealScale | Educational

  /** SimulationControls. */
  datatype Controls = Controls(
    timeScale: real,           // simulated days per real second; 0 pauses
    showOrbits: bool,
    showLabels: bool,
    scaleMode: ScaleMode,
    selectedBody: Option<string>,
    demoMode: Option<DemoMode>)

  datatype CameraMode = Free | Follow | Overview

  /** NavigationState. The declared type makes autoRotate mandatory, but the
      simulation's initial state leaves it out, so it is optional here. */
  datatype Navigation = Navigation(
    target: Option<string>,
    isTransitioning: bool,
    autoRotate: Option<bool>,
    autoRotateSpeed: Option<real>,
    cameraMode: CameraMode)

  /** Partial<SimulationControls>: None is an absent key. */
  datatype ControlsPatch = ControlsPatch(
    timeScale: Option<real>,
    showOrbits: Option<bool>,
    showLabels: Option<bool>,
    scaleMode: Option<ScaleMode>,
    selectedBody: Option<Option<string>>,
    demoMode: Option<DemoMode>)

  const EmptyControlsPatch: ControlsPatch := ControlsPatch(None, None, None, None, None, None)

  /** Partial<NavigationState>: None is an absent key. */
  datatype NavigationPatch = NavigationPatch(
    target: Option<Option<string>>,
    isTransitioning: Option<bool>,
    autoRotate: Option<bool>,
    autoRotateSpeed: Option<real>,
    cameraMode: Option<CameraMode>)

  const EmptyNavigationPatch: NavigationPatch := NavigationPatch(None, None, None, None, None)

  /** The callbacks the simulation hands to the scene and the two panels. */
  datatype Callback =
    | BodySelect(bodyId: Option<string>)
    | NavigateTo(targetId: string)
    | ControlsChange(controlsPatch: ControlsPatch)
    | NavigationChange(navigationPatch: NavigationPatch)
    | NavigationComplete

  // A few entries of the body table, as fixtures for the lemmas. Jupiter and
  // Mars carry no moons here; the lemmas do not need them.

  const Sun: Body := Body("sun", "The Sun", Star, 696340.0, None, None, 609.12, 7.25, None, [], false)

  const Venus: Body := Body("venus", "Venus", Planet, 6051.8, Some(0.723), Some(225.0), -5832.5, 177.4, Some(0.007), [], false)

  const EarthMoon: Body := Body("moon", "The Moon", Moon, 1737.4, Some(1.0), Some(27.3), 655.7, 6.68, None, [], false)

  const Earth: Body := Body("earth", "Earth", Planet, 6371.0, Some(1.0), Some(365.25), 24.0, 23.44, Some(0.017), [EarthMoon], false)

  const Mars: Body := Body("mars", "Mars", Planet, 3389.5, Some(1.524), Some(687.0), 24.6, 25.19, Some(0.094), [], false)

  const Jupiter: Body := Body("jupiter", "Jupiter", Planet, 69911.0, Some(5.204), Some(4333.0), 9.9, 3.13, Some(0.049), [], true)

  const Triton: Body := Body("triton", "Triton", Moon, 1353.4, Some(30.05), Some(-5.88), -141.0, 0.0, None, [], false)

  const Neptune: Body := Body("neptune", "Neptune", Planet, 24622.0, Some(30.05), Some(60190.0), 16.1, 28.32, Some(0.009), [Triton], true)

  const FixtureBodies: seq<Body> := [Sun, Venus, Earth, Mars, Jupiter, Neptune]
}
