# Solar system simulation: a verified model of its deterministic core

This project models the part of the interactive solar-system viewer that is
plain arithmetic and state bookkeeping, with none of the rendering. That part covers:

- **Body data.** The shape of a planetary body and its moons.
- **Simulation controls and navigation state.** The time scale, the orbit and
  label toggles, the three scale modes, the selected body, the camera target
  and the camera mode.
- **Scene mapping.** How the scene turns astronomical units and kilometres into
  render distances and sizes in the realistic, visible and logarithmic modes.
- **Per-frame motion.** How each planet advances its spin, its orbit and its
  selection pulse, and how the scene accumulates time.
- **Follow camera.** How the scene keeps the reported positions and sizes and
  eases the camera towards a followed body.
- **Panel callbacks.** The partial updates the control panel and the
  navigation panel send, and how the simulation merges them into its state.
- **Navigation search.** The case-insensitive name search and the moon rows it
  lists.
- **Materials.** The material tables, the atmosphere glow, and the geometry and
  turning of the rings. The cloud layer component is modelled too, although
  the planet never mounts it.
- **Star catalogue.** Its bright stars and its randomly generated stars.
- **Asteroid belt.** The buffers of the belt and the placement of its major
  asteroids.
- **Formatting.** The number and distance formatters.

## How each part is modelled

**State in classes.** State that the program updates in place is a Dafny
`class` whose methods state their new state through a pure function of the
old one. Examples are the refs of a mounted planet, the refs of the scene, the
simulation component's state cells, and the ring and belt meshes (and the
cloud mesh of the cloud layer component, which no planet mounts).

**Pure computation as functions.** Computation without state is made of
functions and lemmas.

**The frame order is explicit.** Every planet first reports its world
position and size to the scene. The scene's own frame callback then reads
them (`Scene.RunFrame`).

**External inputs are parameters.** `Math.random`, `Math.sin`, `Math.cos`,
`Math.log` and `Date.now` are parameters of the members that use them. A fact
about one of them, such as sin² + cos² = 1 or `Math.log` being monotone, is a
precondition of the lemma that needs it.

**Numbers.** Numbers are mathematical reals, so IEEE rounding is not
modelled.

**JavaScript truthiness is spelled out.** A number is falsy when it is
missing or zero; an id is falsy when it is missing or empty.

**Behaviour of the code worth noting:**

- **Info-panel lookup.** The body shown in the info panel is looked up among
  the top-level bodies only
  (src/components/solar-system/SolarSystemSimulation.tsx:61). A selected moon
  therefore shows no panel (`Simulation.MoonSelectionShowsNoInfo`), although a
  moon can be selected.
- **Camera modes.** The camera mode type has `overview` besides free and
  follow (src/types/solar-system.ts:88), but no control sets it.
- **Orbit fields.** The distance and the orbital period are each optional
  (src/types/solar-system.ts:14-15), and the motion code tests each one on its
  own (src/components/solar-system/Planet.tsx:53, 100).

## Model

| member | source | states |
|---|---|---|
| SolarTypes.ParseBodyType | src/types/solar-system.ts:4 | a string parses to a body type exactly when it is one of the five type names, and then to the type with that name |
| SolarTypes.BodyTypeNameRoundTrip | src/types/solar-system.ts:4 | parsing the name of any body type gives that type back |
| FrameClock.Advance | src/components/solar-system/Planet.tsx:86-103 | a paused frame (time scale ≤ 0) leaves an angle unchanged; otherwise the angle grows by speed × (timeScale / 60) × delta |
| FrameClock.AdvanceNeverDecreases | src/components/solar-system/Planet.tsx:86-103 | with a non-negative speed and delta, a frame never turns an angle backwards |
| FrameClock.AdvanceFollowsSpeedSign | src/components/solar-system/Planet.tsx:86-103 | unpaused with positive delta, an angle moves forwards, backwards or not at all as its speed is positive, negative or zero |
| FrameClock.AdvanceProportionalToSpeed | src/components/solar-system/Planet.tsx:86-103 | the advance of a frame is proportional to the speed |
| Utils.BucketOf | src/lib/utils/index.ts:8-19 | the magnitude bucket is billions exactly from 1e9, millions in [1e6, 1e9), thousands in [1e3, 1e6), units below 1e3 |
| Utils.Divisor | src/lib/utils/index.ts:8-19 | every bucket divides by at least 1 |
| Utils.FormatNumber | src/lib/utils/index.ts:8-19 | the displayed value times its bucket's divisor gives back the number, with the B/M/K suffix of the bucket |
| Utils.FormatDistance | src/lib/utils/index.ts:21-32 | the displayed value times its bucket's divisor gives back the distance, with the spelled-out suffix of the bucket |
| Utils.ScaledValueRange | src/lib/utils/index.ts:8-19 | in the thousands and millions buckets the displayed value lies in [1, 1000); in billions it is at least 1; in units it is the number itself |
| Utils.FormattersAgree | src/lib/utils/index.ts:8-32 | the two formatters agree on the bucket and on the value before rounding; a unit result has no suffix in one exactly when it has " km" in the other |
| Utils.AuToKm | src/lib/utils/index.ts:34-36 | dividing the result by 149597870.7 km gives back the astronomical units |
| Utils.AuToKmLinear | src/lib/utils/index.ts:34-36 | the conversion is zero at zero, strictly increasing and additive |
| Utils.DegreesToRadians | src/lib/utils/index.ts:38-40 | radians × 180 equals degrees × π |
| Utils.DegreesToRadiansLinear | src/lib/utils/index.ts:38-40 | the conversion takes 180 degrees to π and is additive |
| StarCatalog.RaDecOnSphere | src/lib/data/star-catalog.ts:18-27 | where sin² + cos² = 1 holds at both angles, the Cartesian point lies on the sphere of the given radius |
| StarCatalog.RaDecToCartesian | src/lib/data/star-catalog.ts:18-27 | the height is radius × sin(declination), and the point's azimuth in the x-z plane is the right ascension (lemma: RaDecOnSphere) |
| StarCatalog.GetStarColor | src/lib/data/star-catalog.ts:30-42 | the colour is white exactly when the class is empty or its upper-cased first letter is none of O, B, A, F, G, K, M |
| StarCatalog.StarColorByLetter | src/lib/data/star-catalog.ts:30-42 | two classes with the same upper-cased first letter share a colour |
| StarCatalog.SpectralColorsDistinct | src/lib/data/star-catalog.ts:30-42 | two different spectral letters get two different colours |
| StarCatalog.GetStarSize | src/lib/data/star-catalog.ts:45-50 | every size lies in [0.5, 3]; magnitude -1.5 or brighter gets the full 3 |
| StarCatalog.StarSizeNonIncreasing | src/lib/data/star-catalog.ts:45-50 | a brighter star (lower magnitude) is never drawn smaller |
| StarCatalog.SpectralClassOf | src/lib/data/star-catalog.ts:128-136 | the spectral letter follows the cumulative thresholds 0.76, 0.88, 0.96, 0.99, 0.995, 0.999, in both directions |
| StarCatalog.MakeStarRanges | src/lib/data/star-catalog.ts:119-146 | a generated star has right ascension in [0, 360), declination in [-90, 90), magnitude in [2, 6), a class among the seven letters, and id 1000 + its index |
| StarCatalog.MakeStar | src/lib/data/star-catalog.ts:121-145 | generated star i has id 1000 + i, no name, and a one-letter spectral class among the seven (lemma: MakeStarRanges) |
| StarCatalog.GenerateRandomStars | src/lib/data/star-catalog.ts:116-147 | the loop returns max(count, 0) stars, star k being the one built from draw k, with id 1000 + k and magnitude in [2, 6) |
| StarCatalog.BrightStarIds | src/lib/data/star-catalog.ts:53-113 | the bright-star table has twenty stars numbered 1 to 20 |
| StarCatalog.GetStarCatalog | src/lib/data/star-catalog.ts:151-154 | the catalogue is the 20 bright stars followed by 3000 generated ones, and no two of its stars share an id |
| PlanetMotion.OrbitalSpeed | src/components/solar-system/Planet.tsx:52-59 | with a truthy period the speed times the period is 2π·60, otherwise 0; the speed is positive exactly for a positive period |
| PlanetMotion.RotationSpeed | src/components/solar-system/Planet.tsx:62-68 | the speed times the rotation period in days is 2π·60; it is negative exactly for a retrograde rotation |
| PlanetMotion.PausedFrameKeepsMotion | src/components/solar-system/Planet.tsx:86-90 | a paused frame leaves spin, orbital angle, group angle and scale as they were |
| PlanetMotion.OrbitAdvance | src/components/solar-system/Planet.tsx:97-103 | unpaused, a moving body's orbital angle grows by 2π × timeScale × delta / period and the orbit group takes that angle |
| PlanetMotion.HalfPeriodTwiceTheAdvance | src/components/solar-system/Planet.tsx:52-59 | in the same frame a body with half the orbital period advances twice as far |
| PlanetMotion.NonOrbitingBodyStaysPut | src/components/solar-system/Planet.tsx:100-103 | a body without a truthy distance, or without a positive period, never changes its orbital angle or its group angle |
| PlanetMotion.TritonNeverOrbits | src/components/solar-system/Planet.tsx:100-103 | Triton, whose period is negative, never moves along its orbit |
| PlanetMotion.RetrogradeSpin | src/components/solar-system/Planet.tsx:97 | a negative rotation period turns the spin backwards |
| PlanetMotion.PulseRange | src/components/solar-system/Planet.tsx:107-114 | unpaused, a selected body the camera is not following pulses within [0.9, 1.1]; any other body has scale 1 |
| PlanetMotion.PlanetInstance.constructor | src/components/solar-system/Planet.tsx:46 | on mount the orbital angle starts at a random angle in [0, 2π), with spin 0, group angle 0 and scale 1 |
| PlanetMotion.PlanetInstance.Frame | src/components/solar-system/Planet.tsx:70-115 | every frame, paused or not, reports the world position and the size; the refs become the pure frame function of the old refs |
| PlanetMotion.PlanetFrame | src/components/solar-system/Planet.tsx:86-115 | a paused frame changes no ref; otherwise the spin advances at the rotation speed, the orbit angle and the group's angle advance together at the orbital speed only for a moving orbit, and a scale other than 1 needs a selected body that is not being followed (lemmas: PausedFrameKeepsMotion, OrbitAdvance, PulseRange) |
| PlanetMotion.MoonProps | src/components/solar-system/Planet.tsx:197-216 | a moon is the parent's moon, never selected, draws no orbit ring, and a click on it selects what a click on its parent selects |
| PlanetMotion.MoonPlacement | src/components/solar-system/Planet.tsx:197-216 | later moons sit further out, the first clears the parent's surface, and neighbouring moons never touch |
| PlanetMotion.MoonNeverPulses | src/components/solar-system/Planet.tsx:107-114 | a moon, never being selected, always has scale 1 |
| Scene.ScaleFactorsOf | src/components/solar-system/SolarSystemScene.tsx:36-50 | every mode's distance factor is at least 1.2 and its size factor at least 0.8 |
| Scene.RenderDistance | src/components/solar-system/SolarSystemScene.tsx:145-153 | a falsy distance is drawn at 0; realistic draws at 37.5 × AU and visible at 50 × AU |
| Scene.DistanceOrderPreserved | src/components/solar-system/SolarSystemScene.tsx:145-153 | in every mode (with a monotone logarithm) a body further from the Sun is never drawn closer |
| Scene.TierOf | src/components/solar-system/SolarSystemScene.tsx:173-195 | the size tier is giant above 20000 km, large terrestrial in (3000, 20000], small in (1500, 3000], very small up to 1500 |
| Scene.TierSize | src/components/solar-system/SolarSystemScene.tsx:173-195 | each tier's size has its floor: 2.2, 1.2, 0.9, and 0.7 for all |
| Scene.RenderSize | src/components/solar-system/SolarSystemScene.tsx:159-196 | the star is always 8; every size is at least 0.4; outside the logarithmic mode a non-star is at least 0.7 × the size factor |
| Scene.SizeMonotoneWithinTier | src/components/solar-system/SolarSystemScene.tsx:173-195 | within one tier a larger radius is never drawn smaller |
| Scene.LogSizeMonotone | src/components/solar-system/SolarSystemScene.tsx:167-172 | in the logarithmic mode size is monotone in the radius for all bodies but the star |
| Scene.TierBoundaryInversion | src/components/solar-system/SolarSystemScene.tsx:173-195 | across the giant boundary a 19999 km body is drawn larger than a 20001 km one |
| Scene.JupiterOutsizesSunWhenVisible | src/components/solar-system/SolarSystemScene.tsx:159-196 | in the visible mode Jupiter is drawn larger than the Sun |
| Scene.RenderBody | src/components/solar-system/SolarSystemScene.tsx:198-213 | a rendered body selects itself when clicked, is highlighted exactly when it is the selected body, and asks for an orbit ring exactly when orbits are shown and it has a distance |
| Scene.SunAtCentre | src/components/solar-system/SolarSystemScene.tsx:198-213 | the Sun is drawn at distance 0 with size 8 and no orbit ring |
| Scene.ClickOnMoonSelectsParent | src/components/solar-system/Planet.tsx:209 | a click on any moon of a top-level body selects the top-level body |
| Scene.OrbitPositionOnCircle | src/components/solar-system/Planet.tsx:100-103 | a top-level body's world position lies on the circle of its render distance, in the ecliptic plane |
| Scene.FollowBaseDistance | src/components/solar-system/SolarSystemScene.tsx:92-104 | the follow distance is at least 2.5 and 1.5 × the size, with floors 20, 8 and 4 for sizes from 6, 2 and 1 |
| Scene.FollowBaseDistanceMonotone | src/components/solar-system/SolarSystemScene.tsx:92-104 | a larger target is never followed from closer up |
| Scene.IdealCamera | src/components/solar-system/SolarSystemScene.tsx:106-113 | the ideal camera sits at the follow offset from the target |
| Scene.IdealCameraOutsideBody | src/components/solar-system/SolarSystemScene.tsx:92-113 | the ideal camera lies outside the followed body's sphere |
| Scene.FollowFrame | src/components/solar-system/SolarSystemScene.tsx:75-122 | following a reported target moves the camera 2% of the way to its ideal position and points the controls at the target; an unreported target moves nothing |
| Scene.CameraStillOutsideFollow | src/components/solar-system/SolarSystemScene.tsx:127-132 | outside follow mode the frame never moves the camera |
| Scene.FollowStep | src/components/solar-system/SolarSystemScene.tsx:75-123 | the selected id is remembered; for a reported target of non-zero size the controls aim at it and the camera's offset from the ideal position shrinks to 0.98 of what it was; otherwise the camera stays (lemmas: FollowFrame, FollowConverges) |
| Scene.FreeRecentre | src/components/solar-system/SolarSystemScene.tsx:126-132 | the controls aim at the last followed body when its position is known; nothing else changes |
| Scene.CameraFrame | src/components/solar-system/SolarSystemScene.tsx:75-132 | outside follow mode the camera and the remembered body stay; in follow mode with a truthy selection the selection is remembered, and with a falsy one nothing changes; in free mode the controls aim at the last followed body when its position is known, and otherwise nothing changes; the overview mode changes nothing (lemmas: FollowFrame, CameraStillOutsideFollow, LastFollowedPersists) |
| Scene.LastFollowedPersists | src/components/solar-system/SolarSystemScene.tsx:75-77 | once a body has been followed, some body stays remembered |
| Scene.FollowConverges | src/components/solar-system/SolarSystemScene.tsx:106-116 | with a target that stays put, after n frames the camera's offset from its ideal position is 0.98ⁿ times the first one |
| Scene.AdvanceTime | src/components/solar-system/SolarSystemScene.tsx:69-72 | the time accumulator stays put when paused and otherwise grows by delta × timeScale |
| Scene.TimeNeverGoesBack | src/components/solar-system/SolarSystemScene.tsx:69-72 | with non-negative delta, scene time never decreases |
| Scene.SceneState.constructor | src/components/solar-system/SolarSystemScene.tsx:30-33 | on mount nothing is reported or followed, and the camera is at (0, 20, 50), the position the Canvas is given at src/components/solar-system/SolarSystemSimulation.tsx:68, looking at the origin |
| Scene.SceneState.HandlePositionUpdate | src/components/solar-system/SolarSystemScene.tsx:136-138 | a position report changes only that body's entry |
| Scene.SceneState.HandleSizeUpdate | src/components/solar-system/SolarSystemScene.tsx:141-143 | a size report changes only that body's entry |
| Scene.SceneState.CameraModeChanged | src/components/solar-system/SolarSystemScene.tsx:53-65 | switching to the free mode recentres the controls on the last followed body; other modes change nothing |
| Scene.SceneState.Frame | src/components/solar-system/SolarSystemScene.tsx:67-133 | the scene frame advances time and runs the camera step on the current reports |
| Scene.RecordHolds | src/components/solar-system/SolarSystemScene.tsx:136-143 | after a frame's reports, each reporting body's entry holds its own report |
| Scene.RecordKeepsOthers | src/components/solar-system/SolarSystemScene.tsx:136-143 | an entry nobody reported keeps its old value, or stays absent |
| Scene.IdsOf | src/components/solar-system/SolarSystemScene.tsx:219 | helper: the ids of the rendered bodies in mount order, used by the report lemmas |
| Scene.SizesOf | src/components/solar-system/SolarSystemScene.tsx:219 | helper: the sizes of the rendered bodies in mount order, used by the report lemmas |
| Scene.PlanetsFrame | src/components/solar-system/Planet.tsx:70-115 | every planet's callback, in mount order, updates that planet's refs as one planet frame does, and hands back exactly its id, world position and size |
| Scene.ApplyReports | src/components/solar-system/SolarSystemScene.tsx:136-143 | the reports are written to the position and size maps in order, later reports winning; time and the camera are untouched |
| Scene.PlanetsReport | src/components/solar-system/Planet.tsx:70-115 | all planets' callbacks update each planet's refs and record every report, in order |
| Scene.RunFrame | src/components/solar-system/SolarSystemScene.tsx:67-133 | a whole frame: the planets report, then the scene advances time and moves the camera on this frame's reports |
| Scene.FollowUsesThisFramesReport | src/components/solar-system/SolarSystemScene.tsx:79-116 | a followed body that reported in this frame is followed at the position it just reported |
| ControlPanel.TimeScalesOrdered | src/components/controls/ControlPanel.tsx:31-38 | the six presets are non-negative and strictly increasing, and only the first pauses |
| ControlPanel.Click | src/components/controls/ControlPanel.tsx:99-208 | every button but the camera buttons sends a controls patch that sets exactly one field; preset i sends its time scale, Real Time sends 1, Pause sends 0, scale-mode row i sends mode i; camera row i sends only camera mode i, never overview |
| ControlPanel.TimeButtonsPause | src/components/controls/ControlPanel.tsx:99-128 | the time buttons set a non-negative time scale and pause exactly for Pause and the first preset |
| ControlPanel.TogglesNegate | src/components/controls/ControlPanel.tsx:146-162 | the orbit and label toggles send the negation of the current flag |
| ControlPanel.AtMostOnePresetHighlighted | src/components/controls/ControlPanel.tsx:101 | no two time presets are highlighted at once |
| ControlPanel.ExactlyOneScaleModeHighlighted | src/components/controls/ControlPanel.tsx:183-185 | exactly one scale-mode row is highlighted |
| ControlPanel.CameraHighlightUnlessOverview | src/components/controls/ControlPanel.tsx:206-208 | a camera row is highlighted exactly when the mode is not overview, and then only one |
| ControlPanel.ClickedPresetHighlighted | src/components/controls/ControlPanel.tsx:99-101 | once its patch is merged, a clicked preset is highlighted |
| NavigationPanel.GetBodyIcon | src/components/controls/NavigationPanel.tsx:31-38 | the sun icon is for exactly the star type, the moon icon for exactly the moon type, the globe for everything else |
| NavigationPanel.IconOfEveryKind | src/components/controls/NavigationPanel.tsx:31-38 | dwarf planets and asteroids get the globe |
| NavigationPanel.Includes | src/components/controls/NavigationPanel.tsx:41-43 | the substring test is true exactly when the term occurs at some offset |
| NavigationPanel.FilteredBodies | src/components/controls/NavigationPanel.tsx:41-43 | the list is no longer than the bodies and holds only matching bodies |
| NavigationPanel.FilterKeepsExactlyMatches | src/components/controls/NavigationPanel.tsx:41-43 | a body is listed exactly when it is one of the bodies and its name matches |
| NavigationPanel.FilterDistributes | src/components/controls/NavigationPanel.tsx:41-43 | the filter keeps the bodies' order |
| NavigationPanel.EmptySearchKeepsAll | src/components/controls/NavigationPanel.tsx:41-43 | an empty search lists every body |
| NavigationPanel.SearchIgnoresCase | src/components/controls/NavigationPanel.tsx:41-43 | terms equal up to ASCII case match the same bodies |
| NavigationPanel.NoMatchMessage | src/components/controls/NavigationPanel.tsx:162-166 | the no-match message shows exactly when no body's name matches |
| NavigationPanel.MoonEntriesMembers | src/components/controls/NavigationPanel.tsx:134-155 | the moon rows are exactly the moons of the listed bodies, each with its parent |
| NavigationPanel.MoonEntries | src/components/controls/NavigationPanel.tsx:134-155 | every moon row is a moon of a listed body, paired with that body, and every moon of the first listed body gets a row with that body (lemma: MoonEntriesMembers) |
| NavigationPanel.MoonListedWithParent | src/components/controls/NavigationPanel.tsx:134-155 | a moon row is shown exactly when its parent matches, whatever the moon's own name |
| NavigationPanel.MoonBadge | src/components/controls/NavigationPanel.tsx:124-127 | no badge without moons; otherwise it counts the moons and the word is plural exactly for more than one |
| NavigationPanel.HandleNavigate | src/components/controls/NavigationPanel.tsx:45-49 | a row click fires navigate-to then select for the body, and closes the panel |
| NavigationPanel.HandleOverview | src/components/controls/NavigationPanel.tsx:51-53 | "View the Sun" navigates to and selects the Sun |
| NavigationPanel.MoonRowNavigatesToMoon | src/components/controls/NavigationPanel.tsx:142 | a moon row selects the moon itself |
| NavigationPanel.RowClick | src/components/controls/NavigationPanel.tsx:108 | a row click navigates to the row's body, selects it, and closes the panel |
| Simulation.MergeControlsFields | src/components/solar-system/SolarSystemSimulation.tsx:52-54 | merging a controls patch takes the patched fields and keeps the others |
| Simulation.MergeControls | src/components/solar-system/SolarSystemSimulation.tsx:52-54 | an empty patch changes nothing; a patched time scale wins and an unpatched one is kept; a patch without display fields keeps them (lemmas: MergeControlsFields, MergeControlsAlgebra) |
| Simulation.MergeControlsAlgebra | src/components/solar-system/SolarSystemSimulation.tsx:52-54 | the empty patch changes nothing, a patch applied twice acts once, and two merges are one merge of the combined patch |
| Simulation.MergeNavigationFields | src/components/solar-system/SolarSystemSimulation.tsx:56-58 | merging a navigation patch takes the patched fields and keeps the others |
| Simulation.MergeNavigation | src/components/solar-system/SolarSystemSimulation.tsx:56-58 | an empty patch changes nothing; a patched camera mode wins and an unpatched one is kept; a patch without target and transition flag keeps them (lemmas: MergeNavigationFields, MergeNavigationAlgebra) |
| Simulation.MergeNavigationAlgebra | src/components/solar-system/SolarSystemSimulation.tsx:56-58 | the same identity, idempotence and composition laws for navigation patches |
| Simulation.HandleBodySelect | src/components/solar-system/SolarSystemSimulation.tsx:32-42 | both selection copies take the id; a truthy id becomes the target in follow mode; a falsy one leaves navigation alone |
| Simulation.BodySelectFrame | src/components/solar-system/SolarSystemSimulation.tsx:32-42 | selecting changes nothing but the selection, the target and the camera mode |
| Simulation.HandleNavigateTo | src/components/solar-system/SolarSystemSimulation.tsx:44-50 | navigating sets the target and the transition flag; the selection, the controls, the camera mode and both auto-rotate fields are unchanged |
| Simulation.HandleNavigationComplete | src/components/solar-system/SolarSystemSimulation.tsx:90 | completion clears only the transition flag |
| Simulation.NavigateThenComplete | src/components/solar-system/SolarSystemSimulation.tsx:44-50 | completing a navigation undoes exactly its transition flag |
| Simulation.FindTopLevel | src/components/solar-system/SolarSystemSimulation.tsx:60-62 | the result is the first top-level body with the id, and none exactly when no top-level body has it |
| Simulation.SelectedBodyData | src/components/solar-system/SolarSystemSimulation.tsx:60-62 | the panel shows a body exactly when the selection is truthy and some top-level body has that id; the body shown is the first top-level body with that id |
| Simulation.MoonSelectionShowsNoInfo | src/components/solar-system/SolarSystemSimulation.tsx:60-62 | selecting the Moon shows no info panel although the Moon is in the body tree |
| Simulation.CloseInfoPanel | src/components/solar-system/SolarSystemSimulation.tsx:137 | closing the info panel clears both selections and leaves navigation alone |
| Simulation.NavigateRowSteps | src/components/solar-system/SolarSystemSimulation.tsx:113-119 | a navigation row's two callbacks amount to navigate-to followed by select |
| Simulation.NavigateRowOutcome | src/components/solar-system/SolarSystemSimulation.tsx:113-119 | a navigation row selects the body, targets it, follows it and starts a transition |
| Simulation.ActionPreservesConsistency | src/components/solar-system/SolarSystemSimulation.tsx:32-58 | every user action keeps the selection copies equal, the time scale non-negative and the mode out of overview |
| Simulation.TransitionNeverEnds | src/components/solar-system/SolarSystemSimulation.tsx:90 | no user action clears a transition, since nothing calls the completion callback |
| Simulation.ReachableStatesConsistent | src/components/solar-system/SolarSystemSimulation.tsx:16-58 | every state reached by user actions from a consistent state is consistent |
| Simulation.InitialConsistent | src/components/solar-system/SolarSystemSimulation.tsx:16-30 | the initial state is consistent |
| Simulation.ToggleTwiceRestores | src/components/controls/ControlPanel.tsx:146-162 | pressing a display toggle twice restores the state |
| Simulation.SimulationApp.constructor | src/components/solar-system/SolarSystemSimulation.tsx:16-30 | the state cells start at the initial controls and navigation with nothing selected |
| Simulation.SimulationApp.OnBodySelect | src/components/solar-system/SolarSystemSimulation.tsx:32-42 | the cells become the selection transform of the old cells |
| Simulation.SimulationApp.OnNavigateTo | src/components/solar-system/SolarSystemSimulation.tsx:44-50 | the cells become the navigate transform of the old cells |
| Simulation.SimulationApp.OnControlsChange | src/components/solar-system/SolarSystemSimulation.tsx:52-54 | the controls cell becomes the merge of the patch |
| Simulation.SimulationApp.OnNavigationChange | src/components/solar-system/SolarSystemSimulation.tsx:56-58 | the navigation cell becomes the merge of the patch |
| Simulation.SimulationApp.OnNavigationComplete | src/components/solar-system/SolarSystemSimulation.tsx:90 | only the transition flag is cleared |
| Simulation.SimulationApp.Perform | src/components/solar-system/SolarSystemSimulation.tsx:113-137 | a user action carried out through the handlers gives the pure transition's state and keeps the state consistent |
| PlanetMaterials.TexturedSurface | src/components/solar-system/PlanetMaterials.tsx:15-94 | the textured material's roughness and metalness lie in [0, 1] for every id |
| PlanetMaterials.FallbackTable | src/components/solar-system/PlanetMaterials.tsx:98-113 | every fallback entry has roughness and metalness in [0, 1] |
| PlanetMaterials.FallbackMaterial | src/components/solar-system/PlanetMaterials.tsx:98-122 | the colour is the table's, else a truthy fallback colour, else #888888; a missing emission is black at intensity 0 |
| PlanetMaterials.PlanetMaterial | src/components/solar-system/PlanetMaterials.tsx:14-122 | the material is textured exactly when textures are loaded, and its surface values lie in [0, 1] |
| PlanetMaterials.SurfaceAgreesAcrossTables | src/components/solar-system/PlanetMaterials.tsx:15-113 | loading textures changes roughness and metalness for Mercury only |
| PlanetMaterials.AtmosphereGlow | src/components/solar-system/PlanetMaterials.tsx:167-193 | a glow is drawn exactly for Venus and the four giants, with a colour and radius 1.02 × size |
| PlanetMaterials.GlowOpacityAlwaysLow | src/components/solar-system/PlanetMaterials.tsx:168-180 | Earth never glows, so every glow has opacity 0.1 |
| PlanetMaterials.RingTilt | src/components/solar-system/PlanetMaterials.tsx:202-214 | the ring's x rotation plus π/2 is the axial tilt in radians |
| PlanetMaterials.UranusTiltBranchRedundant | src/components/solar-system/PlanetMaterials.tsx:202-214 | the Uranus branch computes the same tilt as the default |
| PlanetMaterials.Rings | src/components/solar-system/PlanetMaterials.tsx:196-263 | no ring without hasRings; Saturn with a ring texture gets the textured ring (1.2–2.2 × size) and only it does; Uranus gets the thin ring (1.6–2.1 × size) and only it does; every other ringed body gets the plain ring (1.2–2.0 × size) |
| PlanetMaterials.RingClearsPlanet | src/components/solar-system/PlanetMaterials.tsx:231-263 | every ring of a positive-size body is an annulus outside its surface |
| PlanetMaterials.CloudShell | src/components/solar-system/PlanetMaterials.tsx:146-152 | the cloud layer component (defined, never mounted) renders exactly with a cloud texture, at 1.005 × size |
| PlanetMaterials.CloudLayer.Frame | src/components/solar-system/PlanetMaterials.tsx:133-143 | the cloud layer component's mesh (never mounted) turns by the shared frame advance at speed 0.3 |
| PlanetMaterials.PlanetRings.Frame | src/components/solar-system/PlanetMaterials.tsx:216-226 | the rings turn by the shared frame advance at speed 0.1 |
| PlanetMaterials.CloudsOutpaceRings | src/components/solar-system/PlanetMaterials.tsx:133-226 | were the cloud layer mounted, in every frame it would turn three times as far as the rings; neither turns while paused |
| AsteroidBelt.ClassOf | src/components/solar-system/AsteroidBelt.tsx:221-237 | the class is carbonaceous below 0.75, silicaceous in [0.75, 0.92), metallic from 0.92 |
| AsteroidBelt.AsteroidOf | src/components/solar-system/AsteroidBelt.tsx:198-255 | an asteroid's height is its height draw's and its size is its base size times sizeScale |
| AsteroidBelt.RadialWithinBelt | src/components/solar-system/AsteroidBelt.tsx:200 | the radial position lies in [inner, outer) |
| AsteroidBelt.HeightWithinDisk | src/components/solar-system/AsteroidBelt.tsx:206 | the height lies in [-maxHeight, maxHeight) |
| AsteroidBelt.OnItsCircle | src/components/solar-system/AsteroidBelt.tsx:203-215 | each asteroid lies on the circle of its radial position in the x-z plane |
| AsteroidBelt.ColorBands | src/components/solar-system/AsteroidBelt.tsx:221-237 | each class keeps its channels in its band, and every channel lies in [0.2, 1) |
| AsteroidBelt.SizeBands | src/components/solar-system/AsteroidBelt.tsx:242-255 | small, medium and large asteroids take [0.02, 0.1), [0.1, 0.3), [0.3, 1) before scaling |
| AsteroidBelt.WritePosition | src/components/solar-system/AsteroidBelt.tsx:199-215 | slots 3i..3i+2 of the position buffer receive the asteroid's x, y and z; every other slot is unchanged |
| AsteroidBelt.WriteColor | src/components/solar-system/AsteroidBelt.tsx:217-237 | slots 3i..3i+2 of the colour buffer receive the colour of the asteroid's composition class; every other slot is unchanged |
| AsteroidBelt.WriteSize | src/components/solar-system/AsteroidBelt.tsx:239-255 | slot i of the size buffer receives the banded base size times sizeScale; every other slot is unchanged |
| AsteroidBelt.FillSlot | src/components/solar-system/AsteroidBelt.tsx:199-255 | one iteration writes asteroid i into slots 3i..3i+2 and i, and leaves every other slot alone |
| AsteroidBelt.GenerateBelt | src/components/solar-system/AsteroidBelt.tsx:191-263 | the buffers have lengths 3n, 3n and n, and slot i holds the asteroid built from draw i |
| AsteroidBelt.BeltRotation | src/components/solar-system/AsteroidBelt.tsx:266-272 | the belt's angle is one hundredth of the elapsed clock time |
| AsteroidBelt.BeltPoints.Frame | src/components/solar-system/AsteroidBelt.tsx:266-272 | each frame sets the rotation from the clock |
| AsteroidBelt.BeltTurnsWhilePaused | src/components/solar-system/AsteroidBelt.tsx:266-272 | while a paused frame freezes every time-scaled angle, the belt keeps turning |
| AsteroidBelt.MajorRadius | src/components/solar-system/AsteroidBelt.tsx:314-315 | helper: a major asteroid's radius is its truthy distance, else 2.5; its properties are in MajorsWithinBelt |
| AsteroidBelt.MajorsWithinBelt | src/components/solar-system/AsteroidBelt.tsx:311-337 | the four major asteroids are a quarter turn apart, within the belt's radii, within 0.05 of the ecliptic, with size 0.2 × sizeScale |
| AsteroidBelt.MajorPlacement | src/components/solar-system/AsteroidBelt.tsx:311-337 | a major asteroid has size 0.2 × sizeScale, lies within 0.05 of the ecliptic for a draw in [0, 1), and sits at azimuth 2πk/n (lemma: MajorsWithinBelt) |
| AsteroidBelt.BeltInsideSun | src/components/solar-system/SolarSystemSimulation.tsx:78-84 | as written, every asteroid lies inside the Sun's rendered sphere |
| AsteroidBelt.CorrectedBeltBetweenMarsAndJupiter | src/components/solar-system/AsteroidBelt.tsx:182-183 | with the radii mapped like the planets', the belt lies between Mars's and Jupiter's orbits in every scale mode |
| AsteroidBelt.AsteroidBetweenCircles | src/components/solar-system/AsteroidBelt.tsx:199-211 | an asteroid of a belt whose radii lie strictly between two circles lies, seen from above, strictly between those circles |
| AsteroidBelt.CorrectedAsteroidBetweenOrbits | src/components/solar-system/AsteroidBelt.tsx:198-215 | every asteroid of the mapped belt lies, seen from above, between the orbits of Mars and Jupiter |

## Left out

- Floating point: every number is a real; IEEE rounding, `toFixed` digits and the Float32 storage of the belt buffers are not modelled.
- Case mapping is ASCII only; full Unicode `toLowerCase`/`toUpperCase` is not modelled.
- Physical and educational fields of a body (mass, density, atmosphere, facts, images, textures) take no part in the modelled logic and are left out of `Body`.
- Texture loading, the loading-progress overlay, labels, the info panel's contents, panel open/closed and active-tab flags, and all JSX layout are rendering, not logic.
- three.js internals: `lookAt`, the orbit controls' damping and `update`, matrix world updates and `getWorldPosition` are given as parameters (the world position of each planet is an input to its frame).
- `Date.now()` for the pulse and the clock's elapsed time are parameters.
- Lookups of object-prototype keys (an id such as `constructor` in the colour tables) are not modelled.
- PlanetMotion.RotationSpeed: requires a non-zero rotation period, because a zero period gives an infinite speed in JavaScript and no real number models it.
- useFrame's guards on refs not yet mounted are left out: the model's frames run on mounted components.
- The panels' UI-local state (whether a panel is open, the control panel's active tab, the search box's text as typed) is not modelled; the search term is a parameter.
- The star catalogue's deep-space object table is plain data and is left out.
- React and the renderer's scheduling are replaced by one explicit frame order: every planet reports, then the scene reads.
- The body table is represented by a few fixture entries (the Sun, Venus, Earth and its Moon, Mars, Jupiter, Neptune and Triton, and the four major asteroids).
- The cloud layer component (src/components/solar-system/PlanetMaterials.tsx:130-164) is imported by the planet (src/components/solar-system/Planet.tsx:9) but never mounted: the planet renders only the glow and the rings (src/components/solar-system/Planet.tsx:187-190). `CloudShell`, `CloudLayer` and `CloudsOutpaceRings` therefore describe a component no frame of the program runs.
- The scene's time accumulator is kept as state, though no modelled member reads it, as in the code.

## Findings

| source | as written | input that shows it | evidently intended | confidence | as-written member | corrected member |
|---|---|---|---|---|---|---|
| src/components/solar-system/SolarSystemSimulation.tsx:78-84 | the belt's radii 2.1 to 3.3 and height 0.2 are astronomical units used directly as scene units, while planets are placed at 37.5, 50 or 20·ln(1 + AU) scene units and the Sun is drawn as a sphere of radius 8 | the default belt with any draws: each asteroid is at most √(3.3² + 0.2²) ≈ 3.31 from the centre, inside the Sun | a belt "between Mars and Jupiter", its radii mapped like the planets' distances | not executed | AsteroidBelt.BeltInsideSun | AsteroidBelt.CorrectedBeltBetweenMarsAndJupiter |
