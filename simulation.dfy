/** The top-level simulation state: the selected body, the controls and the
    navigation state, the handlers the panels and the scene call, and the
    invariant that every sequence of user actions keeps. */
module Simulation {
  import opened SolarTypes
  import opened ControlPanel
  import opened NavigationPanel

  /** Initial controls: one simulated hour per second, orbits and labels on,
      the visible scale, nothing selected. */
  const InitialControls: Controls := Controls(1.0 / 24.0, true, true, Visible, None, None)

  /** Initial navigation: the Sun as target, following, not transitioning. */
  const InitialNavigation: Navigation := Navigation(Some("sun"), false, None, None, Follow)

  /** The three state cells of the simulation component. */
  datatype AppState = AppState(selectedBody: Option<string>, controls: Controls, navigation: Navigation)

  const InitialApp: AppState := AppState(None, InitialControls, InitialNavigation)

  function Pick<T>(patched: Option<T>, current: T): T {
    if patched.Some? then patched.value else current
  }

  /** { ...prev, ...patch } on the controls. */
  function MergeControls(prev: Controls, p: ControlsPatch): (r: Controls)
    ensures p == EmptyControlsPatch ==> r == prev
    ensures p.timeScale.Some? ==> r.timeScale == p.timeScale.value
    ensures p.timeScale.None? ==> r.timeScale == prev.timeScale
    ensures p.scaleMode.None? && p.showOrbits.None? && p.showLabels.None? ==>
      r.scaleMode == prev.scaleMode && r.showOrbits == prev.showOrbits && r.showLabels == prev.showLabels
  {
    Controls(Pick(p.timeScale, prev.timeScale), Pick(p.showOrbits, prev.showOrbits),
             Pick(p.showLabels, prev.showLabels), Pick(p.scaleMode, prev.scaleMode),
             Pick(p.selectedBody, prev.selectedBody), if p.demoMode.Some? then p.demoMode else prev.demoMode)
  }

  /** { ...prev, ...patch } on the navigation state. */
  function MergeNavigation(prev: Navigation, p: NavigationPatch): (r: Navigation)
    ensures p == EmptyNavigationPatch ==> r == prev
    ensures p.cameraMode.Some? ==> r.cameraMode == p.cameraMode.value
    ensures p.cameraMode.None? ==> r.cameraMode == prev.cameraMode
    ensures p.target.None? && p.isTransitioning.None? ==> r.target == prev.target && r.isTransitioning == prev.isTransitioning
  {
    Navigation(Pick(p.target, prev.target), Pick(p.isTransitioning, prev.isTransitioning),
               if p.autoRotate.Some? then p.autoRotate else prev.autoRotate,
               if p.autoRotateSpeed.Some? then p.autoRotateSpeed else prev.autoRotateSpeed,
               Pick(p.cameraMode, prev.cameraMode))
  }

  /** One patch followed by another, as a single patch: the later key wins. */
  function ThenControls(p: ControlsPatch, q: ControlsPatch): ControlsPatch {
    ControlsPatch(if q.timeScale.Some? then q.timeScale else p.timeScale,
                  if q.showOrbits.Some? then q.showOrbits else p.showOrbits,
                  if q.showLabels.Some? then q.showLabels else p.showLabels,
                  if q.scaleMode.Some? then q.scaleMode else p.scaleMode,
                  if q.selectedBody.Some? then q.selectedBody else p.selectedBody,
                  if q.demoMode.Some? then q.demoMode else p.demoMode)
  }

  function ThenNavigation(p: NavigationPatch, q: NavigationPatch): NavigationPatch {
    NavigationPatch(if q.target.Some? then q.target else p.target,
                    if q.isTransitioning.Some? then q.isTransitioning else p.isTransitioning,
                    if q.autoRotate.Some? then q.autoRotate else p.autoRotate,
                    if q.autoRotateSpeed.Some? then q.autoRotateSpeed else p.autoRotateSpeed,
                    if q.cameraMode.Some? then q.cameraMode else p.cameraMode)
  }

  /** Merging: patched keys win and the others keep their value. */
  lemma MergeControlsFields(prev: Controls, p: ControlsPatch)
    ensures var c := MergeControls(prev, p);
      && (p.timeScale.Some? ==> c.timeScale == p.timeScale.value) && (p.timeScale.None? ==> c.timeScale == prev.timeScale)
      && (p.showOrbits.Some? ==> c.showOrbits == p.showOrbits.value) && (p.showOrbits.None? ==> c.showOrbits == prev.showOrbits)
      && (p.showLabels.Some? ==> c.showLabels == p.showLabels.value) && (p.showLabels.None? ==> c.showLabels == prev.showLabels)
      && (p.scaleMode.Some? ==> c.scaleMode == p.scaleMode.value) && (p.scaleMode.None? ==> c.scaleMode == prev.scaleMode)
      && (p.selectedBody.Some? ==> c.selectedBody == p.selectedBody.value) && (p.selectedBody.None? ==> c.selectedBody == prev.selectedBody)
      && (p.demoMode.Some? ==> c.demoMode == p.demoMode) && (p.demoMode.None? ==> c.demoMode == prev.demoMode)
  {
  }

  /** The empty patch is the identity, a patch applied twice acts once, and two
      patches in a row act as their combination. */
  lemma MergeControlsAlgebra(prev: Controls, p: ControlsPatch, q: ControlsPatch)
    ensures MergeControls(prev, EmptyControlsPatch) == prev
    ensures MergeControls(MergeControls(prev, p), p) == MergeControls(prev, p)
    ensures MergeControls(MergeControls(prev, p), q) == MergeControls(prev, ThenControls(p, q))
  {
  }

  lemma MergeNavigationFields(prev: Navigation, p: NavigationPatch)
    ensures var n := MergeNavigation(prev, p);
      && (p.target.Some? ==> n.target == p.target.value) && (p.target.None? ==> n.target == prev.target)
      && (p.isTransitioning.Some? ==> n.isTransitioning == p.isTransitioning.value)
      && (p.isTransitioning.None? ==> n.isTransitioning == prev.isTransitioning)
      && (p.autoRotate.Some? ==> n.autoRotate == p.autoRotate) && (p.autoRotate.None? ==> n.autoRotate == prev.autoRotate)
      && (p.autoRotateSpeed.Some? ==> n.autoRotateSpeed == p.autoRotateSpeed)
      && (p.autoRotateSpeed.None? ==> n.autoRotateSpeed == prev.autoRotateSpeed)
      && (p.cameraMode.Some? ==> n.cameraMode == p.cameraMode.value) && (p.cameraMode.None? ==> n.cameraMode == prev.cameraMode)
  {
  }

  lemma MergeNavigationAlgebra(prev: Navigation, p: NavigationPatch, q: NavigationPatch)
    ensures MergeNavigation(prev, EmptyNavigationPatch) == prev
    ensures MergeNavigation(MergeNavigation(prev, p), p) == MergeNavigation(prev, p)
    ensures MergeNavigation(MergeNavigation(prev, p), q) == MergeNavigation(prev, ThenNavigation(p, q))
  {
  }

  /** handleBodySelect: both copies of the selection take the id; a truthy id
      also becomes the navigation target and switches to following. */
  function HandleBodySelect(s: AppState, bodyId: Option<string>): (r: AppState)
    ensures r.selectedBody == bodyId && r.controls.selectedBody == bodyId
    ensures IdTruthy(bodyId) ==> r.navigation.target == bodyId && r.navigation.cameraMode == Follow
    ensures !IdTruthy(bodyId) ==> r.navigation == s.navigation
  {
    var controls := s.controls.(selectedBody := bodyId);
    var navigation := if IdTruthy(bodyId) then s.navigation.(target := bodyId, cameraMode := Follow) else s.navigation;
    AppState(bodyId, controls, navigation)
  }

  /** Selecting changes nothing but the selection, the target and the camera mode. */
  lemma BodySelectFrame(s: AppState, bodyId: Option<string>)
    ensures var r := HandleBodySelect(s, bodyId);
      && r.controls == s.controls.(selectedBody := bodyId)
      && r.navigation.isTransitioning == s.navigation.isTransitioning
      && r.navigation.autoRotate == s.navigation.autoRotate
      && r.navigation.autoRotateSpeed == s.navigation.autoRotateSpeed
  {
  }

  /** handleNavigateTo: only the target and the transition flag change. */
  function HandleNavigateTo(s: AppState, bodyId: string): (r: AppState)
    ensures r.navigation.target == Some(bodyId) && r.navigation.isTransitioning
    ensures r.selectedBody == s.selectedBody && r.controls == s.controls
    ensures r.navigation.cameraMode == s.navigation.cameraMode
    ensures r.navigation.autoRotate == s.navigation.autoRotate && r.navigation.autoRotateSpeed == s.navigation.autoRotateSpeed
  {
    s.(navigation := s.navigation.(target := Some(bodyId), isTransitioning := true))
  }

  /** onNavigationComplete: only the transition flag is cleared. */
  function HandleNavigationComplete(s: AppState): (r: AppState)
    ensures !r.navigation.isTransitioning
    ensures r.navigation == s.navigation.(isTransitioning := false)
    ensures r.selectedBody == s.selectedBody && r.controls == s.controls
  {
    s.(navigation := s.navigation.(isTransitioning := false))
  }

  /** Completing a navigation undoes exactly its transition flag. */
  lemma NavigateThenComplete(s: AppState, bodyId: string)
    requires !s.navigation.isTransitioning
    ensures HandleNavigationComplete(HandleNavigateTo(s, bodyId)) == s.(navigation := s.navigation.(target := Some(bodyId)))
  {
  }

  function HandleControlsChange(s: AppState, p: ControlsPatch): AppState {
    s.(controls := MergeControls(s.controls, p))
  }

  function HandleNavigationChange(s: AppState, p: NavigationPatch): AppState {
    s.(navigation := MergeNavigation(s.navigation, p))
  }

  /** Routes a callback to its handler. */
  function Dispatch(s: AppState, cb: Callback): AppState {
    match cb
    case BodySelect(id) => HandleBodySelect(s, id)
    case NavigateTo(id) => HandleNavigateTo(s, id)
    case ControlsChange(p) => HandleControlsChange(s, p)
    case NavigationChange(p) => HandleNavigationChange(s, p)
    case NavigationComplete => HandleNavigationComplete(s)
  }

  function DispatchAll(s: AppState, cbs: seq<Callback>): AppState
    decreases |cbs|
  {
    if cbs == [] then s else DispatchAll(Dispatch(s, cbs[0]), cbs[1..])
  }

  /** The first top-level body with the id (Array.prototype.find). */
  function FindTopLevel(bodies: seq<Body>, id: string): (r: Option<Body>)
    ensures r.Some? ==> r.value.id == id && r.value in bodies
    ensures r.None? <==> forall i :: 0 <= i < |bodies| ==> bodies[i].id != id
    ensures r.Some? ==> exists i :: 0 <= i < |bodies| && bodies[i] == r.value && forall j :: 0 <= j < i ==> bodies[j].id != id
  {
    if bodies == [] then None
    else if bodies[0].id == id then Some(bodies[0])
    else
      var r := FindTopLevel(bodies[1..], id);
      if r.Some? then
        var i :| 0 <= i < |bodies[1..]| && bodies[1..][i] == r.value && forall j :: 0 <= j < i ==> bodies[1..][j].id != id;
        assert bodies[i + 1] == r.value;
        assert forall j :: 0 <= j < i + 1 ==> bodies[j].id != id by {
          forall j | 0 <= j < i + 1
            ensures bodies[j].id != id
          {
            if j > 0 {
              assert bodies[j] == bodies[1..][j - 1];
            }
          }
        }
        r
      else
        assert forall i :: 1 <= i < |bodies| ==> bodies[i] == bodies[1..][i - 1];
        r
  }

  /** selectedBodyData: the info panel's body, looked up among the top-level bodies only. */
  function SelectedBodyData(s: AppState, bodies: seq<Body>): (r: Option<Body>)
    ensures !IdTruthy(s.selectedBody) ==> r.None?
    ensures r.Some? ==> r.value.id == s.selectedBody.value && r.value in bodies
    ensures r.Some? <==> IdTruthy(s.selectedBody) && exists i :: 0 <= i < |bodies| && bodies[i].id == s.selectedBody.value
    ensures IdTruthy(s.selectedBody) ==> r == FindTopLevel(bodies, s.selectedBody.value)
  {
    if IdTruthy(s.selectedBody) then FindTopLevel(bodies, s.selectedBody.value) else None
  }

  /** Selecting the Moon shows no info panel, although the Moon is in the body
      tree: the lookup does not descend into moons. */
  lemma MoonSelectionShowsNoInfo()
    ensures SelectedBodyData(HandleBodySelect(InitialApp, Some("moon")), FixtureBodies).None?
    ensures FindInTree(FixtureBodies, "moon") == Some(EarthMoon)
  {
    var rest := FixtureBodies[1..];
    assert rest == [Venus, Earth, Mars, Jupiter, Neptune];
    assert rest[0] == Venus && rest[1..][0] == Earth;
    assert FindInTree(Earth.moons, "moon") == Some(EarthMoon);
    assert FindInTree(rest[1..], "moon") == Some(EarthMoon);
    assert FindInTree(Venus.moons, "moon") == None;
    assert FindInTree(rest, "moon") == Some(EarthMoon);
    assert FindInTree(Sun.moons, "moon") == None;
  }

  /** Closing the info panel clears both selections and leaves navigation alone. */
  lemma CloseInfoPanel(s: AppState)
    ensures HandleBodySelect(s, None) == AppState(None, s.controls.(selectedBody := None), s.navigation)
  {
  }

  /** The user actions: a control-panel button, a row or the "View the Sun"
      button of the navigation panel, a click on a body in the scene, and
      closing the info panel. */
  datatype UserAction =
    | PanelButton(button: Button)
    | NavigateRow(bodyId: string)
    | ViewTheSun
    | SceneClick(bodyId: string)
    | CloseInfo

  predicate Available(a: UserAction) {
    a.PanelButton? ==> Rendered(a.button)
  }

  function Apply(s: AppState, a: UserAction): AppState
    requires Available(a)
  {
    match a
    case PanelButton(b) => Dispatch(s, Click(b, s.controls))
    case NavigateRow(id) => DispatchAll(s, HandleNavigate(id).callbacks)
    case ViewTheSun => DispatchAll(s, HandleOverview().callbacks)
    case SceneClick(id) => Dispatch(s, BodySelect(Some(id)))
    case CloseInfo => Dispatch(s, BodySelect(None))
  }

  function ApplyAll(s: AppState, actions: seq<UserAction>): AppState
    requires forall i :: 0 <= i < |actions| ==> Available(actions[i])
    decreases |actions|
  {
    if actions == [] then s else ApplyAll(Apply(s, actions[0]), actions[1..])
  }

  /** A navigation-panel row first navigates, then selects. */
  lemma NavigateRowSteps(s: AppState, id: string)
    ensures DispatchAll(s, HandleNavigate(id).callbacks) == HandleBodySelect(HandleNavigateTo(s, id), Some(id))
  {
    var cbs := HandleNavigate(id).callbacks;
    assert cbs == [NavigateTo(id), BodySelect(Some(id))];
    assert cbs[1..] == [BodySelect(Some(id))];
    assert cbs[1..][1..] == [];
    var s1 := Dispatch(s, NavigateTo(id));
    var s2 := Dispatch(s1, BodySelect(Some(id)));
    assert DispatchAll(s2, []) == s2;
    assert DispatchAll(s1, cbs[1..]) == DispatchAll(s2, cbs[1..][1..]);
    assert DispatchAll(s, cbs) == DispatchAll(s1, cbs[1..]);
  }

  /** The invariant of the user-reachable states: the two copies of the
      selection agree, time never runs backwards, and the overview camera mode
      is never entered. */
  predicate Consistent(s: AppState) {
    && s.selectedBody == s.controls.selectedBody
    && s.controls.timeScale >= 0.0
    && s.navigation.cameraMode != Overview
  }

  /** A navigation-panel row selects the body, targets it, follows it and
      starts a transition that nothing ends. */
  lemma NavigateRowOutcome(s: AppState, id: string)
    requires id != ""
    ensures var r := Apply(s, NavigateRow(id));
      && r.selectedBody == Some(id) && r.controls.selectedBody == Some(id)
      && r.navigation.target == Some(id) && r.navigation.cameraMode == Follow
      && r.navigation.isTransitioning
  {
    NavigateRowSteps(s, id);
  }

  lemma ActionPreservesConsistency(s: AppState, a: UserAction)
    requires Available(a) && Consistent(s)
    ensures Consistent(Apply(s, a))
  {
    match a
    case PanelButton(b) =>
      if b.PresetButton? || b.RealTimeButton? || b.PauseButton? {
        TimeButtonsPause(b, s.controls);
      }
    case NavigateRow(id) =>
      NavigateRowSteps(s, id);
    case ViewTheSun =>
      NavigateRowSteps(s, "sun");
    case SceneClick(_) =>
    case CloseInfo =>
  }

  /** No user action ever clears the transition flag once it is set, since the
      scene never calls onNavigationComplete. */
  lemma TransitionNeverEnds(s: AppState, a: UserAction)
    requires Available(a) && s.navigation.isTransitioning
    ensures Apply(s, a).navigation.isTransitioning
  {
    match a
    case NavigateRow(id) =>
      NavigateRowSteps(s, id);
    case ViewTheSun =>
      NavigateRowSteps(s, "sun");
    case _ =>
  }

  /** Every state reached from the initial one by user actions is consistent. */
  lemma {:induction false} ReachableStatesConsistent(s: AppState, actions: seq<UserAction>)
    requires Consistent(s)
    requires forall i :: 0 <= i < |actions| ==> Available(actions[i])
    ensures Consistent(ApplyAll(s, actions))
    decreases |actions|
  {
    if actions != [] {
      ActionPreservesConsistency(s, actions[0]);
      ReachableStatesConsistent(Apply(s, actions[0]), actions[1..]);
    }
  }

  lemma InitialConsistent()
    ensures Consistent(InitialApp)
  {
  }

  /** Pressing a display toggle twice restores the state. */
  lemma ToggleTwiceRestores(s: AppState)
    ensures Apply(Apply(s, PanelButton(OrbitsToggle)), PanelButton(OrbitsToggle)) == s
    ensures Apply(Apply(s, PanelButton(LabelsToggle)), PanelButton(LabelsToggle)) == s
  {
  }

  /** The simulation component's state cells and its handlers. */
  class SimulationApp {
    var selectedBody: Option<string>
    var controls: Controls
    var navigation: Navigation

    function State(): AppState
      reads this
    {
      AppState(selectedBody, controls, navigation)
    }

    constructor ()
      ensures State() == InitialApp
    {
      selectedBody := None;
      controls := InitialControls;
      navigation := InitialNavigation;
    }

    method OnBodySelect(bodyId: Option<string>)
      modifies this
      ensures State() == HandleBodySelect(old(State()), bodyId)
    {
      selectedBody := bodyId;
      controls := controls.(selectedBody := bodyId);
      if IdTruthy(bodyId) {
        navigation := navigation.(target := bodyId, cameraMode := Follow);
      }
    }

    method OnNavigateTo(bodyId: string)
      modifies this
      ensures State() == HandleNavigateTo(old(State()), bodyId)
    {
      navigation := navigation.(target := Some(bodyId), isTransitioning := true);
    }

    method OnControlsChange(p: ControlsPatch)
      modifies this
      ensures State() == HandleControlsChange(old(State()), p)
    {
      controls := MergeControls(controls, p);
    }

    method OnNavigationChange(p: NavigationPatch)
      modifies this
      ensures State() == HandleNavigationChange(old(State()), p)
    {
      navigation := MergeNavigation(navigation, p);
    }

    method OnNavigationComplete()
      modifies this
      ensures State() == HandleNavigationComplete(old(State()))
    {
      navigation := navigation.(isTransitioning := false);
    }

    /** A user action, carried out through the handlers above. */
    method Perform(a: UserAction)
      requires Available(a)
      modifies this
      ensures State() == Apply(old(State()), a)
      ensures Consistent(old(State())) ==> Consistent(State())
    {
      if Consistent(State()) {
        ActionPreservesConsistency(State(), a);
      }
      match a
      case PanelButton(b) =>
        var cb := Click(b, controls);
        if cb.ControlsChange? {
          OnControlsChange(cb.controlsPatch);
        } else {
          OnNavigationChange(cb.navigationPatch);
        }
      case NavigateRow(id) =>
        NavigateRowSteps(old(State()), id);
        OnNavigateTo(id);
        OnBodySelect(Some(id));
      case ViewTheSun =>
        NavigateRowSteps(old(State()), "sun");
        OnNavigateTo("sun");
        OnBodySelect(Some("sun"));
      case SceneClick(id) =>
        OnBodySelect(Some(id));
      case CloseInfo =>
        OnBodySelect(None);
    }
  }
}
