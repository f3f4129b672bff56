/** The control panel: its preset tables, which button is highlighted, and
    the partial update each button sends to the simulation. */
module ControlPanel {
  import opened SolarTypes
  import opened FrameClock

  datatype TimeScalePreset = TimeScalePreset(value: real, caption: string, multiplier: string)

  const TimeScales: seq<TimeScalePreset> := [
    TimeScalePreset(0.0, "Paused", "0x"),
    TimeScalePreset(1.0 / 24.0, "1 sec = 1 hour", "24x"),
    TimeScalePreset(0.5, "1 sec = 12 hours", "48x"),
    TimeScalePreset(1.0, "1 sec = 1 day", "1440x"),
    TimeScalePreset(7.0, "1 sec = 1 week", "10080x"),
    TimeScalePreset(30.0, "1 sec = 1 month", "43200x")
  ]

  datatype ScaleModeOption = ScaleModeOption(value: ScaleMode, caption: string)

  const ScaleModes: seq<ScaleModeOption> := [
    ScaleModeOption(Realistic, "Realistic Scale"),
    ScaleModeOption(Visible, "Visible Scale"),
    ScaleModeOption(Logarithmic, "Logarithmic Scale")
  ]

  datatype CameraModeOption = CameraModeOption(value: CameraMode, caption: string)

  const CameraModes: seq<CameraModeOption> := [
    CameraModeOption(Free, "Free Camera"),
    CameraModeOption(Follow, "Follow Object")
  ]

  /** The presets are non-negative and strictly increasing, and only the first one pauses. */
  lemma TimeScalesOrdered()
    ensures |TimeScales| == 6
    ensures forall i :: 0 <= i < |TimeScales| ==> TimeScales[i].value >= 0.0
    ensures forall i, j :: 0 <= i < j < |TimeScales| ==> TimeScales[i].value < TimeScales[j].value
    ensures forall i :: 0 <= i < |TimeScales| ==> (IsPaused(TimeScales[i].value) <==> i == 0)
  {
  }

  /** The buttons of the panel. Indices select a row of the matching table. */
  datatype Button =
    | PresetButton(index: nat)
    | RealTimeButton
    | PauseButton
    | OrbitsToggle
    | LabelsToggle
    | ScaleModeButton(index: nat)
    | CameraModeButton(index: nat)

  /** A button that the panel renders. */
  predicate Rendered(b: Button) {
    match b
    case PresetButton(i) => i < |TimeScales|
    case ScaleModeButton(i) => i < |ScaleModes|
    case CameraModeButton(i) => i < |CameraModes|
    case _ => true
  }

  /** A controls patch that sets exactly one of the four fields the panel owns. */
  predicate SingleControlsField(p: ControlsPatch) {
    && p.selectedBody.None? && p.demoMode.None?
    && (if p.timeScale.Some? then 1 else 0) + (if p.showOrbits.Some? then 1 else 0)
       + (if p.showLabels.Some? then 1 else 0) + (if p.scaleMode.Some? then 1 else 0) == 1
  }

  /** The click handler of each button, as the callback it fires. */
  function Click(b: Button, controls: Controls): (cb: Callback)
    requires Rendered(b)
    ensures cb.ControlsChange? <==> !b.CameraModeButton?
    ensures cb.ControlsChange? ==> SingleControlsField(cb.controlsPatch)
    ensures cb.NavigationChange? ==>
      cb.navigationPatch.cameraMode.Some? && cb.navigationPatch.cameraMode.value != Overview
      && cb.navigationPatch == EmptyNavigationPatch.(cameraMode := cb.navigationPatch.cameraMode)
    ensures b.PresetButton? ==> cb.controlsPatch.timeScale == Some(TimeScales[b.index].value)
    ensures b == RealTimeButton ==> cb.controlsPatch.timeScale == Some(1.0)
    ensures b == PauseButton ==> cb.controlsPatch.timeScale == Some(0.0)
    ensures b.ScaleModeButton? ==> cb.controlsPatch.scaleMode == Some(ScaleModes[b.index].value)
    ensures b.CameraModeButton? ==> cb.NavigationChange? && cb.navigationPatch.cameraMode == Some(CameraModes[b.index].value)
  {
    match b
    case PresetButton(i) => ControlsChange(EmptyControlsPatch.(timeScale := Some(TimeScales[i].value)))
    case RealTimeButton => ControlsChange(EmptyControlsPatch.(timeScale := Some(1.0)))
    case PauseButton => ControlsChange(EmptyControlsPatch.(timeScale := Some(0.0)))
    case OrbitsToggle => ControlsChange(EmptyControlsPatch.(showOrbits := Some(!controls.showOrbits)))
    case LabelsToggle => ControlsChange(EmptyControlsPatch.(showLabels := Some(!controls.showLabels)))
    case ScaleModeButton(i) => ControlsChange(EmptyControlsPatch.(scaleMode := Some(ScaleModes[i].value)))
    case CameraModeButton(i) => NavigationChange(EmptyNavigationPatch.(cameraMode := Some(CameraModes[i].value)))
  }

  /** The time buttons only ever set a non-negative time scale, and a time
      button pauses exactly when it is Pause or the first preset. */
  lemma TimeButtonsPause(b: Button, controls: Controls)
    requires Rendered(b) && (b.PresetButton? || b.RealTimeButton? || b.PauseButton?)
    ensures var p := Click(b, controls).controlsPatch;
      && p.timeScale.Some? && p.timeScale.value >= 0.0
      && (IsPaused(p.timeScale.value) <==> b.PauseButton? || b == PresetButton(0))
  {
    TimeScalesOrdered();
  }

  /** A toggle sends the negation of the current flag. */
  lemma TogglesNegate(controls: Controls)
    ensures Click(OrbitsToggle, controls).controlsPatch.showOrbits == Some(!controls.showOrbits)
    ensures Click(LabelsToggle, controls).controlsPatch.showLabels == Some(!controls.showLabels)
  {
  }

  /** Highlighting: a row is highlighted when the current value equals its value. */
  predicate PresetHighlighted(i: nat, controls: Controls)
    requires i < |TimeScales|
  {
    controls.timeScale == TimeScales[i].value
  }

  predicate ScaleModeHighlighted(i: nat, controls: Controls)
    requires i < |ScaleModes|
  {
    controls.scaleMode == ScaleModes[i].value
  }

  predicate CameraModeHighlighted(i: nat, nav: Navigation)
    requires i < |CameraModes|
  {
    nav.cameraMode == CameraModes[i].value
  }

  /** At most one time preset is highlighted; none is for a time scale not in the table. */
  lemma AtMostOnePresetHighlighted(controls: Controls, i: nat, j: nat)
    requires i < |TimeScales| && j < |TimeScales|
    requires PresetHighlighted(i, controls) && PresetHighlighted(j, controls)
    ensures i == j
  {
    TimeScalesOrdered();
  }

  /** Exactly one scale-mode row is highlighted, whatever the current mode. */
  lemma ExactlyOneScaleModeHighlighted(controls: Controls)
    ensures exists i :: 0 <= i < |ScaleModes| && ScaleModeHighlighted(i, controls)
    ensures forall i, j :: 0 <= i < |ScaleModes| && 0 <= j < |ScaleModes| ==>
      (ScaleModeHighlighted(i, controls) && ScaleModeHighlighted(j, controls) ==> i == j)
  {
    match controls.scaleMode
    case Realistic => assert ScaleModeHighlighted(0, controls);
    case Visible => assert ScaleModeHighlighted(1, controls);
    case Logarithmic => assert ScaleModeHighlighted(2, controls);
  }

  /** A camera row is highlighted exactly when the mode is not overview, and then only one. */
  lemma CameraHighlightUnlessOverview(nav: Navigation)
    ensures (exists i :: 0 <= i < |CameraModes| && CameraModeHighlighted(i, nav)) <==> nav.cameraMode != Overview
    ensures forall i, j :: 0 <= i < |CameraModes| && 0 <= j < |CameraModes| ==>
      (CameraModeHighlighted(i, nav) && CameraModeHighlighted(j, nav) ==> i == j)
  {
    if nav.cameraMode == Free {
      assert CameraModeHighlighted(0, nav);
    } else if nav.cameraMode == Follow {
      assert CameraModeHighlighted(1, nav);
    }
  }

  /** Clicking a preset highlights it on the next render, once the patch is merged. */
  lemma ClickedPresetHighlighted(i: nat, controls: Controls)
    requires i < |TimeScales|
    ensures PresetHighlighted(i, controls.(timeScale := Click(PresetButton(i), controls).controlsPatch.timeScale.value))
  {
  }
}
