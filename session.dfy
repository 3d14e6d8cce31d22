/** The interaction layer of the gallery: clicking a painting flies the camera
    in front of it, clicking it again (or clicking the empty wall) flies back
    to the starting view; while a flight is running, clicks are ignored and
    the orbit controls are off; the action panel below a focused painting is
    shown only once the camera has arrived, its Video and Data buttons are
    disabled when the painting has no such link, and an inactivity timeout
    hides it again.

    The transition functions on SessionState are the specification; the
    class Session holds the same state in fields and its methods, one per
    handler, are proved to perform exactly those transitions. */
module GallerySession {
  import opened Vectors
  import opened GalleryLayout

  /** camera.position after init: (0, paintingBaseSize.height / 2 + 0.2, cameraStartZ). */
  const OriginalCameraPosition: Vec3 := Vec3(0.0, 0.6, 5.0)
  /** controls.target after init. */
  const OriginalControlsTarget: Vec3 := Vec3(0.0, 0.4, 0.0)
  /** cameraFocusDistance: how far in front of a painting the camera stops. */
  const CameraFocusDistance: real := 0.8

  datatype TweenKind = FocusTween | ResetTween

  /** The pair of camera / controls.target tweens in flight, by where they end. */
  datatype Tween = Tween(kind: TweenKind, cameraEnd: Vec3, targetEnd: Vec3)

  /** Everything the handlers read or write. `pending.Some?` is
      isCameraAnimating; the button fields keep their last values while the
      panel is hidden. */
  datatype SessionState = SessionState(
    focused: Option<nat>,
    pending: Option<Tween>,
    camera: Vec3,
    target: Vec3,
    controlsEnabled: bool,
    panelVisible: bool,
    infoLabel: string,
    videoDisabled: bool,
    dataDisabled: bool,
    description: Option<string>,
    timerArmed: bool,
    tooltip: Option<string>)

  /** The inputs the session reacts to. A raycast hit is the index of the
      painting under the pointer. */
  datatype Event =
    | Click(hit: Option<nat>)
    | AnimationDone
    | MouseMove(hover: Option<nat>)
    | MouseWheel
    | MouseLeave
    | InactivityTimeout
    | Orbit(camera: Vec3, target: Vec3)

  datatype Action = Info | Video | Data

  /** What handleAction does in the page. */
  datatype Effect = NoEffect | OpenWindow(url: string) | Download(url: string) | Alert(message: string)

  // ---------------------------------------------------------------------
  // Links
  // ---------------------------------------------------------------------

  /** String.prototype.toLowerCase on ASCII letters. */
  function LowerChar(c: char): (l: char)
    ensures !('A' <= l <= 'Z')
    ensures 'a' <= l <= 'z' <==> 'A' <= c <= 'Z' || 'a' <= c <= 'z'
    ensures !('A' <= c <= 'Z') ==> l == c
    ensures 'A' <= c <= 'Z' ==> l as int == c as int + 32
  {
    if 'A' <= c <= 'Z' then (c as int - 'A' as int + 'a' as int) as char else c
  }

  function ToLowerAscii(s: string): string {
    seq(|s|, i requires 0 <= i < |s| => LowerChar(s[i]))
  }

  /** One of the sixteen spellings of the word none in upper- and lower-case letters. */
  predicate SpellsNone(s: string) {
    |s| == 4 && (s[0] == 'n' || s[0] == 'N') && (s[1] == 'o' || s[1] == 'O')
    && (s[2] == 'n' || s[2] == 'N') && (s[3] == 'e' || s[3] == 'E')
  }

  /** `!x || x.toLowerCase() === 'none'` negated: a link is usable when it is
      present, non-empty and not the word none in any letter case. */
  function LinkEnabled(link: Option<string>): (enabled: bool)
    ensures enabled <==> link.Some? && link.value != "" && !SpellsNone(link.value)
  {
    link.Some? && link.value != "" && (LowerIsNoneIff(link.value); ToLowerAscii(link.value) != "none")
  }

  /** The strings toLowerCase maps to "none" are exactly the sixteen
      spellings of none. */
  lemma LowerIsNoneIff(s: string)
    ensures ToLowerAscii(s) == "none" <==> SpellsNone(s)
  {
    var l := ToLowerAscii(s);
    if l == "none" {
      assert l[0] == 'n' && l[1] == 'o' && l[2] == 'n' && l[3] == 'e';
    }
    if |s| == 4 && (s[0] == 'n' || s[0] == 'N') && (s[1] == 'o' || s[1] == 'O')
       && (s[2] == 'n' || s[2] == 'N') && (s[3] == 'e' || s[3] == 'E') {
      assert l == "none" by {
        assert |l| == 4 && l[0] == 'n' && l[1] == 'o' && l[2] == 'n' && l[3] == 'e';
      }
    }
  }

  lemma LinkExamples()
    ensures !LinkEnabled(None) && !LinkEnabled(Some("")) && !LinkEnabled(Some("None"))
    ensures !LinkEnabled(Some("NONE")) && LinkEnabled(Some("https://example.org/v"))
  {
    LowerIsNoneIff("None");
    LowerIsNoneIff("NONE");
    LowerIsNoneIff("https://example.org/v");
  }

  /** handleAction for the focused painting: Info does nothing, Video opens the
      link in a new window, Data downloads the file; without a usable link
      they alert, and without a focused painting nothing happens. */
  function ActionEffect(paintings: seq<PaintingMesh>, focused: Option<nat>, action: Action): (e: Effect)
    requires focused.Some? ==> focused.value < |paintings|
    ensures focused.None? || action == Info ==> e == NoEffect
    ensures e.OpenWindow? <==> focused.Some? && action == Video && LinkEnabled(paintings[focused.value].data.video)
    ensures e.Download? <==> focused.Some? && action == Data && LinkEnabled(paintings[focused.value].data.data)
    ensures e.OpenWindow? ==> e.url == paintings[focused.value].data.video.value
    ensures e.Download? ==> e.url == paintings[focused.value].data.data.value
    ensures e.Alert? <==> focused.Some? && ((action == Video && !LinkEnabled(paintings[focused.value].data.video))
                                        || (action == Data && !LinkEnabled(paintings[focused.value].data.data)))
    ensures e.Alert? ==> e.message == (if action == Video then "No video link available." else "No drawing process file available.")
  {
    if focused.None? then NoEffect
    else
      var data := paintings[focused.value].data;
      match action
      case Info => NoEffect
      case Video => if LinkEnabled(data.video) then OpenWindow(data.video.value) else Alert("No video link available.")
      case Data => if LinkEnabled(data.data) then Download(data.data.value) else Alert("No drawing process file available.")
  }

  // ---------------------------------------------------------------------
  // Transitions
  // ---------------------------------------------------------------------

  predicate InRange(paintings: seq<PaintingMesh>, s: SessionState) {
    s.focused.Some? ==> s.focused.value < |paintings|
  }

  predicate EventInRange(paintings: seq<PaintingMesh>, e: Event) {
    && (e.Click? && e.hit.Some? ==> e.hit.value < |paintings|)
    && (e.MouseMove? && e.hover.Some? ==> e.hover.value < |paintings|)
  }

  function InitialState(): SessionState {
    SessionState(None, None, OriginalCameraPosition, OriginalControlsTarget, true, false,
                 "Info", false, false, None, false, None)
  }

  /** Where the camera stops in front of a painting at `position`. */
  function FocusCamera(position: Vec3): Vec3 {
    Add(position, Vec3(0.0, 0.0, CameraFocusDistance))
  }

  /** updateActionsPanelVisibility(show). */
  function UpdatePanelVisibility(paintings: seq<PaintingMesh>, s: SessionState, show: bool): (r: SessionState)
    requires InRange(paintings, s)
    ensures r.panelVisible <==> show && s.focused.Some? && s.pending.None?
    ensures r.panelVisible ==>
              var data := paintings[s.focused.value].data;
              && r.infoLabel == OrDefault(data.name, "Info")
              && r.videoDisabled == !LinkEnabled(data.video)
              && r.dataDisabled == !LinkEnabled(data.data)
    ensures !r.panelVisible ==> r == s.(panelVisible := false)
    ensures r.(panelVisible := s.panelVisible, infoLabel := s.infoLabel,
               videoDisabled := s.videoDisabled, dataDisabled := s.dataDisabled) == s
  {
    if show && s.focused.Some? && s.pending.None? then
      var data := paintings[s.focused.value].data;
      s.(infoLabel := OrDefault(data.name, "Info"),
         videoDisabled := !LinkEnabled(data.video),
         dataDisabled := !LinkEnabled(data.data),
         panelVisible := true)
    else
      s.(panelVisible := false)
  }

  /** startInactivityTimer: the previous timeout is cleared and a new one set
      when a painting is focused and the camera is still. */
  function StartInactivityTimer(s: SessionState): (r: SessionState)
    ensures r.timerArmed <==> s.focused.Some? && s.pending.None?
    ensures r.(timerArmed := s.timerArmed) == s
  {
    s.(timerArmed := s.focused.Some? && s.pending.None?)
  }

  /** showActionPanel. */
  function ShowActionPanel(paintings: seq<PaintingMesh>, s: SessionState): (r: SessionState)
    requires InRange(paintings, s)
    ensures s.focused.None? || s.pending.Some? ==> r == s
    ensures s.focused.Some? && s.pending.None? ==>
              r.panelVisible && r.timerArmed && PanelShows(paintings, r, s.focused.value)
    ensures && r.focused == s.focused && r.pending == s.pending && r.camera == s.camera
            && r.target == s.target && r.controlsEnabled == s.controlsEnabled && r.tooltip == s.tooltip
  {
    if s.focused.Some? && s.pending.None? then
      var shown := UpdatePanelVisibility(paintings, s, true);
      StartInactivityTimer(shown.(description := paintings[s.focused.value].data.description))
    else s
  }

  /** focusCameraOnPainting. */
  function FocusCameraOnPainting(paintings: seq<PaintingMesh>, s: SessionState, index: nat): (r: SessionState)
    requires InRange(paintings, s) && index < |paintings|
    ensures s.pending.Some? ==> r == s
    ensures s.pending.None? ==>
              && r.pending == Some(Tween(FocusTween, Add(paintings[index].position, Vec3(0.0, 0.0, 0.8)),
                                         paintings[index].position))
              && !r.controlsEnabled && !r.panelVisible && r.tooltip.None?
              && r.focused == s.focused && r.camera == s.camera && r.target == s.target
              && r.timerArmed == s.timerArmed
  {
    if s.pending.Some? then s
    else
      var position := paintings[index].position;
      var moving := s.(pending := Some(Tween(FocusTween, FocusCamera(position), position)),
                       controlsEnabled := false, tooltip := None);
      UpdatePanelVisibility(paintings, moving, false)
  }

  /** resetCameraPosition. */
  function ResetCameraPosition(paintings: seq<PaintingMesh>, s: SessionState): (r: SessionState)
    requires InRange(paintings, s)
    ensures s.pending.Some? && s.focused.None? ==> r == s
    ensures s.pending.None? || s.focused.Some? ==>
              && r.pending == Some(Tween(ResetTween, OriginalCameraPosition, OriginalControlsTarget))
              && !r.controlsEnabled && !r.panelVisible && !r.timerArmed
              && r.focused == s.focused && r.camera == s.camera && r.target == s.target
              && r.tooltip == s.tooltip
  {
    if s.pending.Some? && s.focused.None? then s
    else
      var moving := s.(pending := Some(Tween(ResetTween, OriginalCameraPosition, OriginalControlsTarget)),
                       controlsEnabled := false);
      UpdatePanelVisibility(paintings, moving, false).(timerArmed := false)
  }

  /** onCanvasClick. */
  function OnClick(paintings: seq<PaintingMesh>, s: SessionState, hit: Option<nat>): (r: SessionState)
    requires InRange(paintings, s) && (hit.Some? ==> hit.value < |paintings|)
    ensures s.pending.Some? || (s.focused.None? && hit.None?) ==> r == s
    ensures s.pending.None? && hit.Some? && s.focused != hit ==>
              r.focused == hit && r.pending.Some? && r.pending.value.kind == FocusTween
              && TweenHeadsFor(paintings, r.pending.value, hit.value)
    ensures s.pending.None? && s.focused.Some? && (hit.None? || hit == s.focused) ==>
              r.focused == s.focused && r.pending.Some? && r.pending.value.kind == ResetTween
              && TweenHeadsFor(paintings, r.pending.value, s.focused.value)
    ensures r.camera == s.camera && r.target == s.target
  {
    if s.pending.Some? then s
    else if hit.Some? then
      if s.focused == hit then ResetCameraPosition(paintings, s)
      else FocusCameraOnPainting(paintings, s.(focused := hit), hit.value)
    else if s.focused.Some? then ResetCameraPosition(paintings, s)
    else s
  }

  /** The onComplete callbacks of the two tweens: the camera and the orbit
      target have reached their ends. */
  function OnAnimationDone(paintings: seq<PaintingMesh>, s: SessionState): (r: SessionState)
    requires InRange(paintings, s)
    ensures s.pending.None? ==> r == s
    ensures s.pending.Some? ==>
              && r.camera == s.pending.value.cameraEnd && r.target == s.pending.value.targetEnd
              && r.pending.None? && r.controlsEnabled
    ensures s.pending.Some? && s.pending.value.kind == ResetTween ==>
              r.focused.None? && r.panelVisible == s.panelVisible && r.timerArmed == s.timerArmed
    ensures s.pending.Some? && s.pending.value.kind == FocusTween ==>
              r.focused == s.focused
              && (s.focused.Some? ==> r.panelVisible && r.timerArmed && PanelShows(paintings, r, s.focused.value))
  {
    match s.pending
    case None => s
    case Some(tween) =>
      var arrived := s.(camera := tween.cameraEnd, target := tween.targetEnd,
                        pending := None, controlsEnabled := true);
      if tween.kind == FocusTween then ShowActionPanel(paintings, arrived)
      else arrived.(focused := None)
  }

  /** onCanvasMouseMove. */
  function OnMouseMove(paintings: seq<PaintingMesh>, s: SessionState, hover: Option<nat>): (r: SessionState)
    requires InRange(paintings, s) && (hover.Some? ==> hover.value < |paintings|)
    ensures r.focused == s.focused && r.pending == s.pending && r.camera == s.camera && r.target == s.target
    ensures r.tooltip == (if s.focused.None? && s.pending.None? && hover.Some?
                          then Some(paintings[hover.value].name) else None)
    ensures s.focused.Some? && s.pending.None? ==>
              r.panelVisible && r.timerArmed && PanelShows(paintings, r, s.focused.value)
    ensures s.focused.None? || s.pending.Some? ==> r == s.(tooltip := r.tooltip)
  {
    var s1 := if s.focused.Some? && s.pending.None? then ShowActionPanel(paintings, s) else s;
    if s1.pending.Some? || s1.focused.Some? then s1.(tooltip := None)
    else if hover.Some? then s1.(tooltip := Some(paintings[hover.value].name))
    else s1.(tooltip := None)
  }

  /** The inactivity timeout's callback. */
  function OnInactivityTimeout(paintings: seq<PaintingMesh>, s: SessionState): (r: SessionState)
    requires InRange(paintings, s)
    ensures !s.timerArmed ==> r == s
    ensures s.timerArmed ==> r == s.(panelVisible := false, timerArmed := false, tooltip := None)
  {
    if s.timerArmed then UpdatePanelVisibility(paintings, s.(timerArmed := false), false).(tooltip := None)
    else s
  }

  /** OrbitControls move the camera and its target only while enabled. */
  function OnOrbit(s: SessionState, camera: Vec3, target: Vec3): SessionState {
    if s.controlsEnabled then s.(camera := camera, target := target) else s
  }

  function Step(paintings: seq<PaintingMesh>, s: SessionState, e: Event): SessionState
    requires InRange(paintings, s) && EventInRange(paintings, e)
  {
    match e
    case Click(hit) => OnClick(paintings, s, hit)
    case AnimationDone => OnAnimationDone(paintings, s)
    case MouseMove(hover) => OnMouseMove(paintings, s, hover)
    case MouseWheel => UpdatePanelVisibility(paintings, s, false)
    case MouseLeave => s.(tooltip := None)
    case InactivityTimeout => OnInactivityTimeout(paintings, s)
    case Orbit(camera, target) => OnOrbit(s, camera, target)
  }

  // ---------------------------------------------------------------------
  // Invariant
  // ---------------------------------------------------------------------

  /** The tween in flight heads for the focused painting, or back home. */
  predicate TweenHeadsFor(paintings: seq<PaintingMesh>, t: Tween, index: nat)
    requires index < |paintings|
  {
    match t.kind
    case FocusTween => t.cameraEnd == FocusCamera(paintings[index].position) && t.targetEnd == paintings[index].position
    case ResetTween => t.cameraEnd == OriginalCameraPosition && t.targetEnd == OriginalControlsTarget
  }

  /** The panel's buttons describe painting `index`. */
  predicate PanelShows(paintings: seq<PaintingMesh>, s: SessionState, index: nat)
    requires index < |paintings|
  {
    var data := paintings[index].data;
    && s.infoLabel == OrDefault(data.name, "Info")
    && s.videoDisabled == !LinkEnabled(data.video)
    && s.dataDisabled == !LinkEnabled(data.data)
    && s.description == data.description
  }

  /** What holds between any two events: a flight always has a focused
      painting and the controls are off exactly during it; no timeout is
      pending while flying home; the panel is
      visible only for the focused painting at rest, with its buttons, and
      always with a timeout pending to hide it; no tooltip while focused or
      moving. */
  predicate Inv(paintings: seq<PaintingMesh>, s: SessionState) {
    && InRange(paintings, s)
    && (s.pending.Some? ==> s.focused.Some? && TweenHeadsFor(paintings, s.pending.value, s.focused.value))
    && s.controlsEnabled == s.pending.None?
    && (s.panelVisible ==> s.focused.Some? && s.pending.None? && s.timerArmed && PanelShows(paintings, s, s.focused.value))
    && (s.timerArmed ==> s.focused.Some?)
    && (s.pending.Some? && s.pending.value.kind == ResetTween ==> !s.timerArmed)
    && (s.tooltip.Some? ==> s.focused.None? && s.pending.None?)
  }

  lemma InitialStateInv(paintings: seq<PaintingMesh>)
    ensures Inv(paintings, InitialState())
  {
  }

  lemma ShowActionPanelInv(paintings: seq<PaintingMesh>, s: SessionState)
    requires Inv(paintings, s)
    ensures Inv(paintings, ShowActionPanel(paintings, s))
  {
  }

  lemma OnClickInv(paintings: seq<PaintingMesh>, s: SessionState, hit: Option<nat>)
    requires Inv(paintings, s) && (hit.Some? ==> hit.value < |paintings|)
    ensures Inv(paintings, OnClick(paintings, s, hit))
  {
  }

  lemma OnAnimationDoneInv(paintings: seq<PaintingMesh>, s: SessionState)
    requires Inv(paintings, s)
    ensures Inv(paintings, OnAnimationDone(paintings, s))
  {
    if s.pending.Some? && s.pending.value.kind == FocusTween {
      var tween := s.pending.value;
      ShowActionPanelInv(paintings, s.(camera := tween.cameraEnd, target := tween.targetEnd,
                                       pending := None, controlsEnabled := true));
    }
  }

  lemma OnMouseMoveInv(paintings: seq<PaintingMesh>, s: SessionState, hover: Option<nat>)
    requires Inv(paintings, s) && (hover.Some? ==> hover.value < |paintings|)
    ensures Inv(paintings, OnMouseMove(paintings, s, hover))
  {
    if s.focused.Some? && s.pending.None? {
      ShowActionPanelInv(paintings, s);
    }
  }

  /** Every event keeps the invariant. */
  lemma StepInv(paintings: seq<PaintingMesh>, s: SessionState, e: Event)
    requires Inv(paintings, s) && EventInRange(paintings, e)
    ensures Inv(paintings, Step(paintings, s, e))
  {
    match e
    case Click(hit) => OnClickInv(paintings, s, hit);
    case AnimationDone => OnAnimationDoneInv(paintings, s);
    case MouseMove(hover) => OnMouseMoveInv(paintings, s, hover);
    case MouseWheel =>
    case MouseLeave =>
    case InactivityTimeout =>
    case Orbit(camera, target) =>
  }

  // ---------------------------------------------------------------------
  // Properties of the focus machine
  // ---------------------------------------------------------------------

  /** While the camera is flying, a click changes nothing. */
  lemma ClickIgnoredWhileAnimating(paintings: seq<PaintingMesh>, s: SessionState, hit: Option<nat>)
    requires InRange(paintings, s) && (hit.Some? ==> hit.value < |paintings|)
    requires s.pending.Some?
    ensures OnClick(paintings, s, hit) == s
  {
  }

  /** Clicking a painting that is not the focused one (from the home view or
      from another painting) starts a flight to it with the controls off and
      the panel and tooltip hidden; when the flight ends the camera sits
      0.8 in front of the painting looking at it, the controls are back on,
      and the panel shows that painting's buttons with the timeout armed. */
  lemma FocusLands(paintings: seq<PaintingMesh>, s: SessionState, index: nat)
    requires Inv(paintings, s) && index < |paintings|
    requires s.pending.None? && s.focused != Some(index)
    ensures var s1 := OnClick(paintings, s, Some(index));
            && s1.focused == Some(index) && s1.pending.Some? && s1.pending.value.kind == FocusTween
            && !s1.controlsEnabled && !s1.panelVisible && s1.tooltip.None?
            && s1.camera == s.camera && s1.target == s.target
    ensures var s2 := OnAnimationDone(paintings, OnClick(paintings, s, Some(index)));
            && s2.camera == Add(paintings[index].position, Vec3(0.0, 0.0, 0.8))
            && s2.target == paintings[index].position
            && s2.focused == Some(index) && s2.pending.None? && s2.controlsEnabled
            && s2.panelVisible && s2.timerArmed && PanelShows(paintings, s2, index)
  {
    var s1 := OnClick(paintings, s, Some(index));
    OnClickInv(paintings, s, Some(index));
    var tween := s1.pending.value;
    ShowActionPanelInv(paintings, s1.(camera := tween.cameraEnd, target := tween.targetEnd,
                                      pending := None, controlsEnabled := true));
  }

  /** Clicking the focused painting again, or the empty wall while a painting
      is focused, flies back: the panel is hidden and the timeout cleared at
      once, and when the flight ends the camera and the orbit target are back
      where init put them and nothing is focused. */
  lemma ResetRestoresView(paintings: seq<PaintingMesh>, s: SessionState, hit: Option<nat>)
    requires Inv(paintings, s) && (hit.Some? ==> hit.value < |paintings|)
    requires s.pending.None? && s.focused.Some?
    requires hit.None? || hit == s.focused
    ensures var s1 := OnClick(paintings, s, hit);
            && s1.focused == s.focused && s1.pending.Some? && s1.pending.value.kind == ResetTween
            && !s1.controlsEnabled && !s1.panelVisible && !s1.timerArmed
    ensures var s2 := OnAnimationDone(paintings, OnClick(paintings, s, hit));
            && s2.camera == OriginalCameraPosition && s2.target == OriginalControlsTarget
            && s2.focused.None? && s2.pending.None? && s2.controlsEnabled
            && !s2.panelVisible && !s2.timerArmed
  {
  }

  /** A click on the empty wall with nothing focused does nothing. */
  lemma ClickOnWallAtHome(paintings: seq<PaintingMesh>, s: SessionState)
    requires InRange(paintings, s) && s.focused.None?
    ensures OnClick(paintings, s, None) == s
  {
  }

  /** Only clicks start flights and only their completion ends them or
      changes the focused painting back to none. */
  lemma FocusChangesOnlyByClickOrArrival(paintings: seq<PaintingMesh>, s: SessionState, e: Event)
    requires InRange(paintings, s) && EventInRange(paintings, e)
    requires !e.Click? && !e.AnimationDone?
    ensures Step(paintings, s, e).focused == s.focused
    ensures Step(paintings, s, e).pending == s.pending
  {
    match e
    case MouseMove(hover) =>
      if s.focused.Some? && s.pending.None? {
        assert ShowActionPanel(paintings, s).focused == s.focused;
      }
    case MouseWheel =>
    case MouseLeave =>
    case InactivityTimeout =>
    case Orbit(camera, target) =>
  }

  /** The camera moves only when a flight completes or the user orbits with
      the controls enabled. */
  lemma CameraMovesOnlyByTweenOrControls(paintings: seq<PaintingMesh>, s: SessionState, e: Event)
    requires Inv(paintings, s) && EventInRange(paintings, e)
    requires Step(paintings, s, e).camera != s.camera || Step(paintings, s, e).target != s.target
    ensures (e.AnimationDone? && s.pending.Some?) || (e.Orbit? && s.controlsEnabled && s.pending.None?)
  {
    match e
    case Click(hit) =>
    case AnimationDone =>
    case MouseMove(hover) =>
    case MouseWheel =>
    case MouseLeave =>
    case InactivityTimeout =>
    case Orbit(camera, target) =>
  }

  /** Focus a painting from the starting view, wait, click it again, wait:
      the whole visible state is the starting one again. */
  lemma FocusThenResetRoundTrip(paintings: seq<PaintingMesh>, index: nat)
    requires index < |paintings|
    ensures var s0 := InitialState();
            var s2 := OnAnimationDone(paintings, OnClick(paintings, s0, Some(index)));
            var s4 := OnAnimationDone(paintings, OnClick(paintings, s2, Some(index)));
            s4 == s0.(infoLabel := s4.infoLabel, videoDisabled := s4.videoDisabled,
                      dataDisabled := s4.dataDisabled, description := s4.description)
  {
    var s0 := InitialState();
    InitialStateInv(paintings);
    FocusLands(paintings, s0, index);
    var s2 := OnAnimationDone(paintings, OnClick(paintings, s0, Some(index)));
    ResetRestoresView(paintings, s2, Some(index));
  }

  /** With the panel visible, a button is disabled exactly when pressing it
      would only raise the alert, and Info never does anything. */
  lemma PanelButtonsMatchActions(paintings: seq<PaintingMesh>, s: SessionState)
    requires Inv(paintings, s) && s.panelVisible
    ensures ActionEffect(paintings, s.focused, Info) == NoEffect
    ensures s.videoDisabled <==> ActionEffect(paintings, s.focused, Video).Alert?
    ensures s.dataDisabled <==> ActionEffect(paintings, s.focused, Data).Alert?
    ensures !s.videoDisabled ==> ActionEffect(paintings, s.focused, Video) == OpenWindow(paintings[s.focused.value].data.video.value)
    ensures !s.dataDisabled ==> ActionEffect(paintings, s.focused, Data) == Download(paintings[s.focused.value].data.data.value)
  {
  }

  /** The timeout hides the panel and the tooltip, and the wheel hides the
      panel, without touching the focus or the camera. */
  lemma HidingEvents(paintings: seq<PaintingMesh>, s: SessionState)
    requires Inv(paintings, s)
    ensures var t := Step(paintings, s, InactivityTimeout);
            s.timerArmed ==> !t.panelVisible && t.tooltip.None? && !t.timerArmed
                             && t.focused == s.focused && t.camera == s.camera
    ensures !s.timerArmed ==> Step(paintings, s, InactivityTimeout) == s
    ensures var w := Step(paintings, s, MouseWheel);
            !w.panelVisible && w.focused == s.focused && w.timerArmed == s.timerArmed
  {
  }

  /** Moving the pointer over a focused painting at rest brings the panel
      back and re-arms the timeout; with nothing focused it shows the hovered
      painting's name. */
  lemma MouseMoveShows(paintings: seq<PaintingMesh>, s: SessionState, hover: Option<nat>)
    requires Inv(paintings, s) && (hover.Some? ==> hover.value < |paintings|)
    requires s.pending.None?
    ensures var t := OnMouseMove(paintings, s, hover);
            && (s.focused.Some? ==> t.panelVisible && t.timerArmed && t.tooltip.None?
                                     && PanelShows(paintings, t, s.focused.value))
            && (s.focused.None? ==> t.tooltip == (if hover.Some? then Some(paintings[hover.value].name) else None)
                                     && t.panelVisible == s.panelVisible)
  {
    if s.focused.Some? {
      ShowActionPanelInv(paintings, s);
    }
  }

  // ---------------------------------------------------------------------
  // The session object
  // ---------------------------------------------------------------------

  class Session {
    const paintings: seq<PaintingMesh>
    var currentFocusedPainting: Option<nat>
    var pending: Option<Tween>
    var cameraPosition: Vec3
    var controlsTarget: Vec3
    var controlsEnabled: bool
    var panelVisible: bool
    var infoLabel: string
    var videoDisabled: bool
    var dataDisabled: bool
    var description: Option<string>
    var inactivityTimerArmed: bool
    var tooltip: Option<string>

    function State(): (s: SessionState)
      reads this
    {
      SessionState(currentFocusedPainting, pending, cameraPosition, controlsTarget, controlsEnabled,
                   panelVisible, infoLabel, videoDisabled, dataDisabled, description,
                   inactivityTimerArmed, tooltip)
    }

    predicate Valid()
      reads this
    {
      Inv(paintings, State())
    }

    constructor (paintings: seq<PaintingMesh>)
      ensures this.paintings == paintings
      ensures State() == InitialState() && Valid()
    {
      this.paintings := paintings;
      currentFocusedPainting := None;
      pending := None;
      cameraPosition := OriginalCameraPosition;
      controlsTarget := OriginalControlsTarget;
      controlsEnabled := true;
      panelVisible := false;
      infoLabel := "Info";
      videoDisabled := false;
      dataDisabled := false;
      description := None;
      inactivityTimerArmed := false;
      tooltip := None;
    }

    method UpdateActionsPanelVisibility(show: bool)
      requires InRange(paintings, State())
      modifies this
      ensures State() == UpdatePanelVisibility(paintings, old(State()), show)
    {
      if show && currentFocusedPainting.Some? && pending.None? {
        var data := paintings[currentFocusedPainting.value].data;
        infoLabel := OrDefault(data.name, "Info");
        videoDisabled := !LinkEnabled(data.video);
        dataDisabled := !LinkEnabled(data.data);
        panelVisible := true;
      } else {
        panelVisible := false;
      }
    }

    method StartTimer()
      modifies this
      ensures State() == StartInactivityTimer(old(State()))
    {
      inactivityTimerArmed := false;
      if currentFocusedPainting.Some? && pending.None? {
        inactivityTimerArmed := true;
      }
    }

    method ShowPanel()
      requires InRange(paintings, State())
      modifies this
      ensures State() == ShowActionPanel(paintings, old(State()))
    {
      if currentFocusedPainting.Some? && pending.None? {
        UpdateActionsPanelVisibility(true);
        description := paintings[currentFocusedPainting.value].data.description;
        StartTimer();
      }
    }

    method FocusOn(index: nat)
      requires InRange(paintings, State()) && index < |paintings|
      modifies this
      ensures State() == FocusCameraOnPainting(paintings, old(State()), index)
    {
      if pending.Some? {
        return;
      }
      var position := paintings[index].position;
      pending := Some(Tween(FocusTween, FocusCamera(position), position));
      controlsEnabled := false;
      tooltip := None;
      UpdateActionsPanelVisibility(false);
    }

    method ResetCamera()
      requires InRange(paintings, State())
      modifies this
      ensures State() == ResetCameraPosition(paintings, old(State()))
    {
      if pending.Some? && currentFocusedPainting.None? {
        return;
      }
      pending := Some(Tween(ResetTween, OriginalCameraPosition, OriginalControlsTarget));
      controlsEnabled := false;
      UpdateActionsPanelVisibility(false);
      inactivityTimerArmed := false;
    }

    /** onCanvasClick with the raycast already done. */
    method CanvasClick(hit: Option<nat>)
      requires Valid() && (hit.Some? ==> hit.value < |paintings|)
      modifies this
      ensures Valid()
      ensures State() == Step(paintings, old(State()), Click(hit))
    {
      ghost var before := State();
      if pending.None? {
        if hit.Some? {
          if currentFocusedPainting == hit {
            ResetCamera();
          } else {
            currentFocusedPainting := hit;
            FocusOn(hit.value);
          }
        } else if currentFocusedPainting.Some? {
          ResetCamera();
        }
      }
      StepInv(paintings, before, Click(hit));
    }

    /** The onComplete callback of the pending tween. */
    method CompleteAnimation()
      requires Valid()
      modifies this
      ensures Valid()
      ensures State() == Step(paintings, old(State()), AnimationDone)
    {
      ghost var before := State();
      if pending.Some? {
        var tween := pending.value;
        cameraPosition := tween.cameraEnd;
        controlsTarget := tween.targetEnd;
        pending := None;
        controlsEnabled := true;
        if tween.kind == FocusTween {
          ShowPanel();
        } else {
          currentFocusedPainting := None;
        }
      }
      StepInv(paintings, before, AnimationDone);
    }

    /** onCanvasMouseMove with the raycast already done. */
    method CanvasMouseMove(hover: Option<nat>)
      requires Valid() && (hover.Some? ==> hover.value < |paintings|)
      modifies this
      ensures Valid()
      ensures State() == Step(paintings, old(State()), MouseMove(hover))
    {
      ghost var before := State();
      if currentFocusedPainting.Some? && pending.None? {
        ShowPanel();
      }
      if pending.Some? || currentFocusedPainting.Some? {
        tooltip := None;
      } else if hover.Some? {
        tooltip := Some(paintings[hover.value].name);
      } else {
        tooltip := None;
      }
      StepInv(paintings, before, MouseMove(hover));
    }

    method Wheel()
      requires Valid()
      modifies this
      ensures Valid()
      ensures State() == Step(paintings, old(State()), MouseWheel)
    {
      ghost var before := State();
      UpdateActionsPanelVisibility(false);
      StepInv(paintings, before, MouseWheel);
    }

    method CanvasMouseLeave()
      requires Valid()
      modifies this
      ensures Valid()
      ensures State() == Step(paintings, old(State()), MouseLeave)
    {
      tooltip := None;
    }

    /** The callback of the timeout that startInactivityTimer set. */
    method InactivityTimeoutFired()
      requires Valid()
      modifies this
      ensures Valid()
      ensures State() == Step(paintings, old(State()), InactivityTimeout)
    {
      ghost var before := State();
      if inactivityTimerArmed {
        inactivityTimerArmed := false;
        UpdateActionsPanelVisibility(false);
        tooltip := None;
      }
      StepInv(paintings, before, InactivityTimeout);
    }

    /** The user drags or zooms with OrbitControls. */
    method UserOrbit(newCamera: Vec3, newTarget: Vec3)
      requires Valid()
      modifies this
      ensures Valid()
      ensures State() == Step(paintings, old(State()), Orbit(newCamera, newTarget))
    {
      if controlsEnabled {
        cameraPosition := newCamera;
        controlsTarget := newTarget;
      }
    }

    /** handleAction for one of the three panel buttons. */
    method HandleAction(action: Action) returns (effect: Effect)
      requires Valid()
      ensures effect == ActionEffect(paintings, currentFocusedPainting, action)
      ensures currentFocusedPainting.None? ==> effect == NoEffect
      ensures panelVisible ==> (effect.Alert? <==> (action == Video && videoDisabled) || (action == Data && dataDisabled))
    {
      if currentFocusedPainting.None? {
        return NoEffect;
      }
      if panelVisible {
        PanelButtonsMatchActions(paintings, State());
      }
      var data := paintings[currentFocusedPainting.value].data;
      match action {
        case Info =>
          effect := NoEffect;
        case Video =>
          if data.video.Some? && data.video.value != "" && ToLowerAscii(data.video.value) != "none" {
            effect := OpenWindow(data.video.value);
          } else {
            effect := Alert("No video link available.");
          }
        case Data =>
          if data.data.Some? && data.data.value != "" && ToLowerAscii(data.data.value) != "none" {
            effect := Download(data.data.value);
          } else {
            effect := Alert("No drawing process file available.");
          }
      }
    }
  }
}
