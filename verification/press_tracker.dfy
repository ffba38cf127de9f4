/**
 * The press-interaction state machine (`PressTracker`). Every handler is a
 * pure function of the current parameters, the tracker state and one DOM
 * event, returning the next state and the emissions the handler makes in
 * order: hook calls, focus and text-selection side effects, `preventDefault`.
 * Bounding rectangles and DOM containment are given as inputs.
 */
module PressTracker {
  import opened Nullable
  import opened Dom
  import opened Geometry
  import KeyboardUtils
  import GL = GlobalListeners

  /** `PressTrackerParameters`; an absent flag reads as `false`. */
  datatype Params = Params(
    isDisabled: bool,
    preventFocusOnPress: bool,
    shouldCancelOnPointerExit: bool,
    allowTextSelectionOnPress: bool)

  const DefaultParams := Params(false, false, false, false)

  /** The tracker's own methods that it registers on the document or window while pressed. */
  datatype GlobalHandler =
    | GlobalKeyUp | GlobalPointerMove | GlobalPointerUp | GlobalPointerCancel
    | GlobalMouseUp | GlobalScroll

  /** `PressTrackerState`, together with the tracker's global-listener registry. */
  datatype State = State(
    isPressed: bool,
    ignoreEmulatedMouseEvents: bool,
    ignoreClickAfterPress: bool,
    didFirePressStart: bool,
    activePointerId: Option<int>,
    target: Option<Element>,
    isOverTarget: bool,
    pointerType: Option<PointerType>,
    globals: GL.Registry<GlobalHandler>)

  const Initial := State(false, false, false, false, None, None, false, None, map[])

  datatype PressType = PressStart | PressEnd | PressUp | Press

  /** The value handed to `onPressStart`, `onPressEnd`, `onPressUp` and `onPress`. */
  datatype PressEvent = PressEvent(kind: PressType, pointerType: Option<PointerType>, target: Option<Element>, modifiers: Modifiers)

  /** `EventBase`: where a press event takes its target and modifier keys from. */
  datatype EventBase = EventBase(currentTarget: Option<Element>, modifiers: Modifiers)

  /** Everything a handler does besides changing the state, in order. */
  datatype Emission =
    | Hook(event: PressEvent)              // onPressStart / onPressEnd / onPressUp / onPress
    | PressChange(pressed: bool)           // onPressChange
    | Focus(element: Element)              // focusWithoutScrolling
    | DisableTextSelection(on: Option<Element>)
    | RestoreTextSelection(on: Option<Element>)
    | ClickElement(clicked: Option<Element>) // element.click(), which dispatches a click
    | PreventDefault

  datatype Step = Step(state: State, out: seq<Emission>)

  predicate IsHook(e: Emission) {
    e.Hook? || e.PressChange?
  }

  /** No hook is called in `out`. */
  predicate Silent(out: seq<Emission>) {
    forall i :: 0 <= i < |out| ==> !IsHook(out[i])
  }

  /** No call of the `kind` hook in `out` from position `from` on. */
  predicate NoHookOf(kind: PressType, out: seq<Emission>, from: nat) {
    forall i :: from <= i < |out| ==> !(out[i].Hook? && out[i].event.kind == kind)
  }

  function BaseOf(target: Element, modifiers: Modifiers): EventBase {
    EventBase(Some(target), modifiers)
  }

  function MakeEvent(kind: PressType, base: EventBase, pointerType: Option<PointerType>): PressEvent {
    PressEvent(kind, pointerType, base.currentTarget, base.modifiers)
  }

  // ---------------------------------------------------------------- primitives

  /** `triggerPressStart`: at most one outstanding start; nothing while disabled. */
  function TriggerPressStart(p: Params, s: State, base: EventBase, pointerType: Option<PointerType>): (r: Step)
    ensures p.isDisabled || s.didFirePressStart ==> r == Step(s, [])
    ensures !p.isDisabled && !s.didFirePressStart ==>
      && r.state == s.(didFirePressStart := true)
      && r.out == [Hook(MakeEvent(PressStart, base, pointerType)), PressChange(true)]
  {
    if p.isDisabled || s.didFirePressStart then Step(s, [])
    else Step(s.(didFirePressStart := true), [Hook(MakeEvent(PressStart, base, pointerType)), PressChange(true)])
  }

  /**
   * `triggerPressEnd`: resolves an outstanding start; `press` follows only a
   * completed (`wasPressed`) press of an enabled target.
   */
  function TriggerPressEnd(p: Params, s: State, base: EventBase, pointerType: Option<PointerType>, wasPressed: bool): (r: Step)
    ensures !s.didFirePressStart ==> r == Step(s, [])
    ensures s.didFirePressStart ==>
      && r.state == s.(didFirePressStart := false, ignoreClickAfterPress := true)
      && |r.out| >= 2 && r.out[..2] == [Hook(MakeEvent(PressEnd, base, pointerType)), PressChange(false)]
      && (wasPressed && !p.isDisabled <==> |r.out| == 3)
      && (|r.out| == 3 ==> r.out[2] == Hook(MakeEvent(Press, base, pointerType)))
      && |r.out| <= 3
  {
    if !s.didFirePressStart then Step(s, [])
    else
      var ended := s.(ignoreClickAfterPress := true, didFirePressStart := false);
      var press := if wasPressed && !p.isDisabled then [Hook(MakeEvent(Press, base, pointerType))] else [];
      Step(ended, [Hook(MakeEvent(PressEnd, base, pointerType)), PressChange(false)] + press)
  }

  /** `triggerPressUp`: reports a release over the target, whatever the press state; nothing while disabled. */
  function TriggerPressUp(p: Params, base: EventBase, pointerType: Option<PointerType>): (out: seq<Emission>)
    ensures p.isDisabled <==> out == []
    ensures !p.isDisabled ==> out == [Hook(MakeEvent(PressUp, base, pointerType))]
  {
    if p.isDisabled then [] else [Hook(MakeEvent(PressUp, base, pointerType))]
  }

  /** The state once an interaction is over: nothing pressed, no pointer, no global listeners. */
  function Released(s: State): (r: State)
    ensures !r.isPressed && !r.isOverTarget && r.activePointerId.None? && r.pointerType.None? && r.globals == map[]
    ensures r.didFirePressStart == s.didFirePressStart && r.target == s.target
    ensures r.ignoreClickAfterPress == s.ignoreClickAfterPress
    ensures r.ignoreEmulatedMouseEvents == s.ignoreEmulatedMouseEvents
  {
    s.(isPressed := false, isOverTarget := false, activePointerId := None, pointerType := None,
       globals := GL.RemoveAll(s.globals).0)
  }

  function RestoreSelection(p: Params, target: Option<Element>): seq<Emission> {
    if !p.allowTextSelectionOnPress then [RestoreTextSelection(target)] else []
  }

  function DisableSelection(p: Params, target: Option<Element>): seq<Emission> {
    if !p.allowTextSelectionOnPress then [DisableTextSelection(target)] else []
  }

  function FocusUnlessPrevented(p: Params, e: Element): seq<Emission> {
    if !p.isDisabled && !p.preventFocusOnPress then [Focus(e)] else []
  }

  function AddGlobal(r: GL.Registry<GlobalHandler>, t: GL.EventTarget, name: string, h: GlobalHandler, capture: bool): GL.Registry<GlobalHandler> {
    GL.AddIntended(r, t, name, h, GL.ListenerOptions(capture, false)).0
  }

  /**
   * `cancel`: abandons a press in progress (ending it without `press` when
   * over the target) and releases everything; idle trackers are untouched.
   */
  function Cancel(p: Params, s: State, modifiers: Modifiers): (r: Step)
    ensures !s.isPressed ==> r == Step(s, [])
    ensures s.isPressed ==>
      && !r.state.isPressed && !r.state.isOverTarget && r.state.activePointerId.None?
      && r.state.pointerType.None? && r.state.globals == map[]
      && r.state.target == s.target
      && NoHookOf(Press, r.out, 0)
      && (r.out != [] && r.out[0].Hook? <==> s.isOverTarget && s.didFirePressStart)
      && (r.state.didFirePressStart <==> s.didFirePressStart && !s.isOverTarget)
  {
    if !s.isPressed then Step(s, [])
    else
      var ended := if s.isOverTarget then TriggerPressEnd(p, s, EventBase(s.target, modifiers), s.pointerType, false)
                   else Step(s, []);
      Step(Released(ended.state), ended.out + RestoreSelection(p, s.target))
  }

  // ---------------------------------------------------------------- pure helpers

  /** `isValidKeyboardEvent`: the tracker's copy of the keyboard rule. */
  function IsValidKeyboardEvent(event: KeyboardEvent): (r: bool)
    ensures r == KeyboardUtils.KeyboardEventIsPress(event)
  {
    var element := event.target;
    var key := event.key;
    (key == "Enter" || key == " " || key == "Spacebar" || event.code == "Space")
    && element.tagName != "INPUT"
    && element.tagName != "TEXTAREA"
    && element.isContentEditable != true
    && (!IsHTMLAnchorLink(element) || (element.role == Some("button") && key != "Enter"))
    && !(element.role == Some("link") && key != "Enter")
  }

  /** `shouldPreventDefault`: never inside a draggable element. */
  predicate ShouldPreventDefault(target: Element) {
    !target.insideDraggable
  }

  /** `shouldPreventDefaultKeyboard`: a submit button or submit input keeps its default action. */
  function ShouldPreventDefaultKeyboard(target: Element): (r: bool)
    ensures !r <==> target.typeAttr == "submit" && (target.tagName == "INPUT" || target.tagName == "BUTTON")
  {
    !((target.tagName == "INPUT" || target.tagName == "BUTTON") && target.typeAttr == "submit")
  }

  /** `isVirtualClick`: Firefox's screen-reader marker, or a zero `detail` without a pointer type. */
  function IsVirtualClick(e: MouseEvent): (r: bool)
    // JAWS/NVDA under Firefox: always virtual
    ensures e.mozInputSource == Some(0) && e.isTrusted ==> r
    // otherwise only a click without detail can be virtual ...
    ensures r ==> (e.mozInputSource == Some(0) && e.isTrusted) || e.detail == 0
    // ... and then exactly when it carries no pointer type (the IE 11 rule)
    ensures !(e.mozInputSource == Some(0) && e.isTrusted) && e.detail == 0 ==> (r <==> e.pointerType.None?)
  {
    if e.mozInputSource == Some(0) && e.isTrusted then true
    else e.detail == 0 && e.pointerType.None?
  }

  /** `isVirtualPointerEvent`: a zero-size contact, or a 1x1 contact with no pressure and no detail. */
  function IsVirtualPointerEvent(e: PointerEvent): (r: bool)
    ensures r ==> e.point.width.Some? && e.point.height.Some?
    // a zero-size contact comes from a screen reader
    ensures e.point.width == Some(0.0) && e.point.height == Some(0.0) ==> r
    // Android TalkBack: a 1x1 contact with no pressure and no detail
    ensures e.point.width == Some(1.0) && e.point.height == Some(1.0) && e.pressure == 0.0 && e.detail == 0 ==> r
    // no other contact is virtual
    ensures r && !(e.point.width == Some(0.0) && e.point.height == Some(0.0)) ==>
      e.point.width == Some(1.0) && e.point.height == Some(1.0) && e.pressure == 0.0 && e.detail == 0
  {
    (e.point.width == Some(0.0) && e.point.height == Some(0.0))
    || (e.point.width == Some(1.0) && e.point.height == Some(1.0) && e.pressure == 0.0 && e.detail == 0)
  }

  /** `getTouchFromEvent`: the first of the target touches. */
  function GetTouchFromEvent(e: TouchEvent): (r: Option<TouchPoint>)
    ensures r.Some? <==> |e.targetTouches| > 0
    ensures r.Some? ==> r.value == e.targetTouches[0]
  {
    if |e.targetTouches| > 0 then Some(e.targetTouches[0]) else None
  }

  /** `getTouchById`: the first changed touch with the tracked identifier (none when nothing is tracked). */
  function GetTouchById(touches: seq<TouchPoint>, pointerId: Option<int>): (r: Option<TouchPoint>)
    ensures r.None? <==> pointerId.None? || forall i :: 0 <= i < |touches| ==> touches[i].identifier != pointerId.value
    ensures r.Some? ==> exists i :: 0 <= i < |touches| && touches[i] == r.value
                                  && (forall j :: 0 <= j < i ==> touches[j].identifier != pointerId.value)
    ensures r.Some? ==> r.value.identifier == pointerId.value
    decreases |touches|
  {
    if pointerId.None? || |touches| == 0 then None
    else if touches[0].identifier == pointerId.value then Some(touches[0])
    else
      var rest := GetTouchById(touches[1..], pointerId);
      if rest.Some? then
        ghost var i :| 0 <= i < |touches[1..]| && touches[1..][i] == rest.value
                      && (forall j :: 0 <= j < i ==> touches[1..][j].identifier != pointerId.value);
        assert touches[i + 1] == rest.value;
        rest
      else rest
  }

  // ---------------------------------------------------------------- keyboard

  /** `onKeyDown`: a valid first key-down starts a keyboard press and listens for key-up on the document. */
  function OnKeyDown(p: Params, s: State, e: KeyboardEvent): (r: Step)
    ensures !(IsValidKeyboardEvent(e) && e.currentTargetContainsTarget) ==> r == Step(s, [])
    ensures s.isPressed || e.repeat ==> r.state == s && Silent(r.out)
    ensures IsValidKeyboardEvent(e) && e.currentTargetContainsTarget && !s.isPressed && !e.repeat ==>
      && r.state.isPressed && r.state.target == Some(e.currentTarget) && GlobalKeyUp in r.state.globals
      && r.state.pointerType == s.pointerType && r.state.isOverTarget == s.isOverTarget
    ensures PreventDefault in r.out <==>
      IsValidKeyboardEvent(e) && e.currentTargetContainsTarget && ShouldPreventDefaultKeyboard(e.target)
  {
    if !(IsValidKeyboardEvent(e) && e.currentTargetContainsTarget) then Step(s, [])
    else
      var prevent := if ShouldPreventDefaultKeyboard(e.target) then [PreventDefault] else [];
      if !s.isPressed && !e.repeat then
        var pressed := s.(target := Some(e.currentTarget), isPressed := true);
        var started := TriggerPressStart(p, pressed, BaseOf(e.currentTarget, e.modifiers), Some(Keyboard));
        Step(started.state.(globals := AddGlobal(started.state.globals, GL.Document, "keyup", GlobalKeyUp, false)),
             prevent + started.out)
      else Step(s, prevent)
  }

  /** `onKeyUp` on the element: a valid release reports `pressup`. */
  function OnKeyUp(p: Params, s: State, e: KeyboardEvent): (r: Step)
    ensures r.state == s
    ensures forall i :: 0 <= i < |r.out| ==> r.out[i].Hook? && r.out[i].event.kind == PressUp
    ensures r.out != [] <==> IsValidKeyboardEvent(e) && !e.repeat && e.currentTargetContainsTarget && !p.isDisabled
  {
    if IsValidKeyboardEvent(e) && !e.repeat && e.currentTargetContainsTarget then
      Step(s, TriggerPressUp(p, EventBase(s.target, e.modifiers), Some(Keyboard)))
    else Step(s, [])
  }

  /**
   * `globalOnKeyUp`: ends a keyboard press, completing it when the release
   * happened inside the pressed element; a link is then clicked natively.
   */
  function GlobalOnKeyUp(p: Params, s: State, e: KeyboardEvent, releasedInsideTarget: bool): (r: Step)
    ensures !(s.isPressed && IsValidKeyboardEvent(e)) ==> r == Step(s, [])
    ensures s.isPressed && IsValidKeyboardEvent(e) ==>
      !r.state.isPressed && r.state.globals == map[] && !r.state.didFirePressStart
    ensures !releasedInsideTarget ==> NoHookOf(Press, r.out, 0)
    // the native click goes to a link exactly when the press ends on one, after everything else
    ensures ClickElement(s.target) in r.out ==> ReleaseClicksLink(s.target, releasedInsideTarget)
    ensures s.isPressed && IsValidKeyboardEvent(e) && ReleaseClicksLink(s.target, releasedInsideTarget) ==>
      |r.out| > 0 && r.out[|r.out| - 1] == ClickElement(s.target)
  {
    if !(s.isPressed && IsValidKeyboardEvent(e)) then Step(s, [])
    else
      var prevent := if ShouldPreventDefaultKeyboard(e.target) then [PreventDefault] else [];
      var ended := TriggerPressEnd(p, s.(isPressed := false), EventBase(s.target, e.modifiers), Some(Keyboard), releasedInsideTarget);
      var click := if ReleaseClicksLink(s.target, releasedInsideTarget) then [ClickElement(s.target)] else [];
      assert ClickElement(s.target) !in prevent + ended.out;
      Step(ended.state.(globals := GL.RemoveAll(ended.state.globals).0), prevent + ended.out + click)
  }

  /** A keyboard release that the browser turns into a click on the pressed link. */
  predicate ReleaseClicksLink(target: Option<Element>, releasedInsideTarget: bool) {
    target.Some? && ((releasedInsideTarget && IsHTMLAnchorLink(target.value)) || target.value.role == Some("link"))
  }

  /** A submit button or submit input: Enter or Space there must still submit the form. */
  predicate IsSubmitControl(target: Element) {
    target.typeAttr == "submit" && (target.tagName == "INPUT" || target.tagName == "BUTTON")
  }

  /**
   * A valid key press keeps its default action on a submit control and has it
   * prevented, exactly once and before anything else, everywhere else; both
   * on the key-down that starts the press and on the key-up that ends it.
   */
  lemma SubmitControlsKeepTheirDefault(p: Params, s: State, e: KeyboardEvent, inside: bool)
    requires IsValidKeyboardEvent(e)
    ensures e.currentTargetContainsTarget ==>
      var r := OnKeyDown(p, s, e);
      && (IsSubmitControl(e.target) ==> PreventDefault !in r.out)
      && (!IsSubmitControl(e.target) ==> |r.out| > 0 && r.out[0] == PreventDefault && PreventDefault !in r.out[1..])
    ensures s.isPressed ==>
      var r := GlobalOnKeyUp(p, s, e, inside);
      && (IsSubmitControl(e.target) ==> PreventDefault !in r.out)
      && (!IsSubmitControl(e.target) ==> |r.out| > 0 && r.out[0] == PreventDefault && PreventDefault !in r.out[1..])
  {
    if e.currentTargetContainsTarget && !IsSubmitControl(e.target) {
      var r := OnKeyDown(p, s, e);
      assert r.out == [PreventDefault] + r.out[1..];
      if !s.isPressed && !e.repeat {
        var pressed := s.(target := Some(e.currentTarget), isPressed := true);
        assert r.out[1..] == TriggerPressStart(p, pressed, BaseOf(e.currentTarget, e.modifiers), Some(Keyboard)).out;
      }
    }
    if s.isPressed {
      var r := GlobalOnKeyUp(p, s, e, inside);
      var ended := TriggerPressEnd(p, s.(isPressed := false), EventBase(s.target, e.modifiers), Some(Keyboard), inside);
      var click: seq<Emission> := if ReleaseClicksLink(s.target, inside) then [ClickElement(s.target)] else [];
      var prevent: seq<Emission> := if !IsSubmitControl(e.target) then [PreventDefault] else [];
      assert r.out == prevent + ended.out + click;
      assert PreventDefault !in ended.out + click;
      if !IsSubmitControl(e.target) {
        assert r.out[1..] == ended.out + click;
      }
    }
  }

  // ---------------------------------------------------------------- click

  /** A left click inside the target that `onClick` runs as a whole press: not a duplicate, and virtual. */
  predicate ClickIsVirtualPress(s: State, e: MouseEvent) {
    && e.currentTargetContainsTarget && e.button == 0
    && !s.ignoreClickAfterPress && !s.ignoreEmulatedMouseEvents
    && (s.pointerType == Some(Virtual) || IsVirtualClick(e))
  }

  /**
   * `onClick`: a virtual click (screen reader, `element.click()`) runs a whole
   * start, up, end sequence; every left click re-arms the duplicate guards.
   */
  function OnClick(p: Params, s: State, e: MouseEvent): (r: Step)
    ensures !e.currentTargetContainsTarget || e.button != 0 ==> r == Step(s, [])
    // only a virtual click calls hooks ...
    ensures !ClickIsVirtualPress(s, e) ==> Silent(r.out)
    // ... and on an enabled target it is a whole press: focus, start, up, end, `press`
    ensures ClickIsVirtualPress(s, e) && !p.isDisabled && !s.didFirePressStart ==>
      var base := BaseOf(e.currentTarget, e.modifiers);
      && r.out == (if p.preventFocusOnPress then [] else [Focus(e.currentTarget)])
           + [Hook(MakeEvent(PressStart, base, Some(Virtual))), PressChange(true),
              Hook(MakeEvent(PressUp, base, Some(Virtual))),
              Hook(MakeEvent(PressEnd, base, Some(Virtual))), PressChange(false),
              Hook(MakeEvent(Press, base, Some(Virtual)))]
      && !r.state.didFirePressStart
    ensures ClickIsVirtualPress(s, e) && p.isDisabled && !s.didFirePressStart ==> r.out == [PreventDefault]
    ensures e.currentTargetContainsTarget && e.button == 0 ==>
      && !r.state.ignoreClickAfterPress && !r.state.ignoreEmulatedMouseEvents
      && r.state.isPressed == s.isPressed && r.state.globals == s.globals
    ensures s.ignoreClickAfterPress || s.ignoreEmulatedMouseEvents ==> Silent(r.out)
    ensures (PreventDefault in r.out) <==> p.isDisabled && e.currentTargetContainsTarget && e.button == 0
  {
    if !e.currentTargetContainsTarget || e.button != 0 then Step(s, [])
    else
      var prevent := if p.isDisabled then [PreventDefault] else [];
      var handled :=
        if ClickIsVirtualPress(s, e) then
          var base := BaseOf(e.currentTarget, e.modifiers);
          var started := TriggerPressStart(p, s, base, Some(Virtual));
          var up := TriggerPressUp(p, base, Some(Virtual));
          var ended := TriggerPressEnd(p, started.state, base, Some(Virtual), true);
          Step(ended.state, FocusUnlessPrevented(p, e.currentTarget) + started.out + up + ended.out)
        else Step(s, []);
      Step(handled.state.(ignoreEmulatedMouseEvents := false, ignoreClickAfterPress := false), prevent + handled.out)
  }

  // ---------------------------------------------------------------- pointer events

  /** `onPointerDown`: a left press on the target starts tracking that pointer. */
  function OnPointerDown(p: Params, s: State, e: PointerEvent): (r: Step)
    ensures e.button != 0 || !e.currentTargetContainsTarget ==> r == Step(s, [])
    ensures e.button == 0 && e.currentTargetContainsTarget && IsVirtualPointerEvent(e) ==>
      r == Step(s.(pointerType := Some(Virtual)), [])
    ensures e.button == 0 && e.currentTargetContainsTarget && !IsVirtualPointerEvent(e) && s.isPressed ==>
      r.state == s.(pointerType := Some(e.pointerType)) && Silent(r.out)
    ensures e.button == 0 && e.currentTargetContainsTarget && !IsVirtualPointerEvent(e) && !s.isPressed ==>
      && r.state.isPressed && r.state.isOverTarget && r.state.activePointerId == Some(e.pointerId)
      && r.state.target == Some(e.currentTarget) && r.state.pointerType == Some(e.pointerType)
      && GlobalPointerMove in r.state.globals && GlobalPointerUp in r.state.globals && GlobalPointerCancel in r.state.globals
    // the default is prevented, first, for a real left press outside any draggable element
    ensures PreventDefault in r.out <==>
      e.button == 0 && e.currentTargetContainsTarget && !IsVirtualPointerEvent(e) && !e.target.insideDraggable
    ensures PreventDefault in r.out ==> r.out[0] == PreventDefault
  {
    if e.button != 0 || !e.currentTargetContainsTarget then Step(s, [])
    else if IsVirtualPointerEvent(e) then Step(s.(pointerType := Some(Virtual)), [])
    else
      var prevent := if ShouldPreventDefault(e.target) then [PreventDefault] else [];
      var typed := s.(pointerType := Some(e.pointerType));
      if typed.isPressed then Step(typed, prevent)
      else
        var pressed := typed.(isPressed := true, isOverTarget := true, activePointerId := Some(e.pointerId),
                              target := Some(e.currentTarget));
        var started := TriggerPressStart(p, pressed, BaseOf(e.currentTarget, e.modifiers), pressed.pointerType);
        var g0 := started.state.globals;
        var g1 := AddGlobal(g0, GL.Document, "pointermove", GlobalPointerMove, false);
        var g2 := AddGlobal(g1, GL.Document, "pointerup", GlobalPointerUp, false);
        var g3 := AddGlobal(g2, GL.Document, "pointercancel", GlobalPointerCancel, false);
        Step(started.state.(globals := g3),
             prevent + FocusUnlessPrevented(p, e.currentTarget) + DisableSelection(p, pressed.target) + started.out)
  }

  /** `onMouseDownPE`: only suppresses the browser's default for a left button. */
  function OnMouseDownPE(p: Params, s: State, e: MouseEvent): (r: Step)
    ensures r.state == s && Silent(r.out) && |r.out| <= 1
    ensures PreventDefault in r.out <==> e.currentTargetContainsTarget && e.button == 0 && !e.target.insideDraggable
  {
    if !e.currentTargetContainsTarget then Step(s, [])
    else if e.button == 0 && ShouldPreventDefault(e.target) then Step(s, [PreventDefault])
    else Step(s, [])
  }

  /** `onPointerUp` on the element: a left release over it reports `pressup`. */
  function OnPointerUp(p: Params, s: State, e: PointerEvent, currentTargetRect: Rect): (r: Step)
    ensures r.state == s
    ensures forall i :: 0 <= i < |r.out| ==> r.out[i].Hook? && r.out[i].event.kind == PressUp
    ensures r.out != [] <==>
      && e.currentTargetContainsTarget && s.pointerType != Some(Virtual) && e.button == 0
      && IsOverTarget(e.point, currentTargetRect) && !p.isDisabled
  {
    if !e.currentTargetContainsTarget || s.pointerType == Some(Virtual) then Step(s, [])
    else if e.button == 0 && IsOverTarget(e.point, currentTargetRect) then
      var pointerType := if s.pointerType.Some? then s.pointerType else Some(e.pointerType);
      Step(s, TriggerPressUp(p, BaseOf(e.currentTarget, e.modifiers), pointerType))
    else Step(s, [])
  }

  /**
   * `globalOnPointerMove`: hit-tests the tracked pointer; entering the target
   * starts again, leaving it ends without `press` (and cancels the whole
   * press when the parameters ask for that).
   */
  function GlobalOnPointerMove(p: Params, s: State, e: PointerEvent, targetRect: Rect): (r: Step)
    ensures Some(e.pointerId) != s.activePointerId ==> r == Step(s, [])
    // coming back over the target starts the press again
    ensures Some(e.pointerId) == s.activePointerId && IsOverTarget(e.point, targetRect) ==>
      && r.state.isOverTarget && r.state.isPressed == s.isPressed && r.state.globals == s.globals
      && (s.isOverTarget ==> r == Step(s, []))
      && (!s.isOverTarget && (p.isDisabled || s.didFirePressStart) ==> r.out == [])
      && (!s.isOverTarget && !p.isDisabled && !s.didFirePressStart ==>
            && r.state.didFirePressStart
            && r.out == [Hook(MakeEvent(PressStart, EventBase(s.target, e.modifiers), s.pointerType)), PressChange(true)])
    // leaving it ends the press without `press`, and cancels it when exits cancel
    ensures Some(e.pointerId) == s.activePointerId && s.isOverTarget && !IsOverTarget(e.point, targetRect) ==>
      && !r.state.isOverTarget && !r.state.didFirePressStart
      && NoHookOf(Press, r.out, 0)
      && (s.didFirePressStart ==>
            |r.out| >= 2 && r.out[..2] == [Hook(MakeEvent(PressEnd, EventBase(s.target, e.modifiers), s.pointerType)), PressChange(false)]
            && NoHookOf(PressEnd, r.out, 1))
      && (!s.didFirePressStart ==> NoHookOf(PressEnd, r.out, 0))
      && (s.isPressed && p.shouldCancelOnPointerExit ==> !r.state.isPressed && r.state.globals == map[])
      && (!p.shouldCancelOnPointerExit ==> r.state.isPressed == s.isPressed && r.state.globals == s.globals)
    ensures Some(e.pointerId) == s.activePointerId && !s.isOverTarget && !IsOverTarget(e.point, targetRect) ==> r == Step(s, [])
  {
    if Some(e.pointerId) != s.activePointerId then Step(s, [])
    else
      var base := EventBase(s.target, e.modifiers);
      if IsOverTarget(e.point, targetRect) then
        if !s.isOverTarget then TriggerPressStart(p, s.(isOverTarget := true), base, s.pointerType)
        else Step(s, [])
      else if s.isOverTarget then
        var ended := TriggerPressEnd(p, s.(isOverTarget := false), base, s.pointerType, false);
        if p.shouldCancelOnPointerExit then
          var cancelled := Cancel(p, ended.state, e.modifiers);
          Step(cancelled.state, ended.out + cancelled.out)
        else ended
      else Step(s, [])
  }

  /**
   * `globalOnPointerUp`: the tracked pointer's left release ends the press,
   * completing it only when released over the target, then resets.
   */
  function GlobalOnPointerUp(p: Params, s: State, e: PointerEvent, targetRect: Rect): (r: Step)
    ensures !(Some(e.pointerId) == s.activePointerId && s.isPressed && e.button == 0) ==> r == Step(s, [])
    ensures !IsOverTarget(e.point, targetRect) ==> NoHookOf(Press, r.out, 0)
    ensures Some(e.pointerId) == s.activePointerId && s.isPressed && e.button == 0 ==>
      && !r.state.isPressed && !r.state.isOverTarget && r.state.activePointerId.None?
      && r.state.pointerType.None? && r.state.globals == map[]
  {
    if !(Some(e.pointerId) == s.activePointerId && s.isPressed && e.button == 0) then Step(s, [])
    else
      var base := EventBase(s.target, e.modifiers);
      var ended :=
        if IsOverTarget(e.point, targetRect) then TriggerPressEnd(p, s, base, s.pointerType, true)
        else if s.isOverTarget then TriggerPressEnd(p, s, base, s.pointerType, false)
        else Step(s, []);
      Step(Released(ended.state), ended.out + RestoreSelection(p, s.target))
  }

  /** `onDragStartPE` / `onDragStartNPE`: a drag starting on the target cancels the press. */
  function OnDragStart(p: Params, s: State, e: DragEvent): (r: Step)
    ensures !e.currentTargetContainsTarget || !s.isPressed ==> r == Step(s, [])
    ensures e.currentTargetContainsTarget && s.isPressed ==>
      !r.state.isPressed && r.state.globals == map[] && NoHookOf(Press, r.out, 0)
  {
    if !e.currentTargetContainsTarget then Step(s, []) else Cancel(p, s, e.modifiers)
  }

  // ---------------------------------------------------------------- mouse and touch events

  /** `onMouseDownNPE`: a left press starts a mouse (or virtual) press unless it emulates a touch. */
  function OnMouseDownNPE(p: Params, s: State, e: MouseEvent): (r: Step)
    ensures e.button != 0 || !e.currentTargetContainsTarget ==> r == Step(s, [])
    ensures e.button == 0 && e.currentTargetContainsTarget && s.ignoreEmulatedMouseEvents ==> r.state == s && Silent(r.out)
    ensures e.button == 0 && e.currentTargetContainsTarget && !s.ignoreEmulatedMouseEvents ==>
      && r.state.isPressed && r.state.isOverTarget && r.state.target == Some(e.currentTarget)
      && r.state.pointerType == Some(if IsVirtualClick(e) then Virtual else Mouse)
      && GlobalMouseUp in r.state.globals
    // the default is prevented, first, for a left press outside any draggable element
    ensures PreventDefault in r.out <==> e.button == 0 && e.currentTargetContainsTarget && !e.target.insideDraggable
    ensures PreventDefault in r.out ==> r.out[0] == PreventDefault
  {
    if e.button != 0 || !e.currentTargetContainsTarget then Step(s, [])
    else
      var prevent := if ShouldPreventDefault(e.target) then [PreventDefault] else [];
      if s.ignoreEmulatedMouseEvents then Step(s, prevent)
      else
        var pointerType := if IsVirtualClick(e) then Virtual else Mouse;
        var pressed := s.(isPressed := true, isOverTarget := true, target := Some(e.currentTarget),
                          pointerType := Some(pointerType));
        var started := TriggerPressStart(p, pressed, BaseOf(e.currentTarget, e.modifiers), Some(pointerType));
        Step(started.state.(globals := AddGlobal(started.state.globals, GL.Document, "mouseup", GlobalMouseUp, false)),
             prevent + FocusUnlessPrevented(p, e.currentTarget) + started.out)
  }

  /** `onMouseEnter`: returning over the target while pressed starts again. */
  function OnMouseEnter(p: Params, s: State, e: MouseEvent): (r: Step)
    ensures !(e.currentTargetContainsTarget && s.isPressed && !s.ignoreEmulatedMouseEvents) ==> r == Step(s, [])
    ensures e.currentTargetContainsTarget && s.isPressed && !s.ignoreEmulatedMouseEvents ==>
      && r.state.isOverTarget && r.state.isPressed && r.state.globals == s.globals
      && (p.isDisabled || s.didFirePressStart ==> r.out == [])
      && (!p.isDisabled && !s.didFirePressStart ==>
            && r.state.didFirePressStart
            && r.out == [Hook(MakeEvent(PressStart, BaseOf(e.currentTarget, e.modifiers), s.pointerType)), PressChange(true)])
  {
    if !e.currentTargetContainsTarget then Step(s, [])
    else if s.isPressed && !s.ignoreEmulatedMouseEvents then
      TriggerPressStart(p, s.(isOverTarget := true), BaseOf(e.currentTarget, e.modifiers), s.pointerType)
    else Step(s, [])
  }

  /** `onMouseLeave`: leaving the target while pressed ends without `press`, and may cancel. */
  function OnMouseLeave(p: Params, s: State, e: MouseEvent): (r: Step)
    ensures !(e.currentTargetContainsTarget && s.isPressed && !s.ignoreEmulatedMouseEvents) ==> r == Step(s, [])
    ensures e.currentTargetContainsTarget && s.isPressed && !s.ignoreEmulatedMouseEvents ==>
      && !r.state.isOverTarget && !r.state.didFirePressStart && NoHookOf(Press, r.out, 0)
      && (s.didFirePressStart ==>
            |r.out| >= 2 && r.out[..2] == [Hook(MakeEvent(PressEnd, BaseOf(e.currentTarget, e.modifiers), s.pointerType)), PressChange(false)]
            && NoHookOf(PressEnd, r.out, 1))
      && (!s.didFirePressStart ==> NoHookOf(PressEnd, r.out, 0))
      && (p.shouldCancelOnPointerExit <==> !r.state.isPressed)
      && (p.shouldCancelOnPointerExit ==> r.state.globals == map[])
      && (!p.shouldCancelOnPointerExit ==> r.state.globals == s.globals)
  {
    if !e.currentTargetContainsTarget then Step(s, [])
    else if s.isPressed && !s.ignoreEmulatedMouseEvents then
      var ended := TriggerPressEnd(p, s.(isOverTarget := false), BaseOf(e.currentTarget, e.modifiers), s.pointerType, false);
      if p.shouldCancelOnPointerExit then
        var cancelled := Cancel(p, ended.state, e.modifiers);
        Step(cancelled.state, ended.out + cancelled.out)
      else ended
    else Step(s, [])
  }

  /** `onMouseUp` on the element: a real left release reports `pressup`. */
  function OnMouseUp(p: Params, s: State, e: MouseEvent): (r: Step)
    ensures r.state == s
    ensures forall i :: 0 <= i < |r.out| ==> r.out[i].Hook? && r.out[i].event.kind == PressUp
    ensures r.out != [] <==>
      e.currentTargetContainsTarget && !s.ignoreEmulatedMouseEvents && e.button == 0 && !p.isDisabled
  {
    if !e.currentTargetContainsTarget then Step(s, [])
    else if !s.ignoreEmulatedMouseEvents && e.button == 0 then
      Step(s, TriggerPressUp(p, BaseOf(e.currentTarget, e.modifiers), s.pointerType))
    else Step(s, [])
  }

  /** `globalOnMouseUp`: a left release anywhere ends the press; an emulated one only re-arms. */
  function GlobalOnMouseUp(p: Params, s: State, e: MouseEvent, targetRect: Rect): (r: Step)
    ensures e.button != 0 ==> r == Step(s, [])
    ensures e.button == 0 ==> !r.state.isPressed && r.state.globals == map[] && !r.state.ignoreEmulatedMouseEvents
    ensures s.ignoreEmulatedMouseEvents ==> r.out == []
    ensures !IsOverTarget(e.point, targetRect) ==> NoHookOf(Press, r.out, 0)
  {
    if e.button != 0 then Step(s, [])
    else
      var released := s.(isPressed := false, globals := GL.RemoveAll(s.globals).0);
      if released.ignoreEmulatedMouseEvents then Step(released.(ignoreEmulatedMouseEvents := false), [])
      else
        var base := EventBase(s.target, e.modifiers);
        var ended :=
          if IsOverTarget(e.point, targetRect) then TriggerPressEnd(p, released, base, s.pointerType, true)
          else if released.isOverTarget then TriggerPressEnd(p, released, base, s.pointerType, false)
          else Step(released, []);
        Step(ended.state.(isOverTarget := false), ended.out)
  }

  /** `onTouchStart`: the first target touch starts a touch press and watches for scrolling. */
  function OnTouchStart(p: Params, s: State, e: TouchEvent): (r: Step)
    ensures !e.currentTargetContainsTarget || |e.targetTouches| == 0 ==> r == Step(s, [])
    ensures e.currentTargetContainsTarget && |e.targetTouches| > 0 ==>
      && r.state.isPressed && r.state.isOverTarget && r.state.ignoreEmulatedMouseEvents
      && r.state.activePointerId == Some(e.targetTouches[0].identifier) && r.state.pointerType == Some(Touch)
      && r.state.target == Some(e.currentTarget) && GlobalScroll in r.state.globals
  {
    if !e.currentTargetContainsTarget then Step(s, [])
    else match GetTouchFromEvent(e)
      case None => Step(s, [])
      case Some(touch) =>
        var pressed := s.(activePointerId := Some(touch.identifier), ignoreEmulatedMouseEvents := true,
                          isOverTarget := true, isPressed := true, target := Some(e.currentTarget),
                          pointerType := Some(Touch));
        var started := TriggerPressStart(p, pressed, BaseOf(e.currentTarget, e.modifiers), Some(Touch));
        Step(started.state.(globals := AddGlobal(started.state.globals, GL.Window, "scroll", GlobalScroll, true)),
             FocusUnlessPrevented(p, e.currentTarget) + DisableSelection(p, pressed.target) + started.out)
  }

  /** `onTouchMove`: hit-tests the tracked touch, like the pointer-move handler. */
  function OnTouchMove(p: Params, s: State, e: TouchEvent, currentTargetRect: Rect): (r: Step)
    ensures !e.currentTargetContainsTarget || !s.isPressed ==> r == Step(s, [])
    ensures NoHookOf(Press, r.out, 0)
    ensures e.currentTargetContainsTarget && s.isPressed && GetTouchById(e.changedTouches, s.activePointerId).None? ==>
      !r.state.isOverTarget
    // the tracked touch coming back over the target starts the press again
    ensures var touch := GetTouchById(e.changedTouches, s.activePointerId);
      e.currentTargetContainsTarget && s.isPressed && touch.Some? && IsOverTarget(touch.value.point, currentTargetRect) ==>
      && r.state.isOverTarget && r.state.isPressed && r.state.globals == s.globals
      && (s.isOverTarget ==> r == Step(s, []))
      && (!s.isOverTarget && !p.isDisabled && !s.didFirePressStart ==>
            && r.state.didFirePressStart
            && r.out == [Hook(MakeEvent(PressStart, BaseOf(e.currentTarget, e.modifiers), s.pointerType)), PressChange(true)])
    // leaving it ends the press without `press`, and cancels it when exits cancel
    ensures var touch := GetTouchById(e.changedTouches, s.activePointerId);
      e.currentTargetContainsTarget && s.isPressed && s.isOverTarget
      && !(touch.Some? && IsOverTarget(touch.value.point, currentTargetRect)) ==>
      && !r.state.isOverTarget && !r.state.didFirePressStart
      && (s.didFirePressStart ==>
            |r.out| >= 2 && r.out[..2] == [Hook(MakeEvent(PressEnd, BaseOf(e.currentTarget, e.modifiers), s.pointerType)), PressChange(false)])
      && (p.shouldCancelOnPointerExit <==> !r.state.isPressed)
      && (p.shouldCancelOnPointerExit ==> r.state.globals == map[])
  {
    if !e.currentTargetContainsTarget || !s.isPressed then Step(s, [])
    else
      var base := BaseOf(e.currentTarget, e.modifiers);
      var touch := GetTouchById(e.changedTouches, s.activePointerId);
      if touch.Some? && IsOverTarget(touch.value.point, currentTargetRect) then
        if !s.isOverTarget then TriggerPressStart(p, s.(isOverTarget := true), base, s.pointerType)
        else Step(s, [])
      else if s.isOverTarget then
        var ended := TriggerPressEnd(p, s.(isOverTarget := false), base, s.pointerType, false);
        if p.shouldCancelOnPointerExit then
          var cancelled := Cancel(p, ended.state, e.modifiers);
          Step(cancelled.state, ended.out + cancelled.out)
        else ended
      else Step(s, [])
  }

  /** `onTouchEnd`: ends a touch press (the tracker never registers it; see `TrackerInstance`). */
  function OnTouchEnd(p: Params, s: State, e: TouchEvent, currentTargetRect: Rect): (r: Step)
    ensures !e.currentTargetContainsTarget || !s.isPressed ==> r == Step(s, [])
    ensures e.currentTargetContainsTarget && s.isPressed ==>
      && !r.state.isPressed && r.state.globals == map[] && r.state.activePointerId.None?
      && !r.state.isOverTarget && r.state.ignoreEmulatedMouseEvents
    ensures var touch := GetTouchById(e.changedTouches, s.activePointerId);
      !(touch.Some? && IsOverTarget(touch.value.point, currentTargetRect)) ==> NoHookOf(Press, r.out, 0)
  {
    if !e.currentTargetContainsTarget || !s.isPressed then Step(s, [])
    else
      var base := BaseOf(e.currentTarget, e.modifiers);
      var touch := GetTouchById(e.changedTouches, s.activePointerId);
      var ended :=
        if touch.Some? && IsOverTarget(touch.value.point, currentTargetRect) then
          var up := TriggerPressUp(p, base, s.pointerType);
          var end := TriggerPressEnd(p, s, base, s.pointerType, true);
          Step(end.state, up + end.out)
        else if s.isOverTarget then TriggerPressEnd(p, s, base, s.pointerType, false)
        else Step(s, []);
      Step(ended.state.(isPressed := false, activePointerId := None, isOverTarget := false,
                        ignoreEmulatedMouseEvents := true, globals := GL.RemoveAll(ended.state.globals).0),
           ended.out + RestoreSelection(p, s.target))
  }

  /** `onTouchCancel`: cancels a touch press. */
  function OnTouchCancel(p: Params, s: State, e: TouchEvent): (r: Step)
    ensures !(e.currentTargetContainsTarget && s.isPressed) ==> r == Step(s, [])
    ensures e.currentTargetContainsTarget && s.isPressed ==>
      !r.state.isPressed && r.state.globals == map[] && NoHookOf(Press, r.out, 0)
  {
    if !e.currentTargetContainsTarget then Step(s, [])
    else if s.isPressed then Cancel(p, s, e.modifiers)
    else Step(s, [])
  }

  /** `globalOnScroll`: scrolling an ancestor of the pressed element cancels the press. */
  function GlobalOnScroll(p: Params, s: State, e: ScrollEvent): (r: Step)
    ensures !(s.isPressed && e.targetContainsPressTarget) ==> r == Step(s, [])
    ensures s.isPressed && e.targetContainsPressTarget ==>
      !r.state.isPressed && r.state.globals == map[] && NoHookOf(Press, r.out, 0)
  {
    if s.isPressed && e.targetContainsPressTarget then Cancel(p, s, NoModifiers) else Step(s, [])
  }
}
