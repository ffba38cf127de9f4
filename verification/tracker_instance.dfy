/**
 * One `PressTracker` instance over its lifetime: `attach` picks the event
 * protocol (the input adapter) and wires the element; events then reach the
 * handlers that protocol registered, and the document/window events reach
 * the global handlers only while the registry holds them; `destroy` unwires
 * everything. `Run` feeds a sequence of events through one attached tracker.
 */
module TrackerInstance {
  import opened Nullable
  import opened Dom
  import opened Geometry
  import opened PressTracker
  import opened PressLifecycle
  import opened PressInvariants
  import GL = GlobalListeners

  datatype Adapter = PointerEventsAdapter | MouseAndTouchAdapter

  /**
   * The feature test of `attach` as written: `typeof PointerEvent !== undefined`
   * compares the string that `typeof` yields with the value `undefined`,
   * so it holds on every platform.
   */
  function SelectAdapter(typeofPointerEvent: string): (a: Adapter)
    ensures a == PointerEventsAdapter
  {
    if JsString(typeofPointerEvent) != Undefined then PointerEventsAdapter else MouseAndTouchAdapter
  }

  /**
   * The feature test as evidently intended, `typeof PointerEvent !== 'undefined'`:
   * the mouse-and-touch protocol exactly on platforms without pointer events.
   */
  function SelectAdapterIntended(typeofPointerEvent: string): (a: Adapter)
    ensures a == MouseAndTouchAdapter <==> typeofPointerEvent == "undefined"
  {
    if typeofPointerEvent != "undefined" then PointerEventsAdapter else MouseAndTouchAdapter
  }

  /** The element listeners `attach` installs for an adapter (`onTouchEnd` is in neither set). */
  function LocalListeners(a: Adapter): (names: set<string>)
    ensures {"keydown", "keyup", "click", "mousedown", "dragstart"} <= names
    ensures "touchend" !in names
    ensures "pointerdown" in names <==> a == PointerEventsAdapter
    ensures "touchstart" in names <==> a == MouseAndTouchAdapter
  {
    {"keydown", "keyup", "click"} +
    match a
    case PointerEventsAdapter => {"pointerdown", "mousedown", "pointerup", "dragstart"}
    case MouseAndTouchAdapter =>
      {"mousedown", "mouseenter", "mouseleave", "mouseup", "touchstart", "touchmove", "touchcancel", "dragstart"}
  }

  /** A tracker: parameters, state, and (while attached) the node and the adapter its listeners use. */
  datatype Tracker = Tracker(params: Params, state: State, node: Option<Element>, adapter: Option<Adapter>)

  const NewTracker := Tracker(DefaultParams, Initial, None, None)

  predicate Attached(t: Tracker) {
    t.node.Some? && t.adapter.Some?
  }

  /** `attach`: ignored while attached; otherwise wires the node with a fresh global registry. */
  function Attach(t: Tracker, node: Element, typeofPointerEvent: string): (r: Tracker)
    ensures t.node.Some? || t.adapter.Some? ==> r == t
    ensures t.node.None? && t.adapter.None? ==>
      && r.node == Some(node) && r.adapter == Some(PointerEventsAdapter)
      && r.state == t.state.(globals := map[]) && r.params == t.params
  {
    if t.node.Some? || t.adapter.Some? then t
    else t.(node := Some(node), adapter := Some(SelectAdapter(typeofPointerEvent)), state := t.state.(globals := map[]))
  }

  /**
   * `destroy`: ignored unless attached; otherwise unwires the node and
   * removes every global listener. The press state itself is left as it is.
   */
  function Destroy(t: Tracker): (r: Tracker)
    ensures !Attached(t) ==> r == t
    ensures Attached(t) ==>
      && r.node.None? && r.adapter.None? && r.state.globals == map[]
      && r.state == t.state.(globals := map[]) && r.params == t.params
  {
    if t.node.None? || t.adapter.None? then t
    else t.(node := None, adapter := None, state := t.state.(globals := GL.RemoveAll(t.state.globals).0))
  }

  /** A DOM event delivered to the tracked element, the document or the window. */
  datatype Input =
    | KeyDown(keyboard: KeyboardEvent)
    | KeyUp(keyboard: KeyboardEvent)
    | Click(mouse: MouseEvent)
    | PointerDown(pointer: PointerEvent)
    | MouseDown(mouse: MouseEvent)
    | PointerUp(pointer: PointerEvent, rect: Rect)
    | DragStart(drag: DragEvent)
    | MouseEnter(mouse: MouseEvent)
    | MouseLeave(mouse: MouseEvent)
    | MouseUp(mouse: MouseEvent)
    | TouchStart(touch: TouchEvent)
    | TouchMove(touch: TouchEvent, rect: Rect)
    | TouchEnd(touch: TouchEvent, rect: Rect)
    | TouchCancel(touch: TouchEvent)
    | DocumentKeyUp(keyboard: KeyboardEvent, releasedInsideTarget: bool)
    | DocumentPointerMove(pointer: PointerEvent, rect: Rect)
    | DocumentPointerUp(pointer: PointerEvent, rect: Rect)
    | DocumentPointerCancel(pointer: PointerEvent)
    | DocumentMouseUp(mouse: MouseEvent, rect: Rect)
    | WindowScroll(scroll: ScrollEvent)

  /** An event for one of the tracker's document or window listeners. */
  predicate IsGlobalInput(i: Input) {
    || i.DocumentKeyUp? || i.DocumentPointerMove? || i.DocumentPointerUp? || i.DocumentPointerCancel?
    || i.DocumentMouseUp? || i.WindowScroll?
  }

  /** The name under which `attach` would install the element listener for `i` ("" for document and window events). */
  function ElementEventName(i: Input): string {
    match i
    case KeyDown(_) => "keydown"
    case KeyUp(_) => "keyup"
    case Click(_) => "click"
    case PointerDown(_) => "pointerdown"
    case MouseDown(_) => "mousedown"
    case PointerUp(_, _) => "pointerup"
    case DragStart(_) => "dragstart"
    case MouseEnter(_) => "mouseenter"
    case MouseLeave(_) => "mouseleave"
    case MouseUp(_) => "mouseup"
    case TouchStart(_) => "touchstart"
    case TouchMove(_, _) => "touchmove"
    case TouchEnd(_, _) => "touchend"
    case TouchCancel(_) => "touchcancel"
    case _ => ""
  }

  /** The registry entry whose listener receives a document or window event. */
  function GlobalListenerFor(i: Input): GlobalHandler
    requires IsGlobalInput(i)
  {
    match i
    case DocumentKeyUp(_, _) => GlobalKeyUp
    case DocumentPointerMove(_, _) => GlobalPointerMove
    case DocumentPointerUp(_, _) => GlobalPointerUp
    case DocumentPointerCancel(_) => GlobalPointerCancel
    case DocumentMouseUp(_, _) => GlobalMouseUp
    case WindowScroll(_) => GlobalScroll
  }

  /**
   * Runs the handler a listener of the attached tracker would run for `i`.
   * An element event the adapter installed no listener for, and a document or
   * window event whose listener is not registered at the moment, change nothing.
   */
  function Handle(p: Params, a: Adapter, s: State, i: Input): (r: Step)
    ensures IsGlobalInput(i) && GlobalListenerFor(i) !in s.globals ==> r == Step(s, [])
  {
    var pe := a == PointerEventsAdapter;
    match i
    case KeyDown(e) => OnKeyDown(p, s, e)
    case KeyUp(e) => OnKeyUp(p, s, e)
    case Click(e) => OnClick(p, s, e)
    case PointerDown(e) => if pe then OnPointerDown(p, s, e) else Step(s, [])
    case MouseDown(e) => if pe then OnMouseDownPE(p, s, e) else OnMouseDownNPE(p, s, e)
    case PointerUp(e, r) => if pe then OnPointerUp(p, s, e, r) else Step(s, [])
    case DragStart(e) => OnDragStart(p, s, e)
    case MouseEnter(e) => if !pe then OnMouseEnter(p, s, e) else Step(s, [])
    case MouseLeave(e) => if !pe then OnMouseLeave(p, s, e) else Step(s, [])
    case MouseUp(e) => if !pe then OnMouseUp(p, s, e) else Step(s, [])
    case TouchStart(e) => if !pe then OnTouchStart(p, s, e) else Step(s, [])
    case TouchMove(e, r) => if !pe then OnTouchMove(p, s, e, r) else Step(s, [])
    case TouchEnd(e, r) => Step(s, [])
    case TouchCancel(e) => if !pe then OnTouchCancel(p, s, e) else Step(s, [])
    case DocumentKeyUp(e, inside) => if GlobalKeyUp in s.globals then GlobalOnKeyUp(p, s, e, inside) else Step(s, [])
    case DocumentPointerMove(e, r) => if GlobalPointerMove in s.globals then GlobalOnPointerMove(p, s, e, r) else Step(s, [])
    case DocumentPointerUp(e, r) => if GlobalPointerUp in s.globals then GlobalOnPointerUp(p, s, e, r) else Step(s, [])
    case DocumentPointerCancel(e) => if GlobalPointerCancel in s.globals then Cancel(p, s, e.modifiers) else Step(s, [])
    case DocumentMouseUp(e, r) => if GlobalMouseUp in s.globals then GlobalOnMouseUp(p, s, e, r) else Step(s, [])
    case WindowScroll(e) => if GlobalScroll in s.globals then GlobalOnScroll(p, s, e) else Step(s, [])
  }

  /**
   * Delivers `inputs` one after another, concatenating the emissions. Any
   * sequence of events keeps the registry following the press: a pressed
   * tracker knows its target and an idle one holds no global listener.
   */
  function Run(p: Params, a: Adapter, s: State, inputs: seq<Input>): (r: Step)
    ensures inputs == [] ==> r == Step(s, [])
    ensures Valid(s) ==> Valid(r.state)
    decreases |inputs|
  {
    if inputs == [] then Step(s, [])
    else
      var first := Handle(p, a, s, inputs[0]);
      assert Valid(s) ==> Valid(first.state) by {
        if Valid(s) { HandleKeepsValid(p, a, s, inputs[0]); }
      }
      var rest := Run(p, a, first.state, inputs[1..]);
      Step(rest.state, first.out + rest.out)
  }

  /**
   * An element event reaches a handler only through a listener `attach`
   * installed for that adapter: with none under its name, nothing changes.
   */
  lemma UnlistenedElementEventsAreIgnored(p: Params, a: Adapter, s: State, i: Input)
    ensures !IsGlobalInput(i) && ElementEventName(i) !in LocalListeners(a) ==> Handle(p, a, s, i) == Step(s, [])
  {
  }

  // ---------------------------------------------------------------- the hook order

  lemma HandleSoundElement(p: Params, a: Adapter, s: State, i: Input)
    requires !IsGlobalInput(i)
    ensures Sound(s, Handle(p, a, s, i))
  {
    match i
    case KeyDown(e) => OnKeyDownSound(p, s, e);
    case KeyUp(e) => OnKeyUpSound(p, s, e);
    case Click(e) => OnClickSound(p, s, e);
    case PointerDown(e) => OnPointerDownSound(p, s, e);
    case MouseDown(e) =>
      OnMouseDownNPESound(p, s, e);
      SilentKeeps(OnMouseDownPE(p, s, e).out, s.didFirePressStart, false);
    case PointerUp(e, r) => OnPointerUpSound(p, s, e, r);
    case DragStart(e) => OnDragStartSound(p, s, e);
    case MouseEnter(e) => OnMouseEnterSound(p, s, e);
    case MouseLeave(e) => OnMouseLeaveSound(p, s, e);
    case MouseUp(e) => OnMouseUpSound(p, s, e);
    case TouchStart(e) => OnTouchStartSound(p, s, e);
    case TouchMove(e, r) => OnTouchMoveSound(p, s, e, r);
    case TouchEnd(e, r) =>
    case TouchCancel(e) => OnTouchCancelSound(p, s, e);
    case _ => assert false;
  }

  lemma HandleSoundGlobal(p: Params, a: Adapter, s: State, i: Input)
    requires IsGlobalInput(i)
    ensures Sound(s, Handle(p, a, s, i))
  {
    match i
    case DocumentKeyUp(e, inside) => GlobalOnKeyUpSound(p, s, e, inside);
    case DocumentPointerMove(e, r) => GlobalOnPointerMoveSound(p, s, e, r);
    case DocumentPointerUp(e, r) => GlobalOnPointerUpSound(p, s, e, r);
    case DocumentPointerCancel(e) => CancelSound(p, s, e.modifiers);
    case DocumentMouseUp(e, r) => GlobalOnMouseUpSound(p, s, e, r);
    case WindowScroll(e) => GlobalOnScrollSound(p, s, e);
    case _ => assert false;
  }

  lemma HandleSound(p: Params, a: Adapter, s: State, i: Input)
    ensures Sound(s, Handle(p, a, s, i))
  {
    if IsGlobalInput(i) {
      HandleSoundGlobal(p, a, s, i);
    } else {
      HandleSoundElement(p, a, s, i);
    }
  }

  /**
   * Over any sequence of events the hooks obey the press lifecycle: starts
   * and ends alternate (from an idle tracker, beginning with a start), and
   * every `press` directly follows a `pressend`.
   */
  lemma {:induction false} RunSound(p: Params, a: Adapter, s: State, inputs: seq<Input>)
    ensures Sound(s, Run(p, a, s, inputs))
    decreases |inputs|
  {
    if inputs != [] {
      var first := Handle(p, a, s, inputs[0]);
      HandleSound(p, a, s, inputs[0]);
      RunSound(p, a, first.state, inputs[1..]);
      var rest := Run(p, a, first.state, inputs[1..]);
      Concat(first.out, rest.out, s.didFirePressStart, false, first.state.didFirePressStart, rest.state.didFirePressStart);
    }
  }

  // ---------------------------------------------------------------- the registry follows the press

  lemma HandleKeepsValidElement(p: Params, a: Adapter, s: State, i: Input)
    requires !IsGlobalInput(i)
    requires Valid(s)
    ensures Valid(Handle(p, a, s, i).state)
  {
    match i
    case KeyDown(e) => OnKeyDownKeepsValid(p, s, e);
    case KeyUp(e) => OnKeyUpKeepsValid(p, s, e);
    case Click(e) => OnClickKeepsValid(p, s, e);
    case PointerDown(e) => OnPointerDownKeepsValid(p, s, e);
    case MouseDown(e) => OnMouseDownNPEKeepsValid(p, s, e);
    case PointerUp(e, r) => OnPointerUpKeepsValid(p, s, e, r);
    case DragStart(e) => OnDragStartKeepsValid(p, s, e);
    case MouseEnter(e) => OnMouseEnterKeepsValid(p, s, e);
    case MouseLeave(e) => OnMouseLeaveKeepsValid(p, s, e);
    case MouseUp(e) => OnMouseUpKeepsValid(p, s, e);
    case TouchStart(e) => OnTouchStartKeepsValid(p, s, e);
    case TouchMove(e, r) => OnTouchMoveKeepsValid(p, s, e, r);
    case TouchEnd(e, r) =>
    case TouchCancel(e) => OnTouchCancelKeepsValid(p, s, e);
    case _ => assert false;
  }

  lemma HandleKeepsValidGlobal(p: Params, a: Adapter, s: State, i: Input)
    requires IsGlobalInput(i)
    requires Valid(s)
    ensures Valid(Handle(p, a, s, i).state)
  {
    match i
    case DocumentKeyUp(e, inside) => GlobalOnKeyUpKeepsValid(p, s, e, inside);
    case DocumentPointerMove(e, r) => GlobalOnPointerMoveKeepsValid(p, s, e, r);
    case DocumentPointerUp(e, r) => GlobalOnPointerUpKeepsValid(p, s, e, r);
    case DocumentPointerCancel(e) => CancelKeepsValid(p, s, e.modifiers);
    case DocumentMouseUp(e, r) => GlobalOnMouseUpKeepsValid(p, s, e, r);
    case WindowScroll(e) => GlobalOnScrollKeepsValid(p, s, e);
    case _ => assert false;
  }

  lemma HandleKeepsValid(p: Params, a: Adapter, s: State, i: Input)
    requires Valid(s)
    ensures Valid(Handle(p, a, s, i).state)
  {
    if IsGlobalInput(i) {
      HandleKeepsValidGlobal(p, a, s, i);
    } else {
      HandleKeepsValidElement(p, a, s, i);
    }
  }

  // ---------------------------------------------------------------- disabled trackers

  lemma HandleDisabledIsSilentElement(p: Params, a: Adapter, s: State, i: Input)
    requires !IsGlobalInput(i)
    requires p.isDisabled && !s.didFirePressStart
    ensures Silent(Handle(p, a, s, i).out) && !Handle(p, a, s, i).state.didFirePressStart
  {
    match i
    case KeyDown(e) => OnKeyDownDisabledIsSilent(p, s, e);
    case KeyUp(e) => OnKeyUpDisabledIsSilent(p, s, e);
    case Click(e) => OnClickDisabledIsSilent(p, s, e);
    case PointerDown(e) => OnPointerDownDisabledIsSilent(p, s, e);
    case MouseDown(e) => OnMouseDownNPEDisabledIsSilent(p, s, e);
    case PointerUp(e, r) => OnPointerUpDisabledIsSilent(p, s, e, r);
    case DragStart(e) => OnDragStartDisabledIsSilent(p, s, e);
    case MouseEnter(e) => OnMouseEnterDisabledIsSilent(p, s, e);
    case MouseLeave(e) => OnMouseLeaveDisabledIsSilent(p, s, e);
    case MouseUp(e) => OnMouseUpDisabledIsSilent(p, s, e);
    case TouchStart(e) => OnTouchStartDisabledIsSilent(p, s, e);
    case TouchMove(e, r) => OnTouchMoveDisabledIsSilent(p, s, e, r);
    case TouchEnd(e, r) =>
    case TouchCancel(e) => OnTouchCancelDisabledIsSilent(p, s, e);
    case _ => assert false;
  }

  lemma HandleDisabledIsSilentGlobal(p: Params, a: Adapter, s: State, i: Input)
    requires IsGlobalInput(i)
    requires p.isDisabled && !s.didFirePressStart
    ensures Silent(Handle(p, a, s, i).out) && !Handle(p, a, s, i).state.didFirePressStart
  {
    match i
    case DocumentKeyUp(e, inside) => GlobalOnKeyUpDisabledIsSilent(p, s, e, inside);
    case DocumentPointerMove(e, r) => GlobalOnPointerMoveDisabledIsSilent(p, s, e, r);
    case DocumentPointerUp(e, r) => GlobalOnPointerUpDisabledIsSilent(p, s, e, r);
    case DocumentPointerCancel(e) => CancelDisabledIsSilent(p, s, e.modifiers);
    case DocumentMouseUp(e, r) => GlobalOnMouseUpDisabledIsSilent(p, s, e, r);
    case WindowScroll(e) => GlobalOnScrollDisabledIsSilent(p, s, e);
    case _ => assert false;
  }

  lemma HandleDisabledIsSilent(p: Params, a: Adapter, s: State, i: Input)
    requires p.isDisabled && !s.didFirePressStart
    ensures Silent(Handle(p, a, s, i).out) && !Handle(p, a, s, i).state.didFirePressStart
  {
    if IsGlobalInput(i) {
      HandleDisabledIsSilentGlobal(p, a, s, i);
    } else {
      HandleDisabledIsSilentElement(p, a, s, i);
    }
  }

  /** A disabled tracker with no press outstanding calls no hook, whatever events arrive. */
  lemma {:induction false} RunDisabledIsSilent(p: Params, a: Adapter, s: State, inputs: seq<Input>)
    requires p.isDisabled && !s.didFirePressStart
    ensures Silent(Run(p, a, s, inputs).out)
    ensures !Run(p, a, s, inputs).state.didFirePressStart
    decreases |inputs|
  {
    if inputs != [] {
      var first := Handle(p, a, s, inputs[0]);
      var rest := Run(p, a, first.state, inputs[1..]);
      assert Silent(first.out) && !first.state.didFirePressStart by {
        HandleDisabledIsSilent(p, a, s, inputs[0]);
      }
      assert Silent(rest.out) && !rest.state.didFirePressStart by {
        RunDisabledIsSilent(p, a, first.state, inputs[1..]);
      }
      assert Run(p, a, s, inputs) == Step(rest.state, first.out + rest.out);
      assert forall k :: 0 <= k < |first.out + rest.out| ==>
        (first.out + rest.out)[k] == if k < |first.out| then first.out[k] else rest.out[k - |first.out|];
    }
  }

  // ---------------------------------------------------------------- what the hooks see

  /** A hook call as the component sees it: which hook, or the new `onPressChange` value. */
  datatype HookCall = Called(kind: PressType) | Changed(pressed: bool)

  /** The hook calls among the emissions, in order. */
  function Hooks(out: seq<Emission>): (h: seq<HookCall>)
    ensures |h| <= |out|
    ensures Silent(out) <==> h == []
    decreases |out|
  {
    if out == [] then []
    else
      var head := match out[0]
        case Hook(ev) => [Called(ev.kind)]
        case PressChange(b) => [Changed(b)]
        case _ => [];
      var tail := Hooks(out[1..]);
      if !Silent(out[1..]) then
        var i :| 0 <= i < |out[1..]| && IsHook(out[1..][i]);
        assert IsHook(out[i + 1]);
        head + tail
      else head + tail
  }

  lemma {:induction false} HooksConcat(a: seq<Emission>, b: seq<Emission>)
    ensures Hooks(a + b) == Hooks(a) + Hooks(b)
    decreases |a|
  {
    if a != [] {
      assert (a + b)[1..] == a[1..] + b;
      HooksConcat(a[1..], b);
    } else {
      assert a + b == b;
    }
  }

  /** The hooks of a run are the hooks of its first step followed by those of the rest. */
  lemma RunHooks(p: Params, a: Adapter, s: State, i: Input, more: seq<Input>)
    ensures Hooks(Run(p, a, s, [i] + more).out)
         == Hooks(Handle(p, a, s, i).out) + Hooks(Run(p, a, Handle(p, a, s, i).state, more).out)
    ensures Run(p, a, s, [i] + more).state == Run(p, a, Handle(p, a, s, i).state, more).state
  {
    assert ([i] + more)[1..] == more;
    HooksConcat(Handle(p, a, s, i).out, Run(p, a, Handle(p, a, s, i).state, more).out);
  }

  // ---------------------------------------------------------------- scenarios

  lemma HooksAfterSilent(pre: seq<Emission>, rest: seq<Emission>)
    requires Silent(pre)
    ensures Hooks(pre + rest) == Hooks(rest)
  {
    HooksConcat(pre, rest);
  }

  /** A real left pointer-down on an idle, enabled tracker starts the press and arms the global listeners. */
  lemma PointerDownStarts(p: Params, s: State, down: PointerEvent)
    requires !p.isDisabled && !s.isPressed && !s.didFirePressStart
    requires down.button == 0 && down.currentTargetContainsTarget && !IsVirtualPointerEvent(down)
    ensures var r := Handle(p, PointerEventsAdapter, s, PointerDown(down));
      && Hooks(r.out) == [Called(PressStart), Changed(true)]
      && r.state.isPressed && r.state.isOverTarget && r.state.didFirePressStart
      && r.state.activePointerId == Some(down.pointerId) && r.state.pointerType == Some(down.pointerType)
      && GlobalPointerUp in r.state.globals && GlobalPointerMove in r.state.globals
      && r.state.target == Some(down.currentTarget)
  {
    var r := OnPointerDown(p, s, down);
    assert Handle(p, PointerEventsAdapter, s, PointerDown(down)) == r;
    assert Hooks(r.out) == [Called(PressStart), Changed(true)] && r.state.didFirePressStart by {
      var pressed := s.(pointerType := Some(down.pointerType), isPressed := true, isOverTarget := true,
                        activePointerId := Some(down.pointerId), target := Some(down.currentTarget));
      var started := TriggerPressStart(p, pressed, BaseOf(down.currentTarget, down.modifiers), pressed.pointerType);
      var prefix := (if ShouldPreventDefault(down.target) then [PreventDefault] else [])
                    + FocusUnlessPrevented(p, down.currentTarget) + DisableSelection(p, pressed.target);
      assert r.out == prefix + started.out;
      SelectionAndFocusAreSilent(p, pressed.target, down.currentTarget);
      assert Silent(prefix);
      HooksAfterSilent(prefix, started.out);
      assert Hooks(started.out) == [Called(PressStart)] + Hooks([PressChange(true)]);
    }
  }

  /** The element's own pointer-up over the target reports `pressup` and changes nothing. */
  lemma PointerUpReports(p: Params, s: State, up: PointerEvent, rect: Rect)
    requires !p.isDisabled && s.pointerType != Some(Virtual)
    requires up.button == 0 && up.currentTargetContainsTarget && IsOverTarget(up.point, rect)
    ensures var r := Handle(p, PointerEventsAdapter, s, PointerUp(up, rect));
      r.state == s && Hooks(r.out) == [Called(PressUp)]
  {
    var r := OnPointerUp(p, s, up, rect);
    assert |r.out| == 1 && r.out[0].Hook? && r.out[0].event.kind == PressUp;
    assert r.out[1..] == [];
  }

  /** Hooks of a completed press end. */
  lemma CompletedEndHooks(p: Params, s: State, base: EventBase, pt: Option<PointerType>)
    requires !p.isDisabled && s.didFirePressStart
    ensures Hooks(TriggerPressEnd(p, s, base, pt, true).out) == [Called(PressEnd), Changed(false), Called(Press)]
  {
    var e0, e1, e2 := Hook(MakeEvent(PressEnd, base, pt)), PressChange(false), Hook(MakeEvent(Press, base, pt));
    assert TriggerPressEnd(p, s, base, pt, true).out == [e0, e1, e2];
    assert [e0, e1, e2][1..] == [e1, e2] && [e1, e2][1..] == [e2] && [e2][1..] == [];
    assert Hooks([e2]) == [Called(Press)];
    assert Hooks([e1, e2]) == [Changed(false), Called(Press)];
  }

  /** The document's pointer-up of the tracked pointer over the target completes the press. */
  lemma GlobalPointerUpCompletes(p: Params, s: State, up: PointerEvent, rect: Rect)
    requires !p.isDisabled && s.isPressed && s.didFirePressStart && s.activePointerId == Some(up.pointerId)
    requires GlobalPointerUp in s.globals
    requires up.button == 0 && IsOverTarget(up.point, rect)
    ensures var r := Handle(p, PointerEventsAdapter, s, DocumentPointerUp(up, rect));
      && Hooks(r.out) == [Called(PressEnd), Changed(false), Called(Press)]
      && !r.state.isPressed && r.state.globals == map[] && !r.state.didFirePressStart
  {
    var g := GlobalOnPointerUp(p, s, up, rect);
    assert Handle(p, PointerEventsAdapter, s, DocumentPointerUp(up, rect)) == g;
    assert Hooks(g.out) == [Called(PressEnd), Changed(false), Called(Press)]
      && !g.state.isPressed && g.state.globals == map[] && !g.state.didFirePressStart by {
      var base := EventBase(s.target, up.modifiers);
      var ended := TriggerPressEnd(p, s, base, s.pointerType, true);
      var tail := RestoreSelection(p, s.target);
      assert g == Step(Released(ended.state), ended.out + tail);
      SelectionAndFocusAreSilent(p, s.target, up.currentTarget);
      HooksConcat(ended.out, tail);
      CompletedEndHooks(p, s, base, s.pointerType);
    }
  }

  /** The tracked pointer's left release over the target, on the element and then the document. */
  lemma PointerReleaseCompletes(p: Params, s: State, up: PointerEvent, rect: Rect)
    requires !p.isDisabled && s.isPressed && s.didFirePressStart && s.activePointerId == Some(up.pointerId)
    requires s.pointerType != Some(Virtual)
    requires GlobalPointerUp in s.globals
    requires up.button == 0 && up.currentTargetContainsTarget && IsOverTarget(up.point, rect)
    ensures var r := Run(p, PointerEventsAdapter, s, [PointerUp(up, rect), DocumentPointerUp(up, rect)]);
      && Hooks(r.out) == [Called(PressUp), Called(PressEnd), Changed(false), Called(Press)]
      && !r.state.isPressed && r.state.globals == map[] && !r.state.didFirePressStart
  {
    var a := PointerEventsAdapter;
    PointerUpReports(p, s, up, rect);
    GlobalPointerUpCompletes(p, s, up, rect);
    RunHooks(p, a, s, PointerUp(up, rect), [DocumentPointerUp(up, rect)]);
    RunHooks(p, a, s, DocumentPointerUp(up, rect), []);
  }

  /** A left press and release of one pointer over the target: the full hook sequence, then idle. */
  lemma PointerPressScenario(p: Params, down: PointerEvent, up: PointerEvent, rect: Rect)
    requires !p.isDisabled
    requires down.button == 0 && down.currentTargetContainsTarget && !IsVirtualPointerEvent(down)
    requires down.pointerType != Virtual
    requires up.pointerId == down.pointerId && up.button == 0 && up.currentTargetContainsTarget
    requires IsOverTarget(up.point, rect)
    ensures var r := Run(p, PointerEventsAdapter, Initial, [PointerDown(down), PointerUp(up, rect), DocumentPointerUp(up, rect)]);
      && Hooks(r.out) == [Called(PressStart), Changed(true), Called(PressUp), Called(PressEnd), Changed(false), Called(Press)]
      && !r.state.isPressed && r.state.globals == map[] && !r.state.didFirePressStart
  {
    var a := PointerEventsAdapter;
    var s1 := Handle(p, a, Initial, PointerDown(down));
    assert Hooks(s1.out) == [Called(PressStart), Changed(true)]
      && s1.state.isPressed && s1.state.didFirePressStart && s1.state.activePointerId == Some(up.pointerId)
      && s1.state.pointerType != Some(Virtual) && GlobalPointerUp in s1.state.globals by {
      PointerDownStarts(p, Initial, down);
    }
    var rest := Run(p, a, s1.state, [PointerUp(up, rect), DocumentPointerUp(up, rect)]);
    assert Hooks(rest.out) == [Called(PressUp), Called(PressEnd), Changed(false), Called(Press)]
      && !rest.state.isPressed && rest.state.globals == map[] && !rest.state.didFirePressStart by {
      PointerReleaseCompletes(p, s1.state, up, rect);
    }
    RunHooks(p, a, Initial, PointerDown(down), [PointerUp(up, rect), DocumentPointerUp(up, rect)]);
    PressHooksJoin();
  }

  /** The hooks of a complete press: its start, then the rest. */
  lemma PressHooksJoin()
    ensures [Called(PressStart), Changed(true)] + [Called(PressUp), Called(PressEnd), Changed(false), Called(Press)]
         == [Called(PressStart), Changed(true), Called(PressUp), Called(PressEnd), Changed(false), Called(Press)]
  {
  }

  /** Hooks of a press end that is not a completion. */
  lemma AbandonedEndHooks(p: Params, s: State, base: EventBase, pt: Option<PointerType>)
    requires s.didFirePressStart
    ensures Hooks(TriggerPressEnd(p, s, base, pt, false).out) == [Called(PressEnd), Changed(false)]
  {
    var e0, e1 := Hook(MakeEvent(PressEnd, base, pt)), PressChange(false);
    assert TriggerPressEnd(p, s, base, pt, false).out == [e0, e1];
    assert [e0, e1][1..] == [e1] && [e1][1..] == [];
    assert Hooks([e1]) == [Changed(false)];
  }

  /**
   * The tracked pointer leaving the target ends the press without `press`;
   * the press itself stays in progress unless exits cancel it.
   */
  lemma PointerExitEnds(p: Params, s: State, move: PointerEvent, rect: Rect)
    requires s.isPressed && s.isOverTarget && s.didFirePressStart && s.activePointerId == Some(move.pointerId)
    requires GlobalPointerMove in s.globals
    requires !IsOverTarget(move.point, rect)
    ensures var r := Handle(p, PointerEventsAdapter, s, DocumentPointerMove(move, rect));
      && Hooks(r.out) == [Called(PressEnd), Changed(false)]
      && !r.state.isOverTarget && !r.state.didFirePressStart
      && (p.shouldCancelOnPointerExit <==> !r.state.isPressed)
      && (p.shouldCancelOnPointerExit ==> r.state.globals == map[])
      && (!p.shouldCancelOnPointerExit ==> r.state.globals == s.globals && r.state.activePointerId == s.activePointerId)
  {
    var base := EventBase(s.target, move.modifiers);
    var ended := TriggerPressEnd(p, s.(isOverTarget := false), base, s.pointerType, false);
    AbandonedEndHooks(p, s.(isOverTarget := false), base, s.pointerType);
    if p.shouldCancelOnPointerExit {
      var cancelled := Cancel(p, ended.state, move.modifiers);
      assert cancelled.out == RestoreSelection(p, ended.state.target);
      SelectionAndFocusAreSilent(p, ended.state.target, move.target);
      HooksConcat(ended.out, cancelled.out);
    }
  }

  /** The tracked pointer's release away from the target, after it left, calls no hook and resets. */
  lemma ReleaseOutsideIsQuiet(p: Params, s: State, up: PointerEvent, rect: Rect)
    requires s.isPressed && !s.isOverTarget && s.activePointerId == Some(up.pointerId)
    requires GlobalPointerUp in s.globals
    requires up.button == 0 && !IsOverTarget(up.point, rect)
    ensures var r := Handle(p, PointerEventsAdapter, s, DocumentPointerUp(up, rect));
      Hooks(r.out) == [] && !r.state.isPressed && r.state.globals == map[]
  {
    SelectionAndFocusAreSilent(p, s.target, up.target);
    assert Handle(p, PointerEventsAdapter, s, DocumentPointerUp(up, rect)).out == [] + RestoreSelection(p, s.target);
  }

  /** Press, drag off the target, release there: the press ends but `press` is never called. */
  lemma PointerExitScenario(p: Params, down: PointerEvent, move: PointerEvent, up: PointerEvent, rect: Rect)
    requires !p.isDisabled && !p.shouldCancelOnPointerExit
    requires down.button == 0 && down.currentTargetContainsTarget && !IsVirtualPointerEvent(down)
    requires move.pointerId == down.pointerId && !IsOverTarget(move.point, rect)
    requires up.pointerId == down.pointerId && up.button == 0 && !IsOverTarget(up.point, rect)
    ensures var r := Run(p, PointerEventsAdapter, Initial, [PointerDown(down), DocumentPointerMove(move, rect), DocumentPointerUp(up, rect)]);
      && Hooks(r.out) == [Called(PressStart), Changed(true), Called(PressEnd), Changed(false)]
      && !r.state.isPressed && r.state.globals == map[]
  {
    var a := PointerEventsAdapter;
    var s1 := Handle(p, a, Initial, PointerDown(down));
    PointerDownStarts(p, Initial, down);
    var s2 := Handle(p, a, s1.state, DocumentPointerMove(move, rect));
    PointerExitEnds(p, s1.state, move, rect);
    ReleaseOutsideIsQuiet(p, s2.state, up, rect);
    RunHooks(p, a, Initial, PointerDown(down), [DocumentPointerMove(move, rect), DocumentPointerUp(up, rect)]);
    RunHooks(p, a, s1.state, DocumentPointerMove(move, rect), [DocumentPointerUp(up, rect)]);
    RunHooks(p, a, s2.state, DocumentPointerUp(up, rect), []);
  }

  /** Hooks of a fresh start. */
  lemma StartHooks(base: EventBase, pt: Option<PointerType>)
    ensures Hooks([Hook(MakeEvent(PressStart, base, pt)), PressChange(true)]) == [Called(PressStart), Changed(true)]
  {
    var e0, e1 := Hook(MakeEvent(PressStart, base, pt)), PressChange(true);
    assert [e0, e1][1..] == [e1] && [e1][1..] == [];
    assert Hooks([e1]) == [Changed(true)];
  }

  /** The tracked pointer coming back over the target, after an exit that did not cancel, starts the press again. */
  lemma PointerReturnRestarts(p: Params, s: State, back: PointerEvent, rect: Rect)
    requires !p.isDisabled && s.isPressed && !s.isOverTarget && !s.didFirePressStart
    requires s.activePointerId == Some(back.pointerId) && GlobalPointerMove in s.globals
    requires IsOverTarget(back.point, rect)
    ensures var r := Handle(p, PointerEventsAdapter, s, DocumentPointerMove(back, rect));
      && Hooks(r.out) == [Called(PressStart), Changed(true)]
      && r.state.isPressed && r.state.isOverTarget && r.state.didFirePressStart
      && r.state.globals == s.globals && r.state.activePointerId == s.activePointerId
  {
    StartHooks(EventBase(s.target, back.modifiers), s.pointerType);
  }

  /** Coming back over the target and releasing there completes the press after all. */
  lemma ReturnThenRelease(p: Params, s: State, back: PointerEvent, up: PointerEvent, rect: Rect)
    requires !p.isDisabled && s.isPressed && !s.isOverTarget && !s.didFirePressStart
    requires s.activePointerId == Some(back.pointerId) && back.pointerId == up.pointerId
    requires GlobalPointerMove in s.globals && GlobalPointerUp in s.globals
    requires IsOverTarget(back.point, rect) && up.button == 0 && IsOverTarget(up.point, rect)
    ensures var r := Run(p, PointerEventsAdapter, s, [DocumentPointerMove(back, rect), DocumentPointerUp(up, rect)]);
      && Hooks(r.out) == [Called(PressStart), Changed(true), Called(PressEnd), Changed(false), Called(Press)]
      && !r.state.isPressed && r.state.globals == map[] && !r.state.didFirePressStart
  {
    var a := PointerEventsAdapter;
    var s3 := Handle(p, a, s, DocumentPointerMove(back, rect));
    PointerReturnRestarts(p, s, back, rect);
    GlobalPointerUpCompletes(p, s3.state, up, rect);
    RunHooks(p, a, s, DocumentPointerMove(back, rect), [DocumentPointerUp(up, rect)]);
    RunHooks(p, a, s3.state, DocumentPointerUp(up, rect), []);
  }

  /** From a press over the target: leave, come back and release over it. */
  lemma ExitReturnRelease(p: Params, s: State, out: PointerEvent, back: PointerEvent, up: PointerEvent, rect: Rect)
    requires !p.isDisabled && !p.shouldCancelOnPointerExit
    requires s.isPressed && s.isOverTarget && s.didFirePressStart && s.activePointerId == Some(out.pointerId)
    requires GlobalPointerMove in s.globals && GlobalPointerUp in s.globals
    requires !IsOverTarget(out.point, rect)
    requires back.pointerId == out.pointerId && IsOverTarget(back.point, rect)
    requires up.pointerId == out.pointerId && up.button == 0 && IsOverTarget(up.point, rect)
    ensures var r := Run(p, PointerEventsAdapter, s, [DocumentPointerMove(out, rect), DocumentPointerMove(back, rect), DocumentPointerUp(up, rect)]);
      && Hooks(r.out) == [Called(PressEnd), Changed(false), Called(PressStart), Changed(true), Called(PressEnd), Changed(false), Called(Press)]
      && !r.state.isPressed && r.state.globals == map[] && !r.state.didFirePressStart
  {
    var a := PointerEventsAdapter;
    var rest := [DocumentPointerMove(back, rect), DocumentPointerUp(up, rect)];
    var s2 := Handle(p, a, s, DocumentPointerMove(out, rect));
    PointerExitEnds(p, s, out, rect);
    ReturnThenRelease(p, s2.state, back, up, rect);
    assert [DocumentPointerMove(out, rect), DocumentPointerMove(back, rect), DocumentPointerUp(up, rect)]
        == [DocumentPointerMove(out, rect)] + rest;
    RunHooks(p, a, s, DocumentPointerMove(out, rect), rest);
  }

  /** The hooks of a press that leaves and comes back: its start, then the rest. */
  lemma ReturnHooksJoin()
    ensures [Called(PressStart), Changed(true)]
          + [Called(PressEnd), Changed(false), Called(PressStart), Changed(true), Called(PressEnd), Changed(false), Called(Press)]
         == [Called(PressStart), Changed(true), Called(PressEnd), Changed(false),
             Called(PressStart), Changed(true), Called(PressEnd), Changed(false), Called(Press)]
  {
  }

  /** From an idle tracker: press, leave, come back and release over the target. */
  lemma DownExitReturnRelease(p: Params, s: State, down: PointerEvent, rest: seq<Input>,
                              out: PointerEvent, back: PointerEvent, up: PointerEvent, rect: Rect)
    requires !p.isDisabled && !p.shouldCancelOnPointerExit && !s.isPressed && !s.didFirePressStart
    requires down.button == 0 && down.currentTargetContainsTarget && !IsVirtualPointerEvent(down)
    requires out.pointerId == down.pointerId && !IsOverTarget(out.point, rect)
    requires back.pointerId == down.pointerId && IsOverTarget(back.point, rect)
    requires up.pointerId == down.pointerId && up.button == 0 && IsOverTarget(up.point, rect)
    requires rest == [DocumentPointerMove(out, rect), DocumentPointerMove(back, rect), DocumentPointerUp(up, rect)]
    ensures var r := Run(p, PointerEventsAdapter, s, [PointerDown(down)] + rest);
      && Hooks(r.out) == [Called(PressStart), Changed(true), Called(PressEnd), Changed(false),
                          Called(PressStart), Changed(true), Called(PressEnd), Changed(false), Called(Press)]
      && !r.state.isPressed && r.state.globals == map[] && !r.state.didFirePressStart
  {
    var a := PointerEventsAdapter;
    var s1 := Handle(p, a, s, PointerDown(down));
    var later := [Called(PressEnd), Changed(false), Called(PressStart), Changed(true), Called(PressEnd), Changed(false), Called(Press)];
    assert Hooks(s1.out) == [Called(PressStart), Changed(true)]
      && s1.state.isPressed && s1.state.isOverTarget && s1.state.didFirePressStart
      && s1.state.activePointerId == Some(out.pointerId)
      && GlobalPointerMove in s1.state.globals && GlobalPointerUp in s1.state.globals by {
      PointerDownStarts(p, s, down);
    }
    var tail := Run(p, a, s1.state, rest);
    assert Hooks(tail.out) == later && !tail.state.isPressed && tail.state.globals == map[] && !tail.state.didFirePressStart by {
      ExitReturnRelease(p, s1.state, out, back, up, rect);
    }
    RunHooks(p, a, s, PointerDown(down), rest);
    ReturnHooksJoin();
  }

  /**
   * Press, drag off the target, come back and release over it: the press
   * ends on the way out, starts again on the way back, and completes.
   */
  lemma PointerReturnScenario(p: Params, down: PointerEvent, out: PointerEvent, back: PointerEvent, up: PointerEvent, rect: Rect)
    requires !p.isDisabled && !p.shouldCancelOnPointerExit
    requires down.button == 0 && down.currentTargetContainsTarget && !IsVirtualPointerEvent(down)
    requires out.pointerId == down.pointerId && !IsOverTarget(out.point, rect)
    requires back.pointerId == down.pointerId && IsOverTarget(back.point, rect)
    requires up.pointerId == down.pointerId && up.button == 0 && IsOverTarget(up.point, rect)
    ensures var r := Run(p, PointerEventsAdapter, Initial,
                         [PointerDown(down), DocumentPointerMove(out, rect), DocumentPointerMove(back, rect), DocumentPointerUp(up, rect)]);
      && Hooks(r.out) == [Called(PressStart), Changed(true), Called(PressEnd), Changed(false),
                          Called(PressStart), Changed(true), Called(PressEnd), Changed(false), Called(Press)]
      && !r.state.isPressed && r.state.globals == map[] && !r.state.didFirePressStart
  {
    var rest := [DocumentPointerMove(out, rect), DocumentPointerMove(back, rect), DocumentPointerUp(up, rect)];
    DownExitReturnRelease(p, Initial, down, rest, out, back, up, rect);
    assert [PointerDown(down), DocumentPointerMove(out, rect), DocumentPointerMove(back, rect), DocumentPointerUp(up, rect)]
        == [PointerDown(down)] + rest;
  }

  /**
   * With `shouldCancelOnPointerExit`, leaving the target cancels the press:
   * the document listeners are gone, so moving back over the target starts nothing.
   */
  lemma CancelOnExitScenario(p: Params, down: PointerEvent, out: PointerEvent, back: PointerEvent, rect: Rect)
    requires !p.isDisabled && p.shouldCancelOnPointerExit
    requires down.button == 0 && down.currentTargetContainsTarget && !IsVirtualPointerEvent(down)
    requires out.pointerId == down.pointerId && !IsOverTarget(out.point, rect)
    requires back.pointerId == down.pointerId
    ensures var r := Run(p, PointerEventsAdapter, Initial, [PointerDown(down), DocumentPointerMove(out, rect), DocumentPointerMove(back, rect)]);
      && Hooks(r.out) == [Called(PressStart), Changed(true), Called(PressEnd), Changed(false)]
      && !r.state.isPressed && r.state.globals == map[] && !r.state.didFirePressStart
  {
    var a := PointerEventsAdapter;
    var s1 := Handle(p, a, Initial, PointerDown(down));
    PointerDownStarts(p, Initial, down);
    CancelledExitIsFinal(p, s1.state, out, back, rect);
    RunHooks(p, a, Initial, PointerDown(down), [DocumentPointerMove(out, rect), DocumentPointerMove(back, rect)]);
  }

  /** After an exit that cancels, the next move of the same pointer reaches no listener. */
  lemma CancelledExitIsFinal(p: Params, s: State, out: PointerEvent, back: PointerEvent, rect: Rect)
    requires p.shouldCancelOnPointerExit
    requires s.isPressed && s.isOverTarget && s.didFirePressStart && s.activePointerId == Some(out.pointerId)
    requires GlobalPointerMove in s.globals
    requires !IsOverTarget(out.point, rect)
    ensures var r := Run(p, PointerEventsAdapter, s, [DocumentPointerMove(out, rect), DocumentPointerMove(back, rect)]);
      && Hooks(r.out) == [Called(PressEnd), Changed(false)]
      && !r.state.isPressed && r.state.globals == map[] && !r.state.didFirePressStart
  {
    var a := PointerEventsAdapter;
    var s2 := Handle(p, a, s, DocumentPointerMove(out, rect));
    PointerExitEnds(p, s, out, rect);
    assert Handle(p, a, s2.state, DocumentPointerMove(back, rect)) == Step(s2.state, []);
    RunHooks(p, a, s, DocumentPointerMove(out, rect), [DocumentPointerMove(back, rect)]);
    RunHooks(p, a, s2.state, DocumentPointerMove(back, rect), []);
  }

  /**
   * A valid key-down on an idle, enabled tracker starts a keyboard press;
   * the hooks are told `keyboard`, but the state's pointer type is left as it was.
   */
  lemma KeyDownStarts(p: Params, a: Adapter, s: State, k: KeyboardEvent)
    requires !p.isDisabled && !s.isPressed && !s.didFirePressStart
    requires IsValidKeyboardEvent(k) && k.currentTargetContainsTarget && !k.repeat
    ensures var r := Handle(p, a, s, KeyDown(k));
      && Hooks(r.out) == [Called(PressStart), Changed(true)]
      && r.state.isPressed && r.state.didFirePressStart && GlobalKeyUp in r.state.globals
      && r.state.pointerType == s.pointerType
  {
    var r := OnKeyDown(p, s, k);
    var pressed := s.(target := Some(k.currentTarget), isPressed := true);
    var started := TriggerPressStart(p, pressed, BaseOf(k.currentTarget, k.modifiers), Some(Keyboard));
    var prevent := if ShouldPreventDefaultKeyboard(k.target) then [PreventDefault] else [];
    assert r.out == prevent + started.out;
    HooksConcat(prevent, started.out);
    assert Hooks([PressChange(true)]) == [Changed(true)];
  }

  /** The element's key-up of a valid key reports `pressup`. */
  lemma KeyUpReports(p: Params, a: Adapter, s: State, k: KeyboardEvent)
    requires !p.isDisabled
    requires IsValidKeyboardEvent(k) && k.currentTargetContainsTarget && !k.repeat
    ensures var r := Handle(p, a, s, KeyUp(k));
      r.state == s && Hooks(r.out) == [Called(PressUp)]
  {
    assert OnKeyUp(p, s, k).out[1..] == [];
  }

  /** Hooks after silent emissions and before other silent ones. */
  lemma HooksBetweenSilent(pre: seq<Emission>, mid: seq<Emission>, post: seq<Emission>)
    requires Silent(pre) && Silent(post)
    ensures Hooks(pre + mid + post) == Hooks(mid)
  {
    HooksConcat(pre, mid);
    HooksConcat(pre + mid, post);
  }

  /** The document's key-up, released inside the target, completes the keyboard press. */
  lemma GlobalKeyUpCompletes(p: Params, a: Adapter, s: State, k: KeyboardEvent)
    requires !p.isDisabled && s.isPressed && s.didFirePressStart && GlobalKeyUp in s.globals
    requires IsValidKeyboardEvent(k)
    ensures var r := Handle(p, a, s, DocumentKeyUp(k, true));
      && Hooks(r.out) == [Called(PressEnd), Changed(false), Called(Press)]
      && !r.state.isPressed && r.state.globals == map[] && !r.state.didFirePressStart
  {
    var base := EventBase(s.target, k.modifiers);
    var ended := TriggerPressEnd(p, s.(isPressed := false), base, Some(Keyboard), true);
    var r := GlobalOnKeyUp(p, s, k, true);
    var prevent := if ShouldPreventDefaultKeyboard(k.target) then [PreventDefault] else [];
    var isLink := s.target.Some? &&
      (IsHTMLAnchorLink(s.target.value) || s.target.value.role == Some("link"));
    var click := if isLink then [ClickElement(s.target)] else [];
    assert r.out == prevent + ended.out + click;
    HooksBetweenSilent(prevent, ended.out, click);
    CompletedEndHooks(p, s.(isPressed := false), base, Some(Keyboard));
  }

  /** The release of the key, on the element and then the document, completes a keyboard press. */
  lemma KeyReleaseCompletes(p: Params, a: Adapter, s: State, k: KeyboardEvent)
    requires !p.isDisabled && s.isPressed && s.didFirePressStart && GlobalKeyUp in s.globals
    requires IsValidKeyboardEvent(k) && k.currentTargetContainsTarget && !k.repeat
    ensures var r := Run(p, a, s, [KeyUp(k), DocumentKeyUp(k, true)]);
      && Hooks(r.out) == [Called(PressUp), Called(PressEnd), Changed(false), Called(Press)]
      && !r.state.isPressed && r.state.globals == map[] && !r.state.didFirePressStart
  {
    KeyUpReports(p, a, s, k);
    GlobalKeyUpCompletes(p, a, s, k);
    RunHooks(p, a, s, KeyUp(k), [DocumentKeyUp(k, true)]);
    RunHooks(p, a, s, DocumentKeyUp(k, true), []);
  }

  /**
   * Enter or Space on the target, released there: the full hook sequence.
   * Throughout, the tracker's recorded pointer type stays unset, although the
   * hooks receive `keyboard`.
   */
  lemma KeyboardPressScenario(p: Params, a: Adapter, k: KeyboardEvent)
    requires !p.isDisabled
    requires IsValidKeyboardEvent(k) && k.currentTargetContainsTarget && !k.repeat
    ensures var r := Run(p, a, Initial, [KeyDown(k), KeyUp(k), DocumentKeyUp(k, true)]);
      && Hooks(r.out) == [Called(PressStart), Changed(true), Called(PressUp), Called(PressEnd), Changed(false), Called(Press)]
      && !r.state.isPressed && r.state.globals == map[] && !r.state.didFirePressStart
    ensures Handle(p, a, Initial, KeyDown(k)).state.isPressed
    ensures Handle(p, a, Initial, KeyDown(k)).state.pointerType.None?
  {
    var s1 := Handle(p, a, Initial, KeyDown(k));
    assert Hooks(s1.out) == [Called(PressStart), Changed(true)]
      && s1.state.isPressed && s1.state.didFirePressStart && GlobalKeyUp in s1.state.globals
      && s1.state.pointerType.None? by {
      KeyDownStarts(p, a, Initial, k);
    }
    var rest := Run(p, a, s1.state, [KeyUp(k), DocumentKeyUp(k, true)]);
    assert Hooks(rest.out) == [Called(PressUp), Called(PressEnd), Changed(false), Called(Press)]
      && !rest.state.isPressed && rest.state.globals == map[] && !rest.state.didFirePressStart by {
      KeyReleaseCompletes(p, a, s1.state, k);
    }
    RunHooks(p, a, Initial, KeyDown(k), [KeyUp(k), DocumentKeyUp(k, true)]);
    PressHooksJoin();
  }

  // ---------------------------------------------------------------- quirks of the wiring

  /** `attach` always selects the pointer-events protocol, whatever the platform reports. */
  lemma AttachAlwaysUsesPointerEvents(t: Tracker, node: Element, typeofPointerEvent: string)
    requires t.node.None? && t.adapter.None?
    ensures Attach(t, node, typeofPointerEvent).adapter == Some(PointerEventsAdapter)
    ensures "touchstart" !in LocalListeners(Attach(t, node, typeofPointerEvent).adapter.value)
  {
  }

  /** With the intended feature test, a platform without pointer events gets the touch listeners. */
  lemma IntendedTestListensForTouch(typeofPointerEvent: string)
    ensures "touchstart" in LocalListeners(SelectAdapterIntended(typeofPointerEvent)) <==> typeofPointerEvent == "undefined"
    ensures "pointerdown" in LocalListeners(SelectAdapterIntended(typeofPointerEvent)) <==> typeofPointerEvent != "undefined"
  {
  }

  /** No adapter listens for `touchend`, so a touch release never reaches `onTouchEnd`. */
  lemma TouchEndIsNeverHandled(p: Params, a: Adapter, s: State, e: TouchEvent, rect: Rect)
    ensures Handle(p, a, s, TouchEnd(e, rect)) == Step(s, [])
    ensures "touchend" !in LocalListeners(a)
  {
  }

  /**
   * Destroying a tracker in the middle of a press removes the document
   * listeners but ends nothing: the press stays open and no later event
   * can close it through them.
   */
  lemma DestroyLeavesPressOpen(t: Tracker, p: Params, a: Adapter, i: Input)
    requires Attached(t) && t.state.isPressed && t.state.didFirePressStart
    ensures Destroy(t).state.isPressed && Destroy(t).state.didFirePressStart
    ensures Destroy(t).state.globals == map[]
    ensures IsGlobalInput(i) ==> Handle(p, a, Destroy(t).state, i) == Step(Destroy(t).state, [])
  {
  }

  /** The hooks among the emissions of a virtual press, after an optional focus. */
  lemma VirtualPressHooks(focus: seq<Emission>, base: EventBase)
    requires Silent(focus)
    ensures Hooks(focus + [Hook(MakeEvent(PressStart, base, Some(Virtual))), PressChange(true),
                           Hook(MakeEvent(PressUp, base, Some(Virtual))),
                           Hook(MakeEvent(PressEnd, base, Some(Virtual))), PressChange(false),
                           Hook(MakeEvent(Press, base, Some(Virtual)))])
         == [Called(PressStart), Changed(true), Called(PressUp), Called(PressEnd), Changed(false), Called(Press)]
  {
    var e0, e1 := Hook(MakeEvent(PressStart, base, Some(Virtual))), PressChange(true);
    var e2 := Hook(MakeEvent(PressUp, base, Some(Virtual)));
    var e3, e4, e5 := Hook(MakeEvent(PressEnd, base, Some(Virtual))), PressChange(false), Hook(MakeEvent(Press, base, Some(Virtual)));
    assert [e0, e1, e2, e3, e4, e5] == [e0, e1] + ([e2] + [e3, e4, e5]);
    HooksAfterSilent(focus, [e0, e1] + ([e2] + [e3, e4, e5]));
    HooksConcat([e0, e1], [e2] + [e3, e4, e5]);
    HooksConcat([e2], [e3, e4, e5]);
    StartHooks(base, Some(Virtual));
    assert [e2][1..] == [] && Hooks([e2]) == [Called(PressUp)];
    assert [e3, e4, e5][1..] == [e4, e5] && [e4, e5][1..] == [e5] && [e5][1..] == [];
    assert Hooks([e5]) == [Called(Press)];
    assert Hooks([e4, e5]) == [Changed(false), Called(Press)];
  }

  /**
   * A virtual click (a screen reader's, or `element.click()`) on an enabled
   * idle element is a whole press on its own: start, up, end, then `press`.
   */
  lemma VirtualClickPresses(p: Params, a: Adapter, s: State, e: MouseEvent)
    requires ClickIsVirtualPress(s, e) && !p.isDisabled && !s.didFirePressStart
    ensures Hooks(Handle(p, a, s, Click(e)).out)
         == [Called(PressStart), Changed(true), Called(PressUp), Called(PressEnd), Changed(false), Called(Press)]
    ensures !Handle(p, a, s, Click(e)).state.didFirePressStart
  {
    var focus: seq<Emission> := if p.preventFocusOnPress then [] else [Focus(e.currentTarget)];
    assert Silent(focus) by {
      if !p.preventFocusOnPress {
        assert focus == FocusUnlessPrevented(p, e.currentTarget);
        SelectionAndFocusAreSilent(p, None, e.currentTarget);
      }
    }
    VirtualPressHooks(focus, BaseOf(e.currentTarget, e.modifiers));
  }

  // ---------------------------------------------------------------- the document handlers as written

  /**
   * The document listeners that `onKeyDown` and `onPointerDown` register are
   * the methods `globalOnKeyUp`, `globalOnPointerMove`, `globalOnPointerUp`
   * and `globalOnPointerCancel` passed without `bind`. The DOM calls a
   * listener with the target, here the document, as `this`, so each of them
   * throws at its first use of `this.state` or `this.cancel`, before it
   * changes anything. (`globalOnMouseUp` and `globalOnScroll` are bound.)
   */
  predicate ReachesUnboundHandler(i: Input) {
    i.DocumentKeyUp? || i.DocumentPointerMove? || i.DocumentPointerUp? || i.DocumentPointerCancel?
  }

  /** The registry holds one of the listeners that were added without `bind`. */
  predicate HoldsUnboundListener(s: State) {
    GlobalKeyUp in s.globals || GlobalPointerMove in s.globals
    || GlobalPointerUp in s.globals || GlobalPointerCancel in s.globals
  }

  /**
   * `Handle` with the listeners as written: the unbound ones throw and leave
   * the tracker as it was. This differs from `Handle` only while one of them is registered.
   */
  function HandleAsWritten(p: Params, a: Adapter, s: State, i: Input): (r: Step)
    ensures ReachesUnboundHandler(i) ==> r == Step(s, [])
    ensures !HoldsUnboundListener(s) ==> r == Handle(p, a, s, i)
  {
    if ReachesUnboundHandler(i) then Step(s, []) else Handle(p, a, s, i)
  }

  /**
   * `Run` with the listeners as written. A run that never delivers an event
   * to one of the unbound listeners agrees with the bound model.
   */
  function RunAsWritten(p: Params, a: Adapter, s: State, inputs: seq<Input>): (r: Step)
    ensures (forall k :: 0 <= k < |inputs| ==> !ReachesUnboundHandler(inputs[k])) ==> r == Run(p, a, s, inputs)
    decreases |inputs|
  {
    if inputs == [] then Step(s, [])
    else
      var first := HandleAsWritten(p, a, s, inputs[0]);
      var rest := RunAsWritten(p, a, first.state, inputs[1..]);
      Step(rest.state, first.out + rest.out)
  }

  /** The hooks of a run as written are those of its first step followed by those of the rest. */
  lemma RunAsWrittenHooks(p: Params, a: Adapter, s: State, i: Input, more: seq<Input>)
    ensures Hooks(RunAsWritten(p, a, s, [i] + more).out)
         == Hooks(HandleAsWritten(p, a, s, i).out) + Hooks(RunAsWritten(p, a, HandleAsWritten(p, a, s, i).state, more).out)
    ensures RunAsWritten(p, a, s, [i] + more).state == RunAsWritten(p, a, HandleAsWritten(p, a, s, i).state, more).state
  {
    assert ([i] + more)[1..] == more;
    HooksConcat(HandleAsWritten(p, a, s, i).out, RunAsWritten(p, a, HandleAsWritten(p, a, s, i).state, more).out);
  }

  /**
   * As written, a left press and release of one pointer over the target
   * reports `pressstart` and `pressup` but never `pressend` or `press`: the
   * document's pointer-up throws, and the tracker stays pressed with its
   * document listeners still registered.
   */
  lemma PointerPressAsWrittenStaysOpen(p: Params, down: PointerEvent, up: PointerEvent, rect: Rect)
    requires !p.isDisabled
    requires down.button == 0 && down.currentTargetContainsTarget && !IsVirtualPointerEvent(down)
    requires down.pointerType != Virtual
    requires up.pointerId == down.pointerId && up.button == 0 && up.currentTargetContainsTarget
    requires IsOverTarget(up.point, rect)
    ensures var r := RunAsWritten(p, PointerEventsAdapter, Initial, [PointerDown(down), PointerUp(up, rect), DocumentPointerUp(up, rect)]);
      && Hooks(r.out) == [Called(PressStart), Changed(true), Called(PressUp)]
      && r.state.isPressed && r.state.didFirePressStart && GlobalPointerUp in r.state.globals
  {
    var a := PointerEventsAdapter;
    var s1 := HandleAsWritten(p, a, Initial, PointerDown(down));
    assert Hooks(s1.out) == [Called(PressStart), Changed(true)]
      && s1.state.isPressed && s1.state.didFirePressStart && GlobalPointerUp in s1.state.globals
      && s1.state.pointerType != Some(Virtual) by {
      assert s1 == Handle(p, a, Initial, PointerDown(down));
      PointerDownStarts(p, Initial, down);
    }
    var s2 := HandleAsWritten(p, a, s1.state, PointerUp(up, rect));
    assert Hooks(s2.out) == [Called(PressUp)] && s2.state == s1.state by {
      assert s2 == Handle(p, a, s1.state, PointerUp(up, rect));
      PointerUpReports(p, s1.state, up, rect);
    }
    var s3 := HandleAsWritten(p, a, s2.state, DocumentPointerUp(up, rect));
    assert s3 == Step(s2.state, []);
    var rest := RunAsWritten(p, a, s1.state, [PointerUp(up, rect), DocumentPointerUp(up, rect)]);
    assert Hooks(rest.out) == Hooks(s2.out) + Hooks(s3.out) && rest.state == s3.state by {
      RunAsWrittenHooks(p, a, s1.state, PointerUp(up, rect), [DocumentPointerUp(up, rect)]);
      RunAsWrittenHooks(p, a, s2.state, DocumentPointerUp(up, rect), []);
    }
    var r := RunAsWritten(p, a, Initial, [PointerDown(down), PointerUp(up, rect), DocumentPointerUp(up, rect)]);
    assert Hooks(r.out) == Hooks(s1.out) + Hooks(rest.out) && r.state == rest.state by {
      RunAsWrittenHooks(p, a, Initial, PointerDown(down), [PointerUp(up, rect), DocumentPointerUp(up, rect)]);
    }
    assert Hooks(s3.out) == [];
  }

  /**
   * As written, Enter or Space on the target, released there, reports
   * `pressstart` and `pressup` only: the document's key-up throws and the
   * press stays open.
   */
  lemma KeyboardPressAsWrittenStaysOpen(p: Params, a: Adapter, k: KeyboardEvent)
    requires !p.isDisabled
    requires IsValidKeyboardEvent(k) && k.currentTargetContainsTarget && !k.repeat
    ensures var r := RunAsWritten(p, a, Initial, [KeyDown(k), KeyUp(k), DocumentKeyUp(k, true)]);
      && Hooks(r.out) == [Called(PressStart), Changed(true), Called(PressUp)]
      && r.state.isPressed && r.state.didFirePressStart && GlobalKeyUp in r.state.globals
  {
    var s1 := HandleAsWritten(p, a, Initial, KeyDown(k));
    assert Hooks(s1.out) == [Called(PressStart), Changed(true)]
      && s1.state.isPressed && s1.state.didFirePressStart && GlobalKeyUp in s1.state.globals by {
      assert s1 == Handle(p, a, Initial, KeyDown(k));
      KeyDownStarts(p, a, Initial, k);
    }
    var s2 := HandleAsWritten(p, a, s1.state, KeyUp(k));
    assert Hooks(s2.out) == [Called(PressUp)] && s2.state == s1.state by {
      assert s2 == Handle(p, a, s1.state, KeyUp(k));
      KeyUpReports(p, a, s1.state, k);
    }
    var s3 := HandleAsWritten(p, a, s2.state, DocumentKeyUp(k, true));
    assert s3 == Step(s2.state, []);
    var rest := RunAsWritten(p, a, s1.state, [KeyUp(k), DocumentKeyUp(k, true)]);
    assert Hooks(rest.out) == Hooks(s2.out) + Hooks(s3.out) && rest.state == s3.state by {
      RunAsWrittenHooks(p, a, s1.state, KeyUp(k), [DocumentKeyUp(k, true)]);
      RunAsWrittenHooks(p, a, s2.state, DocumentKeyUp(k, true), []);
    }
    var r := RunAsWritten(p, a, Initial, [KeyDown(k), KeyUp(k), DocumentKeyUp(k, true)]);
    assert Hooks(r.out) == Hooks(s1.out) + Hooks(rest.out) && r.state == rest.state by {
      RunAsWrittenHooks(p, a, Initial, KeyDown(k), [KeyUp(k), DocumentKeyUp(k, true)]);
    }
    assert Hooks(s3.out) == [];
  }

  /**
   * While a press stays open, a new key-down or pointer-down starts nothing:
   * after the throwing release above, the element stops answering presses.
   */
  lemma OpenPressIgnoresNewPresses(p: Params, a: Adapter, s: State, k: KeyboardEvent, down: PointerEvent)
    requires s.isPressed
    ensures var r := HandleAsWritten(p, a, s, KeyDown(k)); Hooks(r.out) == [] && r.state.isPressed
    ensures var r := HandleAsWritten(p, a, s, PointerDown(down)); Hooks(r.out) == [] && r.state.isPressed
  {
  }
}
