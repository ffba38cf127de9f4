/**
 * The ordering the press tracker guarantees to its hooks: `pressstart` and
 * `pressend` alternate, starting with `pressstart`; `onPressChange` reports
 * the state that alternation is in; `press` only ever comes right after a
 * `pressend` (with its `onPressChange(false)` in between). Every handler's
 * emissions obey it, continuing from the tracker's `didFirePressStart`.
 */
module PressLifecycle {
  import opened Nullable
  import opened Dom
  import opened Geometry
  import opened PressTracker

  /**
   * Replaying the hook calls in `out` from a state where a start is
   * outstanding iff `open` (and the last hook was a `pressend` iff
   * `afterEnd`) breaks no ordering rule and leaves a start outstanding iff `open'`.
   */
  ghost predicate Lifecycle(out: seq<Emission>, open: bool, afterEnd: bool, open': bool)
    decreases |out|
  {
    if out == [] then open' == open
    else
      match out[0]
      case Hook(e) =>
        (match e.kind
         case PressStart => !open && Lifecycle(out[1..], true, false, open')
         case PressEnd => open && Lifecycle(out[1..], false, true, open')
         case PressUp => Lifecycle(out[1..], open, false, open')
         case Press => afterEnd && Lifecycle(out[1..], open, false, open'))
      case PressChange(pressed) => pressed == open && Lifecycle(out[1..], open, afterEnd, open')
      case _ => Lifecycle(out[1..], open, afterEnd, open')
  }

  /** One handler step keeps the lifecycle, continuing from and handing on `didFirePressStart`. */
  ghost predicate Sound(s: State, r: Step) {
    Lifecycle(r.out, s.didFirePressStart, false, r.state.didFirePressStart)
  }

  lemma {:induction false} SilentKeeps(out: seq<Emission>, open: bool, afterEnd: bool)
    requires Silent(out)
    ensures Lifecycle(out, open, afterEnd, open)
    decreases |out|
  {
    if out != [] {
      assert Silent(out[1..]) by {
        forall i | 0 <= i < |out[1..]| ensures !IsHook(out[1..][i]) {
          assert out[1..][i] == out[i + 1];
        }
      }
      assert !IsHook(out[0]);
      SilentKeeps(out[1..], open, afterEnd);
    }
  }

  /** Knowing the last hook was a `pressend` only permits more. */
  lemma {:induction false} Relax(out: seq<Emission>, open: bool, afterEnd: bool, open': bool)
    requires Lifecycle(out, open, false, open')
    ensures Lifecycle(out, open, afterEnd, open')
    decreases |out|
  {
    if out != [] {
      match out[0]
      case Hook(e) =>
      case PressChange(pressed) => Relax(out[1..], open, afterEnd, open');
      case _ => Relax(out[1..], open, afterEnd, open');
    }
  }

  lemma {:induction false} Concat(a: seq<Emission>, b: seq<Emission>, o0: bool, afterEnd: bool, o1: bool, o2: bool)
    requires Lifecycle(a, o0, afterEnd, o1)
    requires Lifecycle(b, o1, false, o2)
    ensures Lifecycle(a + b, o0, afterEnd, o2)
    decreases |a|
  {
    if a == [] {
      assert a + b == b;
      Relax(b, o1, afterEnd, o2);
    } else {
      assert (a + b)[0] == a[0];
      assert (a + b)[1..] == a[1..] + b;
      match a[0]
      case Hook(e) =>
        match e.kind {
          case PressStart => Concat(a[1..], b, true, false, o1, o2);
          case PressEnd => Concat(a[1..], b, false, true, o1, o2);
          case PressUp => Concat(a[1..], b, o0, false, o1, o2);
          case Press => Concat(a[1..], b, o0, false, o1, o2);
        }
      case PressChange(pressed) => Concat(a[1..], b, o0, afterEnd, o1, o2);
      case _ => Concat(a[1..], b, o0, afterEnd, o1, o2);
    }
  }

  lemma SilentThen(pre: seq<Emission>, rest: seq<Emission>, o: bool, o': bool)
    requires Silent(pre) && Lifecycle(rest, o, false, o')
    ensures Lifecycle(pre + rest, o, false, o')
  {
    SilentKeeps(pre, o, false);
    Concat(pre, rest, o, false, o, o');
  }

  lemma ThenSilent(rest: seq<Emission>, post: seq<Emission>, o: bool, o': bool)
    requires Lifecycle(rest, o, false, o') && Silent(post)
    ensures Lifecycle(rest + post, o, false, o')
  {
    SilentKeeps(post, o', false);
    Concat(rest, post, o, false, o', o');
  }

  // ---------------------------------------------------------------- primitives

  lemma StartSound(p: Params, s: State, base: EventBase, pt: Option<PointerType>)
    ensures Sound(s, TriggerPressStart(p, s, base, pt))
  {
    var r := TriggerPressStart(p, s, base, pt);
    if !p.isDisabled && !s.didFirePressStart {
      assert r.out[1..] == [PressChange(true)];
      assert r.out[1..][1..] == [];
    }
  }

  lemma EndSound(p: Params, s: State, base: EventBase, pt: Option<PointerType>, wasPressed: bool)
    ensures Sound(s, TriggerPressEnd(p, s, base, pt, wasPressed))
  {
    var r := TriggerPressEnd(p, s, base, pt, wasPressed);
    if s.didFirePressStart {
      var tail := r.out[1..];
      assert tail[0] == PressChange(false);
      if |r.out| == 3 {
        assert tail[1..] == [Hook(MakeEvent(Press, base, pt))];
        assert tail[1..][1..] == [];
        assert Lifecycle(tail[1..], false, true, false);
      } else {
        assert tail[1..] == [];
      }
    }
  }

  lemma UpSound(p: Params, base: EventBase, pt: Option<PointerType>, o: bool)
    ensures Lifecycle(TriggerPressUp(p, base, pt), o, false, o)
  {
    var out := TriggerPressUp(p, base, pt);
    if out != [] {
      assert out[1..] == [];
    }
  }

  lemma SelectionAndFocusAreSilent(p: Params, t: Option<Element>, e: Element)
    ensures Silent(RestoreSelection(p, t)) && Silent(DisableSelection(p, t)) && Silent(FocusUnlessPrevented(p, e))
  {
  }

  lemma CancelSound(p: Params, s: State, m: Modifiers)
    ensures Sound(s, Cancel(p, s, m))
  {
    if s.isPressed {
      var ended := if s.isOverTarget then TriggerPressEnd(p, s, EventBase(s.target, m), s.pointerType, false)
                   else Step(s, []);
      EndSound(p, s, EventBase(s.target, m), s.pointerType, false);
      SelectionAndFocusAreSilent(p, s.target, s.target.GetOr(Element(0, "", None, false, false, "", false)));
      ThenSilent(ended.out, RestoreSelection(p, s.target), s.didFirePressStart, ended.state.didFirePressStart);
    }
  }

  /** Leaving the target: `pressend(false)` followed, on request, by a cancel. */
  lemma ExitSound(p: Params, s: State, base: EventBase, m: Modifiers)
    ensures
      var ended := TriggerPressEnd(p, s.(isOverTarget := false), base, s.pointerType, false);
      var cancelled := Cancel(p, ended.state, m);
      Sound(s, ended) && Sound(s, Step(cancelled.state, ended.out + cancelled.out))
  {
    var ended := TriggerPressEnd(p, s.(isOverTarget := false), base, s.pointerType, false);
    EndSound(p, s.(isOverTarget := false), base, s.pointerType, false);
    CancelSound(p, ended.state, m);
    Concat(ended.out, Cancel(p, ended.state, m).out, s.didFirePressStart, false, ended.state.didFirePressStart,
           Cancel(p, ended.state, m).state.didFirePressStart);
  }

  // ---------------------------------------------------------------- handlers

  lemma OnKeyDownSound(p: Params, s: State, e: KeyboardEvent)
    ensures Sound(s, OnKeyDown(p, s, e))
  {
    if IsValidKeyboardEvent(e) && e.currentTargetContainsTarget {
      var prevent := if ShouldPreventDefaultKeyboard(e.target) then [PreventDefault] else [];
      if !s.isPressed && !e.repeat {
        var pressed := s.(target := Some(e.currentTarget), isPressed := true);
        var started := TriggerPressStart(p, pressed, BaseOf(e.currentTarget, e.modifiers), Some(Keyboard));
        StartSound(p, pressed, BaseOf(e.currentTarget, e.modifiers), Some(Keyboard));
        SilentThen(prevent, started.out, s.didFirePressStart, started.state.didFirePressStart);
      } else {
        SilentKeeps(prevent, s.didFirePressStart, false);
      }
    }
  }

  lemma OnKeyUpSound(p: Params, s: State, e: KeyboardEvent)
    ensures Sound(s, OnKeyUp(p, s, e))
  {
    UpSound(p, EventBase(s.target, e.modifiers), Some(Keyboard), s.didFirePressStart);
  }

  lemma GlobalOnKeyUpSound(p: Params, s: State, e: KeyboardEvent, inside: bool)
    ensures Sound(s, GlobalOnKeyUp(p, s, e, inside))
  {
    if s.isPressed && IsValidKeyboardEvent(e) {
      var prevent := if ShouldPreventDefaultKeyboard(e.target) then [PreventDefault] else [];
      var base := EventBase(s.target, e.modifiers);
      var ended := TriggerPressEnd(p, s.(isPressed := false), base, Some(Keyboard), inside);
      EndSound(p, s.(isPressed := false), base, Some(Keyboard), inside);
      var click := if ReleaseClicksLink(s.target, inside) then [ClickElement(s.target)] else [];
      SilentThen(prevent, ended.out, s.didFirePressStart, ended.state.didFirePressStart);
      ThenSilent(prevent + ended.out, click, s.didFirePressStart, ended.state.didFirePressStart);
    }
  }

  /** The start, up, end sequence a virtual click runs. */
  lemma VirtualPressSound(p: Params, s: State, base: EventBase, focus: seq<Emission>)
    requires Silent(focus)
    ensures
      var started := TriggerPressStart(p, s, base, Some(Virtual));
      var up := TriggerPressUp(p, base, Some(Virtual));
      var ended := TriggerPressEnd(p, started.state, base, Some(Virtual), true);
      Lifecycle(focus + started.out + up + ended.out, s.didFirePressStart, false, ended.state.didFirePressStart)
  {
    var started := TriggerPressStart(p, s, base, Some(Virtual));
    var up := TriggerPressUp(p, base, Some(Virtual));
    var ended := TriggerPressEnd(p, started.state, base, Some(Virtual), true);
    StartSound(p, s, base, Some(Virtual));
    UpSound(p, base, Some(Virtual), started.state.didFirePressStart);
    EndSound(p, started.state, base, Some(Virtual), true);
    var o0, o1, o2 := s.didFirePressStart, started.state.didFirePressStart, ended.state.didFirePressStart;
    SilentThen(focus, started.out, o0, o1);
    Concat(focus + started.out, up, o0, false, o1, o1);
    Concat(focus + started.out + up, ended.out, o0, false, o1, o2);
  }

  lemma OnClickSound(p: Params, s: State, e: MouseEvent)
    ensures Sound(s, OnClick(p, s, e))
  {
    if e.currentTargetContainsTarget && e.button == 0 {
      var prevent := if p.isDisabled then [PreventDefault] else [];
      var virtual := !s.ignoreClickAfterPress && !s.ignoreEmulatedMouseEvents
                     && (s.pointerType == Some(Virtual) || IsVirtualClick(e));
      if virtual {
        var base := BaseOf(e.currentTarget, e.modifiers);
        var focus := FocusUnlessPrevented(p, e.currentTarget);
        var started := TriggerPressStart(p, s, base, Some(Virtual));
        var up := TriggerPressUp(p, base, Some(Virtual));
        var ended := TriggerPressEnd(p, started.state, base, Some(Virtual), true);
        SelectionAndFocusAreSilent(p, None, e.currentTarget);
        VirtualPressSound(p, s, base, focus);
        SilentThen(prevent, focus + started.out + up + ended.out, s.didFirePressStart, ended.state.didFirePressStart);
      } else {
        SilentKeeps(prevent, s.didFirePressStart, false);
        assert prevent + [] == prevent;
      }
    }
  }

  lemma OnPointerDownStartSound(p: Params, s: State, e: PointerEvent)
    requires e.button == 0 && e.currentTargetContainsTarget && !IsVirtualPointerEvent(e) && !s.isPressed
    ensures Sound(s, OnPointerDown(p, s, e))
  {
    var prevent := if ShouldPreventDefault(e.target) then [PreventDefault] else [];
    var pressed := s.(pointerType := Some(e.pointerType), isPressed := true, isOverTarget := true,
                      activePointerId := Some(e.pointerId), target := Some(e.currentTarget));
    var base := BaseOf(e.currentTarget, e.modifiers);
    var started := TriggerPressStart(p, pressed, base, pressed.pointerType);
    StartSound(p, pressed, base, pressed.pointerType);
    var pre := prevent + FocusUnlessPrevented(p, e.currentTarget) + DisableSelection(p, pressed.target);
    SelectionAndFocusAreSilent(p, pressed.target, e.currentTarget);
    assert Silent(pre);
    SilentThen(pre, started.out, s.didFirePressStart, started.state.didFirePressStart);
    var r := OnPointerDown(p, s, e);
    assert r.out == pre + started.out;
    assert r.state.didFirePressStart == started.state.didFirePressStart;
  }

  lemma OnPointerDownSound(p: Params, s: State, e: PointerEvent)
    ensures Sound(s, OnPointerDown(p, s, e))
  {
    if e.button == 0 && e.currentTargetContainsTarget && !IsVirtualPointerEvent(e) {
      if s.isPressed {
        var prevent := if ShouldPreventDefault(e.target) then [PreventDefault] else [];
        assert OnPointerDown(p, s, e).out == prevent;
        SilentKeeps(prevent, s.didFirePressStart, false);
      } else {
        OnPointerDownStartSound(p, s, e);
      }
    }
  }

  lemma OnPointerUpSound(p: Params, s: State, e: PointerEvent, rect: Rect)
    ensures Sound(s, OnPointerUp(p, s, e, rect))
  {
    var pointerType := if s.pointerType.Some? then s.pointerType else Some(e.pointerType);
    UpSound(p, BaseOf(e.currentTarget, e.modifiers), pointerType, s.didFirePressStart);
  }

  lemma GlobalOnPointerMoveSound(p: Params, s: State, e: PointerEvent, rect: Rect)
    ensures Sound(s, GlobalOnPointerMove(p, s, e, rect))
  {
    var base := EventBase(s.target, e.modifiers);
    StartSound(p, s.(isOverTarget := true), base, s.pointerType);
    ExitSound(p, s, base, e.modifiers);
  }

  lemma GlobalOnPointerUpSound(p: Params, s: State, e: PointerEvent, rect: Rect)
    ensures Sound(s, GlobalOnPointerUp(p, s, e, rect))
  {
    if Some(e.pointerId) == s.activePointerId && s.isPressed && e.button == 0 {
      var base := EventBase(s.target, e.modifiers);
      var ended :=
        if IsOverTarget(e.point, rect) then TriggerPressEnd(p, s, base, s.pointerType, true)
        else if s.isOverTarget then TriggerPressEnd(p, s, base, s.pointerType, false)
        else Step(s, []);
      EndSound(p, s, base, s.pointerType, true);
      EndSound(p, s, base, s.pointerType, false);
      SelectionAndFocusAreSilent(p, s.target, e.currentTarget);
      ThenSilent(ended.out, RestoreSelection(p, s.target), s.didFirePressStart, ended.state.didFirePressStart);
    }
  }

  lemma OnDragStartSound(p: Params, s: State, e: DragEvent)
    ensures Sound(s, OnDragStart(p, s, e))
  {
    CancelSound(p, s, e.modifiers);
  }

  lemma OnMouseDownNPESound(p: Params, s: State, e: MouseEvent)
    ensures Sound(s, OnMouseDownNPE(p, s, e))
  {
    if e.button == 0 && e.currentTargetContainsTarget {
      var prevent := if ShouldPreventDefault(e.target) then [PreventDefault] else [];
      SilentKeeps(prevent, s.didFirePressStart, false);
      if !s.ignoreEmulatedMouseEvents {
        var pointerType := if IsVirtualClick(e) then Virtual else Mouse;
        var pressed := s.(isPressed := true, isOverTarget := true, target := Some(e.currentTarget),
                          pointerType := Some(pointerType));
        var base := BaseOf(e.currentTarget, e.modifiers);
        var started := TriggerPressStart(p, pressed, base, Some(pointerType));
        StartSound(p, pressed, base, Some(pointerType));
        var pre := prevent + FocusUnlessPrevented(p, e.currentTarget);
        SelectionAndFocusAreSilent(p, None, e.currentTarget);
        assert Silent(pre);
        SilentThen(pre, started.out, s.didFirePressStart, started.state.didFirePressStart);
      }
    }
  }

  lemma OnMouseEnterSound(p: Params, s: State, e: MouseEvent)
    ensures Sound(s, OnMouseEnter(p, s, e))
  {
    StartSound(p, s.(isOverTarget := true), BaseOf(e.currentTarget, e.modifiers), s.pointerType);
  }

  lemma OnMouseLeaveSound(p: Params, s: State, e: MouseEvent)
    ensures Sound(s, OnMouseLeave(p, s, e))
  {
    ExitSound(p, s, BaseOf(e.currentTarget, e.modifiers), e.modifiers);
  }

  lemma OnMouseUpSound(p: Params, s: State, e: MouseEvent)
    ensures Sound(s, OnMouseUp(p, s, e))
  {
    UpSound(p, BaseOf(e.currentTarget, e.modifiers), s.pointerType, s.didFirePressStart);
  }

  lemma GlobalOnMouseUpSound(p: Params, s: State, e: MouseEvent, rect: Rect)
    ensures Sound(s, GlobalOnMouseUp(p, s, e, rect))
  {
    var released := s.(isPressed := false, globals := map[]);
    var base := EventBase(s.target, e.modifiers);
    EndSound(p, released, base, s.pointerType, true);
    EndSound(p, released, base, s.pointerType, false);
  }

  lemma OnTouchStartSound(p: Params, s: State, e: TouchEvent)
    ensures Sound(s, OnTouchStart(p, s, e))
  {
    if e.currentTargetContainsTarget && GetTouchFromEvent(e).Some? {
      var touch := GetTouchFromEvent(e).value;
      var pressed := s.(activePointerId := Some(touch.identifier), ignoreEmulatedMouseEvents := true,
                        isOverTarget := true, isPressed := true, target := Some(e.currentTarget),
                        pointerType := Some(PointerType.Touch));
      var base := BaseOf(e.currentTarget, e.modifiers);
      var started := TriggerPressStart(p, pressed, base, Some(PointerType.Touch));
      StartSound(p, pressed, base, Some(PointerType.Touch));
      var pre := FocusUnlessPrevented(p, e.currentTarget) + DisableSelection(p, pressed.target);
      SelectionAndFocusAreSilent(p, pressed.target, e.currentTarget);
      assert Silent(pre);
      SilentThen(pre, started.out, s.didFirePressStart, started.state.didFirePressStart);
    }
  }

  lemma OnTouchMoveSound(p: Params, s: State, e: TouchEvent, rect: Rect)
    ensures Sound(s, OnTouchMove(p, s, e, rect))
  {
    var base := BaseOf(e.currentTarget, e.modifiers);
    StartSound(p, s.(isOverTarget := true), base, s.pointerType);
    ExitSound(p, s, base, e.modifiers);
  }

  lemma OnTouchEndSound(p: Params, s: State, e: TouchEvent, rect: Rect)
    ensures Sound(s, OnTouchEnd(p, s, e, rect))
  {
    if e.currentTargetContainsTarget && s.isPressed {
      var base := BaseOf(e.currentTarget, e.modifiers);
      var touch := GetTouchById(e.changedTouches, s.activePointerId);
      var o := s.didFirePressStart;
      var ended :=
        if touch.Some? && IsOverTarget(touch.value.point, rect) then
          var up := TriggerPressUp(p, base, s.pointerType);
          var end := TriggerPressEnd(p, s, base, s.pointerType, true);
          Step(end.state, up + end.out)
        else if s.isOverTarget then TriggerPressEnd(p, s, base, s.pointerType, false)
        else Step(s, []);
      UpSound(p, base, s.pointerType, o);
      EndSound(p, s, base, s.pointerType, true);
      EndSound(p, s, base, s.pointerType, false);
      Concat(TriggerPressUp(p, base, s.pointerType), TriggerPressEnd(p, s, base, s.pointerType, true).out,
             o, false, o, TriggerPressEnd(p, s, base, s.pointerType, true).state.didFirePressStart);
      SelectionAndFocusAreSilent(p, s.target, e.currentTarget);
      ThenSilent(ended.out, RestoreSelection(p, s.target), o, ended.state.didFirePressStart);
    }
  }

  lemma OnTouchCancelSound(p: Params, s: State, e: TouchEvent)
    ensures Sound(s, OnTouchCancel(p, s, e))
  {
    CancelSound(p, s, e.modifiers);
  }

  lemma GlobalOnScrollSound(p: Params, s: State, e: ScrollEvent)
    ensures Sound(s, GlobalOnScroll(p, s, e))
  {
    CancelSound(p, s, NoModifiers);
  }
}
