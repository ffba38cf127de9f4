/**
 * Two invariants of the press state machine, handler by handler: the
 * global listeners are registered only while a press is in progress
 * (and a pressed tracker always knows its target), and a disabled tracker
 * never calls a hook unless a start was already outstanding.
 */
module PressInvariants {
  import opened Nullable
  import opened Dom
  import opened Geometry
  import opened PressTracker

  /** A pressed tracker knows its target; an idle one holds no global listener. */
  predicate Valid(s: State) {
    && (s.isPressed ==> s.target.Some?)
    && (!s.isPressed ==> s.globals == map[])
  }

  lemma OnKeyDownKeepsValid(p: Params, s: State, e: KeyboardEvent)
    requires Valid(s)
    ensures Valid(OnKeyDown(p, s, e).state)
  {
  }

  lemma OnKeyUpKeepsValid(p: Params, s: State, e: KeyboardEvent)
    requires Valid(s)
    ensures Valid(OnKeyUp(p, s, e).state)
  {
  }

  lemma GlobalOnKeyUpKeepsValid(p: Params, s: State, e: KeyboardEvent, inside: bool)
    requires Valid(s)
    ensures Valid(GlobalOnKeyUp(p, s, e, inside).state)
  {
  }

  lemma OnClickKeepsValid(p: Params, s: State, e: MouseEvent)
    requires Valid(s)
    ensures Valid(OnClick(p, s, e).state)
  {
  }

  lemma OnPointerDownKeepsValid(p: Params, s: State, e: PointerEvent)
    requires Valid(s)
    ensures Valid(OnPointerDown(p, s, e).state)
  {
  }

  lemma OnPointerUpKeepsValid(p: Params, s: State, e: PointerEvent, rect: Rect)
    requires Valid(s)
    ensures Valid(OnPointerUp(p, s, e, rect).state)
  {
  }

  lemma GlobalOnPointerMoveKeepsValid(p: Params, s: State, e: PointerEvent, rect: Rect)
    requires Valid(s)
    ensures Valid(GlobalOnPointerMove(p, s, e, rect).state)
  {
  }

  lemma GlobalOnPointerUpKeepsValid(p: Params, s: State, e: PointerEvent, rect: Rect)
    requires Valid(s)
    ensures Valid(GlobalOnPointerUp(p, s, e, rect).state)
  {
  }

  lemma CancelKeepsValid(p: Params, s: State, m: Modifiers)
    requires Valid(s)
    ensures Valid(Cancel(p, s, m).state)
  {
  }

  lemma OnDragStartKeepsValid(p: Params, s: State, e: DragEvent)
    requires Valid(s)
    ensures Valid(OnDragStart(p, s, e).state)
  {
  }

  lemma OnMouseDownNPEKeepsValid(p: Params, s: State, e: MouseEvent)
    requires Valid(s)
    ensures Valid(OnMouseDownNPE(p, s, e).state)
  {
  }

  lemma OnMouseEnterKeepsValid(p: Params, s: State, e: MouseEvent)
    requires Valid(s)
    ensures Valid(OnMouseEnter(p, s, e).state)
  {
  }

  lemma OnMouseLeaveKeepsValid(p: Params, s: State, e: MouseEvent)
    requires Valid(s)
    ensures Valid(OnMouseLeave(p, s, e).state)
  {
  }

  lemma OnMouseUpKeepsValid(p: Params, s: State, e: MouseEvent)
    requires Valid(s)
    ensures Valid(OnMouseUp(p, s, e).state)
  {
  }

  lemma GlobalOnMouseUpKeepsValid(p: Params, s: State, e: MouseEvent, rect: Rect)
    requires Valid(s)
    ensures Valid(GlobalOnMouseUp(p, s, e, rect).state)
  {
  }

  lemma OnTouchStartKeepsValid(p: Params, s: State, e: TouchEvent)
    requires Valid(s)
    ensures Valid(OnTouchStart(p, s, e).state)
  {
  }

  lemma OnTouchMoveKeepsValid(p: Params, s: State, e: TouchEvent, rect: Rect)
    requires Valid(s)
    ensures Valid(OnTouchMove(p, s, e, rect).state)
  {
  }

  lemma OnTouchCancelKeepsValid(p: Params, s: State, e: TouchEvent)
    requires Valid(s)
    ensures Valid(OnTouchCancel(p, s, e).state)
  {
  }

  lemma GlobalOnScrollKeepsValid(p: Params, s: State, e: ScrollEvent)
    requires Valid(s)
    ensures Valid(GlobalOnScroll(p, s, e).state)
  {
  }

  lemma OnKeyDownDisabledIsSilent(p: Params, s: State, e: KeyboardEvent)
    requires p.isDisabled && !s.didFirePressStart
    ensures Silent(OnKeyDown(p, s, e).out) && !OnKeyDown(p, s, e).state.didFirePressStart
  {
  }

  lemma OnKeyUpDisabledIsSilent(p: Params, s: State, e: KeyboardEvent)
    requires p.isDisabled && !s.didFirePressStart
    ensures Silent(OnKeyUp(p, s, e).out) && !OnKeyUp(p, s, e).state.didFirePressStart
  {
  }

  lemma GlobalOnKeyUpDisabledIsSilent(p: Params, s: State, e: KeyboardEvent, inside: bool)
    requires p.isDisabled && !s.didFirePressStart
    ensures Silent(GlobalOnKeyUp(p, s, e, inside).out) && !GlobalOnKeyUp(p, s, e, inside).state.didFirePressStart
  {
  }

  lemma OnClickDisabledIsSilent(p: Params, s: State, e: MouseEvent)
    requires p.isDisabled && !s.didFirePressStart
    ensures Silent(OnClick(p, s, e).out) && !OnClick(p, s, e).state.didFirePressStart
  {
  }

  lemma OnPointerDownDisabledIsSilent(p: Params, s: State, e: PointerEvent)
    requires p.isDisabled && !s.didFirePressStart
    ensures Silent(OnPointerDown(p, s, e).out) && !OnPointerDown(p, s, e).state.didFirePressStart
  {
  }

  lemma OnPointerUpDisabledIsSilent(p: Params, s: State, e: PointerEvent, rect: Rect)
    requires p.isDisabled && !s.didFirePressStart
    ensures Silent(OnPointerUp(p, s, e, rect).out) && !OnPointerUp(p, s, e, rect).state.didFirePressStart
  {
  }

  lemma GlobalOnPointerMoveDisabledIsSilent(p: Params, s: State, e: PointerEvent, rect: Rect)
    requires p.isDisabled && !s.didFirePressStart
    ensures Silent(GlobalOnPointerMove(p, s, e, rect).out) && !GlobalOnPointerMove(p, s, e, rect).state.didFirePressStart
  {
  }

  lemma GlobalOnPointerUpDisabledIsSilent(p: Params, s: State, e: PointerEvent, rect: Rect)
    requires p.isDisabled && !s.didFirePressStart
    ensures Silent(GlobalOnPointerUp(p, s, e, rect).out) && !GlobalOnPointerUp(p, s, e, rect).state.didFirePressStart
  {
  }

  lemma CancelDisabledIsSilent(p: Params, s: State, m: Modifiers)
    requires p.isDisabled && !s.didFirePressStart
    ensures Silent(Cancel(p, s, m).out) && !Cancel(p, s, m).state.didFirePressStart
  {
  }

  lemma OnDragStartDisabledIsSilent(p: Params, s: State, e: DragEvent)
    requires p.isDisabled && !s.didFirePressStart
    ensures Silent(OnDragStart(p, s, e).out) && !OnDragStart(p, s, e).state.didFirePressStart
  {
  }

  lemma OnMouseDownNPEDisabledIsSilent(p: Params, s: State, e: MouseEvent)
    requires p.isDisabled && !s.didFirePressStart
    ensures Silent(OnMouseDownNPE(p, s, e).out) && !OnMouseDownNPE(p, s, e).state.didFirePressStart
  {
  }

  lemma OnMouseEnterDisabledIsSilent(p: Params, s: State, e: MouseEvent)
    requires p.isDisabled && !s.didFirePressStart
    ensures Silent(OnMouseEnter(p, s, e).out) && !OnMouseEnter(p, s, e).state.didFirePressStart
  {
  }

  lemma OnMouseLeaveDisabledIsSilent(p: Params, s: State, e: MouseEvent)
    requires p.isDisabled && !s.didFirePressStart
    ensures Silent(OnMouseLeave(p, s, e).out) && !OnMouseLeave(p, s, e).state.didFirePressStart
  {
  }

  lemma OnMouseUpDisabledIsSilent(p: Params, s: State, e: MouseEvent)
    requires p.isDisabled && !s.didFirePressStart
    ensures Silent(OnMouseUp(p, s, e).out) && !OnMouseUp(p, s, e).state.didFirePressStart
  {
  }

  lemma GlobalOnMouseUpDisabledIsSilent(p: Params, s: State, e: MouseEvent, rect: Rect)
    requires p.isDisabled && !s.didFirePressStart
    ensures Silent(GlobalOnMouseUp(p, s, e, rect).out) && !GlobalOnMouseUp(p, s, e, rect).state.didFirePressStart
  {
  }

  lemma OnTouchStartDisabledIsSilent(p: Params, s: State, e: TouchEvent)
    requires p.isDisabled && !s.didFirePressStart
    ensures Silent(OnTouchStart(p, s, e).out) && !OnTouchStart(p, s, e).state.didFirePressStart
  {
  }

  lemma OnTouchMoveDisabledIsSilent(p: Params, s: State, e: TouchEvent, rect: Rect)
    requires p.isDisabled && !s.didFirePressStart
    ensures Silent(OnTouchMove(p, s, e, rect).out) && !OnTouchMove(p, s, e, rect).state.didFirePressStart
  {
  }

  lemma OnTouchCancelDisabledIsSilent(p: Params, s: State, e: TouchEvent)
    requires p.isDisabled && !s.didFirePressStart
    ensures Silent(OnTouchCancel(p, s, e).out) && !OnTouchCancel(p, s, e).state.didFirePressStart
  {
  }

  lemma GlobalOnScrollDisabledIsSilent(p: Params, s: State, e: ScrollEvent)
    requires p.isDisabled && !s.didFirePressStart
    ensures Silent(GlobalOnScroll(p, s, e).out) && !GlobalOnScroll(p, s, e).state.didFirePressStart
  {
  }
}
