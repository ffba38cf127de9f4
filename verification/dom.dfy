/**
 * The parts of DOM elements and events the interaction code reads, as plain
 * records. Relations the browser computes (whether an event's current target
 * contains its target) arrive as fields already evaluated.
 */
module Dom {
  import opened Nullable
  import opened Geometry

  datatype PointerType = Mouse | Pen | Touch | Keyboard | Virtual

  /** An element: identity plus the attributes the handlers consult. */
  datatype Element = Element(
    ref: nat,
    tagName: string,              // upper-case, as `Element.tagName` reports it
    role: Option<string>,         // `getAttribute('role')`
    hasHref: bool,                // `hasAttribute('href')`
    isContentEditable: bool,
    typeAttr: string,             // the `type` property of a button or input
    insideDraggable: bool)        // `closest('[draggable="true"]') !== null`

  datatype Modifiers = Modifiers(shiftKey: bool, ctrlKey: bool, metaKey: bool, altKey: bool)

  const NoModifiers := Modifiers(false, false, false, false)

  datatype KeyboardEvent = KeyboardEvent(
    key: string, code: string,
    target: Element, currentTarget: Element, currentTargetContainsTarget: bool,
    repeat: bool, modifiers: Modifiers)

  datatype PointerEvent = PointerEvent(
    pointerId: int, pointerType: PointerType, button: int,
    target: Element, currentTarget: Element, currentTargetContainsTarget: bool,
    point: EventPoint, pressure: real, detail: int, modifiers: Modifiers)

  /**
   * A mouse or click event; `pointerType` is `None` when the event carries no
   * pointer type or an empty one (both read as false in a condition).
   */
  datatype MouseEvent = MouseEvent(
    button: int,
    target: Element, currentTarget: Element, currentTargetContainsTarget: bool,
    point: EventPoint, detail: int, pointerType: Option<PointerType>,
    mozInputSource: Option<int>, isTrusted: bool, modifiers: Modifiers)

  datatype TouchPoint = TouchPoint(identifier: int, point: EventPoint)

  datatype TouchEvent = TouchEvent(
    target: Element, currentTarget: Element, currentTargetContainsTarget: bool,
    targetTouches: seq<TouchPoint>, changedTouches: seq<TouchPoint>, modifiers: Modifiers)

  datatype DragEvent = DragEvent(currentTarget: Element, currentTargetContainsTarget: bool, modifiers: Modifiers)

  /** A scroll on the window; the field says whether the scrolled node contains the pressed element. */
  datatype ScrollEvent = ScrollEvent(targetContainsPressTarget: bool)

  /** A JavaScript value as far as a strict comparison with `undefined` needs one. */
  datatype JsValue = Undefined | JsString(text: string)

  /** `isHTMLAnchorLink`: an `<a>` carrying an `href`. */
  predicate IsHTMLAnchorLink(e: Element) {
    e.tagName == "A" && e.hasHref
  }
}
