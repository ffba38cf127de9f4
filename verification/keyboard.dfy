/** The stand-alone keyboard predicate `keyboardEventIsPress`. */
module KeyboardUtils {
  import opened Nullable
  import opened Dom

  /** The keys that activate a button: Enter and Space (with the legacy "Spacebar" and the `code` form). */
  predicate IsActivationKey(key: string, code: string) {
    key == "Enter" || key == " " || key == "Spacebar" || code == "Space"
  }

  /** Elements where typing, not pressing, is what a key means. */
  predicate IsTextEntry(e: Element) {
    e.tagName == "INPUT" || e.tagName == "TEXTAREA" || e.isContentEditable
  }

  /**
   * Whether a key event activates its target as a press. The contract spells
   * the rule out case by case: which keys, which targets never, and when a
   * link (a real `<a href>` or role=link) takes part.
   */
  function KeyboardEventIsPress(event: KeyboardEvent): (r: bool)
    // only Enter and Space
    ensures !IsActivationKey(event.key, event.code) ==> !r
    // never while typing
    ensures IsTextEntry(event.target) ==> !r
    // a real link handles Enter itself, and takes Space only when repurposed as a button
    ensures IsHTMLAnchorLink(event.target) && r ==> event.target.role == Some("button") && event.key != "Enter"
    ensures (&& IsHTMLAnchorLink(event.target) && event.target.role == Some("button") && event.key != "Enter"
             && IsActivationKey(event.key, event.code) && !IsTextEntry(event.target)) ==> r
    // role=link reacts to Enter only
    ensures event.target.role == Some("link") && r ==> event.key == "Enter"
    // everywhere else every activation key presses
    ensures !IsHTMLAnchorLink(event.target) && !IsTextEntry(event.target) && event.key == "Enter" ==> r
    ensures (&& !IsHTMLAnchorLink(event.target) && !IsTextEntry(event.target)
             && event.target.role != Some("link") && IsActivationKey(event.key, event.code)) ==> r
  {
    var element := event.target;
    var key := event.key;
    (key == "Enter" || key == " " || key == "Spacebar" || event.code == "Space")
    && element.tagName != "INPUT"
    && element.tagName != "TEXTAREA"
    && !element.isContentEditable
    && (!(element.tagName == "A" && element.hasHref) || (element.role == Some("button") && key != "Enter"))
    && !(element.role == Some("link") && key != "Enter")
  }
}
