/**
 * The `button` action: the attributes it puts on the node, chosen by the
 * node's (lower-case) tag name, and when it dispatches `press`.
 */
module Button {
  import opened Nullable
  import opened Dom
  import KeyboardUtils
  import PanelIds

  /** `ButtonOptions`; an absent option is `None` (`undefined`). */
  datatype ButtonOptions = ButtonOptions(
    disabled: Option<bool>,
    typeAttr: Option<string>,
    href: Option<string>,
    target: Option<string>,
    rel: Option<string>)

  /** An attribute value; `Unset` is a property present with the value `undefined`. */
  datatype AttrValue = Text(text: string) | Number(number: int) | Flag(flag: bool) | Unset

  /** `options.disabled` is truthy. */
  predicate IsDisabled(o: ButtonOptions) {
    o.disabled == Some(true)
  }

  function TextOf(v: Option<string>): AttrValue {
    if v.Some? then Text(v.value) else Unset
  }

  function FlagOf(v: Option<bool>): AttrValue {
    if v.Some? then Flag(v.value) else Unset
  }

  /**
   * `getAttributesForNode`: the own properties of the returned object. A
   * native `button` keeps its semantics; anything else is given the button
   * role, and links and inputs their own extras.
   */
  function GetAttributesForNode(nodeName: string, o: ButtonOptions): (r: map<string, AttrValue>)
    ensures nodeName == "button" ==> r.Keys == {"type", "disabled"}
    ensures "type" in r ==> r["type"] == Text(o.typeAttr.GetOr("button"))
    ensures "disabled" in r ==> r["disabled"] == FlagOf(o.disabled)
    ensures "role" in r <==> nodeName != "button"
    ensures "role" in r ==> r["role"] == Text("button") && "tabIndex" in r
    ensures "tabIndex" in r ==> (r["tabIndex"] == Number(0) <==> !IsDisabled(o)) && (IsDisabled(o) <==> r["tabIndex"] == Unset)
    ensures ("href" in r <==> nodeName == "a") && ("target" in r <==> nodeName == "a") && ("rel" in r <==> nodeName == "a")
    ensures "href" in r ==> r["href"] == if IsDisabled(o) then Unset else TextOf(o.href)
    ensures "target" in r ==> r["target"] == TextOf(o.target)
    ensures "rel" in r ==> r["rel"] == TextOf(o.rel)
    ensures nodeName != "button" ==> ("type" in r <==> nodeName == "input") && ("disabled" in r <==> nodeName == "input")
    ensures "aria-disabled" in r <==> IsDisabled(o) && nodeName != "input" && nodeName != "button"
    ensures "aria-disabled" in r ==> r["aria-disabled"] == Flag(true)
  {
    if nodeName == "button" then
      map["type" := Text(o.typeAttr.GetOr("button")), "disabled" := FlagOf(o.disabled)]
    else
      var base := map["role" := Text("button"), "tabIndex" := if IsDisabled(o) then Unset else Number(0)];
      var link := if nodeName == "a" then
          base["href" := if IsDisabled(o) then Unset else TextOf(o.href)]["target" := TextOf(o.target)]["rel" := TextOf(o.rel)]
        else base;
      var input := if nodeName == "input" then
          link["type" := Text(o.typeAttr.GetOr("button"))]["disabled" := FlagOf(o.disabled)]
        else link;
      if IsDisabled(o) && nodeName != "input" then input["aria-disabled" := Flag(true)] else input
  }

  /** The two listeners the action installs. */
  datatype ButtonInput = Click | KeyDown(event: KeyboardEvent)

  /** Whether the listener for `i` calls `dispatch('press')`. */
  function Dispatches(o: ButtonOptions, i: ButtonInput): (r: bool)
    ensures i.Click? ==> (r <==> !IsDisabled(o))
    ensures i.KeyDown? ==> (r <==> KeyboardUtils.KeyboardEventIsPress(i.event))
  {
    match i
    case Click => !IsDisabled(o)
    case KeyDown(e) => KeyboardUtils.KeyboardEventIsPress(e)
  }

  /**
   * A disabled non-native button is announced as disabled, and its `tabIndex`
   * (and on a link its `href`) is `undefined` rather than a value.
   */
  lemma DisabledIsAnnounced(nodeName: string, o: ButtonOptions)
    requires IsDisabled(o) && nodeName != "button" && nodeName != "input"
    ensures var r := GetAttributesForNode(nodeName, o);
      r["aria-disabled"] == Flag(true) && r["tabIndex"] == Unset && ("href" in r ==> r["href"] == Unset)
  {
  }

  // ---------------------------------------------------------------- writing the attributes

  /** The text `setAttribute` stores for a value: JavaScript's `String(value)`. */
  function AttrText(v: AttrValue): (t: string)
    ensures v.Text? ==> t == v.text
    ensures v.Flag? ==> t == (if v.flag then "true" else "false")
    ensures v.Unset? ==> t == "undefined"
    ensures v.Number? && 0 <= v.number < 10 ==> t == [PanelIds.Digit(v.number)]
  {
    match v
    case Text(x) => x
    case Number(n) => if n < 0 then "-" + PanelIds.NatToDecimal(-n) else PanelIds.NatToDecimal(n)
    case Flag(b) => if b then "true" else "false"
    case Unset => "undefined"
  }

  /**
   * The attribute loop of `button` as written: every own property becomes
   * an attribute, so a property holding `undefined` or `false` is written
   * out as text.
   */
  function ApplyAsWritten(attrs: map<string, AttrValue>): (applied: map<string, string>)
    ensures applied.Keys == attrs.Keys
    ensures forall k :: k in applied ==> applied[k] == AttrText(attrs[k])
  {
    map k | k in attrs :: AttrText(attrs[k])
  }

  /** The attribute loop as evidently intended: an `undefined` or `false` property leaves the attribute off. */
  function ApplyIntended(attrs: map<string, AttrValue>): (applied: map<string, string>)
    ensures forall k :: k in applied <==> k in attrs && attrs[k] != Unset && attrs[k] != Flag(false)
    ensures forall k :: k in applied ==> applied[k] == AttrText(attrs[k])
  {
    map k | k in attrs && attrs[k] != Unset && attrs[k] != Flag(false) :: AttrText(attrs[k])
  }

  /**
   * As written, a native `button` or `input` always carries a `disabled`
   * attribute, "undefined" or "false" when the option is off; HTML disables
   * the control by the attribute's presence, whatever its text.
   */
  lemma NativeControlAlwaysDisabled(nodeName: string, o: ButtonOptions)
    requires nodeName == "button" || nodeName == "input"
    ensures var applied := ApplyAsWritten(GetAttributesForNode(nodeName, o));
      && "disabled" in applied
      && applied["disabled"] == (if o.disabled.None? then "undefined" else if IsDisabled(o) then "true" else "false")
  {
  }

  /** As written, a disabled link keeps an `href` attribute: the relative URL "undefined". */
  lemma DisabledLinkKeepsHref(o: ButtonOptions)
    requires IsDisabled(o)
    ensures var applied := ApplyAsWritten(GetAttributesForNode("a", o));
      applied["href"] == "undefined" && applied["tabIndex"] == "undefined" && applied["aria-disabled"] == "true"
  {
  }

  /** With the intended loop, a native control is disabled exactly when the option is on. */
  lemma IntendedNativeDisabled(nodeName: string, o: ButtonOptions)
    requires nodeName == "button" || nodeName == "input"
    ensures "disabled" in ApplyIntended(GetAttributesForNode(nodeName, o)) <==> IsDisabled(o)
  {
  }

  /**
   * With the intended loop, a non-native button keeps its tab stop exactly
   * while enabled; disabled, it has no link and (unless an input) is announced.
   */
  lemma IntendedDisabledLeavesTabOrder(nodeName: string, o: ButtonOptions)
    requires nodeName != "button"
    ensures var applied := ApplyIntended(GetAttributesForNode(nodeName, o));
      && ("tabIndex" in applied <==> !IsDisabled(o))
      && ("tabIndex" in applied ==> applied["tabIndex"] == "0")
      && (IsDisabled(o) ==> "href" !in applied)
      && (IsDisabled(o) && nodeName != "input" ==> applied["aria-disabled"] == "true")
  {
    var attrs := GetAttributesForNode(nodeName, o);
    assert !IsDisabled(o) ==> attrs["tabIndex"] == Number(0);
  }

  /** On a focused `div` button, Enter and Space press it and no other key does. */
  lemma DivButtonKeys(o: ButtonOptions, e: KeyboardEvent)
    requires e.target.tagName == "DIV" && e.target.role == Some("button") && !e.target.isContentEditable
    ensures e.key == "Enter" || e.key == " " ==> Dispatches(o, KeyDown(e))
    ensures Dispatches(o, KeyDown(e)) ==> e.key in ["Enter", " ", "Spacebar"] || e.code == "Space"
  {
  }

  /**
   * The key-down listener ignores `disabled`: a disabled button still
   * dispatches `press` from the keyboard, though not from a click.
   */
  lemma DisabledButtonIsKeyboardPressable()
    ensures var o := ButtonOptions(Some(true), None, None, None, None);
      var div := Element(0, "DIV", Some("button"), false, false, "", false);
      var e := KeyboardEvent("Enter", "Enter", div, div, true, false, NoModifiers);
      IsDisabled(o) && !Dispatches(o, Click) && Dispatches(o, KeyDown(e))
  {
  }
}
