/**
 * One accordion section (`createAccordionSection`): it registers a panel
 * with the accordion context, keeps its own open store, asks the context
 * before changing it, and derives the ARIA attributes of its header and
 * panel. Context operations come from `Accordion`.
 */
module AccordionSection {
  import opened Nullable
  import A = Accordion
  import PD = PropDiff

  datatype SectionProp = Open

  /** The section's panel id, its open store, and the props its `PropDiff` remembers. */
  datatype Section = Section(id: string, open: bool, remembered: map<SectionProp, bool>)

  /** The section's open store agrees with its panel in the context. */
  predicate Agrees(c: A.Context, s: Section) {
    s.id in c.panels && c.panels[s.id].open == s.open
  }

  datatype Created = Created(ctx: A.Context, section: Section)

  /** Creating a section registers its panel and starts the store and the remembered `open` at the default. */
  function Create(c: A.Context): (r: Created)
    requires A.Valid(c)
    ensures A.Valid(r.ctx)
    ensures r.section.id !in c.panels && Agrees(r.ctx, r.section)
    ensures r.section.open <==> A.NoneForbidden(c.props) && c.registered == 0
    ensures r.section.remembered == map[Open := r.section.open]
  {
    var reg := A.Register(c);
    Created(reg.ctx, Section(reg.id, reg.defaultOpen, map[Open := reg.defaultOpen]))
  }

  function BoolText(b: bool): (t: string)
    ensures t == "true" <==> b
  {
    if b then "true" else "false"
  }

  /** The header's attributes. */
  datatype HeaderAttributes = HeaderAttributes(id: string, role: string, tabindex: string, ariaExpanded: string, ariaControls: string)

  /** The panel's attributes; an absent role is `undefined`. */
  datatype PanelAttributes = PanelAttributes(id: string, role: Option<string>, ariaLabelledby: string)

  datatype Reaction = Reaction(ctx: A.Context, section: Section, forced: seq<A.ForcedChange>,
                               header: HeaderAttributes, panel: PanelAttributes)

  function Attributes(c: A.Context, s: Section): (r: (HeaderAttributes, PanelAttributes))
    ensures r.0.id == s.id + "-header" && r.1.id == s.id + "-panel"
    ensures r.0.ariaControls == r.1.id && r.1.ariaLabelledby == r.0.id
    ensures r.0.role == "button" && r.0.tabindex == "0"
    ensures r.0.ariaExpanded == "true" <==> s.open
    ensures r.1.role == Some("region") <==> c.registered < 6
    ensures r.1.role.None? <==> c.registered >= 6
  {
    (HeaderAttributes(s.id + "-header", "button", "0", BoolText(s.open), s.id + "-panel"),
     PanelAttributes(s.id + "-panel", if c.registered < 6 then Some("region") else None, s.id + "-header"))
  }

  /** `react(props)`: a changed `open` prop is requested from the context and stored only if granted. */
  function React(c: A.Context, s: Section, props: map<SectionProp, bool>): (r: Reaction)
    requires A.Valid(c)
    ensures A.Valid(r.ctx) && r.section.id == s.id && r.section.remembered == props
    ensures (r.header, r.panel) == Attributes(r.ctx, r.section)
    ensures Open !in props || PD.Lookup(s.remembered, Open) == Some(props[Open]) ==>
      r.ctx == c && r.section.open == s.open && r.forced == []
    ensures r.section.open != s.open ==>
      Open in props && r.section.open == props[Open] && A.RequestChange(c, s.id, props[Open]).granted
    ensures Open in props && PD.Lookup(s.remembered, Open) != Some(props[Open]) ==>
      && r.ctx == A.RequestChange(c, s.id, props[Open]).ctx
      && r.forced == A.RequestChange(c, s.id, props[Open]).forced
  {
    var calls := PD.Compare(s.remembered, props).calls;
    var changed := Open in props && PD.Call(Open, props[Open], PD.Lookup(s.remembered, Open)) in calls;
    var outcome := if changed then A.RequestChange(c, s.id, props[Open]) else A.Outcome(c, false, []);
    var section := Section(s.id, if changed && outcome.granted then props[Open] else s.open, props);
    var attributes := Attributes(outcome.ctx, section);
    Reaction(outcome.ctx, section, outcome.forced, attributes.0, attributes.1)
  }

  /** The outcome of a header activation: the header's `aria-expanded` is rewritten only when the change is granted. */
  datatype Activation = Activation(ctx: A.Context, section: Section, forced: seq<A.ForcedChange>, ariaExpanded: Option<string>)

  /** The header's click: requests the opposite of the store. */
  function HeaderClick(c: A.Context, s: Section): (r: Activation)
    requires A.Valid(c)
    ensures A.Valid(r.ctx) && r.section.id == s.id && r.section.remembered == s.remembered
    ensures r.section.open != s.open <==> A.RequestChange(c, s.id, !s.open).granted
    ensures r.ariaExpanded.Some? <==> r.section.open != s.open
    ensures r.ariaExpanded.Some? ==> r.ariaExpanded.value == BoolText(r.section.open)
    ensures r.section.open == s.open ==> r.ctx == c && r.forced == []
    // a granted click takes the context and the other panels' changes from the request
    ensures r.section.open != s.open ==>
      && r.ctx == A.RequestChange(c, s.id, !s.open).ctx
      && r.forced == A.RequestChange(c, s.id, !s.open).forced
  {
    var newOpen := !s.open;
    var outcome := A.RequestChange(c, s.id, newOpen);
    if outcome.granted then Activation(outcome.ctx, s.(open := newOpen), outcome.forced, Some(BoolText(newOpen)))
    else Activation(c, s, [], None)
  }

  /** The header's key-up: Enter and Space act as a click, other keys do nothing. */
  function HeaderKeyUp(c: A.Context, s: Section, key: string): (r: Activation)
    requires A.Valid(c)
    ensures key == "Enter" || key == " " ==> r == HeaderClick(c, s)
    ensures key != "Enter" && key != " " ==> r == Activation(c, s, [], None)
  {
    if key == "Enter" || key == " " then HeaderClick(c, s) else Activation(c, s, [], None)
  }

  /** Mounting the header: the context learns the header node and the section's forced-change callback. */
  function MountHeader(c: A.Context, s: Section, node: nat): (r: A.Context)
    requires A.Valid(c)
    ensures A.Valid(r)
    ensures r.panels.Keys == c.panels.Keys && r.order == c.order && r.props == c.props
    ensures s.id in c.panels ==> r.panels[s.id] == c.panels[s.id].(node := Some(node), hasChange := true)
    ensures forall x :: x in c.panels && x != s.id ==> r.panels[x] == c.panels[x]
  {
    A.OnForcedChange(A.AssociateNode(c, s.id, node), s.id)
  }

  /** The section's forced-change callback: sets the store and the header's `aria-expanded`. */
  function ApplyForcedChange(s: Section, open: bool): (r: (Section, string))
    ensures r.0.open == open && r.0.id == s.id && r.0.remembered == s.remembered
    ensures r.1 == "true" <==> open
  {
    (s.(open := open), BoolText(open))
  }

  /** Unmounting the header: the panel leaves the context. */
  function DestroyHeader(c: A.Context, s: Section): (r: A.Context)
    requires A.Valid(c)
    ensures A.Valid(r) && s.id !in r.panels
    ensures forall x :: x in c.panels && x != s.id ==> x in r.panels && r.panels[x] == c.panels[x]
  {
    A.Forget(c, s.id)
  }

  // ---------------------------------------------------------------- the store follows the panel

  lemma ReactKeepsAgreement(c: A.Context, s: Section, props: map<SectionProp, bool>)
    requires A.Valid(c) && Agrees(c, s)
    ensures Agrees(React(c, s, props).ctx, React(c, s, props).section)
  {
  }

  lemma ClickKeepsAgreement(c: A.Context, s: Section)
    requires A.Valid(c) && Agrees(c, s)
    ensures Agrees(HeaderClick(c, s).ctx, HeaderClick(c, s).section)
  {
  }

  /**
   * After a click under single expansion opens this section, every other
   * section whose store agreed with its panel and whose header is mounted
   * agrees again once its forced change is applied.
   */
  lemma ForcedChangesRestoreAgreement(c: A.Context, s: Section, other: Section)
    requires A.Valid(c) && Agrees(c, s) && Agrees(c, other) && other.id != s.id
    requires !A.MultipleAllowed(c.props) && !s.open && c.panels[other.id].hasChange
    ensures var r := HeaderClick(c, s);
      r.section.open
      && (A.ForcedChange(other.id, false) in r.forced <==> other.open)
      && Agrees(r.ctx, if other.open then ApplyForcedChange(other, false).0 else other)
  {
  }

  /** Where several panels may be open and none must be, every click toggles the section. */
  lemma FreeClickToggles(c: A.Context, s: Section)
    requires A.Valid(c) && A.MultipleAllowed(c.props) && !A.NoneForbidden(c.props)
    ensures HeaderClick(c, s).section.open == !s.open
    ensures HeaderClick(HeaderClick(c, s).ctx, HeaderClick(c, s).section).section.open == s.open
  {
  }
}
