/**
 * The accordion context (`createAccordion`): a registry of panels in
 * registration order, the "single expansion" and "at least one open" rules
 * that `requestChange` enforces, the reactions to prop changes, and the
 * arrow/Home/End focus movement between headers.
 *
 * The context's `Map` is `order` (its insertion order) plus `panels`.
 * A forced change is the call of a panel's `change` callback; the model
 * returns them, in order, instead of calling them.
 */
module Accordion {
  import opened Nullable
  import opened PanelIds
  import PD = PropDiff

  datatype AccordionProp = AllowMultipleExpandedPanels | ForbidNoExpandedPanels

  /** An `AccordionProps` object; an absent key reads as `undefined`. */
  type Props = map<AccordionProp, bool>

  const DefaultProps: Props := map[AllowMultipleExpandedPanels := true, ForbidNoExpandedPanels := false]

  /** `RegisteredPanel`: open or not, whether a `change` callback is set, and the header node (by reference). */
  datatype Panel = Panel(open: bool, hasChange: bool, node: Option<nat>)

  /** The context: the `registeredPanels` counter, the panel map in insertion order, the remembered props. */
  datatype Context = Context(registered: nat, order: seq<string>, panels: map<string, Panel>, props: Props)

  const Initial := Context(0, [], map[], DefaultProps)

  /** A call of a panel's `change` callback. */
  datatype ForcedChange = ForcedChange(id: string, open: bool)

  /** The result of a context operation: the new context, what it returns, the callbacks it calls. */
  datatype Outcome = Outcome(ctx: Context, granted: bool, forced: seq<ForcedChange>)

  /** `allowMultipleExpandedPanels` is truthy (an absent value is not). */
  predicate MultipleAllowed(props: Props) {
    PD.Lookup(props, AllowMultipleExpandedPanels) == Some(true)
  }

  /** `forbidNoExpandedPanels` is truthy. */
  predicate NoneForbidden(props: Props) {
    PD.Lookup(props, ForbidNoExpandedPanels) == Some(true)
  }

  ghost predicate IsIssued(id: string, registered: nat) {
    exists k :: 1 <= k <= registered && id == PanelId(k)
  }

  predicate Distinct(s: seq<string>) {
    forall i, j :: 0 <= i < j < |s| ==> s[i] != s[j]
  }

  /** What every reachable context satisfies: the order lists exactly the panels, once each, all issued by `register`. */
  ghost predicate Valid(c: Context) {
    && Distinct(c.order)
    && (forall id :: id in c.panels <==> id in c.order)
    && (forall id :: id in c.panels ==> IsIssued(id, c.registered))
  }

  lemma InitialIsValid()
    ensures Valid(Initial)
  {
  }

  predicate AtMostOneOpen(panels: map<string, Panel>) {
    forall x, y :: x in panels && y in panels && panels[x].open && panels[y].open ==> x == y
  }

  // ---------------------------------------------------------------- register, associateNode, onForcedChange, forget

  datatype Registration = Registration(ctx: Context, id: string, defaultOpen: bool)

  /** The next id `register` hands out is not in use, and ids stay issued as the counter grows. */
  lemma NextIdIsFresh(c: Context)
    requires Valid(c)
    ensures PanelId(c.registered + 1) !in c.panels
    ensures forall x :: x in c.panels ==> IsIssued(x, c.registered + 1)
  {
    var id := PanelId(c.registered + 1);
    if id in c.panels {
      var k :| 1 <= k <= c.registered && id == PanelId(k);
      PanelIdInjective(k, c.registered + 1);
      assert false;
    }
    forall x | x in c.panels ensures IsIssued(x, c.registered + 1) {
      var k :| 1 <= k <= c.registered && x == PanelId(k);
    }
  }

  /** `register`: counts the panel, names it `panel-N`, and opens it only as the first panel of an accordion that forbids none open. */
  function Register(c: Context): (r: Registration)
    requires Valid(c)
    ensures Valid(r.ctx)
    ensures r.ctx.registered == c.registered + 1 && r.id == PanelId(r.ctx.registered)
    ensures r.id !in c.panels
    ensures r.defaultOpen <==> NoneForbidden(c.props) && r.ctx.registered == 1
    ensures r.ctx.panels == c.panels[r.id := Panel(r.defaultOpen, false, None)]
    ensures r.ctx.order == c.order + [r.id] && r.ctx.props == c.props
  {
    var n := c.registered + 1;
    var id := PanelId(n);
    NextIdIsFresh(c);
    assert IsIssued(id, n);
    var defaultOpen := NoneForbidden(c.props) && n == 1;
    Registration(Context(n, c.order + [id], c.panels[id := Panel(defaultOpen, false, None)], c.props), id, defaultOpen)
  }

  /** Every registered panel gets an id no other panel has had. */
  lemma {:induction false} RegisterGivesFreshIds(c: Context)
    requires Valid(c)
    ensures var r := Register(c); var r2 := Register(r.ctx);
      r.id != r2.id && r.id in r2.ctx.panels && r2.id in r2.ctx.panels
  {
    var r := Register(c);
    var r2 := Register(r.ctx);
    assert r.id in r.ctx.panels;
  }

  /** `associateNode`: records the header node of a known panel. */
  function AssociateNode(c: Context, id: string, node: nat): (r: Context)
    ensures id in c.panels ==> r == c.(panels := c.panels[id := c.panels[id].(node := Some(node))])
    ensures id !in c.panels ==> r == c
  {
    if id in c.panels then c.(panels := c.panels[id := c.panels[id].(node := Some(node))]) else c
  }

  /** `onForcedChange`: installs a known panel's `change` callback. */
  function OnForcedChange(c: Context, id: string): (r: Context)
    ensures id in c.panels ==> r == c.(panels := c.panels[id := c.panels[id].(hasChange := true)])
    ensures id !in c.panels ==> r == c
  {
    if id in c.panels then c.(panels := c.panels[id := c.panels[id].(hasChange := true)]) else c
  }

  lemma ConsDistinct(x: string, rest: seq<string>)
    requires x !in rest && Distinct(rest)
    ensures Distinct([x] + rest)
  {
    forall i, j | 0 <= i < j < |[x] + rest| ensures ([x] + rest)[i] != ([x] + rest)[j] {
      assert ([x] + rest)[j] == rest[j - 1];
      if i > 0 {
        assert ([x] + rest)[i] == rest[i - 1];
      }
    }
  }

  lemma DistinctParts(s: seq<string>)
    requires |s| > 0 && Distinct(s)
    ensures s[0] !in s[1..] && Distinct(s[1..])
  {
    forall i, j | 0 <= i < j < |s[1..]| ensures s[1..][i] != s[1..][j] {
      assert s[1..][i] == s[i + 1] && s[1..][j] == s[j + 1];
    }
  }

  /** `s` without `x`, the rest in order. */
  function Without(s: seq<string>, x: string): (r: seq<string>)
    ensures forall y :: y in r <==> y in s && y != x
    ensures Distinct(s) ==> Distinct(r)
    ensures |r| <= |s|
    ensures x !in s ==> r == s
    // an id listed once is cut out of its place, the others keep their order
    ensures Distinct(s) && x in s ==> exists k :: 0 <= k < |s| && s[k] == x && r == s[..k] + s[k + 1..]
    decreases |s|
  {
    if s == [] then []
    else if s[0] == x then
      var rest := Without(s[1..], x);
      if Distinct(s) then
        DistinctParts(s);
        assert s[..0] + s[0 + 1..] == rest;
        rest
      else rest
    else
      var rest := Without(s[1..], x);
      assert x !in s ==> [s[0]] + rest == s;
      if Distinct(s) then
        DistinctParts(s);
        ConsDistinct(s[0], rest);
        if x in s[1..] then
          ghost var k :| 0 <= k < |s[1..]| && s[1..][k] == x && rest == s[1..][..k] + s[1..][k + 1..];
          ConsSplice(s, k, rest);
          [s[0]] + rest
        else [s[0]] + rest
      else [s[0]] + rest
  }

  /** Putting the head back in front of a splice of the tail is a splice one further on. */
  lemma ConsSplice(s: seq<string>, k: nat, rest: seq<string>)
    requires k + 1 < |s|
    requires rest == s[1..][..k] + s[1..][k + 1..]
    ensures s[k + 1] == s[1..][k]
    ensures [s[0]] + rest == s[..k + 1] + s[k + 2..]
  {
    assert s[..k + 1] == [s[0]] + s[1..][..k];
    assert s[k + 2..] == s[1..][k + 1..];
  }

  lemma ValidKeysWithout(c: Context, id: string)
    requires Valid(c)
    ensures Valid(c.(order := Without(c.order, id), panels := c.panels - {id}))
  {
  }

  /** `forget`: deletes the panel, keeping the others and their order. */
  function Forget(c: Context, id: string): (r: Context)
    requires Valid(c)
    ensures Valid(r)
    ensures r.panels == c.panels - {id} && r.registered == c.registered && r.props == c.props
    ensures forall x :: x in r.order <==> x in c.order && x != id
    ensures id !in c.panels ==> r == c
    // `Map.delete` keeps the insertion order of the remaining panels
    ensures id in c.panels ==>
      exists k :: 0 <= k < |c.order| && c.order[k] == id && r.order == c.order[..k] + c.order[k + 1..]
  {
    ValidKeysWithout(c, id);
    c.(order := Without(c.order, id), panels := c.panels - {id})
  }

  // ---------------------------------------------------------------- requestChange

  /** The single-expansion loop: closes every open panel, calling `change(false)` where set, in map order. */
  function CloseAll(order: seq<string>, panels: map<string, Panel>): (r: (map<string, Panel>, seq<ForcedChange>))
    ensures r.0.Keys == panels.Keys
    ensures forall x :: x in panels && x in order ==> r.0[x] == panels[x].(open := false)
    ensures forall x :: x in panels && x !in order ==> r.0[x] == panels[x]
    ensures forall f :: f in r.1 ==> !f.open
    ensures forall x :: ForcedChange(x, false) in r.1 <==> x in order && x in panels && panels[x].open && panels[x].hasChange
    decreases |order|
  {
    if order == [] then (panels, [])
    else
      var x := order[0];
      var rest := CloseAll(order[1..], panels);
      if x in panels && panels[x].open then
        var closed := rest.0[x := rest.0[x].(open := false)];
        (closed, (if panels[x].hasChange then [ForcedChange(x, false)] else []) + rest.1)
      else (rest.0, rest.1)
  }

  function SetOpen(panels: map<string, Panel>, id: string, open: bool): map<string, Panel> {
    if id in panels then panels[id := panels[id].(open := open)] else panels
  }

  /** Some panel other than `id` is open. */
  predicate OtherOpen(c: Context, id: string) {
    exists x :: x in c.panels && x != id && c.panels[x].open
  }

  /**
   * `requestChange(id, newOpen)`: opening under single expansion first closes
   * every panel; closing the last open panel where none open is forbidden is
   * refused; otherwise the panel (if known) takes the new state.
   */
  function RequestChange(c: Context, id: string, newOpen: bool): (r: Outcome)
    requires Valid(c)
    ensures Valid(r.ctx)
    ensures r.granted <==> !(!newOpen && NoneForbidden(c.props) && !OtherOpen(c, id))
    ensures !r.granted ==> r.ctx == c && r.forced == []
    ensures r.ctx.order == c.order && r.ctx.registered == c.registered && r.ctx.props == c.props
    ensures r.ctx.panels.Keys == c.panels.Keys
    ensures r.granted && id in c.panels ==> r.ctx.panels[id].open == newOpen
    ensures forall x :: x in c.panels ==>
      r.ctx.panels[x].hasChange == c.panels[x].hasChange && r.ctx.panels[x].node == c.panels[x].node
    ensures newOpen && !MultipleAllowed(c.props) ==>
      && (forall x :: x in c.panels && x != id ==> !r.ctx.panels[x].open)
      && (forall x :: ForcedChange(x, false) in r.forced <==> x in c.panels && c.panels[x].open && c.panels[x].hasChange)
    ensures !(newOpen && !MultipleAllowed(c.props)) ==>
      && r.forced == []
      && (forall x :: x in c.panels && x != id ==> r.ctx.panels[x] == c.panels[x])
  {
    if newOpen && !MultipleAllowed(c.props) then
      var closed := CloseAll(c.order, c.panels);
      Outcome(c.(panels := SetOpen(closed.0, id, true)), true, closed.1)
    else if !newOpen && NoneForbidden(c.props) && !OtherOpen(c, id) then
      Outcome(c, false, [])
    else
      Outcome(c.(panels := SetOpen(c.panels, id, newOpen)), true, [])
  }

  /** Under single expansion, a granted opening leaves exactly that panel open. */
  lemma OpeningUnderSingleExpansion(c: Context, id: string)
    requires Valid(c) && !MultipleAllowed(c.props) && id in c.panels
    ensures var r := RequestChange(c, id, true);
      r.granted && r.ctx.panels[id].open && AtMostOneOpen(r.ctx.panels)
  {
  }

  /** Where none open is forbidden, requests about a registered panel never close the last open panel. */
  lemma KeepsOneOpen(c: Context, id: string, newOpen: bool)
    requires Valid(c) && NoneForbidden(c.props) && id in c.panels
    requires exists x :: x in c.panels && c.panels[x].open
    ensures exists x :: x in RequestChange(c, id, newOpen).ctx.panels && RequestChange(c, id, newOpen).ctx.panels[x].open
  {
    var r := RequestChange(c, id, newOpen);
    var x :| x in c.panels && c.panels[x].open;
    if !r.granted {
      assert r.ctx.panels[x].open;
    } else if newOpen {
      assert r.ctx.panels[id].open;
    } else {
      var y :| y in c.panels && y != id && c.panels[y].open;
      assert r.ctx.panels[y].open;
    }
  }

  /**
   * Opening an id that is not (or no longer) registered under single
   * expansion still closes every panel, even where none open is forbidden.
   */
  lemma OpeningUnknownIdClosesAll(c: Context, id: string)
    requires Valid(c) && !MultipleAllowed(c.props) && id !in c.panels
    ensures var r := RequestChange(c, id, true);
      r.granted && forall x :: x in r.ctx.panels ==> !r.ctx.panels[x].open
  {
  }

  // ---------------------------------------------------------------- react

  /**
   * The loop of the `allowMultipleExpandedPanels` callback as written: it
   * closes open panels only while `tolerance` is false, and nothing in the
   * loop ever makes it false.
   */
  function CloseUntolerated(order: seq<string>, panels: map<string, Panel>, tolerance: bool): (r: (map<string, Panel>, seq<ForcedChange>))
    ensures tolerance ==> r == (panels, [])
    ensures r.0.Keys == panels.Keys
    decreases |order|
  {
    if order == [] then (panels, [])
    else
      var x := order[0];
      var rest := CloseUntolerated(order[1..], panels, tolerance);
      if x in panels && panels[x].open && !tolerance then
        (rest.0[x := rest.0[x].(open := false)], (if panels[x].hasChange then [ForcedChange(x, false)] else []) + rest.1)
      else rest
  }

  /** The first panel of `order` that is open, if any. */
  function FirstOpen(order: seq<string>, panels: map<string, Panel>): (r: Option<string>)
    ensures r.Some? ==> r.value in panels && panels[r.value].open
    ensures r.Some? ==> exists i :: (
      && 0 <= i < |order| && order[i] == r.value
      && forall j :: 0 <= j < i ==> !(order[j] in panels && panels[order[j]].open))
    ensures r.None? <==> forall x :: x in order && x in panels ==> !panels[x].open
    decreases |order|
  {
    if order == [] then None
    else if order[0] in panels && panels[order[0]].open then Some(order[0])
    else
      var rest := FirstOpen(order[1..], panels);
      if rest.Some? then
        ghost var i :| 0 <= i < |order[1..]| && order[1..][i] == rest.value
          && forall j :: 0 <= j < i ==> !(order[1..][j] in panels && panels[order[1..][j]].open);
        assert order[i + 1] == rest.value;
        rest
      else
        assert forall x :: x in order ==> x == order[0] || x in order[1..];
        rest
  }

  /** The loop with `tolerance` cleared at the first open panel: every open panel but the first is closed. */
  function CloseAllButFirstOpen(order: seq<string>, panels: map<string, Panel>, tolerance: bool): (r: (map<string, Panel>, seq<ForcedChange>))
    ensures r.0.Keys == panels.Keys
    ensures forall x :: x in panels && x !in order ==> r.0[x] == panels[x]
    ensures forall x :: x in panels ==> (r.0[x].open ==> panels[x].open)
    ensures !tolerance ==> forall x :: x in panels && x in order ==> !r.0[x].open
    ensures forall x, y :: x in order && y in order && x in r.0 && y in r.0 && r.0[x].open && r.0[y].open ==> x == y
    ensures forall f :: f in r.1 ==> !f.open
    // with each panel listed once, the first open panel is the one that stays open
    ensures Distinct(order) ==> forall x :: x in panels && x in order ==>
      (r.0[x].open <==> tolerance && FirstOpen(order, panels) == Some(x))
    ensures Distinct(order) ==> forall x :: ForcedChange(x, false) in r.1 <==>
      x in order && x in panels && panels[x].open && panels[x].hasChange && !(tolerance && FirstOpen(order, panels) == Some(x))
    decreases |order|
  {
    if order == [] then (panels, [])
    else
      var x := order[0];
      assert Distinct(order) ==> x !in order[1..] && Distinct(order[1..]) by {
        if Distinct(order) { DistinctParts(order); }
      }
      if x in panels && panels[x].open then
        var rest := CloseAllButFirstOpen(order[1..], panels, false);
        if tolerance then rest
        else (rest.0[x := rest.0[x].(open := false)], (if panels[x].hasChange then [ForcedChange(x, false)] else []) + rest.1)
      else CloseAllButFirstOpen(order[1..], panels, tolerance)
  }

  /** The `forbidNoExpandedPanels` callback: opens the first registered panel, if any, and tells it so. */
  function OpenFirst(order: seq<string>, panels: map<string, Panel>): (r: (map<string, Panel>, seq<ForcedChange>))
    ensures r.0.Keys == panels.Keys
    ensures |order| > 0 && order[0] in panels ==>
      && r.0 == panels[order[0] := panels[order[0]].(open := true)]
      && r.1 == (if panels[order[0]].hasChange then [ForcedChange(order[0], true)] else [])
    ensures !(|order| > 0 && order[0] in panels) ==> r == (panels, [])
  {
    if |order| > 0 && order[0] in panels then
      var first := order[0];
      (panels[first := panels[first].(open := true)], if panels[first].hasChange then [ForcedChange(first, true)] else [])
    else (panels, [])
  }

  /** The prop change that turns single expansion on. */
  const AllowOff := PD.Call(AllowMultipleExpandedPanels, false, Some(true))

  /** The prop change that turns "at least one open" on. */
  const ForbidOn := PD.Call(ForbidNoExpandedPanels, true, Some(false))

  /** The callbacks of one `react`, in the order the props declare them, with the `allowMultipleExpandedPanels` loop given. */
  function ReactWith(c: Context, props: Props, intended: bool): (r: Outcome)
    requires Valid(c)
    ensures Valid(r.ctx)
    ensures r.ctx.props == props && r.ctx.order == c.order && r.ctx.registered == c.registered
    ensures r.ctx.panels.Keys == c.panels.Keys
  {
    var calls := PD.Compare(c.props, props).calls;
    var allowed :=
      if AllowOff !in calls then (c.panels, [])
      else if intended then CloseAllButFirstOpen(c.order, c.panels, true)
      else CloseUntolerated(c.order, c.panels, true);
    var forbidden := if ForbidOn in calls then OpenFirst(c.order, allowed.0) else (allowed.0, []);
    Outcome(c.(panels := forbidden.0, props := props), true, allowed.1 + forbidden.1)
  }

  /**
   * `react(props)` as written: only turning `forbidNoExpandedPanels` from
   * `false` to `true` changes a panel, opening the first registered one.
   */
  function React(c: Context, props: Props): (r: Outcome)
    requires Valid(c)
    ensures Valid(r.ctx)
    ensures r.ctx.props == props && r.ctx.order == c.order && r.ctx.registered == c.registered
    ensures ForbidOn in PD.Compare(c.props, props).calls && |c.order| > 0 ==>
      && r.ctx.panels == c.panels[c.order[0] := c.panels[c.order[0]].(open := true)]
      && (c.panels[c.order[0]].hasChange <==> r.forced == [ForcedChange(c.order[0], true)])
      && (!c.panels[c.order[0]].hasChange <==> r.forced == [])
    ensures !(ForbidOn in PD.Compare(c.props, props).calls && |c.order| > 0) ==>
      r.ctx.panels == c.panels && r.forced == []
  {
    ReactWith(c, props, false)
  }

  /** `react` with the tolerance cleared at the first open panel, as its variable name promises. */
  function ReactIntended(c: Context, props: Props): (r: Outcome)
    requires Valid(c)
    ensures Valid(r.ctx)
    ensures r.ctx.props == props && r.ctx.order == c.order && r.ctx.registered == c.registered
    // only the loop differs from `react` as written
    ensures AllowOff !in PD.Compare(c.props, props).calls ==> r == React(c, props)
    // turning multiple expansion off keeps exactly the first open panel open ...
    ensures AllowOff in PD.Compare(c.props, props).calls && ForbidOn !in PD.Compare(c.props, props).calls ==>
      && (forall x :: x in r.ctx.panels ==> (r.ctx.panels[x].open <==> FirstOpen(c.order, c.panels) == Some(x)))
      && (forall x :: ForcedChange(x, false) in r.forced <==>
            x in c.panels && c.panels[x].open && c.panels[x].hasChange && FirstOpen(c.order, c.panels) != Some(x))
      && (forall f :: f in r.forced ==> !f.open)
    // ... and when "at least one open" is switched on too, the first registered panel opens as well
    ensures AllowOff in PD.Compare(c.props, props).calls && ForbidOn in PD.Compare(c.props, props).calls ==>
      forall x :: x in r.ctx.panels ==>
        (r.ctx.panels[x].open <==> x == c.order[0] || FirstOpen(c.order, c.panels) == Some(x))
  {
    var calls := PD.Compare(c.props, props).calls;
    var allowed := if AllowOff !in calls then (c.panels, []) else CloseAllButFirstOpen(c.order, c.panels, true);
    var forbidden := if ForbidOn in calls then OpenFirst(c.order, allowed.0) else (allowed.0, []);
    assert ReactWith(c, props, true) == Outcome(c.(panels := forbidden.0, props := props), true, allowed.1 + forbidden.1);
    ReactWith(c, props, true)
  }

  /**
   * Intended behaviour: turning multiple expansion off leaves at most one
   * panel open; if any panel was open, exactly one stays open, and it is the
   * first open one in registration order (unless "at least one open" is
   * switched on by the same call, which then opens the first panel as well).
   */
  lemma ReactIntendedLeavesOneOpen(c: Context, props: Props)
    requires Valid(c)
    requires AllowOff in PD.Compare(c.props, props).calls && ForbidOn !in PD.Compare(c.props, props).calls
    ensures AtMostOneOpen(ReactIntended(c, props).ctx.panels)
    ensures !MultipleAllowed(ReactIntended(c, props).ctx.props)
    ensures var after := ReactIntended(c, props).ctx.panels;
      (exists x :: x in c.panels && c.panels[x].open) ==>
        exists x :: x in after && after[x].open && FirstOpen(c.order, c.panels) == Some(x)
  {
    var r := CloseAllButFirstOpen(c.order, c.panels, true);
    assert ReactIntended(c, props).ctx.panels == r.0;
    if exists x :: x in c.panels && c.panels[x].open {
      var first := FirstOpen(c.order, c.panels);
      assert first.Some?;
      assert r.0[first.value].open;
    }
  }

  /**
   * As written, turning multiple expansion off closes nothing: two panels
   * opened while it was allowed both stay open under single expansion.
   */
  lemma ReactAsWrittenKeepsTwoOpen()
    ensures var r1 := Register(Initial);
      var r2 := Register(r1.ctx);
      var c3 := RequestChange(r2.ctx, r1.id, true).ctx;
      var c4 := RequestChange(c3, r2.id, true).ctx;
      var after := React(c4, map[AllowMultipleExpandedPanels := false]).ctx;
      && r1.id != r2.id
      && !MultipleAllowed(after.props)
      && after.panels[r1.id].open && after.panels[r2.id].open
      && !AtMostOneOpen(after.panels)
  {
    InitialIsValid();
    var r1 := Register(Initial);
    var r2 := Register(r1.ctx);
    var c3 := RequestChange(r2.ctx, r1.id, true).ctx;
    var c4 := RequestChange(c3, r2.id, true).ctx;
    assert MultipleAllowed(r2.ctx.props);
    assert r1.id in r2.ctx.panels;
    assert c4.panels[r1.id].open && c4.panels[r2.id].open;
    var calls := PD.Compare(c4.props, map[AllowMultipleExpandedPanels := false]).calls;
    assert PD.Lookup(c4.props, ForbidNoExpandedPanels) == Some(false);
    assert ForbidOn !in calls;
  }

  // ---------------------------------------------------------------- focus movement between headers

  /** Panel `id`'s header is the focused element (`undefined` never equals `document.activeElement`). */
  predicate Focused(panels: map<string, Panel>, id: string, active: Option<nat>) {
    id in panels && panels[id].node.Some? && panels[id].node == active
  }

  /** `panelIds.findIndex(...)`: the position of the first focused panel, or -1. */
  function FindFocused(order: seq<string>, panels: map<string, Panel>, active: Option<nat>): (i: int)
    ensures -1 <= i < |order|
    ensures i >= 0 ==> Focused(panels, order[i], active)
    ensures forall j :: 0 <= j < |order| && (i == -1 || j < i) ==> !Focused(panels, order[j], active)
    decreases |order|
  {
    if order == [] then -1
    else if Focused(panels, order[0], active) then 0
    else
      var k := FindFocused(order[1..], panels, active);
      if k == -1 then -1 else k + 1
  }

  function Max(a: int, b: int): int { if a >= b then a else b }
  function Min(a: int, b: int): int { if a <= b then a else b }

  /** The index of the panel to focus for `key`, given the focused index (-1 for none) of `len` panels. */
  function FocusIndex(key: string, focused: int, len: nat): (r: Option<int>)
    ensures r.Some? <==> key in ["ArrowUp", "ArrowDown", "Home", "End"]
    ensures len > 0 && -1 <= focused < len && r.Some? ==> 0 <= r.value < len
    ensures key == "Home" ==> r == Some(0)
    ensures key == "End" ==> r == Some(len - 1)
    ensures key == "ArrowUp" && focused >= 1 ==> r == Some(focused - 1)
    ensures key == "ArrowUp" && focused <= 0 ==> r == Some(0)
    ensures key == "ArrowDown" && focused + 1 < len ==> r == Some(focused + 1)
    ensures key == "ArrowDown" && focused + 1 >= len ==> r == Some(len - 1)
  {
    match key
    case "ArrowUp" => Some(Max(focused - 1, 0))
    case "ArrowDown" => Some(Min(focused + 1, len - 1))
    case "Home" => Some(0)
    case "End" => Some(len - 1)
    case _ => None
  }

  /** The accordion's key-up handler: the header node it focuses, if any. */
  function OnKeyUp(c: Context, key: string, active: Option<nat>): (r: Option<nat>)
    ensures r.Some? ==> exists id :: id in c.panels && c.panels[id].node == r
    ensures c.order == [] ==> r.None?
    ensures key !in ["ArrowUp", "ArrowDown", "Home", "End"] ==> r.None?
  {
    var idx := FocusIndex(key, FindFocused(c.order, c.panels, active), |c.order|);
    if idx.Some? && 0 <= idx.value < |c.order| && c.order[idx.value] in c.panels then c.panels[c.order[idx.value]].node
    else None
  }

  /** With at least one panel, every navigation key lands on a registered panel's header. */
  lemma NavigationStaysInRange(c: Context, key: string, active: Option<nat>)
    requires Valid(c) && |c.order| > 0
    requires key in ["ArrowUp", "ArrowDown", "Home", "End"]
    ensures var idx := FocusIndex(key, FindFocused(c.order, c.panels, active), |c.order|);
      idx.Some? && 0 <= idx.value < |c.order| && c.order[idx.value] in c.panels
      && OnKeyUp(c, key, active) == c.panels[c.order[idx.value]].node
  {
  }
}
