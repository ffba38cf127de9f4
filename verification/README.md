# Press tracking, accordion and button: a Dafny model

This project models the interaction core of a Svelte accessibility-actions library:

- **The press tracker.** This is the state machine that turns raw DOM events into `pressstart`, `pressup`, `pressend` and `press` hook calls. It handles keyboard, pointer, mouse, touch, click, scroll and drag events, and it keeps a registry of document and window listeners that is only populated while a press is in progress.
- **The global listener registry.** It records every document/window listener so that they can all be removed later. For a `once` listener it records a wrapper meant to forget the entry, but it attaches the listener itself, so the wrapper never runs.
- **`keyboardEventIsPress`.** This rule decides whether a key event activates a button.
- **The accordion and its sections.**
  - The accordion context hands out `panel-N` ids, grants or refuses open/close requests, and reacts to changes of `allowMultipleExpandedPanels` and `forbidNoExpandedPanels`.
  - Each section's header attributes, click and key handling, and forced-change callback are modelled too.
  - So is the arrow-key focus navigation.
- **The `button` action.** This covers its attributes per element kind and when it dispatches `press`.
- **`PropDiff.compare`.** It reports every changed property with its new and old value, then stores the new properties.

Side effects become data. Each press-tracker handler is a pure function from parameters, state and event to a `Step`, which holds the new state and a sequence of `Emission`s. An emission is one of:

- a hook call or an `onPressChange`;
- a `preventDefault` or a focus call;
- a text-selection toggle or a synthetic click.

The layout and the rectangle of the pressed element are inputs. `TrackerInstance.Run` folds a sequence of DOM events through an attached tracker.

The properties proved fall into three groups:

- **Lifecycle.** `pressstart` and `pressend` alternate, `onPressChange` mirrors them, and `press` comes only after a completed press. Every reachable event sequence keeps this.
- **Tracker invariants.** Pressed trackers have a target, and idle trackers hold no global listeners. A disabled tracker never calls a hook.
- **Exact behaviour of end-to-end scenarios.** These are a pointer press, a pointer leaving (`TrackerInstance.PointerExitScenario`), a pointer leaving and coming back (`TrackerInstance.PointerReturnScenario`), and a keyboard press. Alongside them are the accordion's validity (fresh ids, distinct order, every panel issued), its permission rule, the section/context agreement, and the round-trip facts about `PropDiff`.

Two behaviours of the code worth knowing:

- `destroy` does not cancel a press in progress (`TrackerInstance.DestroyLeavesPressOpen`).
- A keyboard press leaves `pointerType` unset (`TrackerInstance.KeyboardPressScenario`).

The scenarios above run the document handlers bound to the tracker, as evidently intended. As written, four of them are attached unbound and throw; `TrackerInstance.HandleAsWritten` models that, and the Findings below list it with the other defects.

## Model

| member | source | states |
|---|---|---|
| Geometry.ContactOffset | src/lib/interactions/press-tracker.ts:880-890 | the half-extent of a contact is half its width or height when that is non-zero, else its radius, else 0; it is non-negative for non-negative sizes |
| Geometry.GetPointClientRect | src/lib/interactions/press-tracker.ts:880-890 | the contact rectangle is centred on the client point, has twice the contact offset as each extent, and is well formed for non-negative sizes |
| Geometry.AreRectanglesOverlapping | src/lib/interactions/press-tracker.ts:892-902 | overlapping rectangles share their horizontal and vertical ranges (touching edges count) |
| Geometry.OverlapIsSymmetric | src/lib/interactions/press-tracker.ts:892-902 | overlap does not depend on argument order |
| Geometry.SharedEdgeOverlaps | src/lib/interactions/press-tracker.ts:892-902 | rectangles that only share an edge overlap |
| Geometry.GapSeparates | src/lib/interactions/press-tracker.ts:892-902 | any positive gap on one axis separates two rectangles |
| Geometry.OverlapMeansCommonPoint | src/lib/interactions/press-tracker.ts:892-902 | two well-formed rectangles overlap exactly when some point lies in both |
| Geometry.PointOnBoundaryIsOver | src/lib/interactions/press-tracker.ts:874-890 | a zero-size contact is over the target exactly when its point lies in the target, boundary included |
| Geometry.OffsetFallback | src/lib/interactions/press-tracker.ts:880-890 | width/height wins when non-zero; a missing or zero width falls back to the radius, then to 0 |
| GlobalListeners.Add | src/lib/interactions/global-listeners.ts:31-51 | the registry records the listener with its target, name and options, wrapping it to forget itself exactly when `once`; other entries are unchanged; the DOM receives the listener itself, not the wrapper |
| GlobalListeners.Remove | src/lib/interactions/global-listeners.ts:53-62 | the listener leaves the registry and nothing else changes; the DOM removal uses the recorded wrapper when there is one |
| GlobalListeners.RemoveAll | src/lib/interactions/global-listeners.ts:64-68 | the registry ends empty; exactly one removal is issued per recorded listener |
| GlobalListeners.AddIntended | src/lib/interactions/global-listeners.ts:31-51 | records exactly what `add` records, and attaches the recorded callback (the wrapper for `once`) |
| GlobalListeners.Fire | src/lib/interactions/global-listeners.ts:38-43 | firing a callback runs its listener; the `once` wrapper first forgets that listener's entry and leaves the others, a direct callback leaves the registry as it is |
| GlobalListeners.AddTwiceKeepsLatest | src/lib/interactions/global-listeners.ts:31-51 | adding the same listener twice keeps only the second registration |
| GlobalListeners.RemoveAllIsIdempotent | src/lib/interactions/global-listeners.ts:64-68 | removing all twice issues nothing the second time |
| GlobalListeners.OnceListenerStaysRecorded | src/lib/interactions/global-listeners.ts:38-50 | as written, firing what `add` attached for a `once` listener runs it and leaves the registry unchanged, the entry included |
| GlobalListeners.IntendedOnceListenerForgetsItself | src/lib/interactions/global-listeners.ts:38-43 | with the wrapper attached, a `once` listener runs and is then gone from the registry, which otherwise holds what it held before |
| GlobalListeners.IntendedDetachMatches | src/lib/interactions/global-listeners.ts:31-62 | with the wrapper attached, `remove` detaches exactly the callback that was attached, for `once` and plain listeners alike |
| GlobalListeners.OnceListenerDetachMismatch | src/lib/interactions/global-listeners.ts:38-62 | for a `once` listener, the callback removed from the DOM is the wrapper, not the function attached |
| GlobalListeners.PlainListenerDetachMatches | src/lib/interactions/global-listeners.ts:31-62 | for a plain listener, the callback removed is the one attached |
| KeyboardUtils.KeyboardEventIsPress | src/lib/utils/keyboard.ts:1-19 | only Enter/Space keys press, never in text entry; a real link presses only as role=button with Space; role=link presses only with Enter; elsewhere every activation key presses |
| PressTracker.TriggerPressStart | src/lib/interactions/press-tracker.ts:167-185 | nothing while disabled or already started; otherwise `pressstart` then `onPressChange(true)`, and the start is recorded |
| PressTracker.TriggerPressEnd | src/lib/interactions/press-tracker.ts:187-222 | nothing unless started; otherwise `pressend` then `onPressChange(false)`, with `press` after them exactly when the press completed on an enabled target; clicks are ignored afterwards |
| PressTracker.TriggerPressUp | src/lib/interactions/press-tracker.ts:224-238 | one `pressup` unless disabled |
| PressTracker.Released | src/lib/interactions/press-tracker.ts:240-258 | after a release nothing is pressed, no pointer is tracked, no global listener remains; start and click-ignore flags and the target are kept |
| PressTracker.Cancel | src/lib/interactions/press-tracker.ts:240-258 | an idle tracker is untouched; a pressed one is released, ends its press (never with `press`) exactly when it was over the target with a start outstanding |
| PressTracker.IsValidKeyboardEvent | src/lib/interactions/press-tracker.ts:786-808 | the tracker's keyboard rule is the same as `keyboardEventIsPress` |
| PressTracker.SubmitControlsKeepTheirDefault | src/lib/interactions/press-tracker.ts:262-269 | a valid key-down inside the target on a submit `BUTTON` or `INPUT` emits no `preventDefault`; on any other element it emits exactly one, first; the document key-up of a pressed tracker (lines 336-340) behaves the same |
| PressTracker.IsVirtualClick | src/lib/interactions/press-tracker.ts:849-857 | a trusted click with `mozInputSource` 0 is always virtual; any other virtual click has zero detail; among those others with zero detail, exactly the ones without a pointer type are virtual |
| PressTracker.IsVirtualPointerEvent | src/lib/interactions/press-tracker.ts:859-872 | a 0x0 contact is virtual, and so is a 1x1 contact with zero pressure and zero detail (Android TalkBack); no other contact is virtual, and a virtual one always has a size |
| PressTracker.GetTouchFromEvent | src/lib/interactions/press-tracker.ts:810-816 | the first target touch, present exactly when there is one |
| PressTracker.GetTouchById | src/lib/interactions/press-tracker.ts:818-827 | the first changed touch with the tracked identifier; none exactly when nothing is tracked or no touch carries it |
| PressTracker.OnKeyDown | src/lib/interactions/press-tracker.ts:262-285 | only a valid key inside the element acts; a repeat or a second press changes nothing and calls no hook; a fresh press marks pressed on the target and listens for the document keyup; the default is prevented exactly for valid keys whose target is not a submit control |
| PressTracker.OnKeyUp | src/lib/interactions/press-tracker.ts:287-298 | state unchanged; emits only `pressup`, and something exactly for a valid non-repeat key inside an enabled element |
| PressTracker.GlobalOnKeyUp | src/lib/interactions/press-tracker.ts:336-362 | only a valid key on a pressed tracker acts, releasing it with no start outstanding; `press` only when released inside the target; the pressed element is clicked, as the last emission, exactly when it is a link (an anchor with `href` released inside, or any element with role `link`) |
| PressTracker.OnClick | src/lib/interactions/press-tracker.ts:300-334 | only a primary click inside the element acts and clears both ignore flags; only a virtual click that is not a duplicate calls hooks; on an enabled idle element it is a whole virtual press: focus unless prevented, then start, change(true), up, end, change(false), `press`, leaving no start outstanding; on a disabled one it only prevents the default, which is prevented exactly for a primary click inside a disabled element |
| PressTracker.OnPointerDown | src/lib/interactions/press-tracker.ts:364-420 | a secondary or outside press is ignored; a virtual pointer only records the virtual type; a second press only records the pointer type and calls no hook; a fresh press records pointer, target and over-target, and listens for pointermove, pointerup and pointercancel; the default is prevented, as the first emission, exactly for a real left press inside that is not within a draggable element |
| PressTracker.OnMouseDownPE | src/lib/interactions/press-tracker.ts:422-437 | the mouse-down companion of pointer events never changes the state and calls no hook; its only possible emission is `preventDefault`, exactly for a left button inside outside any draggable element |
| PressTracker.OnPointerUp | src/lib/interactions/press-tracker.ts:439-460 | state unchanged; emits only `pressup`, exactly for a primary non-virtual release inside and over the element |
| PressTracker.GlobalOnPointerMove | src/lib/interactions/press-tracker.ts:465-489 | only the tracked pointer counts; coming back over the target marks it over and, when enabled with no start outstanding, calls `pressstart` and change(true) again while the press and its listeners stay; leaving the target ends an outstanding start with `pressend` and change(false) first and no `press`, keeps the press unless `shouldCancelOnPointerExit`, and then releases the tracker and its listeners; a move that stays on one side changes nothing |
| PressTracker.GlobalOnPointerUp | src/lib/interactions/press-tracker.ts:491-519 | only the tracked primary release of a pressed tracker acts, and it releases everything; `press` only over the target |
| PressTracker.OnDragStart | src/lib/interactions/press-tracker.ts:525-532 | a drag inside the element cancels the press; `press` is never called |
| PressTracker.OnMouseDownNPE | src/lib/interactions/press-tracker.ts:534-570 | a fresh primary press inside records the virtual or mouse pointer type and listens for the document mouseup; the default is prevented, as the first emission, exactly for a left press inside outside any draggable element; a press emulated after a touch only prevents the default |
| PressTracker.OnMouseEnter | src/lib/interactions/press-tracker.ts:572-582 | re-entering a pressed element (emulated mouse events aside) marks it over the target again and, when enabled with no start outstanding, calls `pressstart` and change(true) again; the press and its listeners stay; otherwise nothing |
| PressTracker.OnMouseLeave | src/lib/interactions/press-tracker.ts:584-597 | leaving a pressed element leaves no start outstanding and never calls `press`: an outstanding start is ended first, with `pressend` and change(false) as the first two emissions and no second `pressend`; then the press is cancelled and the document listeners removed exactly under cancel-on-exit, and otherwise kept; an unpressed element or a duplicate event changes nothing |
| PressTracker.OnMouseUp | src/lib/interactions/press-tracker.ts:599-607 | state unchanged; emits only `pressup`, exactly for a primary release inside an enabled element while emulated mouse events are not ignored |
| PressTracker.GlobalOnMouseUp | src/lib/interactions/press-tracker.ts:609-637 | a primary release releases the tracker and stops ignoring emulated events; emulated releases emit nothing; `press` only over the target |
| PressTracker.OnTouchStart | src/lib/interactions/press-tracker.ts:639-674 | a touch inside the element marks it pressed over the target, tracks the first touch's identifier as a touch pointer, ignores emulated mouse events and listens for scroll |
| PressTracker.OnTouchMove | src/lib/interactions/press-tracker.ts:676-699 | never calls `press`; the tracked touch coming back over the target marks it over and, when enabled with no start outstanding, calls `pressstart` and change(true) again; a move without the tracked touch, or with it off the target, leaves the target, ends an outstanding start with `pressend` and change(false) first, and releases the press and its listeners exactly when `shouldCancelOnPointerExit` |
| PressTracker.OnTouchEnd | src/lib/interactions/press-tracker.ts:701-730 | a release resets the tracker; `press` only when the tracked touch ends over the target |
| PressTracker.OnTouchCancel | src/lib/interactions/press-tracker.ts:732-741 | cancels the press; `press` is never called |
| PressTracker.GlobalOnScroll | src/lib/interactions/press-tracker.ts:743-756 | a scroll of a container of the target cancels the press; `press` is never called |
| PressLifecycle.Concat | src/lib/interactions/press-tracker.ts:167-222 | replaying two hook sequences one after the other keeps the start/end ordering when each does |
| PressLifecycle.StartSound | src/lib/interactions/press-tracker.ts:167-185 | `triggerPressStart` keeps the ordering |
| PressLifecycle.EndSound | src/lib/interactions/press-tracker.ts:187-222 | `triggerPressEnd` keeps the ordering, `press` only after `pressend` |
| PressLifecycle.UpSound | src/lib/interactions/press-tracker.ts:224-238 | `triggerPressUp` keeps the ordering |
| PressLifecycle.CancelSound | src/lib/interactions/press-tracker.ts:240-258 | `cancel` keeps the ordering |
| PressLifecycle.OnKeyDownSound | src/lib/interactions/press-tracker.ts:262-285 | `onKeyDown` keeps the ordering |
| PressLifecycle.GlobalOnKeyUpSound | src/lib/interactions/press-tracker.ts:336-362 | `globalOnKeyUp` keeps the ordering |
| PressLifecycle.OnClickSound | src/lib/interactions/press-tracker.ts:300-334 | `onClick`, including the virtual press it simulates, keeps the ordering |
| PressLifecycle.OnPointerDownSound | src/lib/interactions/press-tracker.ts:364-420 | `onPointerDown` keeps the ordering |
| PressLifecycle.GlobalOnPointerMoveSound | src/lib/interactions/press-tracker.ts:465-489 | `globalOnPointerMove` keeps the ordering |
| PressLifecycle.GlobalOnPointerUpSound | src/lib/interactions/press-tracker.ts:491-519 | `globalOnPointerUp` keeps the ordering |
| PressLifecycle.OnMouseDownNPESound | src/lib/interactions/press-tracker.ts:534-570 | `onMouseDownNPE` keeps the ordering |
| PressLifecycle.GlobalOnMouseUpSound | src/lib/interactions/press-tracker.ts:609-637 | `globalOnMouseUp` keeps the ordering |
| PressLifecycle.OnTouchStartSound | src/lib/interactions/press-tracker.ts:639-674 | `onTouchStart` keeps the ordering |
| PressLifecycle.OnTouchEndSound | src/lib/interactions/press-tracker.ts:701-730 | `onTouchEnd` keeps the ordering |
| TrackerInstance.SelectAdapter | src/lib/interactions/press-tracker.ts:129-143 | the feature test of `attach` as written selects the pointer-events listeners on every platform |
| TrackerInstance.SelectAdapterIntended | src/lib/interactions/press-tracker.ts:129-143 | the feature test as intended selects mouse-and-touch listeners exactly when `PointerEvent` is undefined |
| TrackerInstance.LocalListeners | src/lib/interactions/press-tracker.ts:126-143 | both protocols listen for key, click, mousedown and dragstart; pointerdown only with pointer events, touchstart only without; touchend never |
| TrackerInstance.Attach | src/lib/interactions/press-tracker.ts:117-148 | a second attach is ignored; the first wires the node with the pointer-events protocol and an empty global registry, leaving the press state |
| TrackerInstance.Destroy | src/lib/interactions/press-tracker.ts:150-163 | ignored unless attached; unwires the node and empties the global registry, leaving the press state as it was |
| TrackerInstance.Handle | src/lib/interactions/press-tracker.ts:117-148 | a document or window event reaches its handler only while that listener is registered; otherwise nothing changes |
| TrackerInstance.UnlistenedElementEventsAreIgnored | src/lib/interactions/press-tracker.ts:124-147 | an element event for which `attach` installed no listener under the chosen protocol changes nothing |
| TrackerInstance.RunSound | src/lib/interactions/press-tracker.ts:167-756 | any event sequence through an attached tracker keeps the start/end/`press` ordering, continuing from its `didFirePressStart` |
| TrackerInstance.Run | src/lib/interactions/press-tracker.ts:92-115 | no events change nothing; any event sequence keeps "pressed implies a target" and "idle implies no global listeners" |
| TrackerInstance.RunDisabledIsSilent | src/lib/interactions/press-tracker.ts:167-238 | a disabled tracker with no outstanding start calls no hook on any event sequence |
| TrackerInstance.Hooks | src/lib/interactions/press-tracker.ts:167-238 | the hook projection is empty exactly when no hook is called |
| TrackerInstance.HooksConcat | src/lib/interactions/press-tracker.ts:167-238 | the hooks of two emission sequences are the hooks of each, in order |
| TrackerInstance.PointerDownStarts | src/lib/interactions/press-tracker.ts:364-420 | a fresh primary pointer press calls `pressstart`, `onPressChange(true)` and records the pointer |
| TrackerInstance.PointerUpReports | src/lib/interactions/press-tracker.ts:439-460 | a release over the element calls exactly `pressup` |
| TrackerInstance.GlobalPointerUpCompletes | src/lib/interactions/press-tracker.ts:491-519 | the document pointerup over the target calls `pressend`, `onPressChange(false)`, `press` and releases the tracker |
| TrackerInstance.PointerPressScenario | src/lib/interactions/press-tracker.ts:364-519 | down, up and document up on an idle enabled tracker call start, change(true), up, end, change(false), press in that order and leave it idle |
| TrackerInstance.PointerExitEnds | src/lib/interactions/press-tracker.ts:465-489 | moving the tracked pointer off the target ends the press without `press` |
| TrackerInstance.ReleaseOutsideIsQuiet | src/lib/interactions/press-tracker.ts:491-519 | releasing outside the target after leaving it calls no hook and releases the tracker |
| TrackerInstance.PointerExitScenario | src/lib/interactions/press-tracker.ts:364-519 | down, leave, release outside call start, change(true), end, change(false) only |
| TrackerInstance.PointerReturnRestarts | src/lib/interactions/press-tracker.ts:465-477 | the tracked pointer coming back over the target after a non-cancelling exit calls `pressstart` and change(true) and keeps the press, its pointer and its listeners |
| TrackerInstance.ReturnThenRelease | src/lib/interactions/press-tracker.ts:465-519 | coming back and releasing over the target calls start, change(true), end, change(false), press and leaves the tracker idle |
| TrackerInstance.ExitReturnRelease | src/lib/interactions/press-tracker.ts:465-519 | from a press over the target, leaving, coming back and releasing call end, change(false), start, change(true), end, change(false), press |
| TrackerInstance.DownExitReturnRelease | src/lib/interactions/press-tracker.ts:364-519 | from any idle state, press, leave, come back and release give nine hook calls ending in `press`, then idle |
| TrackerInstance.PointerReturnScenario | src/lib/interactions/press-tracker.ts:12-18 | without `shouldCancelOnPointerExit`, a pointer that leaves while pressed and returns fires `pressstart` again, and the release over the target completes the press: start, change(true), end, change(false), start, change(true), end, change(false), press |
| TrackerInstance.CancelOnExitScenario | src/lib/interactions/press-tracker.ts:465-489 | with cancel-on-exit, leaving cancels and coming back starts nothing |
| TrackerInstance.KeyDownStarts | src/lib/interactions/press-tracker.ts:262-285 | a fresh valid key press calls `pressstart` and `onPressChange(true)` and listens for the document keyup |
| TrackerInstance.KeyUpReports | src/lib/interactions/press-tracker.ts:287-298 | the element keyup calls exactly `pressup` |
| TrackerInstance.GlobalKeyUpCompletes | src/lib/interactions/press-tracker.ts:336-362 | the document keyup inside the target completes the press with `press` |
| TrackerInstance.VirtualClickPresses | src/lib/interactions/press-tracker.ts:311-329 | a virtual click on an enabled idle element calls start, change(true), up, end, change(false), `press` and leaves no start outstanding |
| TrackerInstance.KeyboardPressScenario | src/lib/interactions/press-tracker.ts:262-362 | keydown, keyup and document keyup call the six hooks of a complete press in order, with no pointer type recorded |
| TrackerInstance.AttachAlwaysUsesPointerEvents | src/lib/interactions/press-tracker.ts:129-143 | whatever `typeof PointerEvent` yields, `attach` installs no touch listeners |
| TrackerInstance.TouchEndIsNeverHandled | src/lib/interactions/press-tracker.ts:126-143 | no protocol listens for touchend, so `onTouchEnd` never runs |
| TrackerInstance.HandleAsWritten | src/lib/interactions/press-tracker.ts:404-418 | with the listeners as written, a document keyup, pointermove, pointerup or pointercancel changes nothing, even while registered; while none of those four is registered the tracker behaves as the bound model |
| TrackerInstance.RunAsWritten | src/lib/interactions/press-tracker.ts:282 | a run as written that delivers no event to one of the four unbound listeners agrees with the bound model |
| TrackerInstance.PointerPressAsWrittenStaysOpen | src/lib/interactions/press-tracker.ts:404-418 | as written, down, up and document up call only start, change(true) and up; the tracker stays pressed with its start outstanding and its document listeners registered |
| TrackerInstance.KeyboardPressAsWrittenStaysOpen | src/lib/interactions/press-tracker.ts:282 | as written, keydown, keyup and document keyup call only start, change(true) and up; the tracker stays pressed with its key-up listener registered |
| TrackerInstance.OpenPressIgnoresNewPresses | src/lib/interactions/press-tracker.ts:275 | while a press is open, a key-down or pointer-down calls no hook and the press stays open |
| TrackerInstance.DestroyLeavesPressOpen | src/lib/interactions/press-tracker.ts:150-163 | destroying mid-press leaves the press open and no document or window event can end it afterwards |
| PropDiff.Lookup | src/lib/_prop-diff.ts:19-23 | a missing key reads as undefined, a present key as its value |
| PropDiff.Compare | src/lib/_prop-diff.ts:10-25 | every given key whose value differs from the stored one gets one callback with the new and old value; no other callback; the given props are stored |
| PropDiff.CallIffChanged | src/lib/_prop-diff.ts:19-23 | a key is reported exactly when it is given with a value different from the stored one |
| PropDiff.OneCallPerKey | src/lib/_prop-diff.ts:19-23 | each key is reported at most once |
| PropDiff.CompareTwiceIsQuiet | src/lib/_prop-diff.ts:19-24 | comparing the same props again reports nothing |
| PropDiff.AbsentKeyIsQuiet | src/lib/_prop-diff.ts:19-24 | a key not given is never reported, and afterwards reads as undefined |
| PanelIds.NatToDecimal | src/lib/accordion/accordion.ts:24 | the decimal text of a number is non-empty, all digits, one digit exactly below 10, and ends with the last digit |
| PanelIds.NatToDecimalInjective | src/lib/accordion/accordion.ts:24 | different counts have different decimal texts |
| PanelIds.PanelIdInjective | src/lib/accordion/accordion.ts:24 | different counts give different `panel-N` ids |
| Accordion.InitialIsValid | src/lib/accordion/accordion.ts:18-21 | a fresh accordion is valid |
| Accordion.NextIdIsFresh | src/lib/accordion/accordion.ts:22-38 | the next id is not in use |
| Accordion.Register | src/lib/accordion/accordion.ts:22-38 | counts the panel, returns `panel-N` for the new count, appends it, keeps validity; open by default exactly as the first panel of an accordion forbidding none open |
| Accordion.RegisterGivesFreshIds | src/lib/accordion/accordion.ts:22-38 | two registrations give two distinct ids, both registered |
| Accordion.AssociateNode | src/lib/accordion/accordion.ts:39-44 | records the node of a known panel; unknown ids change nothing |
| Accordion.OnForcedChange | src/lib/accordion/accordion.ts:45-50 | installs the callback of a known panel; unknown ids change nothing |
| Accordion.Without | src/lib/accordion/accordion.ts:77-79 | removing an id keeps exactly the other ids; an absent id leaves the order as it is; an id listed once is cut out of its place and the others keep their order |
| Accordion.Forget | src/lib/accordion/accordion.ts:77-79 | removes the panel and cuts its id out of the order, the other panels keeping their order; an unknown id changes nothing; validity, the counter and the props are kept |
| Accordion.CloseAll | src/lib/accordion/accordion.ts:52-58 | every panel is closed; a forced change goes exactly to the open panels with a callback |
| Accordion.RequestChange | src/lib/accordion/accordion.ts:51-76 | granted unless closing the last open panel where none open is forbidden; a refusal changes nothing; a grant sets the panel, closing the others first when opening under single expansion |
| Accordion.OpeningUnderSingleExpansion | src/lib/accordion/accordion.ts:52-75 | under single expansion, opening a panel leaves it the only open one |
| Accordion.KeepsOneOpen | src/lib/accordion/accordion.ts:51-76 | where none open is forbidden, a request on a known panel never leaves all closed |
| Accordion.OpeningUnknownIdClosesAll | src/lib/accordion/accordion.ts:52-75 | under single expansion, opening an unknown id is granted and closes every panel |
| Accordion.CloseUntolerated | src/lib/accordion/accordion.ts:92-98 | with the tolerance flag set, as the loop always has it, nothing is closed |
| Accordion.FirstOpen | src/lib/accordion/accordion.ts:93-94 | the first panel in registration order that is open: it is open and no earlier one is; none exactly when no panel is open |
| Accordion.CloseAllButFirstOpen | src/lib/accordion/accordion.ts:92-98 | the evident intent of that loop: with the tolerance flag on, a listed panel stays open exactly when it is the first open one; with it off, every listed panel is closed; change(false) goes to exactly the open panels it closes that have a change callback; unlisted panels are untouched |
| Accordion.OpenFirst | src/lib/accordion/accordion.ts:101-109 | opens the first registered panel, with its forced change; nothing when there are no panels |
| Accordion.React | src/lib/accordion/accordion.ts:88-111 | stores the new props; turning on forbid-none opens the first panel; otherwise the panels are unchanged (turning off multiple expansion closes nothing) |
| Accordion.ReactIntended | src/lib/accordion/accordion.ts:88-111 | the same reaction with the intended closing loop keeps validity and stores the props; without turning off multiple expansion it is `React`; turning it off (without turning on forbid-none) leaves open exactly the first open panel, with change(false) for the other open ones that have a callback and no opening call; when the same call also turns forbid-none on, exactly the first registered panel and the first open one are open |
| Accordion.ReactAsWrittenKeepsTwoOpen | src/lib/accordion/accordion.ts:92-98 | two panels opened under multiple expansion stay both open after multiple expansion is turned off |
| Accordion.ReactIntendedLeavesOneOpen | src/lib/accordion/accordion.ts:90-100 | with the intended loop, turning off multiple expansion leaves at most one panel open, and when any panel was open exactly one stays open: the first open one in registration order |
| Accordion.FindFocused | src/lib/accordion/accordion.ts:118 | the index of the first panel whose node is the active element, or -1 when there is none |
| Accordion.FocusIndex | src/lib/accordion/accordion.ts:116-134 | Home goes to the first, End to the last, ArrowUp/ArrowDown one step clamped to the ends; other keys do nothing |
| Accordion.OnKeyUp | src/lib/accordion/accordion.ts:113-136 | the focused node is a registered panel's node; nothing happens for other keys or an empty accordion |
| Accordion.NavigationStaysInRange | src/lib/accordion/accordion.ts:116-134 | a navigation key on a non-empty accordion lands on a registered panel |
| AccordionSection.Create | src/lib/accordion/accordion-section.ts:13-18 | a new section registers a fresh id, agrees with the context, starts open exactly as the first panel forbidding none open, and remembers that value |
| AccordionSection.BoolText | src/lib/accordion/accordion-section.ts:35 | the text is "true" exactly for true |
| AccordionSection.Attributes | src/lib/accordion/accordion-section.ts:30-44 | header and panel ids point at each other; header is a focusable button whose aria-expanded says open; the panel is a region exactly while fewer than 6 panels were registered |
| AccordionSection.React | src/lib/accordion/accordion-section.ts:20-45 | an unchanged `open` changes nothing; a changed one asks the context, takes the context and the forced changes of the other panels from that request, and is applied to the store only when granted; the props are remembered and the attributes recomputed |
| AccordionSection.HeaderClick | src/lib/accordion/accordion-section.ts:48-55 | the section toggles exactly when the context grants the toggle, and aria-expanded is updated exactly then; a granted toggle takes the context and the forced changes of the other panels from the request, and a refused one changes nothing |
| AccordionSection.HeaderKeyUp | src/lib/accordion/accordion-section.ts:57-61 | Enter and Space act as a click; other keys do nothing |
| AccordionSection.MountHeader | src/lib/accordion/accordion-section.ts:66-70 | the context records this section's node and callback and nothing else |
| AccordionSection.ApplyForcedChange | src/lib/accordion/accordion-section.ts:67-70 | a forced change sets the section's state and aria-expanded to the new value |
| AccordionSection.DestroyHeader | src/lib/accordion/accordion-section.ts:72-78 | the panel is forgotten and every other panel is kept as it was |
| AccordionSection.ReactKeepsAgreement | src/lib/accordion/accordion-section.ts:20-28 | after a prop change the section and the context agree on the open state |
| AccordionSection.ClickKeepsAgreement | src/lib/accordion/accordion-section.ts:48-55 | after a click the section and the context agree on the open state |
| AccordionSection.ForcedChangesRestoreAgreement | src/lib/accordion/accordion-section.ts:48-70 | opening one section under single expansion forces every other open section with a callback closed, so they agree again |
| AccordionSection.FreeClickToggles | src/lib/accordion/accordion-section.ts:48-55 | with multiple expansion and no forbid rule, two clicks toggle there and back |
| Button.GetAttributesForNode | src/lib/button.ts:35-64 | `<button>` gets type and disabled only; other elements get role=button and a tab stop unless disabled; links get href (unless disabled), target, rel; inputs get type and disabled; aria-disabled exactly on disabled elements that are neither inputs nor buttons |
| Button.Dispatches | src/lib/button.ts:77-82 | a click dispatches `press` exactly when not disabled; a keydown exactly when it is a press key |
| Button.DisabledIsAnnounced | src/lib/button.ts:42-60 | a disabled non-native button gets `aria-disabled` true, and its `tabIndex` property (and a link's `href`) is `undefined` |
| Button.ApplyAsWritten | src/lib/button.ts:73-75 | every property becomes an attribute holding the value's text, `undefined` and `false` included |
| Button.ApplyIntended | src/lib/button.ts:73-75 | exactly the properties that are neither `undefined` nor `false` become attributes, each holding the value's text |
| Button.NativeControlAlwaysDisabled | src/lib/button.ts:36-40 | as written, a `button` or `input` always gets a `disabled` attribute, "undefined" or "false" when the option is off |
| Button.DisabledLinkKeepsHref | src/lib/button.ts:44-60 | as written, a disabled link keeps `href` and `tabindex` attributes reading "undefined", with `aria-disabled` "true" |
| Button.IntendedNativeDisabled | src/lib/button.ts:36-56 | with the intended loop, a `button` or `input` has a `disabled` attribute exactly when the option is on |
| Button.IntendedDisabledLeavesTabOrder | src/lib/button.ts:42-60 | with the intended loop, a non-native button has `tabindex` "0" exactly while enabled; disabled, it has no `href` and, unless an input, `aria-disabled` "true" |
| Button.DivButtonKeys | src/lib/button.ts:78-82 | a div button dispatches on Enter and Space and on nothing but the activation keys |
| Button.DisabledButtonIsKeyboardPressable | src/lib/button.ts:77-82 | a disabled div button still dispatches `press` on Enter: the keydown listener ignores `disabled` |

Three one-line predicates have no row of their own; the contracts of their callers state what they decide:

- `Geometry.IsOverTarget` (`isOverTarget`, press-tracker.ts lines 874-878) is the overlap of the target with the contact rectangle. `Geometry.PointOnBoundaryIsOver` states it for a zero-size contact, and the handlers' contracts use it for "over the target".
- `PressTracker.ShouldPreventDefault` (`shouldPreventDefault`, lines 829-832) holds outside draggable elements. The `preventDefault` clauses of `PressTracker.OnPointerDown`, `PressTracker.OnMouseDownPE` and `PressTracker.OnMouseDownNPE` state it in terms of the event target.
- `Dom.IsHTMLAnchorLink` (`isHTMLAnchorLink`, line 782) is an `A` element with an `href`. It enters `PressTracker.ReleaseClicksLink`, which `PressTracker.GlobalOnKeyUp` uses to state when a link is clicked, and the link rules of `KeyboardUtils.KeyboardEventIsPress`.

## Left out

- DOM side effects are emissions, not effects. These are `preventDefault`, focus, text-selection toggles and synthetic clicks. `stopPropagation` calls are not modelled, since they affect only other listeners.
- Element containment, `document.activeElement`, the target's client rectangle and `typeof PointerEvent` are inputs to the model rather than browser queries.
- `globalOnKeyUp`, `globalOnPointerMove`, `globalOnPointerUp` and `globalOnPointerCancel` are passed unbound (`press-tracker.ts` lines 282 and 404-418). The DOM calls them with the document as `this`, so they throw a `TypeError` at their first use of `this.state` or `this.cancel`. `TrackerInstance.HandleAsWritten` models that, as a step that changes nothing; the exception itself is not modelled. The rest of the model runs them bound, as `globalOnMouseUp` and `globalOnScroll` are (lines 567 and 671).
- Parameters stay constant through a `TrackerInstance.Run`. Changing them between events is not modelled, and neither is `onDragStartNPE` separately, because it is identical to `onDragStartPE` (`OnDragStart`).
- Pointer types are an enumeration. Unknown raw strings from the browser are not modelled.
- Coordinates are `real`. IEEE rounding, NaN and infinities are not modelled.
- `setAttribute` converts values to strings (`undefined` becomes "undefined"); `Button.AttrText` models the conversion for the values that occur. `tagName.toLowerCase()` is not modelled: `nodeName` is taken as already lower-case.
- A prop set explicitly to `undefined` is not distinguished from a missing prop in `PropDiff`.
- Svelte stores, `setContext`/`getContext` and the action lifecycle are left out. A section receives its context as an argument, and a store is the section's `open` field.
- Accordion.ReactWith: callbacks run in the order the keys are given. The model runs the multiple-expansion callback before the forbid callback.
- Accordion.KeepsOneOpen: requires a registered id. With single expansion, opening an unknown id closes every panel (`Accordion.OpeningUnknownIdClosesAll`).
- PressLifecycle, PressInvariants: proved one handler at a time by helper lemmas. These are summed up by `TrackerInstance.RunSound`, `TrackerInstance.Run` and `TrackerInstance.RunDisabledIsSilent` and are not listed separately.

## Findings

| source | as written | input that shows it | evidently intended | confidence | as-written member | corrected member |
|---|---|---|---|---|---|---|
| src/lib/accordion/accordion.ts:92-98 | `toleranceForOpenPanels` is set to true and never cleared, so the loop closes no panel | two panels both opened while multiple expansion is allowed, then `react({allowMultipleExpandedPanels: false})` | keep the first open panel and close the others | not executed | Accordion.ReactAsWrittenKeepsTwoOpen | Accordion.ReactIntendedLeavesOneOpen |
| src/lib/interactions/global-listeners.ts:50 | `add` attaches `listener`, while the `once` wrapper `fn` is only recorded | `add(document, 'x', l, {once: true})`, then one `x` event: the target runs `l` and drops it, the registry still holds `l`, and a later `remove` asks to detach `fn`, which was never attached | attach `fn` | not executed | GlobalListeners.OnceListenerStaysRecorded | GlobalListeners.IntendedOnceListenerForgetsItself |
| src/lib/interactions/press-tracker.ts:404-418 | `this.globalOnPointerMove`, `this.globalOnPointerUp` and `this.globalOnPointerCancel` (and `this.globalOnKeyUp` at line 282) are registered without `bind`; called with the document as `this`, each throws on `this.state` or `this.cancel` before acting | a left pointer press released over the target: `pressstart`, `pressup`, then the document `pointerup` throws, so no `pressend` or `press`, and the tracker stays pressed and ignores later presses | bind them, as lines 567 and 671 bind the mouse-up and scroll handlers | not executed | TrackerInstance.PointerPressAsWrittenStaysOpen | TrackerInstance.PointerPressScenario |
| src/lib/button.ts:73-75 | every own property is written with `setAttribute`, so `disabled: undefined` or `false` becomes the attribute text "undefined" or "false" | `button(node, {dispatch})` on a `<button>`: the node gets `disabled="undefined"` and is disabled, since HTML reads the attribute's presence | skip `undefined` and `false` values | not executed | Button.NativeControlAlwaysDisabled | Button.IntendedNativeDisabled |
| src/lib/interactions/press-tracker.ts:129 | `typeof PointerEvent !== undefined` compares a string with the value `undefined`, so it is always true | a platform where `typeof PointerEvent` is "undefined" still gets pointer listeners and no touch listeners | compare with the string 'undefined' and fall back to mouse and touch listeners | not executed | TrackerInstance.AttachAlwaysUsesPointerEvents | TrackerInstance.SelectAdapterIntended |
