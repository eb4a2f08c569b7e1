# Editor mode switch

This is a Dafny model of the editor mode toggle in AFFiNE, `EditorModeSwitch`. The toggle switches a
document between the **page** (Paper) view and the **edgeless** view. It has two items, Paper on the
left and Edgeless on the right, with a dividing line between them. Each item shows one of four
visual statuses: `stretch`, `normal`, `shrink` or `hidden`. The toggle derives the status pair from
two inputs: the hover flag its parent passes in, and the mode of the current page. Entering an item
with the pointer overrides that pair for a while, and leaving an item restores it. Clicking an item
sends one page-mode change request to the page helper.

The model has two modules:

- `ModeSwitch` (`mode_switch.dfy`) holds the values. These are the two modes, the four statuses and
  the status pair, plus:
  - the derivation `ModifyRadioItemStatus`;
  - the enter overrides `Hovered`;
  - the defaults for missing page metadata, `ResolveMeta`;
  - the attributes the toggle renders (`RenderSwitch`) and each item renders (`AnimateRadioItem`).
- `ModeSwitchWidget` (`widget.dfy`) models the component over time. `Step` is one event: a render
  with new props, pointer-enter, pointer-leave, or a click. `Run` applies a sequence of events in
  order. The lemmas are about whole event histories. The class `EditorModeSwitch` has fields for its
  props and for its one piece of own state, `radioItemStatus`. It also keeps a ghost log of the
  requests it has sent. Each class method is tied to `Step` by `Snapshot() == Step(old(Snapshot()), e)`,
  so every lemma about `Run` also holds for the class.

The page helper's `changePageMode` is not called. Each click appends a `ChangePageMode(id, mode)`
entry to the log instead. The page metadata is a parameter of the constructor and of `UpdateProps`.
It is `None` when the current-page source gives nothing, and each of its fields may be missing.

The React effect on `[isHover, mode]` becomes an explicit step: `UpdateProps` stores the new props
and, only when the hover flag or the defaulted mode changed, resets the status pair to the
derivation. A render that only changes the page id or the trash flag keeps an active enter override,
just as the effect does, because those two values are not among its dependencies.

While hovering, the item of the active mode is `stretch` and the other item is `normal`
(index.tsx lines 75-78 and 82-85). So leaving the Edgeless item while hovered in Paper mode gives
`(stretch, normal)`; `HoverScenario` states this sequence.

## Model

| member | source | states |
|---|---|---|
| `ModeSwitch.ModifyRadioItemStatus` | packages/app/src/components/editor-mode-switch/index.tsx:73-90 | The active-mode item is `stretch` when hovering and `shrink` otherwise. The other item is `normal` when hovering and `hidden` otherwise. Not hovering, exactly one item is visible. Hovering, nothing is hidden and exactly one item is stretched. The pair determines the hover flag and the mode. |
| `ModeSwitch.Hovered` | packages/app/src/components/editor-mode-switch/index.tsx:116-121 | Entering an item makes that item `stretch` and the other `normal`. Lines 137-142 do the same for the Edgeless item. |
| `ModeSwitch.HoveredMatchesDerivation` | packages/app/src/components/editor-mode-switch/index.tsx:73-90 | An enter override equals the derived pair iff the control is hovered and the entered item is the active mode's. In every other case an enter changes what is shown. |
| `ModeSwitch.ResolveMeta` | packages/app/src/components/editor-mode-switch/index.tsx:71 | Missing metadata gives mode `page`, id `''` and not trashed. Each missing field falls back on its own. A present field passes through. Trashed iff `trash` is true. |
| `ModeSwitch.AnimateRadioItem` | packages/app/src/components/editor-mode-switch/index.tsx:39-63 | The item has one icon and one label. The icon comes first iff `isLeft`. The label shrinks iff the status is not `stretch`. The icon shrinks iff the status is `shrink`. The icon receives the item's active flag. The title is the label. |
| `ModeSwitch.RenderSwitch` | packages/app/src/components/editor-mode-switch/index.tsx:100-148 | The container is disabled iff `trash` is true. The container `shrink` and the middle-line `hidden` both equal `!isHover`. Paper is active iff the mode is `page` and Edgeless iff it is `edgeless`, so exactly one is active. Each item shows its half of the stored pair. The test markers and labels are those of the source. |
| `ModeSwitchWidget.Mount` | packages/app/src/components/editor-mode-switch/index.tsx:91-93 | The first stored pair is the derivation of the initial props. The request log starts empty. |
| `ModeSwitchWidget.Step` | packages/app/src/components/editor-mode-switch/index.tsx:95-145 | Only a render changes the props. A render resets the pair iff the hover flag or the mode changed, else keeps it. Enter gives the override whatever came before. Leave gives the current derivation. A click appends exactly one request and leaves the pair unchanged. Each step keeps the pair consistent: the derived pair or an enter override. |
| `ModeSwitchWidget.Run` | packages/app/src/components/editor-mode-switch/index.tsx:95-145 | Over any event sequence the pair stays consistent, and the request log only grows. |
| `ModeSwitchWidget.RunConcat` | packages/app/src/components/editor-mode-switch/index.tsx:95-145 | Events apply one after another. Running `a + b` is running `b` after `a`. |
| `ModeSwitchWidget.EnterOverridesAnyHistory` | packages/app/src/components/editor-mode-switch/index.tsx:116-121 | After any history, entering an item leaves it `stretch` and the other `normal`. |
| `ModeSwitchWidget.LeaveRestoresAfterAnyHistory` | packages/app/src/components/editor-mode-switch/index.tsx:122-124 | After any history, leaving restores the derivation of the current props, so no override survives it. Lines 143-145 do the same for the other item. |
| `ModeSwitchWidget.PropChangeRestoresAfterAnyHistory` | packages/app/src/components/editor-mode-switch/index.tsx:95-98 | After any history, a render that changes the hover flag or the mode sets the pair to the derivation of the new props. |
| `ModeSwitchWidget.LeaveIsIdempotent` | packages/app/src/components/editor-mode-switch/index.tsx:122-124 | Leaving twice is the same as leaving once. |
| `ModeSwitchWidget.OneRequestPerClick` | packages/app/src/components/editor-mode-switch/index.tsx:113-115 | Every click in a sequence adds exactly one request, in order, for the clicked item's mode. Paper asks for `page` and Edgeless (lines 134-136) for `edgeless`. No other event adds a request. |
| `ModeSwitchWidget.PointerEventsKeepPage` | packages/app/src/components/editor-mode-switch/index.tsx:134-136 | Without a render in between, pointer events keep the props. Every request they add carries the id of the current page. |
| `ModeSwitchWidget.ClicksKeepStatus` | packages/app/src/components/editor-mode-switch/index.tsx:113-115 | Any run of clicks leaves the stored pair and the props unchanged. |
| `ModeSwitchWidget.ConsistentStates` | packages/app/src/components/editor-mode-switch/index.tsx:91-145 | In a consistent state at least one item is visible and at most one is stretched. A pair other than the derived one is an enter override. |
| `ModeSwitchWidget.HoverScenario` | packages/app/src/components/editor-mode-switch/index.tsx:73-145 | Page mode, not hovered, gives `(shrink, hidden)`. Then: hover gives `(stretch, normal)`; entering Edgeless gives `(normal, stretch)`; leaving gives `(stretch, normal)`; hover off gives `(shrink, hidden)`. |
| `ModeSwitchWidget.EditorModeSwitch.constructor` | packages/app/src/components/editor-mode-switch/index.tsx:91-93 | The stored pair is initialised from the derivation. The log is empty and the state is consistent. |
| `ModeSwitchWidget.EditorModeSwitch.UpdateProps` | packages/app/src/components/editor-mode-switch/index.tsx:95-98 | Stores the new props and resets the pair iff the hover flag or the mode changed. Otherwise the pair is kept. This is `Step` on `UpdateProps`. |
| `ModeSwitchWidget.EditorModeSwitch.EnterLeft` | packages/app/src/components/editor-mode-switch/index.tsx:116-121 | The pair becomes `(stretch, normal)`. Nothing else changes. |
| `ModeSwitchWidget.EditorModeSwitch.EnterRight` | packages/app/src/components/editor-mode-switch/index.tsx:137-142 | The pair becomes `(normal, stretch)`. Nothing else changes. |
| `ModeSwitchWidget.EditorModeSwitch.Leave` | packages/app/src/components/editor-mode-switch/index.tsx:122-124 | The pair becomes the derivation of the current props. Nothing else changes. The same handler is at lines 143-145. |
| `ModeSwitchWidget.EditorModeSwitch.ClickLeft` | packages/app/src/components/editor-mode-switch/index.tsx:113-115 | Appends the one request `(id, page)`. The pair and the props are unchanged. |
| `ModeSwitchWidget.EditorModeSwitch.ClickRight` | packages/app/src/components/editor-mode-switch/index.tsx:134-136 | Appends the one request `(id, edgeless)`. The pair and the props are unchanged. |
| `ModeSwitchWidget.EditorModeSwitch.View` | packages/app/src/components/editor-mode-switch/index.tsx:100-148 | The rendered items show the stored pair. Container shrink and middle-line hidden are `!isHover`. The active flags follow the current mode. In a valid widget at least one item is visible and at most one is stretched. |

## Left out

- React rendering (`useState`, `useEffect`, `cloneElement`, JSX) and the styled components of `./style`. These are framework primitives. The effect becomes `UpdateProps`. A render made with new props but before the effect has run shows the old pair for that one frame, and the model does not capture that frame.
- Theme resolution: icon colours (`iconColor`, `primaryColor`) and the dark middle line (lines 19-37, 69, 126). This is styling from a theme provider that is not part of this model. The icon only carries its `active` flag.
- The `style` prop passed through to the container. It is presentational.
- `usePageHelper().changePageMode` and `useCurrentPageMeta`. They are not part of this model. The metadata is an input, and requests go to a ghost log.
- Whether the `disabled` container blocks pointer events depends on `./style`, which is not part of this model. So a click records its request even when the page is trashed.
- The icon components of `./icons` and the prop types of `./type`. They are not part of this model.
- Timing between rapid enter and leave events. The model applies events in order, and the last one wins.
- `tests/contact-us.spec.ts`. It is a browser-automation test of an unrelated popup and contains no logic to model.
