# Dropdown menu: coordinator, instance logic and item auto-close in Dafny

This project models the logic core of a React dropdown-menu widget. The model is pure state
and integer arithmetic. It has three parts.

- **The open-state coordinator** is the context provider (`DropdownContext.tsx`). It has two
  state cells, `dropdownId` and `isOpen`, and two total operations, `open(id)` and `close()`.
  Both operations overwrite both cells, so the last request wins. Module `Coordinator`
  (`coordinator.dfy`) models it.
- **A dropdown instance** (`DropdownMenu.tsx`) has several parts:
  - the visibility rule (`isOpen && currentDropdownId === dropdownId`);
  - the trigger's click toggle, which reads only the shared flag;
  - the panel's propagation stopper;
  - the window `click` listener that calls `close()`. Every instance under a provider registers the
    same `close` function from the context, and the window keeps one copy of an identical listener,
    so a provider has at most one such listener;
  - the hover handlers, which share one module-level timer slot;
  - the placement of the panel: the measured trigger coordinates, the two space checks, and the
    vertical and horizontal flips.

  Module `Menu` (`menu.dfy`) models the instance and its events. Module `Placement`
  (`placement.dfy`) models the placement arithmetic.
- **Item auto-close** (`DropdownItem.tsx`) wraps the click of an element child. The wrapper
  stops propagation, runs the child's own `onClick` if it is a function, then calls `close()`.
  The handler is called without the event and with no error handling, so a handler that throws
  ends the wrapper before `close()` and leaves the panel open.
  A plain child is passed through untouched. Module `Item` (`item.dfy`) models it.

Module `Effects` (`effects.dfy`) describes what a click handler does as an ordered trace of
effects: stop propagation, run a foreign callback, or call the coordinator. The trace is
applied to the coordinator in order, the way state updates made inside one React event handler
are batched and applied in call order.

A click travels from its target outwards through the handlers on its path. The path is
trigger, then the window listener. For the panel it is item, then panel, then the window listener.
The walk stops at the first handler that stops propagation. Every handler decides from the
coordinator state it was rendered with, which is how React closures behave.

Hover timers are abstract tokens. `Leave` schedules one. `Fire(k)` is the moment token `k`'s
deferred `close()` would run. A cancelled token never fires.

Three behaviours of the code are easy to misread:

- Clicking a second trigger while another dropdown is open does not switch to the second one.
  The toggle reads only the shared `isOpen` flag, so the click closes everything
  (`Menu.ClickSecondTriggerWhileOpen`). In the same way, hovering a trigger already opens it, so
  a click after the hover closes it (`Menu.HoverThenClickCloses`).
- A pointer-enter cancels only the timer whose handle is in the shared slot, not every pending
  timer. `clearTimeout` does not reset the slot variable either, so the model keeps the stale
  handle.
- The vertical check compares the trigger's `top` with the container's height, not its
  `bottom`. A trigger whose bottom is 10 above the container's height therefore gets a 50-tall
  panel flipped upwards only if the trigger is at most 40 tall (`Placement.NearBottomFlipsUp`).

## Model

| member | source | states |
|---|---|---|
| `Coordinator.Initial` | src/components/DropdownMenu/DropdownContext.tsx:10-21 | A fresh provider, and the context's fallback value, reports no open dropdown and satisfies the invariant `isOpen <==> dropdownId != null`. |
| `Coordinator.Open` | src/components/DropdownMenu/DropdownContext.tsx:23-26 | After `open(id)` the held id is `id` and the flag is set, whatever the prior state was; the invariant holds. |
| `Coordinator.Close` | src/components/DropdownMenu/DropdownContext.tsx:28-31 | After `close()` the coordinator is closed with no id, which is exactly the initial state, whoever opened it. |
| `Coordinator.Perform` | src/components/DropdownMenu/DropdownContext.tsx:23-31 | Every coordinator call establishes the invariant; an open call leaves its id open and a close call leaves the coordinator closed. |
| `Coordinator.PerformAll` | src/components/DropdownMenu/DropdownContext.tsx:23-31 | For a batch of calls, only the last call decides the resulting state; an empty batch changes nothing. |
| `Coordinator.PerformAllAppend` | src/components/DropdownMenu/DropdownContext.tsx:23-31 | Performing two batches one after the other is the same as performing their concatenation. |
| `Coordinator.WfInvariant` | src/components/DropdownMenu/DropdownContext.tsx:10-31 | The invariant `isOpen <==> dropdownId != null` holds initially and after both operations. |
| `Coordinator.OpenForgetsPriorState` | src/components/DropdownMenu/DropdownContext.tsx:23-26 | `open(id)` gives the same state from any two prior states, with `id` open. |
| `Coordinator.LastWriterWins` | src/components/DropdownMenu/DropdownContext.tsx:23-26 | `open(a); open(b)` is `open(b)`, so `dropdownId == b`. |
| `Coordinator.CloseIgnoresOpener` | src/components/DropdownMenu/DropdownContext.tsx:28-31 | Closing after any `open(id)` gives the plain close, which is the initial state. |
| `Coordinator.CloseIdempotent` | src/components/DropdownMenu/DropdownContext.tsx:28-31 | `close(); close()` gives the same state as one `close()`. |
| `Effects.Apply` | src/components/DropdownMenu/DropdownItem.tsx:8-18 | Applying a handler's effect trace preserves the coordinator invariant. |
| `Effects.ApplyIsPerformAll` | src/components/DropdownMenu/DropdownItem.tsx:8-18 | Applying a trace effect by effect equals performing the trace's coordinator calls, the callback's calls included, as one ordered batch. |
| `Effects.ApplyEndingInClose` | src/components/DropdownMenu/DropdownItem.tsx:13-17 | A trace whose last coordinator call is `close()` leaves the coordinator closed, whatever came before. |
| `Item.ClickEffects` | src/components/DropdownMenu/DropdownItem.tsx:8-27 | An element child's click first stops propagation, and nothing after that stops propagation again. It runs the child's handler exactly when `onClick` is a function. The trace ends with `close()` iff the child's handler does not throw; a throwing handler is the last effect. A plain child adds no effect at all. |
| `Item.ElementRequests` | src/components/DropdownMenu/DropdownItem.tsx:8-18 | The wrapped handler's coordinator calls are the child's own calls followed by `close()`, or the child's calls alone when its handler throws. |
| `Item.ElementClickCloses` | src/components/DropdownMenu/DropdownItem.tsx:8-18 | If the child's handler returns, clicking an element item leaves the coordinator closed, even when that handler called `open`. If it throws, `close()` is not reached and the state is what the handler's own calls made it. |
| `Item.PlainClickKeepsState` | src/components/DropdownMenu/DropdownItem.tsx:20-27 | Clicking a plain child produces no `close()` from the item and leaves the coordinator unchanged. |
| `Placement.StoredCoordinates` | src/components/DropdownMenu/DropdownMenu.tsx:84-100 | The stored coordinates add the scroll offset to `top` and `left` only. `right` and `bottom` stay viewport-relative. Without a trigger element the previous coordinates are kept. |
| `Placement.AbsoluteCoordinates` | src/components/DropdownMenu/DropdownMenu.tsx:84-100 | Corrected measurement: all four edges are shifted by the scroll offset into document coordinates. Without a trigger element the previous coordinates are kept. |
| `Placement.EnoughSpace` | src/components/DropdownMenu/DropdownMenu.tsx:105-124 | Without a trigger element both checks pass. Otherwise height passes iff `top + panelHeight` is strictly below the container height, and width passes iff `left + panelWidth` is strictly below the container width. |
| `Placement.ContentOffset` | src/components/DropdownMenu/DropdownMenu.tsx:126-145 | With enough height, the panel's top edge is at the trigger's bottom. Otherwise the panel's bottom edge is at the trigger's top. With enough width, the panel's left edge is at the trigger's left. Otherwise the panel's right edge is at the trigger's right. |
| `Placement.NextNavOffset` | src/components/DropdownMenu/DropdownMenu.tsx:102-149 | The panel's translation is recomputed only when the panel element exists; otherwise the previous one is kept. |
| `Placement.NavOffsetNotCached` | src/components/DropdownMenu/DropdownMenu.tsx:102-149 | Once the panel exists, the translation depends only on the current measurements, never on an earlier translation. Without the panel, the earlier one stays. |
| `Placement.DefaultPlacement` | src/components/DropdownMenu/DropdownMenu.tsx:123-128 | When there is no trigger element, or both checks pass, the offset is `(left, bottom)`. |
| `Placement.VerticalFlip` | src/components/DropdownMenu/DropdownMenu.tsx:114-134 | If `top + panelHeight` reaches the container height, equality included, then `yOffset = top - panelHeight`. |
| `Placement.HorizontalFlip` | src/components/DropdownMenu/DropdownMenu.tsx:117-139 | If `left + panelWidth` reaches the container width, equality included, then `xOffset = right - panelWidth`. |
| `Placement.FlipsAreIndependent` | src/components/DropdownMenu/DropdownMenu.tsx:133-139 | The x offset depends only on the horizontal measurements, and the y offset only on the vertical ones. |
| `Placement.VerticalFlipIsMonotone` | src/components/DropdownMenu/DropdownMenu.tsx:114-115 | A taller panel is flipped up whenever a shorter one already is. |
| `Placement.NearBottomFlipsUp` | src/components/DropdownMenu/DropdownMenu.tsx:114-134 | A trigger at most 40 tall, with its bottom 10 above the container height, gets a 50-tall panel placed at `top - 50`. |
| `Placement.PanelAdjoinsTrigger` | src/components/DropdownMenu/DropdownMenu.tsx:93-139 | With the corrected measurement, the panel touches the trigger in document coordinates at any scroll position: above or below it, and left- or right-aligned with it. |
| `Placement.StoredCoordinatesMixFrames` | src/components/DropdownMenu/DropdownMenu.tsx:93-98 | With the measurement as written, on a page scrolled by 100, an unflipped panel is neither below nor above the trigger's document position. |
| `Menu.Displayed` | src/components/DropdownMenu/DropdownMenu.tsx:171-172 | An instance is displayed iff the flag is set and its id is the held id. Under the coordinator invariant the id comparison alone decides, and a closed coordinator displays nothing. |
| `Menu.CountDisplayed` | src/components/DropdownMenu/DropdownMenu.tsx:171-172 | For distinct ids, the number of instances that display their panel is 1 iff the coordinator is open for one of them, and 0 otherwise. |
| `Menu.AtMostOneDisplayed` | src/components/DropdownMenu/DropdownMenu.tsx:171-172 | For pairwise-distinct instance ids, at most one instance is displayed, in any coordinator state. |
| `Menu.OpenShowsOnlyItsInstance` | src/components/DropdownMenu/DropdownMenu.tsx:171-172 | After `open(id)`, instance `id` is displayed and no other instance is. After `close()`, and initially, none is. |
| `Menu.Reached` | src/components/DropdownMenu/DropdownMenu.tsx:151-160 | A click runs a prefix of the handlers on its path. No handler before the last one run stops propagation. If the walk ends early, it ends at a handler that stops propagation. |
| `Menu.ClickOutcome` | src/components/DropdownMenu/DropdownMenu.tsx:151-160 | Any click preserves the coordinator invariant. |
| `Menu.HandlerEffects` | src/components/DropdownMenu/DropdownMenu.tsx:151-160 | The trigger and panel handlers start by stopping propagation. The trigger's second effect is `close()` iff the shared flag is set, and otherwise `open` of its own id. The panel handler makes no coordinator call. The window listener is exactly one `close()` and does not stop propagation. An item handler is the item's wrapped click. |
| `Menu.Path` | src/components/DropdownMenu/DropdownMenu.tsx:76-82 | A click's path starts at the clicked trigger or item, passes the panel for any click on it, and ends at the window listener exactly when that listener is registered. |
| `Menu.WindowRequests` | src/components/DropdownMenu/DropdownMenu.tsx:76-82 | A click that reaches the window makes one `close()` call when the provider's listener is registered, and none otherwise. |
| `Menu.OutsideClickCloses` | src/components/DropdownMenu/DropdownMenu.tsx:76-82 | A click outside every trigger and panel closes the dropdown when the window listener is registered. Without it, the click changes nothing. |
| `Menu.InsideClickNeverReachesWindow` | src/components/DropdownMenu/DropdownMenu.tsx:151-160 | A click on a trigger, on the panel, or on any item in the panel never reaches a window listener. |
| `Menu.TriggerClickToggles` | src/components/DropdownMenu/DropdownMenu.tsx:151-155 | If the shared flag is set, clicking any trigger closes the dropdown, even one another instance opened. If the flag is clear, the click opens this instance and displays it. |
| `Menu.PanelClickKeepsState` | src/components/DropdownMenu/DropdownMenu.tsx:157-160 | A click on the panel, or on a plain item in it, leaves the coordinator unchanged. |
| `Menu.ItemClickCloses` | src/components/DropdownMenu/DropdownItem.tsx:8-18 | A click on an element item in the panel leaves the coordinator closed when the child's handler returns. When it throws, the state is what the handler's own calls made it. |
| `Menu.ThrowingItemLeavesPanelOpen` | src/components/DropdownMenu/DropdownItem.tsx:11-17 | A throwing item handler that makes no coordinator call leaves an open panel open. Propagation was already stopped, so the window listener does not close it either. |
| `Menu.InitialWorld` | src/components/DropdownMenu/DropdownMenu.tsx:50 | The system starts with the coordinator closed, the timer slot empty and no pending timer. |
| `Menu.MouseEnter` | src/components/DropdownMenu/DropdownMenu.tsx:162-165 | Pointer-enter displays this instance and cancels the timer whose handle is in the shared slot. Every other pending timer is kept, and the slot keeps its stale handle. |
| `Menu.MouseLeave` | src/components/DropdownMenu/DropdownMenu.tsx:167-169 | Pointer-leave leaves the coordinator unchanged. It schedules one new timer with the instance's delay and puts its fresh handle in the slot. No earlier timer is cancelled. |
| `Menu.TimerFire` | src/components/DropdownMenu/DropdownMenu.tsx:168 | A pending timer that comes due closes the dropdown and is spent. A cancelled or spent timer does nothing. |
| `Menu.LeaveUsesDelayProp` | src/components/DropdownMenu/DropdownMenu.tsx:21-55 | Without a `delay` prop the scheduled close uses 200; with one, it uses that value. |
| `Menu.ReenterCancelsPendingClose` | src/components/DropdownMenu/DropdownMenu.tsx:162-169 | Leave followed by enter: the scheduled close never fires, and the entered instance stays displayed. |
| `Menu.LeaveThenTimeoutCloses` | src/components/DropdownMenu/DropdownMenu.tsx:167-169 | Leave with no re-entry: when the timer comes due, the dropdown closes. |
| `Menu.OverwrittenTimerStillFires` | src/components/DropdownMenu/DropdownMenu.tsx:162-169 | After two leaves in a row, an enter cancels only the second timer. The first timer still fires and closes the instance that was just entered. |
| `Menu.EnterCancelsAnotherInstancesTimer` | src/components/DropdownMenu/DropdownMenu.tsx:162-169 | Because the slot is shared, entering one instance cancels the close that another instance's leave scheduled. |
| `Menu.Step` | src/components/DropdownMenu/DropdownMenu.tsx:151-169 | Every event keeps the coordinator invariant, and keeps timer handles fresh. A click does not touch the timers. |
| `Menu.RunPreservesInv` | src/components/DropdownMenu/DropdownMenu.tsx:151-169 | Any sequence of events keeps the coordinator and timer invariants. |
| `Menu.MutualExclusion` | src/components/DropdownMenu/DropdownMenu.tsx:171-172 | After any sequence of events from the initial state, at most one of a set of distinct instances is displayed. |
| `Menu.ClickSecondTriggerWhileOpen` | src/components/DropdownMenu/DropdownMenu.tsx:151-155 | Clicking trigger `a` and then trigger `b` leaves nothing displayed. |
| `Menu.HoverThenClickCloses` | src/components/DropdownMenu/DropdownMenu.tsx:151-165 | Hovering a trigger and then clicking it leaves the dropdown closed. |

## Findings

| source | as written | input that shows it | evidently intended | confidence | as-written member | corrected member |
|---|---|---|---|---|---|---|
| src/components/DropdownMenu/DropdownMenu.tsx:93-98 | The scroll offset is added to `top` and `left` only. So the unflipped anchors (`bottom`, `left`) and the flipped anchors (`top - height`, `right - width`) are in different frames whenever the page is scrolled. | Trigger viewport rect top 10, right 50, bottom 30, left 0; `scrollY` 100; panel 20×20; container 1000×1000. The result is `yOffset = 30`, while the trigger spans 110–130 in document coordinates. | All four edges in one frame (document coordinates), so the panel touches the trigger at any scroll position. | medium: the panel's CSS positioning is not part of this model; not executed | `Placement.StoredCoordinatesMixFrames` | `Placement.PanelAdjoinsTrigger` |

`Placement.PanelOffset` composes the corrected measurement with the placement.
`Placement.PanelOffsetAsWritten` composes the measurement as written.

## Left out

- The out-of-tree rendering (`DropdownPortal.tsx`) is DOM plumbing that creates the sink element or reuses it. It has no state that the model needs.
- React rendering is left out: `cloneElement`, `classnames`, the `translate3d` style string, and when `useLayoutEffect` runs. The placement result is an integer pair, and the model does not say when it is recomputed.
- DOM measurements (`getBoundingClientRect`, `clientHeight`/`clientWidth`, `scrollX`/`scrollY`) become integer parameters. Fractional pixel values are not modelled.
- Real time is left out. Timers are abstract tokens, and any pending token may fire next; the model does not order timers by their delays.
- Listener registration on mount and removal on unmount are left out. Whether the provider's window listener is registered (`listening`) is a parameter of each click. Because every instance registers the same `close`, one instance's unmount removes the listener for all the others until the provider re-renders; the model does not track that.
- A `DropdownMenu` with no provider above it reads the context's fallback value, whose `open` and `close` do nothing, so it never opens. Only the provider's operations are modelled.
- Only one provider scope is modelled. In the source, the timer slot is a module-level variable, so it is shared across providers as well.
- `generateId` and `DropdownItems` are not part of this model. Ids are opaque strings, assumed pairwise distinct where a property needs that.
- An item child's `onClick` is modelled only by the coordinator calls it makes and whether it then throws (`Effects.Action`). Its other effects, such as navigation or alerts, are invisible to this core.
- Item.ClickEffects: the child's handler is called without the event argument. A handler that reads its event fails, and the model covers that only as a throwing handler (`throws`). What React does with the error after dispatch is not modelled.
- The demo page (`App.tsx`) is not modelled.
