# Collapsible: a verified model of the measure-then-animate state machine

This project models the `Collapsible` component of react-native-collapsible
(`Collapsible.js`). The component is an animated container. It expands and
collapses its content by driving an animated `height`. Before an expansion it
measures the content by rendering it off-screen. Later layout events from the
content are reconciled with any measurement or transition in flight.

The model has three parts:

- `model.dfy`, module `CollapsibleModel`: the state as a datatype `Widget` and
  one function per event. The state holds the props the logic reads, the four
  fields of `this.state`, the current value of the animated `height` and
  whether the `contentHandle` ref is set. It also holds what the host still
  owes the component:
  - `pendingFrames`: animation-frame callbacks scheduled by a measurement;
  - `pendingMeasures`: native `measure` callbacks not yet delivered;
  - `running` and `toValue`: a timing run in flight and its target.

  `Step` and `Run` apply arbitrary sequences of events. `Render` gives the
  decisions `render` makes: the clipped height, pointer-event gating,
  off-screen content and whether the layout handler is attached.
- `component.dfy`, module `CollapsibleComponent`: the class `Collapsible`.
  The state is kept in fields that its handlers update in place. Each
  asynchronous half of the source is its own method: `OnMeasureFrame`,
  `OnMeasured`, `OnAnimationEnd`, `HandleLayoutChange` and `HandleRef`. This
  lets any interleaving be explored. Every method is proved to change the
  object exactly as the matching model function changes a `Widget`
  (`Snapshot()`), and to keep the invariant `Valid()`.
- `properties.dfy`, module `CollapsibleProperties`: lemmas over the model.
  They cover the invariant along any run, measurement completion, the
  settled states of a collapse and of an expansion, the stability of those
  states, the render decisions, and behaviours of the code a reader might
  not expect (see below).

Heights are `real`: the code only assigns them and compares them for
equality. The host's asynchrony is made explicit as events. React's `setState`
is modelled as committing at once, with its callback running right after.

Behaviours of the code a reader might not expect:

- `this.unmounted` is set (Collapsible.js:49) but never read, so callbacks
  that arrive after unmount still change state. `UnmountedIsNeverRead`
  proves that every event acts the same on an unmounted widget.
- A collapsed widget does not always settle at `collapsedHeight`: a
  measurement that completes after the widget collapsed again still caches
  its result and animates up to it (Collapsible.js:81-89).
  `LateMeasurementOverridesCollapse` states this for
  every such state. `LateMeasurementIsReachable` gives the event sequence
  from a fresh widget: expand, collapse before the frame, let the measurement
  finish. The settled-state lemmas therefore require that no measurement is
  pending.
- The toggle branch that reuses a cached measurement (Collapsible.js:101-103)
  is never reached from a prop update. `componentDidUpdate` clears `measured`
  before it toggles. `ExpandWithoutHandleDoesNothing` states this.

## Model

| member | source | states |
|---|---|---|
| `CollapsibleModel.Init` | Collapsible.js:29-37 | A fresh instance is not measured, not measuring, not animating, has content height 0 and height equal to `collapsedHeight`. Nothing is in flight and the invariant holds. |
| `CollapsibleComponent.Collapsible.constructor` | Collapsible.js:29-37 | The constructed object's state is `Init(props)` and satisfies `Valid()`. |
| `CollapsibleModel.StartedRun` | Collapsible.js:112-140 | Both the zero ("out") and the non-zero ("in") run head for the requested height over 150 ms. |
| `CollapsibleModel.TransitionTo` | Collapsible.js:112-141 | A transition sets `animating`, starts a run whose target is the requested height, and leaves the current height and every other field unchanged. |
| `CollapsibleComponent.Collapsible.TransitionToHeight` | Collapsible.js:112-141 | The object changes as `TransitionTo` says and stays valid. |
| `CollapsibleModel.AnimationDone` | Collapsible.js:128-140 | The completion ends the run. A finished run puts the height at its target and clears `animating`. An interrupted run leaves `animating` as it was and the height where the host stopped it. |
| `CollapsibleComponent.Collapsible.OnAnimationEnd` | Collapsible.js:128-140 | The object changes as `AnimationDone` says and stays valid. |
| `CollapsibleModel.MeasureBegin` | Collapsible.js:66-72 | A measurement sets `measuring` and schedules exactly one frame. Nothing else changes. |
| `CollapsibleComponent.Collapsible.MeasureContent` | Collapsible.js:66-72 | The object changes as `MeasureBegin` says and stays valid. |
| `CollapsibleModel.MeasureFrame` | Collapsible.js:72-92 | The frame consumes one scheduled frame and leaves `measured` and `contentHeight` alone. With no handle it clears `measuring` and starts a run to `collapsedHeight`. With a handle it asks the host for one measurement, starts no run and leaves `animating` and the run's target alone. The height, the props, the handle and the unmount flag never change. |
| `CollapsibleComponent.Collapsible.OnMeasureFrame` | Collapsible.js:72-92 | The object changes as `MeasureFrame` says and stays valid. |
| `CollapsibleModel.MeasureResult` | Collapsible.js:81-89 | The result clears `measuring`, sets `measured`, caches `h` as the content height and starts a run to `h`. The height itself does not jump, and the props, the handle, the pending frames and the unmount flag stay the same. |
| `CollapsibleComponent.Collapsible.OnMeasured` | Collapsible.js:81-89 | The object changes as `MeasureResult` says and stays valid. |
| `CollapsibleModel.Toggle` | Collapsible.js:97-110 | Collapsing starts a run to `collapsedHeight` without measuring. Expanding without a handle runs to the cached content height if measured and otherwise changes nothing. Expanding with a handle starts a measurement and no run, leaving `animating` alone. Every branch that starts a run sets `animating`. The height, the measurement cache, the props, the handle and the unmount flag never change. |
| `CollapsibleComponent.Collapsible.ToggleCollapsed` | Collapsible.js:97-110 | The object changes as `Toggle` says and stays valid. |
| `CollapsibleModel.ReceiveProps` | Collapsible.js:40-58 | A change of `collapsed` clears `measured` and then toggles to the new value. A change of only `collapsedHeight` while collapsed snaps the height to it. Any other update changes only the props. |
| `CollapsibleComponent.Collapsible.SetProps` | Collapsible.js:40-58 | The object changes as `ReceiveProps` says and stays valid. |
| `CollapsibleModel.DidUpdate` | Collapsible.js:40-46 | A change of `collapsed` clears `measured` and then toggles to the new value. Otherwise a change of only `collapsedHeight` while collapsed snaps the height to it, and any other update changes nothing. |
| `CollapsibleModel.DidUpdateInner` | Collapsible.js:52-58 | A change of `collapsed` toggles. A change of only `collapsedHeight` while collapsed snaps the height to it. Otherwise nothing changes. |
| `CollapsibleComponent.Collapsible.ComponentDidUpdate` | Collapsible.js:40-46 | A change of `collapsed` clears `measured` before the update step runs. |
| `CollapsibleComponent.Collapsible.ComponentDidUpdateInner` | Collapsible.js:52-58 | The update step toggles on a change of `collapsed` and otherwise snaps the height to a changed `collapsedHeight` while collapsed. |
| `CollapsibleModel.OnLayout` | Collapsible.js:143-156 | A layout event changes nothing while animating, collapsed or measuring, or when the height is unchanged. Otherwise height and content height both become the reported height. It never touches anything else, so it never starts a run. |
| `CollapsibleComponent.Collapsible.HandleLayoutChange` | Collapsible.js:143-156 | The object changes as `OnLayout` says and stays valid. |
| `CollapsibleModel.SetHandle` | Collapsible.js:60-64 | The ref callback sets or clears the content handle and nothing else. |
| `CollapsibleComponent.Collapsible.HandleRef` | Collapsible.js:60-64 | The object changes as `SetHandle` says and stays valid. |
| `CollapsibleModel.Unmount` | Collapsible.js:48-50 | Unmounting raises the flag and changes nothing else. |
| `CollapsibleComponent.Collapsible.ComponentWillUnmount` | Collapsible.js:48-50 | The object changes as `Unmount` says and stays valid. |
| `CollapsibleProperties.StepPreservesInv` | Collapsible.js:66-141 | Every deliverable event keeps the invariant: a measuring widget has a frame or measurement on its way, and a run in flight shows as animating. |
| `CollapsibleProperties.RunPreservesInv` | Collapsible.js:40-156 | The invariant holds after any sequence of events. |
| `CollapsibleProperties.ReachableSatisfiesInv` | Collapsible.js:29-156 | Every state reachable from construction satisfies the invariant. |
| `CollapsibleProperties.DeliverFrames` | Collapsible.js:72-92 | Delivering every scheduled frame leaves none pending, keeps the invariant and loses no outstanding measurement. |
| `CollapsibleProperties.DeliverMeasures` | Collapsible.js:81-89 | Delivering every outstanding measurement leaves none pending and keeps the invariant. If there was one, the widget ends measured at the reported height. |
| `CollapsibleProperties.MeasuringEnds` | Collapsible.js:66-95 | Once the host has delivered every frame and measurement callback, the widget is no longer measuring. |
| `CollapsibleProperties.InterruptedRunStaysAnimating` | Collapsible.js:128-140 | An interrupted completion leaves `animating` set with no run left to clear it. The layout handler stays detached, so layout events are lost. |
| `CollapsibleProperties.FinishedRunReachesTarget` | Collapsible.js:112-140 | A transition followed by a finished completion leaves the height at the requested target and `animating` cleared. |
| `CollapsibleProperties.DetachedHandlerLosesNothing` | Collapsible.js:176 | The layout handler is detached exactly while animating. Delivering a layout event through the render gives the same result as calling the handler, because its guard ignores those events anyway. |
| `CollapsibleProperties.CollapsedHeightSnaps` | Collapsible.js:55-56 | A new `collapsedHeight` while collapsed becomes the height at once. No run starts and `animating` is unchanged. |
| `CollapsibleProperties.ExpandWithoutHandleDoesNothing` | Collapsible.js:40-58 | Expanding through a prop update without a content handle changes only the props and `measured`, which becomes false. The cached-height branch of the toggle is never taken. |
| `CollapsibleProperties.InitCollapsedAtRest` | Collapsible.js:29-37 | A fresh collapsed widget is collapsed at rest. |
| `CollapsibleProperties.CollapseSettles` | Collapsible.js:97-99 | Collapsing with no measurement pending starts a run to `collapsedHeight` without measuring. Once it finishes, the widget is collapsed at rest with `animating` cleared. |
| `CollapsibleProperties.ExpandSettles` | Collapsible.js:66-110 | Expanding from collapsed at rest with a handle first shows the content off-screen and unclipped while measuring. Then a run to the measured height `h` starts. Once it finishes, the widget is expanded at rest with height `h`, measured, and clipped to `h`. |
| `CollapsibleProperties.CollapsedRestIsStable` | Collapsible.js:40-58 | Under any sequence of events that never expands it, a collapsed widget at rest stays at rest, at the current `collapsedHeight`. |
| `CollapsibleProperties.ExpandedRestIsStable` | Collapsible.js:143-156 | Under any sequence of events that never collapses it, an expanded widget at rest stays at rest. Layout changes move the height and the content height together. |
| `CollapsibleProperties.CollapsedRestShowsCollapsedHeight` | Collapsible.js:161-165 | A collapsed widget at rest is clipped to `collapsedHeight`. |
| `CollapsibleProperties.KnownHeightClips` | Collapsible.js:161-165 | The container is clipped, to the current height, exactly when not measuring and either measured or collapsed. |
| `CollapsibleProperties.PointerEventsGate` | Collapsible.js:172 | Pointer events are `'none'` exactly when collapsed without `enablePointerEvents`, which holds for the default props. |
| `CollapsibleProperties.MeasuringShowsNothing` | Collapsible.js:166-170 | While measuring, the content is off-screen and the container is not clipped. |
| `CollapsibleProperties.LateMeasurementOverridesCollapse` | Collapsible.js:81-89 | A measurement result arriving while collapsed still caches its height and, once its run finishes, leaves a collapsed widget showing the content height. |
| `CollapsibleProperties.LateMeasurementIsReachable` | Collapsible.js:40-110 | From a fresh widget with default props: expand, collapse before the frame, then measure content of height 200. The widget ends collapsed at height 200 while `collapsedHeight` is 0. |
| `CollapsibleProperties.UnmountedIsNeverRead` | Collapsible.js:48-50 | Every event, unmounting included, acts the same on an unmounted widget as on a mounted one. |
| `CollapsibleProperties.ReceivePropsIgnoresUnmounted` | Collapsible.js:40-58 | A prop update acts the same whether or not the widget is unmounted. |

## Left out

- The 150 ms duration and the `Easing.inOut(Easing.ease)` curve drive the host's floating-point interpolation. The widget state keeps only the run's target; the easing curve is not modelled. The height reaches the target when the host reports `finished`, and stops at a host-supplied value (`reached`) when interrupted.
- Both timing runs, `_animIn` and `_animOut`, are created on every transition (Collapsible.js:125-126). Only the run that is started is modelled, through `StartedRun`.
- Superseded runs: a new run on the same value supersedes the previous one. The superseded run's completion carries `finished = false`, and the handler then does nothing. That completion is not delivered as a separate event.
- `setValue` during a run: the model does not assume that the host stops the run. The run still ends at its own target.
- `requestAnimationFrame`, React's `setState` batching and the native `measure` call become explicit events. `setState` commits at once. The host delivers callbacks only when they are scheduled.
- PropTypes, default props other than those in `DefaultProps`, style composition and the JSX tree are declarative glue. `duration`, `easing`, `align` and `onAnimationEnd` are accepted but never read by the logic, so they are not modelled. The `duration` default is 120 while runs always take 150 ms.
- The children and the pixel layout of the content are represented only by the heights the host reports.
