/** The Collapsible widget as a pure state machine: the component's state, the
    host callbacks it has scheduled, and one function per event that the
    component reacts to. The class in component.dfy is proved to follow these
    functions; the lemmas in properties.dfy are stated over them. */
module CollapsibleModel {

  datatype Option<T> = None | Some(value: T)

  /** The props the logic reads. `duration`, `easing`, `align` and
      `onAnimationEnd` are accepted by the component but never read. */
  datatype Props = Props(collapsed: bool, collapsedHeight: real, enablePointerEvents: bool)

  /** Default props: collapsed, collapsedHeight 0, pointer events disabled. */
  const DefaultProps := Props(true, 0.0, false)

  /** One instance of the component.
      - props: the props of the latest render
      - measured, measuring, animating, contentHeight: the fields of `this.state`
      - height: the current value of the animated height
      - hasHandle: whether the `contentHandle` ref is set
      - toValue: the target of the latest timing run
      - running: a timing run has started and its completion is still owed
      - pendingFrames: animation-frame callbacks scheduled by a measurement
      - pendingMeasures: native measure callbacks still outstanding
      - unmounted: the flag set on unmount */
  datatype Widget = Widget(
    props: Props,
    measured: bool,
    measuring: bool,
    animating: bool,
    contentHeight: real,
    height: real,
    hasHandle: bool,
    toValue: real,
    running: bool,
    pendingFrames: nat,
    pendingMeasures: nat,
    unmounted: bool)

  /** The state of a freshly constructed instance: nothing measured, nothing
      in flight, the height at the collapsed height. */
  function Init(p: Props): (w: Widget)
    ensures w.props == p
    ensures !w.measured && !w.measuring && !w.animating && w.contentHeight == 0.0
    ensures w.height == p.collapsedHeight
    ensures !w.hasHandle && !w.running && w.pendingFrames == 0 && w.pendingMeasures == 0
    ensures !w.unmounted
    ensures Inv(w)
  {
    Widget(p, false, false, false, 0.0, p.collapsedHeight, false, p.collapsedHeight, false, 0, 0, false)
  }

  // ---------------------------------------------------------------------
  // Height transitions

  /** The configuration handed to the host's timing animation. */
  datatype TimingConfig = TimingConfig(toValue: real, durationMs: nat)

  const TransitionMs: nat := 150

  /** The run that drives a collapse to zero. */
  const OutConfig := TimingConfig(0.0, TransitionMs)

  /** The run that drives any other target. */
  function InConfig(target: real): TimingConfig
  {
    TimingConfig(target, TransitionMs)
  }

  /** The run a transition starts: the zero branch uses the separate "out" run,
      every other target the "in" run; either way it heads for the requested
      height over the fixed 150 ms. */
  function StartedRun(target: real): (c: TimingConfig)
    ensures c.toValue == target
    ensures c.durationMs == 150
  {
    if target == 0.0 then OutConfig else InConfig(target)
  }

  /** Start a timing run towards `target` and mark the widget animating.
      The run supersedes any earlier one on the same value. */
  function TransitionTo(w: Widget, target: real): (r: Widget)
    ensures r.animating && r.running && r.toValue == target
    ensures r.height == w.height
    ensures r.(animating := w.animating, running := w.running, toValue := w.toValue) == w
  {
    w.(animating := true, running := true, toValue := StartedRun(target).toValue)
  }

  /** The host reports the end of the current run. A finished run leaves the
      height at its target and clears `animating`; an interrupted one leaves
      the height where the host stopped it and `animating` still set. */
  function AnimationDone(w: Widget, finished: bool, reached: real): (r: Widget)
    requires w.running
    ensures !r.running
    ensures r.animating == (w.animating && !finished)
    ensures r.height == (if finished then w.toValue else reached)
    ensures r.(running := true, animating := w.animating, height := w.height) == w
  {
    if finished then w.(running := false, animating := false, height := w.toValue)
    else w.(running := false, height := reached)
  }

  // ---------------------------------------------------------------------
  // Measurement

  /** First half of a measurement: set `measuring` and schedule a frame. */
  function MeasureBegin(w: Widget): (r: Widget)
    ensures r.measuring && r.pendingFrames == w.pendingFrames + 1
    ensures r.(measuring := w.measuring, pendingFrames := w.pendingFrames) == w
  {
    w.(measuring := true, pendingFrames := w.pendingFrames + 1)
  }

  /** The scheduled frame: without a content handle the measurement gives up,
      clears `measuring` and transitions to the collapsed height; with a handle
      it asks the host to measure the content. */
  function MeasureFrame(w: Widget): (r: Widget)
    requires w.pendingFrames > 0
    ensures r.pendingFrames == w.pendingFrames - 1
    ensures r.measured == w.measured && r.contentHeight == w.contentHeight
    ensures !w.hasHandle ==> !r.measuring && r.running && r.toValue == w.props.collapsedHeight
                             && r.pendingMeasures == w.pendingMeasures
    ensures w.hasHandle ==> r.measuring == w.measuring && r.running == w.running
                            && r.pendingMeasures == w.pendingMeasures + 1
    ensures !w.hasHandle ==> r.animating
    ensures w.hasHandle ==> r.animating == w.animating && r.toValue == w.toValue
    ensures r.(pendingFrames := w.pendingFrames, pendingMeasures := w.pendingMeasures,
               measuring := w.measuring, animating := w.animating, running := w.running,
               toValue := w.toValue) == w
  {
    var w' := w.(pendingFrames := w.pendingFrames - 1);
    if !w.hasHandle then TransitionTo(w'.(measuring := false), w.props.collapsedHeight)
    else w'.(pendingMeasures := w.pendingMeasures + 1)
  }

  /** The host's measurement of the content arrives with height `h`: the
      height is cached, the widget is marked measured, and a transition to
      `h` starts. */
  function MeasureResult(w: Widget, h: real): (r: Widget)
    requires w.pendingMeasures > 0
    ensures r.pendingMeasures == w.pendingMeasures - 1 && r.pendingFrames == w.pendingFrames
    ensures !r.measuring && r.measured && r.contentHeight == h
    ensures r.running && r.animating && r.toValue == h
    ensures r.height == w.height && r.props == w.props
    ensures r.(pendingMeasures := w.pendingMeasures, measuring := w.measuring,
               measured := w.measured, contentHeight := w.contentHeight,
               animating := w.animating, running := w.running, toValue := w.toValue) == w
  {
    TransitionTo(w.(pendingMeasures := w.pendingMeasures - 1, measuring := false,
                    measured := true, contentHeight := h), h)
  }

  // ---------------------------------------------------------------------
  // Collapse and expand

  /** Move towards the requested collapsed state. Collapsing animates to the
      collapsed height at once; expanding without a content handle animates to
      the cached content height if there is one and otherwise does nothing;
      expanding with a handle starts a measurement. */
  function Toggle(w: Widget, collapsed: bool): (r: Widget)
    ensures collapsed ==> r.running && r.toValue == w.props.collapsedHeight
                          && r.measuring == w.measuring && r.pendingFrames == w.pendingFrames
    ensures !collapsed && !w.hasHandle && !w.measured ==> r == w
    ensures !collapsed && !w.hasHandle && w.measured ==> r.running && r.toValue == w.contentHeight
                                                         && r.measuring == w.measuring
    ensures !collapsed && w.hasHandle ==> r.measuring && r.pendingFrames == w.pendingFrames + 1
                                          && r.running == w.running && r.toValue == w.toValue
    ensures r.height == w.height && r.measured == w.measured && r.contentHeight == w.contentHeight
    ensures r.props == w.props && r.hasHandle == w.hasHandle && r.pendingMeasures == w.pendingMeasures
    ensures collapsed || (!w.hasHandle && w.measured) ==>
              r.animating && r.(animating := w.animating, running := w.running, toValue := w.toValue) == w
    ensures !collapsed && w.hasHandle ==>
              r.animating == w.animating && r.(measuring := w.measuring, pendingFrames := w.pendingFrames) == w
    ensures r.unmounted == w.unmounted
  {
    if collapsed then TransitionTo(w, w.props.collapsedHeight)
    else if !w.hasHandle then
      (if w.measured then TransitionTo(w, w.contentHeight) else w)
    else MeasureBegin(w)
  }

  /** The update step once `measured` is settled: a change of `collapsed`
      toggles; a change of only the collapsed height while collapsed snaps the
      height to it. */
  function DidUpdateInner(w: Widget, prev: Props): (r: Widget)
    ensures prev.collapsed != w.props.collapsed ==> r == Toggle(w, w.props.collapsed)
    ensures prev.collapsed == w.props.collapsed && w.props.collapsed && prev.collapsedHeight != w.props.collapsedHeight
            ==> r == w.(height := w.props.collapsedHeight)
    ensures prev.collapsed == w.props.collapsed && (!w.props.collapsed || prev.collapsedHeight == w.props.collapsedHeight)
            ==> r == w
  {
    if prev.collapsed != w.props.collapsed then Toggle(w, w.props.collapsed)
    else if w.props.collapsed && prev.collapsedHeight != w.props.collapsedHeight then
      w.(height := w.props.collapsedHeight)
    else w
  }

  /** After a render with previous props `prev`: a change of `collapsed`
      first forgets the measurement, then the update step runs. */
  function DidUpdate(w: Widget, prev: Props): (r: Widget)
    ensures prev.collapsed != w.props.collapsed ==> r == Toggle(w.(measured := false), w.props.collapsed)
    ensures prev.collapsed == w.props.collapsed && w.props.collapsed && prev.collapsedHeight != w.props.collapsedHeight
            ==> r == w.(height := w.props.collapsedHeight)
    ensures prev.collapsed == w.props.collapsed && (!w.props.collapsed || prev.collapsedHeight == w.props.collapsedHeight)
            ==> r == w
  {
    if prev.collapsed != w.props.collapsed then DidUpdateInner(w.(measured := false), prev)
    else DidUpdateInner(w, prev)
  }

  /** The parent renders the widget with new props. */
  function ReceiveProps(w: Widget, next: Props): (r: Widget)
    ensures r.props == next
    ensures next.collapsed != w.props.collapsed ==> r == Toggle(w.(props := next, measured := false), next.collapsed)
    ensures next.collapsed == w.props.collapsed && next.collapsed && next.collapsedHeight != w.props.collapsedHeight
            ==> r == w.(props := next, height := next.collapsedHeight)
    ensures next.collapsed == w.props.collapsed && (!next.collapsed || next.collapsedHeight == w.props.collapsedHeight)
            ==> r == w.(props := next)
  {
    DidUpdate(w.(props := next), w.props)
  }

  // ---------------------------------------------------------------------
  // Passive events

  /** Whether a layout event leaves the widget alone: while animating,
      collapsed or measuring, or when the reported height is already known. */
  predicate LayoutIgnored(w: Widget, h: real)
  {
    w.animating || w.props.collapsed || w.measuring || w.contentHeight == h
  }

  /** A layout event on the content reporting height `h`. It never starts a
      run or touches a flag; when it is not ignored, both the height and the
      cached content height become `h` at once. */
  function OnLayout(w: Widget, h: real): (r: Widget)
    ensures LayoutIgnored(w, h) ==> r == w
    ensures !LayoutIgnored(w, h) ==> r.height == h && r.contentHeight == h
    ensures r.(height := w.height, contentHeight := w.contentHeight) == w
  {
    if LayoutIgnored(w, h) then w
    else w.(height := h, contentHeight := h)
  }

  /** The ref callback sets or clears the content handle. */
  function SetHandle(w: Widget, present: bool): (r: Widget)
    ensures r.hasHandle == present && r.(hasHandle := w.hasHandle) == w
  {
    w.(hasHandle := present)
  }

  /** Unmounting only raises the flag. */
  function Unmount(w: Widget): (r: Widget)
    ensures r.unmounted && r.(unmounted := w.unmounted) == w
  {
    w.(unmounted := true)
  }

  // ---------------------------------------------------------------------
  // Render decisions

  datatype PointerEvents = Auto | NoPointer

  /** What a render hands to the host, restricted to what the logic decides:
      the height the outer container is clipped to (none when the height is
      not known), whether it takes pointer events, whether the content is
      rendered transparently out of the layout flow for measuring, and whether
      the layout handler is attached. */
  datatype View = View(clipHeight: Option<real>, pointerEvents: PointerEvents,
                       contentOffscreen: bool, layoutAttached: bool)

  predicate HasKnownHeight(w: Widget)
  {
    !w.measuring && (w.measured || w.props.collapsed)
  }

  function PointerEventsOf(p: Props): PointerEvents
  {
    if !p.enablePointerEvents && p.collapsed then NoPointer else Auto
  }

  function Render(w: Widget): View
  {
    View(if HasKnownHeight(w) then Some(w.height) else None,
         PointerEventsOf(w.props),
         w.measuring,
         !w.animating)
  }

  // ---------------------------------------------------------------------
  // Events and runs

  /** Everything that can happen to a mounted widget. */
  datatype Event =
    | NewProps(next: Props)
    | Ref(present: bool)
    | Frame
    | Measured(h: real)
    | RunEnded(finished: bool, reached: real)
    | Layout(h: real)
    | WillUnmount

  /** A callback fires only if it was scheduled, and a layout event reaches
      the component only while the rendered handler is attached. */
  predicate Deliverable(w: Widget, e: Event)
  {
    match e
    case Frame => w.pendingFrames > 0
    case Measured(_) => w.pendingMeasures > 0
    case RunEnded(_, _) => w.running
    case Layout(_) => Render(w).layoutAttached
    case _ => true
  }

  /** One event; an event the host cannot deliver changes nothing. */
  function Step(w: Widget, e: Event): Widget
  {
    if !Deliverable(w, e) then w
    else match e
      case NewProps(next) => ReceiveProps(w, next)
      case Ref(present) => SetHandle(w, present)
      case Frame => MeasureFrame(w)
      case Measured(h) => MeasureResult(w, h)
      case RunEnded(finished, reached) => AnimationDone(w, finished, reached)
      case Layout(h) => OnLayout(w, h)
      case WillUnmount => Unmount(w)
  }

  function Run(w: Widget, evs: seq<Event>): Widget
    decreases |evs|
  {
    if evs == [] then w else Run(Step(w, evs[0]), evs[1..])
  }

  // ---------------------------------------------------------------------
  // The invariant

  /** A measurement in progress always has a callback on its way, and a run
      in flight always shows as animating. */
  predicate Inv(w: Widget)
  {
    (w.measuring ==> w.pendingFrames + w.pendingMeasures > 0) &&
    (w.running ==> w.animating)
  }
}
