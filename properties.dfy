/** What the Collapsible widget guarantees, stated over the functions of
    CollapsibleModel: the invariant across any run of events, the behaviour of
    each handler, the settled states a collapse and an expansion reach, and
    the races the handlers leave open. */
module CollapsibleProperties {
  import opened CollapsibleModel

  // ---------------------------------------------------------------------
  // The invariant holds along every run

  lemma StepPreservesInv(w: Widget, e: Event)
    requires Inv(w)
    ensures Inv(Step(w, e))
  {
  }

  lemma {:induction false} RunPreservesInv(w: Widget, evs: seq<Event>)
    requires Inv(w)
    ensures Inv(Run(w, evs))
    decreases |evs|
  {
    if evs != [] {
      StepPreservesInv(w, evs[0]);
      RunPreservesInv(Step(w, evs[0]), evs[1..]);
    }
  }

  /** Every state reachable from construction satisfies the invariant. */
  lemma ReachableSatisfiesInv(p: Props, evs: seq<Event>)
    ensures Inv(Run(Init(p), evs))
  {
    RunPreservesInv(Init(p), evs);
  }

  // ---------------------------------------------------------------------
  // A measurement always completes once the host delivers its callbacks

  /** Deliver every scheduled measurement frame. */
  function DeliverFrames(w: Widget): (r: Widget)
    requires Inv(w)
    ensures Inv(r)
    ensures r.pendingFrames == 0 && r.pendingMeasures >= w.pendingMeasures
    ensures r.props == w.props
    decreases w.pendingFrames
  {
    if w.pendingFrames == 0 then w else DeliverFrames(MeasureFrame(w))
  }

  /** Deliver every outstanding native measurement, each reporting `h`. */
  function DeliverMeasures(w: Widget, h: real): (r: Widget)
    requires Inv(w)
    ensures Inv(r)
    ensures r.pendingMeasures == 0 && r.pendingFrames == w.pendingFrames
    ensures w.pendingMeasures > 0 ==> r.measured && r.contentHeight == h
    decreases w.pendingMeasures
  {
    if w.pendingMeasures == 0 then w else DeliverMeasures(MeasureResult(w, h), h)
  }

  /** Once every frame and every measurement callback has fired, the widget
      is no longer measuring. */
  lemma MeasuringEnds(w: Widget, h: real)
    requires Inv(w)
    ensures !DeliverMeasures(DeliverFrames(w), h).measuring
  {
  }

  // ---------------------------------------------------------------------
  // Transitions

  /** An interrupted completion leaves `animating` set with no run left to
      clear it, so the layout handler stays detached and layout events are
      lost until another transition finishes. */
  lemma InterruptedRunStaysAnimating(w: Widget, reached: real, h: real)
    requires Inv(w) && w.running
    ensures AnimationDone(w, false, reached).animating
    ensures !AnimationDone(w, false, reached).running
    ensures !Render(AnimationDone(w, false, reached)).layoutAttached
    ensures Step(AnimationDone(w, false, reached), Layout(h)) == AnimationDone(w, false, reached)
  {
  }

  /** A finished run leaves the height at the target its transition asked
      for, whether the zero ("out") or the non-zero ("in") run drove it. */
  lemma FinishedRunReachesTarget(w: Widget, target: real, reached: real)
    ensures AnimationDone(TransitionTo(w, target), true, reached).height == target
    ensures !AnimationDone(TransitionTo(w, target), true, reached).animating
  {
  }

  // ---------------------------------------------------------------------
  // Layout events

  /** The handler is detached exactly while animating, and the guard inside
      it ignores those events anyway: delivering through the render changes
      nothing compared with calling the handler directly. */
  lemma DetachedHandlerLosesNothing(w: Widget, h: real)
    ensures !Render(w).layoutAttached <==> w.animating
    ensures Step(w, Layout(h)) == OnLayout(w, h)
  {
  }

  // ---------------------------------------------------------------------
  // Prop updates

  /** Changing only the collapsed height while collapsed snaps the height to
      it without starting a run. */
  lemma CollapsedHeightSnaps(w: Widget, next: Props)
    requires w.props.collapsed && next.collapsed
    requires next.collapsedHeight != w.props.collapsedHeight
    ensures ReceiveProps(w, next).height == next.collapsedHeight
    ensures ReceiveProps(w, next).running == w.running
    ensures ReceiveProps(w, next).toValue == w.toValue
    ensures ReceiveProps(w, next).animating == w.animating
  {
  }

  /** A change of `collapsed` forgets the measurement before toggling, so the
      branch of the toggle that reuses a cached measurement is never taken
      from an update: expanding without a content handle does nothing. */
  lemma ExpandWithoutHandleDoesNothing(w: Widget, next: Props)
    requires w.props.collapsed && !next.collapsed && !w.hasHandle
    ensures ReceiveProps(w, next) == w.(props := next, measured := false)
  {
  }

  // ---------------------------------------------------------------------
  // Settled states

  /** Collapsed, nothing measuring, no run in flight, at the collapsed height.
      Unlike the expanded rest state it allows `animating`: a collapsed widget
      ignores layout events anyway, and an interrupted collapse leaves the flag
      set while the height can still be snapped to the collapsed height. */
  predicate CollapsedAtRest(w: Widget)
  {
    w.props.collapsed && !w.measuring && w.pendingFrames == 0 && w.pendingMeasures == 0
    && !w.running && w.height == w.props.collapsedHeight
  }

  /** Expanded, nothing measuring or animating, height equal to the content
      height. */
  predicate ExpandedAtRest(w: Widget)
  {
    !w.props.collapsed && !w.measuring && w.pendingFrames == 0 && w.pendingMeasures == 0
    && !w.running && !w.animating && w.height == w.contentHeight
  }

  /** A fresh collapsed widget is at rest. */
  lemma InitCollapsedAtRest(p: Props)
    requires p.collapsed
    ensures CollapsedAtRest(Init(p))
  {
  }

  /** Collapsing with no measurement pending starts a run to the collapsed
      height without measuring, and when that run finishes the widget is
      collapsed at rest. */
  lemma CollapseSettles(w: Widget, next: Props, reached: real)
    requires Inv(w)
    requires !w.props.collapsed && next.collapsed
    requires w.pendingFrames == 0 && w.pendingMeasures == 0
    ensures var w1 := ReceiveProps(w, next);
      && w1.running && w1.toValue == next.collapsedHeight
      && !w1.measuring && w1.pendingFrames == 0
      && CollapsedAtRest(AnimationDone(w1, true, reached))
      && !AnimationDone(w1, true, reached).animating
  {
  }

  /** Expanding a collapsed widget at rest whose content handle is set:
      the content is first rendered off-screen and unclipped while measuring,
      then the measured height `h` is cached and a run to `h` starts, and once
      it finishes the widget is expanded at rest at height `h`. */
  lemma ExpandSettles(w: Widget, next: Props, h: real, reached: real)
    requires CollapsedAtRest(w) && w.hasHandle && !next.collapsed
    ensures var w1 := ReceiveProps(w, next);
      && w1.measuring && w1.pendingFrames == 1
      && Render(w1).clipHeight == None && Render(w1).contentOffscreen
      && var w2 := MeasureFrame(w1);
      && w2.measuring && w2.pendingMeasures == 1
      && var w3 := MeasureResult(w2, h);
      && !w3.measuring && w3.measured && w3.running && w3.toValue == h
      && var w4 := AnimationDone(w3, true, reached);
      && ExpandedAtRest(w4) && w4.height == h && w4.measured
      && Render(w4).clipHeight == Some(h)
  {
  }

  predicate Expands(e: Event)
  {
    e.NewProps? && !e.next.collapsed
  }

  predicate Collapses(e: Event)
  {
    e.NewProps? && e.next.collapsed
  }

  /** While no update expands it, a collapsed widget at rest stays at rest:
      a new collapsed height is followed at once, and layout events, ref
      changes and unmounting leave the height alone. */
  lemma {:induction false} CollapsedRestIsStable(w: Widget, evs: seq<Event>)
    requires CollapsedAtRest(w)
    requires forall i :: 0 <= i < |evs| ==> !Expands(evs[i])
    ensures CollapsedAtRest(Run(w, evs))
    decreases |evs|
  {
    if evs != [] {
      assert !Expands(evs[0]);
      CollapsedRestIsStable(Step(w, evs[0]), evs[1..]);
    }
  }

  /** While no update collapses it, an expanded widget at rest stays at rest:
      a layout change moves the height and the content height together. */
  lemma {:induction false} ExpandedRestIsStable(w: Widget, evs: seq<Event>)
    requires ExpandedAtRest(w)
    requires forall i :: 0 <= i < |evs| ==> !Collapses(evs[i])
    ensures ExpandedAtRest(Run(w, evs))
    decreases |evs|
  {
    if evs != [] {
      assert !Collapses(evs[0]);
      ExpandedRestIsStable(Step(w, evs[0]), evs[1..]);
    }
  }

  /** Collapsed at rest, the clipped height shown is the collapsed height. */
  lemma CollapsedRestShowsCollapsedHeight(w: Widget)
    requires CollapsedAtRest(w)
    ensures Render(w).clipHeight == Some(w.props.collapsedHeight)
  {
  }

  // ---------------------------------------------------------------------
  // Render decisions

  /** The height is known, and the container clipped to it, exactly when not
      measuring and either measured or collapsed. */
  lemma KnownHeightClips(w: Widget)
    ensures Render(w).clipHeight.Some? <==> !w.measuring && (w.measured || w.props.collapsed)
    ensures Render(w).clipHeight.Some? ==> Render(w).clipHeight.value == w.height
  {
  }

  /** Pointer events are refused exactly when collapsed without
      `enablePointerEvents`. */
  lemma PointerEventsGate(p: Props)
    ensures PointerEventsOf(p) == NoPointer <==> !p.enablePointerEvents && p.collapsed
    ensures PointerEventsOf(DefaultProps) == NoPointer
  {
  }

  /** While measuring, the content is off the layout flow and transparent and
      the container is not clipped, so the content can take its natural size. */
  lemma MeasuringShowsNothing(w: Widget)
    requires w.measuring
    ensures Render(w).contentOffscreen && Render(w).clipHeight == None
  {
  }

  // ---------------------------------------------------------------------
  // Races and flags

  /** A measurement that completes after the widget collapsed again still
      caches its height and runs the height up to it: the widget ends
      collapsed but showing its content height. */
  lemma LateMeasurementOverridesCollapse(w: Widget, h: real, reached: real)
    requires w.props.collapsed && w.pendingMeasures > 0
    ensures var r := AnimationDone(MeasureResult(w, h), true, reached);
      r.props.collapsed && r.height == h && r.measured && !r.animating
  {
  }

  /** Such a race is reachable from a fresh widget: expand, collapse before
      the frame, then let the measurement of a 200-high content finish. */
  lemma LateMeasurementIsReachable()
    ensures var w := Run(Init(DefaultProps),
                         [Ref(true), NewProps(DefaultProps.(collapsed := false)), NewProps(DefaultProps),
                          Frame, Measured(200.0), RunEnded(true, 0.0)]);
      w.props.collapsed && w.height == 200.0 && w.props.collapsedHeight == 0.0
  {
    var evs := [Ref(true), NewProps(DefaultProps.(collapsed := false)), NewProps(DefaultProps),
                Frame, Measured(200.0), RunEnded(true, 0.0)];
    var w0 := Init(DefaultProps);
    var w1 := Step(w0, evs[0]);
    var w2 := Step(w1, evs[1]);
    var w3 := Step(w2, evs[2]);
    var w4 := Step(w3, evs[3]);
    var w5 := Step(w4, evs[4]);
    var w6 := Step(w5, evs[5]);
    assert w2.pendingFrames == 1;
    assert w3.pendingFrames == 1 && w3.props.collapsed;
    assert w4.pendingMeasures == 1;
    assert w5.running && w5.toValue == 200.0;
    assert w6.height == 200.0;
    assert Run(w5, evs[5..]) == w6;
    assert Run(w4, evs[4..]) == w6;
    assert Run(w3, evs[3..]) == w6;
    assert Run(w2, evs[2..]) == w6;
    assert Run(w1, evs[1..]) == w6;
  }

  /** The unmount flag is set but read by no handler: every event acts
      the same on an unmounted widget as on a mounted one. */
  lemma UnmountedIsNeverRead(w: Widget, e: Event)
    ensures Step(w.(unmounted := true), e) == Step(w, e).(unmounted := true)
  {
    var u := w.(unmounted := true);
    assert Deliverable(u, e) == Deliverable(w, e);
    if Deliverable(w, e) {
      match e
      case NewProps(next) => ReceivePropsIgnoresUnmounted(w, next);
      case Ref(_) =>
      case Frame =>
      case Measured(_) =>
      case RunEnded(_, _) =>
      case Layout(_) =>
      case WillUnmount =>
    }
  }

  lemma ReceivePropsIgnoresUnmounted(w: Widget, next: Props)
    ensures ReceiveProps(w.(unmounted := true), next) == ReceiveProps(w, next).(unmounted := true)
  {
  }
}
