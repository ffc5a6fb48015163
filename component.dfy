/** The Collapsible component as an object: its state fields, the animated
    height and the content handle are fields that its handlers update in
    place. Each handler is proved to move the object exactly as the matching
    function of CollapsibleModel moves a Widget, and to keep the invariant. */
module CollapsibleComponent {
  import opened CollapsibleModel

  class Collapsible {
    var props: Props
    // this.state
    var measured: bool
    var measuring: bool
    var animating: bool
    var contentHeight: real
    // the animated height and the run that drives it
    var height: real
    var toValue: real
    var running: bool
    // this.contentHandle
    var hasHandle: bool
    // callbacks the host still owes
    var pendingFrames: nat
    var pendingMeasures: nat
    var unmounted: bool

    /** The abstract value of the object. */
    function Snapshot(): Widget
      reads this
    {
      Widget(props, measured, measuring, animating, contentHeight, height,
             hasHandle, toValue, running, pendingFrames, pendingMeasures, unmounted)
    }

    ghost predicate Valid()
      reads this
    {
      Inv(Snapshot())
    }

    constructor (p: Props)
      ensures Valid()
      ensures Snapshot() == Init(p)
    {
      props := p;
      measured, animating, measuring := false, false, false;
      contentHeight := 0.0;
      height := p.collapsedHeight;
      toValue := p.collapsedHeight;
      running := false;
      hasHandle := false;
      pendingFrames, pendingMeasures := 0, 0;
      unmounted := false;
    }

    /** Start a timed run of the height towards `target`. */
    method TransitionToHeight(target: real)
      requires Valid()
      modifies this
      ensures Valid()
      ensures Snapshot() == TransitionTo(old(Snapshot()), target)
    {
      var run := StartedRun(target);
      toValue := run.toValue;
      animating := true;
      running := true;
    }

    /** Set `measuring` and schedule the frame that continues the measurement. */
    method MeasureContent()
      requires Valid()
      modifies this
      ensures Valid()
      ensures Snapshot() == MeasureBegin(old(Snapshot()))
    {
      measuring := true;
      pendingFrames := pendingFrames + 1;
    }

    /** The frame scheduled by MeasureContent. */
    method OnMeasureFrame()
      requires Valid() && pendingFrames > 0
      modifies this
      ensures Valid()
      ensures Snapshot() == MeasureFrame(old(Snapshot()))
    {
      pendingFrames := pendingFrames - 1;
      if !hasHandle {
        measuring := false;
        TransitionToHeight(props.collapsedHeight);
      } else {
        pendingMeasures := pendingMeasures + 1;
      }
    }

    /** The host's measurement of the content, of height `h`. */
    method OnMeasured(h: real)
      requires Valid() && pendingMeasures > 0
      modifies this
      ensures Valid()
      ensures Snapshot() == MeasureResult(old(Snapshot()), h)
    {
      pendingMeasures := pendingMeasures - 1;
      measuring, measured, contentHeight := false, true, h;
      TransitionToHeight(h);
    }

    /** The host's completion signal for the current run. */
    method OnAnimationEnd(finished: bool, reached: real)
      requires Valid() && running
      modifies this
      ensures Valid()
      ensures Snapshot() == AnimationDone(old(Snapshot()), finished, reached)
    {
      running := false;
      if finished {
        height := toValue;
        animating := false;
      } else {
        height := reached;
      }
    }

    method ToggleCollapsed(collapsed: bool)
      requires Valid()
      modifies this
      ensures Valid()
      ensures Snapshot() == Toggle(old(Snapshot()), collapsed)
    {
      if collapsed {
        TransitionToHeight(props.collapsedHeight);
      } else if !hasHandle {
        if measured {
          TransitionToHeight(contentHeight);
        }
        return;
      } else {
        MeasureContent();
      }
    }

    method ComponentDidUpdateInner(prev: Props)
      requires Valid()
      modifies this
      ensures Valid()
      ensures Snapshot() == DidUpdateInner(old(Snapshot()), prev)
    {
      if prev.collapsed != props.collapsed {
        ToggleCollapsed(props.collapsed);
      } else if props.collapsed && prev.collapsedHeight != props.collapsedHeight {
        height := props.collapsedHeight;
      }
    }

    method ComponentDidUpdate(prev: Props)
      requires Valid()
      modifies this
      ensures Valid()
      ensures Snapshot() == DidUpdate(old(Snapshot()), prev)
    {
      if prev.collapsed != props.collapsed {
        measured := false;
        ComponentDidUpdateInner(prev);
      } else {
        ComponentDidUpdateInner(prev);
      }
    }

    /** The parent renders the component with `next`; the host then calls
        ComponentDidUpdate with the props it had before. */
    method SetProps(next: Props)
      requires Valid()
      modifies this
      ensures Valid()
      ensures Snapshot() == ReceiveProps(old(Snapshot()), next)
    {
      var prev := props;
      props := next;
      ComponentDidUpdate(prev);
    }

    /** The layout handler, attached only while not animating. */
    method HandleLayoutChange(h: real)
      requires Valid()
      modifies this
      ensures Valid()
      ensures Snapshot() == OnLayout(old(Snapshot()), h)
    {
      if animating || props.collapsed || measuring || contentHeight == h {
        return;
      }
      height := h;
      contentHeight := h;
    }

    /** The ref callback of the content view. */
    method HandleRef(present: bool)
      requires Valid()
      modifies this
      ensures Valid()
      ensures Snapshot() == SetHandle(old(Snapshot()), present)
    {
      hasHandle := present;
    }

    method ComponentWillUnmount()
      requires Valid()
      modifies this
      ensures Valid()
      ensures Snapshot() == Unmount(old(Snapshot()))
    {
      unmounted := true;
    }
  }
}
