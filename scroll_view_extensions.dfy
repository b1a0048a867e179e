/**
 * The scroll-driven show/hide engine that lets a floating action button hide while the user
 * scrolls down and reappear when the user scrolls up or reaches the top of the scroll view.
 *
 * A registry maps every attached scroll view to a tracking record. Each scroll event updates the
 * record of its view: deltas under a noise floor are ignored, accepted deltas accumulate (the
 * accumulator restarts after an idle gap or a change of direction), a long enough run in one
 * direction hides or shows the button, and reaching the top always shows it.
 *
 * The button's ShowAsync/HideAsync are atomic steps here: the caller says whether the call
 * completes (`ok`) or throws (`!ok`), and the `calls` results record which calls were made.
 */
module ScrollViewExtensions {
  import opened Views

  /** Scroll deltas whose magnitude is below this are treated as noise. */
  const NoiseFloor: real := 1.0
  /** A pause longer than this, in milliseconds, restarts the accumulated distance. */
  const IdleResetMs: int := 300
  /** Accumulated distance, in one direction, at which the button is hidden or shown. */
  const ActionThreshold: real := 15.0

  /** What AttachFab reads from the button: its identity and its visibility properties. */
  datatype FabInfo = FabInfo(id: ViewId, opacity: real, scale: real, isVisible: bool)

  /** The tracking record kept for one attached scroll view. */
  datatype FabScrollState = FabScrollState(
    fab: ViewId,
    lastY: real,
    isVisible: bool,
    isAnimating: bool,
    totalScrollDistance: real,
    lastScrollTime: int)

  /**
   * The record AttachFab stores: offset 0, an empty accumulator, no transition in flight, and the
   * button counted as visible only when it is shown, opaque and scaled.
   */
  function FreshRecord(f: FabInfo, nowMs: int): (r: FabScrollState)
    ensures r.fab == f.id && r.lastY == 0.0 && r.totalScrollDistance == 0.0 && !r.isAnimating
    ensures r.lastScrollTime == nowMs
    ensures r.isVisible <==> f.opacity > 0.0 && f.scale > 0.0 && f.isVisible
    ensures NoPendingTrigger(r)
  {
    FabScrollState(f.id, 0.0, f.opacity > 0.0 && f.scale > 0.0 && f.isVisible, false, 0.0, nowMs)
  }

  /** A call made to the button's ShowAsync or HideAsync. */
  datatype FabCall = ShowCall | HideCall

  /** A record after an event, with the button calls the event made, in order. */
  datatype Step = Step(state: FabScrollState, calls: seq<FabCall>)

  /** One scroll notification: the new offset, its time and the outcome of each possible call. */
  datatype ScrollEvent = ScrollEvent(scrollY: real, nowMs: int, triggerOk: bool, topOk: bool)

  function Abs(x: real): real { if x < 0.0 then -x else x }

  /** Math.Sign. */
  function Sign(x: real): int { if x > 0.0 then 1 else if x < 0.0 then -1 else 0 }

  /** ShowFab acts only on a button that is hidden and not animating. */
  predicate ShowActs(s: FabScrollState) { !s.isVisible && !s.isAnimating }

  /** HideFab acts only on a button that is visible and not animating. */
  predicate HideActs(s: FabScrollState) { s.isVisible && !s.isAnimating }

  /**
   * After a scroll event the accumulated distance is either below the threshold or points in
   * the direction that cannot trigger: downwards while hidden, upwards while visible.
   */
  predicate NoPendingTrigger(s: FabScrollState)
  {
    || Abs(s.totalScrollDistance) < ActionThreshold
    || (s.totalScrollDistance > 0.0 && !s.isVisible)
    || (s.totalScrollDistance < 0.0 && s.isVisible)
  }

  /**
   * ShowFab on the record of a tracked view. `ok` says whether the button's ShowAsync
   * completed; when it throws, the error is swallowed and the record stays hidden.
   */
  function Shown(s: FabScrollState, ok: bool): (r: Step)
    ensures r.calls == (if ShowActs(s) then [ShowCall] else [])
    ensures r.state.isVisible <==> s.isVisible || (ShowActs(s) && ok)
    ensures ShowActs(s) ==> !r.state.isAnimating
    ensures r.state.(isVisible := s.isVisible, isAnimating := s.isAnimating) == s
  {
    if ShowActs(s) then
      var animating := s.(isAnimating := true);
      var shown := if ok then animating.(isVisible := true) else animating;
      Step(shown.(isAnimating := false), [ShowCall])
    else
      Step(s, [])
  }

  /** HideFab on the record of a tracked view, symmetric to Shown. */
  function Hidden(s: FabScrollState, ok: bool): (r: Step)
    ensures r.calls == (if HideActs(s) then [HideCall] else [])
    ensures r.state.isVisible <==> s.isVisible && !(HideActs(s) && ok)
    ensures HideActs(s) ==> !r.state.isAnimating
    ensures r.state.(isVisible := s.isVisible, isAnimating := s.isAnimating) == s
  {
    if HideActs(s) then
      var animating := s.(isAnimating := true);
      var hidden := if ok then animating.(isVisible := false) else animating;
      Step(hidden.(isAnimating := false), [HideCall])
    else
      Step(s, [])
  }

  /**
   * The accumulated distance after an accepted delta `delta` that arrives `gapMs` after the
   * previous accepted one: restarted after an idle gap or a reversal, then extended by `delta`.
   */
  function Accumulate(total: real, delta: real, gapMs: int): (r: real)
    requires Abs(delta) >= NoiseFloor
    ensures r != 0.0 && Sign(r) == Sign(delta) && Abs(r) >= Abs(delta)
    ensures gapMs > IdleResetMs || Sign(total) == -Sign(delta) ==> r == delta
    ensures gapMs <= IdleResetMs && Sign(total) != -Sign(delta) ==> r == total + delta
  {
    var restart := gapMs > IdleResetMs || (total != 0.0 && Sign(delta) != Sign(total));
    (if restart then 0.0 else total) + delta
  }

  /**
   * The threshold stage of a scroll event: a long downward run hides a visible button, a long
   * upward run shows a hidden one, and either trigger empties the accumulator.
   */
  function Trigger(s: FabScrollState, ok: bool): (r: Step)
    requires !s.isAnimating
    ensures !r.state.isAnimating && |r.calls| <= 1
    ensures Abs(s.totalScrollDistance) >= ActionThreshold && s.totalScrollDistance > 0.0 && s.isVisible ==>
      && r.calls == [HideCall] && r.state.totalScrollDistance == 0.0 && r.state.isVisible == !ok
      && r.state.(isVisible := s.isVisible, totalScrollDistance := s.totalScrollDistance) == s
    ensures Abs(s.totalScrollDistance) >= ActionThreshold && s.totalScrollDistance < 0.0 && !s.isVisible ==>
      && r.calls == [ShowCall] && r.state.totalScrollDistance == 0.0 && r.state.isVisible == ok
      && r.state.(isVisible := s.isVisible, totalScrollDistance := s.totalScrollDistance) == s
    ensures NoPendingTrigger(s) ==> r == Step(s, [])
    ensures NoPendingTrigger(r.state)
  {
    if Abs(s.totalScrollDistance) >= ActionThreshold then
      var scrollingDown := s.totalScrollDistance > 0.0;
      if scrollingDown && s.isVisible then
        var h := Hidden(s, ok);
        Step(h.state.(totalScrollDistance := 0.0), h.calls)
      else if !scrollingDown && !s.isVisible then
        var h := Shown(s, ok);
        Step(h.state.(totalScrollDistance := 0.0), h.calls)
      else
        Step(s, [])
    else
      Step(s, [])
  }

  /** The top-of-view stage: an offset at or above the top shows a hidden button. */
  function AtTop(t: Step, scrollY: real, ok: bool): (r: Step)
    requires !t.state.isAnimating
    ensures !r.state.isAnimating
    ensures scrollY <= 0.0 && !t.state.isVisible ==>
      r.calls == t.calls + [ShowCall] && r.state.totalScrollDistance == 0.0 && r.state.isVisible == ok
    ensures scrollY > 0.0 || t.state.isVisible ==> r == t
  {
    if scrollY <= 0.0 && !t.state.isVisible then
      var sh := Shown(t.state, ok);
      Step(sh.state.(totalScrollDistance := 0.0), t.calls + sh.calls)
    else
      t
  }

  /**
   * OnScrollViewScrolled on the record `s` of a tracked view, for the offset `scrollY` arriving
   * at `nowMs`. `triggerOk` is the outcome of a threshold-stage call, `topOk` that of a
   * top-of-view call.
   */
  function Scrolled(s: FabScrollState, scrollY: real, nowMs: int, triggerOk: bool, topOk: bool): (r: Step)
    // an event arriving while a transition is in flight is dropped entirely
    ensures s.isAnimating ==> r == Step(s, [])
    // otherwise the offset is always recorded and no transition is left in flight
    ensures !s.isAnimating ==> r.state.lastY == scrollY && !r.state.isAnimating && r.state.fab == s.fab
    // a delta under the noise floor records the offset and nothing else
    ensures !s.isAnimating && Abs(scrollY - s.lastY) < NoiseFloor ==> r == Step(s.(lastY := scrollY), [])
    // an accepted delta stamps the time and leaves no trigger pending
    ensures !s.isAnimating && Abs(scrollY - s.lastY) >= NoiseFloor ==>
      r.state.lastScrollTime == nowMs && NoPendingTrigger(r.state)
    // at the top the button ends visible, unless the show that was attempted last has failed
    ensures !s.isAnimating && Abs(scrollY - s.lastY) >= NoiseFloor && scrollY <= 0.0 && !r.state.isVisible ==>
      !topOk && r.calls != [] && r.calls[|r.calls| - 1] == ShowCall && r.state.totalScrollDistance == 0.0
    ensures |r.calls| <= 2
  {
    if s.isAnimating then
      Step(s, [])
    else
      var delta := scrollY - s.lastY;
      var moved := s.(lastY := scrollY);
      if Abs(delta) < NoiseFloor then
        Step(moved, [])
      else
        var total := Accumulate(s.totalScrollDistance, delta, nowMs - s.lastScrollTime);
        var accumulated := moved.(lastScrollTime := nowMs, totalScrollDistance := total);
        AtTop(Trigger(accumulated, triggerOk), scrollY, topOk)
  }

  /** A sequence of scroll events delivered to one tracked view, one after the other. */
  function Run(s: FabScrollState, events: seq<ScrollEvent>): Step
    decreases |events|
  {
    if events == [] then
      Step(s, [])
    else
      var e := events[0];
      var first := Scrolled(s, e.scrollY, e.nowMs, e.triggerOk, e.topOk);
      var rest := Run(first.state, events[1..]);
      Step(rest.state, first.calls + rest.calls)
  }

  /** The animating flag never stays set: after any run of events no transition is in flight. */
  lemma {:induction false} RunNeverLeavesAnimating(s: FabScrollState, events: seq<ScrollEvent>)
    requires !s.isAnimating
    ensures !Run(s, events).state.isAnimating
    decreases |events|
  {
    if events != [] {
      var e := events[0];
      RunNeverLeavesAnimating(Scrolled(s, e.scrollY, e.nowMs, e.triggerOk, e.topOk).state, events[1..]);
    }
  }

  /** No run of scroll events leaves a trigger pending. */
  lemma {:induction false} RunKeepsNoPendingTrigger(s: FabScrollState, events: seq<ScrollEvent>)
    requires !s.isAnimating && NoPendingTrigger(s)
    ensures NoPendingTrigger(Run(s, events).state)
    decreases |events|
  {
    if events != [] {
      var e := events[0];
      var next := Scrolled(s, e.scrollY, e.nowMs, e.triggerOk, e.topOk).state;
      assert NoPendingTrigger(next);
      RunKeepsNoPendingTrigger(next, events[1..]);
    }
  }

  /** While a transition is in flight, every event of a run is dropped. */
  lemma {:induction false} RunWhileAnimatingIsInert(s: FabScrollState, events: seq<ScrollEvent>)
    requires s.isAnimating
    ensures Run(s, events) == Step(s, [])
    decreases |events|
  {
    if events != [] {
      RunWhileAnimatingIsInert(s, events[1..]);
    }
  }

  /** Three downward deltas of 5, 5 and 6 within 300 ms hide a visible button exactly once. */
  lemma SlowScrollHidesOnce()
    ensures
      var s := FabScrollState(1, 0.0, true, false, 0.0, 1000);
      var r := Run(s, [ScrollEvent(5.0, 1010, true, true), ScrollEvent(10.0, 1020, true, true),
                       ScrollEvent(16.0, 1030, true, true)]);
      r.calls == [HideCall] && r.state.totalScrollDistance == 0.0 && !r.state.isVisible
  {
    var s := FabScrollState(1, 0.0, true, false, 0.0, 1000);
    var s1 := Scrolled(s, 5.0, 1010, true, true);
    assert s1 == Step(s.(lastY := 5.0, lastScrollTime := 1010, totalScrollDistance := 5.0), []);
    var s2 := Scrolled(s1.state, 10.0, 1020, true, true);
    assert s2.state.totalScrollDistance == 10.0 && s2.calls == [];
    var s3 := Scrolled(s2.state, 16.0, 1030, true, true);
    assert s3.calls == [HideCall];
  }

  /** Two deltas of 10 separated by a 400 ms pause do not add up, so nothing is triggered. */
  lemma IdleGapPreventsTrigger()
    ensures
      var s := FabScrollState(1, 0.0, true, false, 0.0, 1000);
      var r := Run(s, [ScrollEvent(10.0, 1010, true, true), ScrollEvent(20.0, 1410, true, true)]);
      r.calls == [] && r.state.totalScrollDistance == 10.0 && r.state.isVisible
  {
    var s := FabScrollState(1, 0.0, true, false, 0.0, 1000);
    var s1 := Scrolled(s, 10.0, 1010, true, true);
    assert s1.state.totalScrollDistance == 10.0 && s1.calls == [];
    var s2 := Scrolled(s1.state, 20.0, 1410, true, true);
    assert s2.state.totalScrollDistance == 10.0 && s2.calls == [];
  }

  /** Reaching the top shows a hidden button even though the accumulated distance is small. */
  lemma TopShowsHiddenButton()
    ensures
      var s := FabScrollState(1, 5.0, false, false, 30.0, 1000);
      var r := Run(s, [ScrollEvent(0.0, 1010, true, true)]);
      r.calls == [ShowCall] && r.state.isVisible && r.state.totalScrollDistance == 0.0
  {
    var s := FabScrollState(1, 5.0, false, false, 30.0, 1000);
    assert Accumulate(30.0, -5.0, 10) == -5.0;
    var s1 := Scrolled(s, 0.0, 1010, true, true);
    assert s1.calls == [ShowCall];
  }

  /**
   * A final movement to the top that is smaller than the noise floor is ignored by the scroll
   * handler: only the ScrollY listener of AttachFab then shows the button.
   */
  lemma TopWithinNoiseFloorIsIgnored()
    ensures
      var s := FabScrollState(1, 0.5, false, false, 0.0, 1000);
      Scrolled(s, 0.0, 1010, true, true) == Step(s.(lastY := 0.0), [])
  {
  }

  /**
   * The registry of attached scroll views (`_trackedScrollViews`) together with the event
   * subscriptions that AttachFab and DetachFab make.
   */
  class ScrollRegistry {
    /** The tracking record of every attached scroll view. */
    var states: map<ViewId, FabScrollState>
    /** Scroll views whose Scrolled event is subscribed to OnScrollViewScrolled. */
    var scrolledHandlers: set<ViewId>
    /** Scroll views that have been given a ScrollY listener; listeners are never removed. */
    var scrollYListeners: set<ViewId>

    ghost predicate Valid()
      reads this
    {
      scrolledHandlers <= states.Keys
    }

    constructor ()
      ensures Valid()
      ensures states == map[] && scrolledHandlers == {} && scrollYListeners == {}
    {
      states := map[];
      scrolledHandlers := {};
      scrollYListeners := {};
    }

    /**
     * Attaches the button `fab` to `scrollView`, replacing any earlier record of that view by a
     * fresh one that starts at offset 0 with an empty accumulator and takes its visibility from
     * the button. A null view or button leaves everything as it was.
     */
    method AttachFab(scrollView: Option<ViewId>, fab: Option<FabInfo>, hideOnScroll: bool, nowMs: int)
      requires Valid()
      modifies this
      ensures Valid()
      ensures scrollView.None? || fab.None? ==>
        states == old(states) && scrolledHandlers == old(scrolledHandlers) && scrollYListeners == old(scrollYListeners)
      ensures scrollView.Some? && fab.Some? ==>
        var v, f := scrollView.value, fab.value;
        && states == old(states)[v := FreshRecord(f, nowMs)]
        && scrolledHandlers == (if hideOnScroll then old(scrolledHandlers) + {v} else old(scrolledHandlers) - {v})
        && scrollYListeners == (if hideOnScroll then old(scrollYListeners) + {v} else old(scrollYListeners))
    {
      if scrollView.None? || fab.None? {
        return;
      }
      DetachFab(scrollView);
      var v, f := scrollView.value, fab.value;
      var isCurrentlyVisible := f.opacity > 0.0 && f.scale > 0.0 && f.isVisible;
      states := states[v := FabScrollState(f.id, 0.0, isCurrentlyVisible, false, 0.0, nowMs)];
      if hideOnScroll {
        scrolledHandlers := scrolledHandlers + {v};
        scrollYListeners := scrollYListeners + {v};
      }
    }

    /**
     * Detaches `scrollView`: removes its record and its Scrolled subscription, and nothing
     * else. A null or untracked view is a no-op.
     */
    method DetachFab(scrollView: Option<ViewId>)
      requires Valid()
      modifies this
      ensures Valid()
      ensures scrollYListeners == old(scrollYListeners)
      ensures scrollView.None? || scrollView.value !in old(states) ==>
        states == old(states) && scrolledHandlers == old(scrolledHandlers)
      ensures scrollView.Some? ==>
        states == old(states) - {scrollView.value} && scrolledHandlers == old(scrolledHandlers) - {scrollView.value}
    {
      if scrollView.None? {
        return;
      }
      var v := scrollView.value;
      if v in states {
        scrolledHandlers := scrolledHandlers - {v};
        states := states - {v};
      }
    }

    /** ShowFab: shows the button of a tracked, hidden, idle view; returns the calls made. */
    method ShowFab(view: ViewId, ok: bool) returns (calls: seq<FabCall>)
      requires Valid()
      modifies this`states
      ensures Valid() && states.Keys == old(states).Keys
      ensures view !in old(states) ==> states == old(states) && calls == []
      ensures view in old(states) ==>
        states == old(states)[view := Shown(old(states)[view], ok).state] && calls == Shown(old(states)[view], ok).calls
    {
      calls := [];
      if view in states && !states[view].isVisible && !states[view].isAnimating {
        states := states[view := states[view].(isAnimating := true)];
        calls := [ShowCall];
        if ok {
          states := states[view := states[view].(isVisible := true)];
        }
        // the `finally` block
        if view in states {
          states := states[view := states[view].(isAnimating := false)];
        }
      }
    }

    /** HideFab: hides the button of a tracked, visible, idle view; returns the calls made. */
    method HideFab(view: ViewId, ok: bool) returns (calls: seq<FabCall>)
      requires Valid()
      modifies this`states
      ensures Valid() && states.Keys == old(states).Keys
      ensures view !in old(states) ==> states == old(states) && calls == []
      ensures view in old(states) ==>
        states == old(states)[view := Hidden(old(states)[view], ok).state] && calls == Hidden(old(states)[view], ok).calls
    {
      calls := [];
      if view in states && states[view].isVisible && !states[view].isAnimating {
        states := states[view := states[view].(isAnimating := true)];
        calls := [HideCall];
        if ok {
          states := states[view := states[view].(isVisible := false)];
        }
        // the `finally` block
        if view in states {
          states := states[view := states[view].(isAnimating := false)];
        }
      }
    }

    /**
     * OnScrollViewScrolled: the handler of a Scrolled event of `view` at offset `scrollY`.
     * An untracked view changes nothing; a tracked one follows Scrolled.
     */
    method OnScrollViewScrolled(view: ViewId, scrollY: real, nowMs: int, triggerOk: bool, topOk: bool)
      returns (calls: seq<FabCall>)
      requires Valid()
      modifies this`states
      ensures Valid() && states.Keys == old(states).Keys
      ensures view !in old(states) ==> states == old(states) && calls == []
      ensures view in old(states) ==>
        var r := Scrolled(old(states)[view], scrollY, nowMs, triggerOk, topOk);
        states == old(states)[view := r.state] && calls == r.calls
    {
      calls := [];
      if view !in states || states[view].isAnimating {
        return;
      }
      ghost var s0 := states[view];
      var accepted := RecordStage(view, scrollY, nowMs);
      if !accepted {
        return;
      }
      assert Scrolled(s0, scrollY, nowMs, triggerOk, topOk) == AtTop(Trigger(states[view], triggerOk), scrollY, topOk);
      calls := ActStage(view, scrollY, triggerOk, topOk);
    }

    /** The threshold stage followed by the top-of-view stage, on an accepted event. */
    method ActStage(view: ViewId, scrollY: real, triggerOk: bool, topOk: bool) returns (calls: seq<FabCall>)
      requires Valid() && view in states && !states[view].isAnimating
      modifies this`states
      ensures Valid() && states.Keys == old(states).Keys
      ensures var r := AtTop(Trigger(old(states)[view], triggerOk), scrollY, topOk);
        states == old(states)[view := r.state] && calls == r.calls
    {
      ghost var t := Trigger(states[view], triggerOk);
      calls := ThresholdStage(view, triggerOk);
      ghost var top := AtTop(Step(t.state, []), scrollY, topOk);
      var c := TopStage(view, scrollY, topOk);
      calls := calls + c;
      assert AtTop(t, scrollY, topOk) == Step(top.state, t.calls + top.calls);
    }

    /**
     * The part of OnScrollViewScrolled that records the offset and, for a delta above the noise
     * floor, stamps the time and accumulates the delta; `accepted` says whether the event goes on.
     */
    method RecordStage(view: ViewId, scrollY: real, nowMs: int) returns (accepted: bool)
      requires Valid() && view in states && !states[view].isAnimating
      modifies this`states
      ensures Valid() && states.Keys == old(states).Keys
      ensures var s := old(states)[view];
        && (accepted <==> Abs(scrollY - s.lastY) >= NoiseFloor)
        && (!accepted ==> states == old(states)[view := s.(lastY := scrollY)])
        && (accepted ==> states == old(states)[view := s.(lastY := scrollY, lastScrollTime := nowMs,
              totalScrollDistance := Accumulate(s.totalScrollDistance, scrollY - s.lastY, nowMs - s.lastScrollTime))])
    {
      // `state` is a local copy of the record, stored back once it is complete
      var state := states[view];
      var currentY := scrollY;
      var deltaY := currentY - state.lastY;
      state := state.(lastY := currentY);
      if Abs(deltaY) < NoiseFloor {
        states := states[view := state];
        return false;
      }
      var timeSinceLastScroll := nowMs - state.lastScrollTime;
      state := state.(lastScrollTime := nowMs);
      if timeSinceLastScroll > IdleResetMs
         || (state.totalScrollDistance != 0.0 && Sign(deltaY) != Sign(state.totalScrollDistance))
      {
        state := state.(totalScrollDistance := 0.0);
      }
      state := state.(totalScrollDistance := state.totalScrollDistance + deltaY);
      states := states[view := state];
      return true;
    }

    /** The part of OnScrollViewScrolled that compares the accumulated distance with the threshold. */
    method ThresholdStage(view: ViewId, ok: bool) returns (calls: seq<FabCall>)
      requires Valid() && view in states && !states[view].isAnimating
      modifies this`states
      ensures Valid() && states.Keys == old(states).Keys
      ensures states == old(states)[view := Trigger(old(states)[view], ok).state]
      ensures calls == Trigger(old(states)[view], ok).calls
    {
      calls := [];
      var state := states[view];
      if Abs(state.totalScrollDistance) >= ActionThreshold {
        var scrollingDown := state.totalScrollDistance > 0.0;
        if scrollingDown && state.isVisible {
          calls := HideFab(view, ok);
          states := states[view := states[view].(totalScrollDistance := 0.0)];
        } else if !scrollingDown && !state.isVisible {
          calls := ShowFab(view, ok);
          states := states[view := states[view].(totalScrollDistance := 0.0)];
        }
      }
    }

    /** The part of OnScrollViewScrolled that always shows the button at the top. */
    method TopStage(view: ViewId, currentY: real, ok: bool) returns (calls: seq<FabCall>)
      requires Valid() && view in states && !states[view].isAnimating
      modifies this`states
      ensures Valid() && states.Keys == old(states).Keys
      ensures var r := AtTop(Step(old(states)[view], []), currentY, ok);
        states == old(states)[view := r.state] && calls == r.calls
    {
      calls := [];
      if currentY <= 0.0 && !states[view].isVisible {
        calls := ShowFab(view, ok);
        states := states[view := states[view].(totalScrollDistance := 0.0)];
      }
    }

    /** The Scrolled event of `view`: it reaches OnScrollViewScrolled only while subscribed. */
    method ScrolledEventRaised(view: ViewId, scrollY: real, nowMs: int, triggerOk: bool, topOk: bool)
      returns (calls: seq<FabCall>)
      requires Valid()
      modifies this`states
      ensures Valid() && states.Keys == old(states).Keys
      ensures view !in scrolledHandlers ==> states == old(states) && calls == []
      ensures view in scrolledHandlers ==>
        var r := Scrolled(old(states)[view], scrollY, nowMs, triggerOk, topOk);
        states == old(states)[view := r.state] && calls == r.calls
    {
      calls := [];
      if view in scrolledHandlers {
        calls := OnScrollViewScrolled(view, scrollY, nowMs, triggerOk, topOk);
      }
    }

    /**
     * The ScrollY listener that AttachFab adds: when the offset reaches the top while the
     * tracked button is hidden, it shows the button (without awaiting it).
     */
    method OnScrollYChanged(view: ViewId, scrollY: real, ok: bool) returns (calls: seq<FabCall>)
      requires Valid()
      modifies this`states
      ensures Valid() && states.Keys == old(states).Keys
      ensures view in scrollYListeners && scrollY <= 0.0 && view in old(states) && !old(states)[view].isVisible ==>
        states == old(states)[view := Shown(old(states)[view], ok).state] && calls == Shown(old(states)[view], ok).calls
      ensures !(view in scrollYListeners && scrollY <= 0.0 && view in old(states) && !old(states)[view].isVisible) ==>
        states == old(states) && calls == []
    {
      calls := [];
      if view in scrollYListeners && scrollY <= 0.0 && view in states && !states[view].isVisible {
        calls := ShowFab(view, ok);
      }
    }
  }
}
