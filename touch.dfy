// The selector touch state machines: the two-selector handler of the
// range picker (pointgraph/lagrange/LaGrangeTouchHandler.kt) and the
// one-selector handler of the end picker
// (pointgraph/graphend/GraphEndTouchHandler.kt). Each handler is a class
// whose fields the events update; the same update is given as a pure Step
// function, so that properties of whole gestures can be stated as lemmas.
// The touch-field hit tests belong to the view and are passed in as the
// booleans they return at the press point.

module Touch {

  /** The part of an Android MotionEvent the handlers look at. */
  datatype MotionEvent = Down(x: real, y: real) | Move(x: real) | Up | Cancel

  // ---------------------------------------------------------------------
  // Two selectors (LaGrangeTouchHandler)
  // ---------------------------------------------------------------------

  /** A listener call of the two-selector handler. */
  datatype SelectorChange = MinSelectorChanged(x: real) | MaxSelectorChanged(x: real)

  datatype LaGrangeState = LaGrangeState(
    actionDownXValue: real, actionDownYValue: real, actionMoveXValue: real,
    minSelectorSelected: bool, maxSelectorSelected: bool, bothSelectorsSelected: bool)

  const LaGrangeInitial := LaGrangeState(0.0, 0.0, 0.0, false, false, false)

  /** isAnySelectorSelected */
  predicate AnySelected(s: LaGrangeState)
  {
    s.bothSelectorsSelected || s.minSelectorSelected || s.maxSelectorSelected
  }

  predicate AtMostOneFlag(s: LaGrangeState)
  {
    !(s.minSelectorSelected && s.maxSelectorSelected)
    && !(s.minSelectorSelected && s.bothSelectorsSelected)
    && !(s.maxSelectorSelected && s.bothSelectorsSelected)
  }

  /**
   * The flag update of handleTouchEvent. A press sets the flag of the
   * fields it hits (both, min or max) and leaves the others alone; a move
   * in the both-state picks a side by the direction from the press point;
   * a release or cancel clears everything.
   */
  function LaGrangeStep(s: LaGrangeState, e: MotionEvent, inMinField: bool, inMaxField: bool): LaGrangeState
  {
    match e
    case Down(x, y) =>
      var s := s.(actionDownXValue := x, actionDownYValue := y);
      if inMinField && inMaxField then s.(bothSelectorsSelected := true)
      else if inMinField then s.(minSelectorSelected := true)
      else if inMaxField then s.(maxSelectorSelected := true)
      else s
    case Move(x) =>
      var s := s.(actionMoveXValue := x);
      if s.bothSelectorsSelected then
        if x < s.actionDownXValue then s.(bothSelectorsSelected := false, minSelectorSelected := true)
        else if x > s.actionDownXValue then s.(bothSelectorsSelected := false, maxSelectorSelected := true)
        else s
      else s
    case _ => s.(bothSelectorsSelected := false, minSelectorSelected := false, maxSelectorSelected := false)
  }

  /**
   * The listener call after the update: the min selector follows the
   * finger if it is selected, else the max selector if it is; releases
   * have no position and call nothing.
   */
  function LaGrangeFired(s: LaGrangeState, e: MotionEvent): seq<SelectorChange>
  {
    if e.Up? || e.Cancel? then []
    else if s.minSelectorSelected then [MinSelectorChanged(e.x)]
    else if s.maxSelectorSelected then [MaxSelectorChanged(e.x)]
    else []
  }

  /** The press classifies by the fields hit; the press point is recorded. */
  lemma LaGrangeDown(s: LaGrangeState, x: real, y: real, inMin: bool, inMax: bool)
    requires !AnySelected(s)
    ensures var t := LaGrangeStep(s, Down(x, y), inMin, inMax);
      t.actionDownXValue == x && t.actionDownYValue == y
      && t.bothSelectorsSelected == (inMin && inMax)
      && t.minSelectorSelected == (inMin && !inMax)
      && t.maxSelectorSelected == (inMax && !inMin)
      && LaGrangeFired(t, Down(x, y)) == (if inMin && !inMax then [MinSelectorChanged(x)]
                                          else if inMax && !inMin then [MaxSelectorChanged(x)]
                                          else [])
  {
  }

  /** In the both-state a move picks a side by strict direction; no move stays undecided. */
  lemma LaGrangeResolve(s: LaGrangeState, x: real, inMin: bool, inMax: bool)
    requires s.bothSelectorsSelected && !s.minSelectorSelected && !s.maxSelectorSelected
    ensures var t := LaGrangeStep(s, Move(x), inMin, inMax);
      (x < s.actionDownXValue ==> t.minSelectorSelected && !t.maxSelectorSelected && !t.bothSelectorsSelected
                                  && LaGrangeFired(t, Move(x)) == [MinSelectorChanged(x)])
      && (x > s.actionDownXValue ==> t.maxSelectorSelected && !t.minSelectorSelected && !t.bothSelectorsSelected
                                     && LaGrangeFired(t, Move(x)) == [MaxSelectorChanged(x)])
      && (x == s.actionDownXValue ==> t.bothSelectorsSelected && LaGrangeFired(t, Move(x)) == [])
  {
  }

  /** Release and cancel clear every flag and call nothing. */
  lemma LaGrangeRelease(s: LaGrangeState, e: MotionEvent, inMin: bool, inMax: bool)
    requires e.Up? || e.Cancel?
    ensures !AnySelected(LaGrangeStep(s, e, inMin, inMax))
    ensures LaGrangeFired(LaGrangeStep(s, e, inMin, inMax), e) == []
  {
  }

  /** One event keeps at most one flag set, provided a press finds no flag set. */
  lemma LaGrangeStepAtMostOne(s: LaGrangeState, e: MotionEvent, inMin: bool, inMax: bool)
    requires AtMostOneFlag(s) && (e.Down? ==> !AnySelected(s))
    ensures AtMostOneFlag(LaGrangeStep(s, e, inMin, inMax))
  {
  }

  /** The flag state after a sequence of events, with the hit-test results of each. */
  function LaGrangeRun(s: LaGrangeState, es: seq<MotionEvent>, hits: seq<(bool, bool)>): LaGrangeState
    requires |hits| == |es|
    decreases |es|
  {
    if es == [] then s else LaGrangeRun(LaGrangeStep(s, es[0], hits[0].0, hits[0].1), es[1..], hits[1..])
  }

  /** Gestures that end in a release or a cancel before the next press. */
  ghost predicate Gestures(es: seq<MotionEvent>)
  {
    forall k :: 0 < k < |es| && es[k].Down? ==> es[k - 1].Up? || es[k - 1].Cancel?
  }

  /**
   * From a state with no flag set, a sequence of complete gestures never
   * has more than one flag set, whatever the hit tests say.
   */
  lemma {:induction false} LaGrangeRunAtMostOne(s: LaGrangeState, es: seq<MotionEvent>, hits: seq<(bool, bool)>)
    requires |hits| == |es| && !AnySelected(s) && Gestures(es)
    ensures AtMostOneFlag(LaGrangeRun(s, es, hits))
  {
    LaGrangeRunFrom(s, es, hits);
  }

  lemma {:induction false} LaGrangeRunFrom(s: LaGrangeState, es: seq<MotionEvent>, hits: seq<(bool, bool)>)
    requires |hits| == |es| && AtMostOneFlag(s) && Gestures(es)
    requires es != [] && es[0].Down? ==> !AnySelected(s)
    ensures AtMostOneFlag(LaGrangeRun(s, es, hits))
    decreases |es|
  {
    if es != [] {
      var t := LaGrangeStep(s, es[0], hits[0].0, hits[0].1);
      LaGrangeStepAtMostOne(s, es[0], hits[0].0, hits[0].1);
      var rest := es[1..];
      assert Gestures(rest) by {
        forall k | 0 < k < |rest| && rest[k].Down? ensures rest[k - 1].Up? || rest[k - 1].Cancel? {
          assert es[k + 1] == rest[k] && es[k] == rest[k - 1];
        }
      }
      if rest != [] && rest[0].Down? {
        assert es[1].Down?;
        LaGrangeRelease(s, es[0], hits[0].0, hits[0].1);
      }
      LaGrangeRunFrom(t, rest, hits[1..]);
    }
  }

  /** Without the release, a second press can leave two flags set. */
  lemma LaGrangePressWithoutRelease()
    ensures var s := LaGrangeStep(LaGrangeInitial, Down(1.0, 0.0), true, false);
      var t := LaGrangeStep(s, Down(2.0, 0.0), true, true);
      t.minSelectorSelected && t.bothSelectorsSelected
  {
  }

  /** LaGrangeTouchHandler: the flags and press point, and the listener calls made so far. */
  class LaGrangeTouchHandler {
    var actionDownXValue: real
    var actionDownYValue: real
    var actionMoveXValue: real
    var minSelectorSelected: bool
    var maxSelectorSelected: bool
    var bothSelectorsSelected: bool
    var dispatched: seq<SelectorChange>

    function State(): LaGrangeState
      reads this
    {
      LaGrangeState(actionDownXValue, actionDownYValue, actionMoveXValue,
                    minSelectorSelected, maxSelectorSelected, bothSelectorsSelected)
    }

    constructor ()
      ensures State() == LaGrangeInitial && dispatched == []
    {
      actionDownXValue, actionDownYValue, actionMoveXValue := 0.0, 0.0, 0.0;
      minSelectorSelected, maxSelectorSelected, bothSelectorsSelected := false, false, false;
      dispatched := [];
    }

    /**
     * handleTouchEvent; isInMinField and isInMaxField are the listener's
     * hit tests, asked at the press point.
     */
    method HandleTouchEvent(event: MotionEvent, isInMinField: (real, real) -> bool, isInMaxField: (real, real) -> bool)
      modifies this
      ensures event.Down? ==> State() == LaGrangeStep(old(State()), event, isInMinField(event.x, event.y), isInMaxField(event.x, event.y))
      ensures !event.Down? ==> State() == LaGrangeStep(old(State()), event, false, false)
      ensures dispatched == old(dispatched) + LaGrangeFired(State(), event)
    {
      match event {
        case Down(x, y) =>
          actionDownXValue := x;
          actionDownYValue := y;
          var minSelectorTouchFieldContainsTouch := isInMinField(actionDownXValue, actionDownYValue);
          var maxSelectorTouchFieldContainsTouch := isInMaxField(actionDownXValue, actionDownYValue);
          if minSelectorTouchFieldContainsTouch && maxSelectorTouchFieldContainsTouch {
            bothSelectorsSelected := true;
          } else if minSelectorTouchFieldContainsTouch {
            minSelectorSelected := true;
          } else if maxSelectorTouchFieldContainsTouch {
            maxSelectorSelected := true;
          }
        case Move(x) =>
          actionMoveXValue := x;
          if bothSelectorsSelected {
            if actionMoveXValue < actionDownXValue {
              bothSelectorsSelected := false;
              minSelectorSelected := true;
            } else if actionMoveXValue > actionDownXValue {
              bothSelectorsSelected := false;
              maxSelectorSelected := true;
            }
          }
        case _ =>
          bothSelectorsSelected := false;
          minSelectorSelected := false;
          maxSelectorSelected := false;
      }
      if !(event.Up? || event.Cancel?) {
        var newXPosition := event.x;
        if minSelectorSelected {
          dispatched := dispatched + [MinSelectorChanged(newXPosition)];
        } else if maxSelectorSelected {
          dispatched := dispatched + [MaxSelectorChanged(newXPosition)];
        }
      }
    }

    /** isAnySelectorSelected */
    function IsAnySelectorSelected(): (b: bool)
      reads this
      ensures b == AnySelected(State())
    {
      bothSelectorsSelected || minSelectorSelected || maxSelectorSelected
    }
  }

  // ---------------------------------------------------------------------
  // One selector (GraphEndTouchHandler)
  // ---------------------------------------------------------------------

  /** A listener call of the one-selector handler. */
  datatype SelectorEvent = SelectorPressed | SelectorReleased | SelectorChanged(x: real)

  datatype GraphEndState = GraphEndState(
    actionDownXValue: real, actionDownYValue: real, selectorSelected: bool)

  /**
   * handleTouchEvent of the one-selector handler: the new state and the
   * listener calls, in order. A press inside the selector selects it and
   * reports the press; a release or cancel of a selected selector
   * deselects it and reports the release; then, while selected, the
   * position is reported.
   */
  function GraphEndStep(s: GraphEndState, e: MotionEvent, inSelector: bool): (GraphEndState, seq<SelectorEvent>)
  {
    var (t, calls) :=
      match e
      case Down(x, y) =>
        var s := s.(actionDownXValue := x, actionDownYValue := y);
        if inSelector then (s.(selectorSelected := true), [SelectorPressed]) else (s, [])
      case Move(_) => (s, [])
      case _ => if s.selectorSelected then (s.(selectorSelected := false), [SelectorReleased]) else (s, []);
    (t, if t.selectorSelected && !(e.Up? || e.Cancel?) then calls + [SelectorChanged(e.x)] else calls)
  }

  /** The press and release calls of an event: one press on a hit, one release when selected. */
  lemma GraphEndStepCalls(s: GraphEndState, e: MotionEvent, inSelector: bool)
    ensures var (t, calls) := GraphEndStep(s, e, inSelector);
      (e.Down? && inSelector ==> t.selectorSelected && calls == [SelectorPressed, SelectorChanged(e.x)])
      && (e.Down? && !inSelector ==> t.selectorSelected == s.selectorSelected)
      && ((e.Up? || e.Cancel?) ==>
            !t.selectorSelected && calls == (if s.selectorSelected then [SelectorReleased] else []))
      && (e.Move? ==> t.selectorSelected == s.selectorSelected
                      && calls == (if s.selectorSelected then [SelectorChanged(e.x)] else []))
  {
  }

  /** Replays a sequence of events, collecting the listener calls. */
  function GraphEndRun(s: GraphEndState, es: seq<MotionEvent>, hits: seq<bool>): (GraphEndState, seq<SelectorEvent>)
    requires |hits| == |es|
    decreases |es|
  {
    if es == [] then (s, [])
    else
      var (t, calls) := GraphEndStep(s, es[0], hits[0]);
      var (u, more) := GraphEndRun(t, es[1..], hits[1..]);
      (u, calls + more)
  }

  /**
   * Whether a press is outstanding after the calls, starting from pending:
   * a press opens one, a release closes it.
   */
  function Pending(calls: seq<SelectorEvent>, pending: bool): bool
  {
    if calls == [] then pending
    else Pending(calls[1..], if calls[0].SelectorPressed? then true else if calls[0].SelectorReleased? then false else pending)
  }

  /** No release without a press since the previous release. */
  ghost predicate ReleasesMatched(calls: seq<SelectorEvent>, pending: bool)
  {
    if calls == [] then true
    else
      (calls[0].SelectorReleased? ==> pending)
      && ReleasesMatched(calls[1..], if calls[0].SelectorPressed? then true else if calls[0].SelectorReleased? then false else pending)
  }

  lemma {:induction false} ReleasesMatchedConcat(a: seq<SelectorEvent>, b: seq<SelectorEvent>, pending: bool)
    ensures ReleasesMatched(a + b, pending) == (ReleasesMatched(a, pending) && ReleasesMatched(b, Pending(a, pending)))
    ensures Pending(a + b, pending) == Pending(b, Pending(a, pending))
  {
    if a != [] {
      assert (a + b)[0] == a[0] && (a + b)[1..] == a[1..] + b;
      var p := if a[0].SelectorPressed? then true else if a[0].SelectorReleased? then false else pending;
      ReleasesMatchedConcat(a[1..], b, p);
    } else {
      assert a + b == b;
    }
  }

  /**
   * Over any sequence of events, the handler reports a release only after a
   * press it has not yet released, when it starts with no press outstanding
   * exactly when the selector is not selected; and a press is outstanding
   * at the end exactly when the selector is still selected.
   */
  lemma {:induction false} GraphEndReleasesMatched(s: GraphEndState, es: seq<MotionEvent>, hits: seq<bool>)
    requires |hits| == |es|
    ensures var (u, calls) := GraphEndRun(s, es, hits);
      ReleasesMatched(calls, s.selectorSelected) && Pending(calls, s.selectorSelected) == u.selectorSelected
    decreases |es|
  {
    if es != [] {
      var (t, calls) := GraphEndStep(s, es[0], hits[0]);
      var (u, more) := GraphEndRun(t, es[1..], hits[1..]);
      GraphEndReleasesMatched(t, es[1..], hits[1..]);
      ReleasesMatchedConcat(calls, more, s.selectorSelected);
      GraphEndStepCalls(s, es[0], hits[0]);
      GraphEndStepMatched(s, es[0], hits[0]);
    }
  }

  /** One event's calls release only an outstanding press and leave one outstanding iff selected. */
  lemma GraphEndStepMatched(s: GraphEndState, e: MotionEvent, inSelector: bool)
    ensures var (t, calls) := GraphEndStep(s, e, inSelector);
      ReleasesMatched(calls, s.selectorSelected) && Pending(calls, s.selectorSelected) == t.selectorSelected
  {
    var (t, calls) := GraphEndStep(s, e, inSelector);
    if calls != [] {
      var rest := calls[1..];
      assert rest == [] || (|rest| == 1 && rest[0].SelectorChanged?);
      if rest != [] {
        assert calls[0] == SelectorPressed && rest[1..] == [];
        assert Pending(rest, true) == Pending([], true);
        assert ReleasesMatched(rest, true) == ReleasesMatched([], true);
      }
    }
  }

  /** GraphEndTouchHandler: the selection flag and press point, and the listener calls made so far. */
  class GraphEndTouchHandler {
    var actionDownXValue: real
    var actionDownYValue: real
    var actionMoveXValue: real
    var selectorSelected: bool
    var calls: seq<SelectorEvent>

    function State(): GraphEndState
      reads this
    {
      GraphEndState(actionDownXValue, actionDownYValue, selectorSelected)
    }

    constructor ()
      ensures State() == GraphEndState(0.0, 0.0, false) && calls == []
    {
      actionDownXValue, actionDownYValue, actionMoveXValue := 0.0, 0.0, 0.0;
      selectorSelected := false;
      calls := [];
    }

    /** handleTouchEvent; isInSelector is the listener's hit test, asked at the press point. */
    method HandleTouchEvent(event: MotionEvent, isInSelector: (real, real) -> bool)
      modifies this
      ensures var hit := event.Down? && isInSelector(event.x, event.y);
        State() == GraphEndStep(old(State()), event, hit).0
        && calls == old(calls) + GraphEndStep(old(State()), event, hit).1
    {
      match event {
        case Down(x, y) =>
          actionDownXValue := x;
          actionDownYValue := y;
          var selectorTouchFieldContainsTouch := isInSelector(actionDownXValue, actionDownYValue);
          if selectorTouchFieldContainsTouch {
            selectorSelected := true;
            calls := calls + [SelectorPressed];
          }
        case Move(x) =>
        case _ =>
          if selectorSelected {
            selectorSelected := false;
            calls := calls + [SelectorReleased];
          }
      }
      if selectorSelected && !(event.Up? || event.Cancel?) {
        calls := calls + [SelectorChanged(event.x)];
      }
    }

    /** isSelectorSelected */
    function IsSelectorSelected(): (b: bool)
      reads this
      ensures b == State().selectorSelected
    {
      selectorSelected
    }
  }
}
