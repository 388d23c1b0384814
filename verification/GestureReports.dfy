// What each reported gesture event says: how many fingers made it, and where.
module GestureReports {
  import opened GestureMachine
  import opened GestureRuns
  import opened GestureLog

  // Taps are of as many fingers as their name says, drags and long presses of one.
  predicate FingersOk(e: Event) {
    match e.gesture
    case OneTap => e.fingers == 1
    case TwoTap => e.fingers == 2
    case ThreeTap => e.fingers == 3
    case Drag => e.fingers == 1
    case LongPress => e.fingers == 1
    case TwoDrag => e.fingers >= 2
    case Pinch => e.fingers >= 2
  }

  // Within a block, two-finger gestures stay where they began; a scroll begins at zero.
  predicate Stays(d: Event, e: Event) {
    TwoFinger(e) && e.kind != Begin ==> e.x == d.x && e.y == d.y && e.gesture == d.gesture
  }

  ghost predicate Reports(events: seq<Event>) {
    && (forall i :: 0 <= i < |events| ==> FingersOk(events[i]))
    && (forall i, j {:trigger events[i], events[j]} :: 0 <= i < |events| && j == i + 1 < |events| ==>
          Stays(events[i], events[j]))
    && (forall i :: 0 <= i < |events| && events[i].kind == Begin && events[i].gesture == TwoDrag ==>
          events[i].magnitudeX == 0.0 && events[i].magnitudeY == 0.0)
    && (events != [] ==> !TwoFinger(events[0]) || events[0].kind == Begin)
  }

  // While a two-finger gesture is on, its last report is where it began.
  ghost predicate Anchored(r: Recogniser) {
    r.state == TWODRAG || r.state == PINCH ==>
      && r.events != []
      && var e := r.events[|r.events| - 1];
        e.gesture == StateToGesture(r.state) && e.x == Average(FirstXs(r.tracked)) && e.y == Average(FirstYs(r.tracked))
  }

  ghost predicate Inv2(r: Recogniser) { Reports(r.events) && Anchored(r) }

  // How many fingers a state needs.
  ghost predicate Fits(state: Mask, n: nat) {
    && Known(state)
    && (state == ONETAP || state == DRAG || state == LONGPRESS ==> n == 1)
    && (state == TWOTAP ==> n == 2)
    && (state == THREETAP ==> n == 3)
    && (state == TWODRAG || state == PINCH ==> n >= 2)
  }

  lemma FitsCases(state: Mask, n: nat)
    requires Fits(state, n)
    ensures var g := StateToGesture(state);
      && (g == TwoDrag || g == Pinch <==> state == TWODRAG || state == PINCH)
      && (g == TwoDrag <==> state == TWODRAG)
      && (match g case OneTap => n == 1 case TwoTap => n == 2 case ThreeTap => n == 3
                  case Drag => n == 1 case LongPress => n == 1 case TwoDrag => n >= 2 case Pinch => n >= 2)
  {
    Masks(state);
  }

  lemma ReportsAppend(events: seq<Event>, e: Event)
    requires Reports(events) && FingersOk(e)
    requires if events == [] then TwoFinger(e) ==> e.kind == Begin else Stays(events[|events| - 1], e)
    requires e.kind == Begin && e.gesture == TwoDrag ==> e.magnitudeX == 0.0 && e.magnitudeY == 0.0
    ensures Reports(events + [e])
  {
    hide FingersOk, Stays;
  }

  lemma ReportsPush(r: Recogniser, kind: Kind)
    requires Reports(r.events) && Fits(r.state, |r.tracked|) && (kind != Begin ==> Anchored(r))
    ensures Inv2(Push(r, kind))
  {
    hide Reports, Fits, StateToGesture, Average, FirstXs, FirstYs, LastXs, LastYs, Spread;
    FitsCases(r.state, |r.tracked|);
    var events := Push(r, kind).events;
    ReportsAppend(r.events, events[|r.events|]);
    assert events == r.events + [events[|r.events|]];
  }

  lemma FirstsKept(t: map<int, Touch>, id: int, x: real, y: real)
    requires id in t
    ensures FirstXs(Moved(t, id, x, y)) == FirstXs(t) && FirstYs(Moved(t, id, x, y)) == FirstYs(t)
  {
  }

  lemma FirstsReleased(t: map<int, Touch>, id: int)
    ensures FirstXs(Released(t, id)) == FirstXs(t) && FirstYs(Released(t, id)) == FirstYs(t)
  {
  }

  lemma ShapeFits(r: Recogniser)
    requires Shape(r) && Detected(r)
    ensures Fits(r.state, |r.tracked|)
  {
    DetectedStates(r);
    hide AnyActive;
  }

  lemma ReportsDown(w: World, id: int, x: real, y: real)
    requires Inv(w) && Inv2(w.r) && id !in w.down
    ensures Inv2(TouchBegin(w.r, id, x, y, w.now))
  {
    BeginKeepsDetected(w.r, id, x, y, w.now, w.down);
    ShapeBegin(w.r, id, x, y, w.now, w.down);
    DetectedStates(w.r);
    DetectedStates(TouchBegin(w.r, id, x, y, w.now));
    hide Shape, Fingers, Detected, Track, Average, Reports;
  }

  lemma ReportsMove(r: Recogniser, id: int, x: real, y: real, apart: bool, hypot: (real, real) -> real)
    requires Shape(r) && Inv2(r)
    ensures Inv2(TouchUpdate(r, id, x, y, apart, hypot))
  {
    if id in r.tracked {
      var t := r.(tracked := Moved(r.tracked, id, x, y));
      FirstsKept(r.tracked, id, x, y);
      ShapeMove(r, id, x, y);
      DetectedStates(t);
      if Detected(t) {
        ShapeFits(t);
        ReportsPush(t, Update);
      } else {
        var v := FarMove(t, id, apart, hypot);
        FarMoveKeeps(t, id, apart, hypot);
        ShapeFarMove(t, id, apart, hypot);
        DetectedStates(v);
        if Detected(v) {
          ShapeFits(v);
          ReportsPush(v, Begin);
          ReportsPush(Push(v, Begin), Update);
        }
      }
      hide Shape, FarMove, Moved, Detected, Push, Reports, Average, Fits;
    }
  }

  lemma ReportsFinish(v: Recogniser, id: int)
    requires Reports(v.events) && (Detected(v) ==> Anchored(v) && Fits(v.state, |v.tracked|))
    ensures Inv2(Finish(v, id))
  {
    if Detected(v) { ReportsPush(v, End); }
    FinishKeeps(v, id);
    hide Detected, Push, Reports, Average, Fits, ActiveIds;
  }

  lemma ReportsUp(w: World, id: int)
    requires Inv(w) && Inv2(w.r) && id in w.down
    ensures Inv2(TouchEnd(w.r, id, w.now))
  {
    var r := w.r;
    if id in r.ignored {
      hide Shape, Reports, Average, Lifted, Finish;
    } else {
      assert id in ActiveIds(r.tracked);
      var v := Lifted(r, id, w.now);
      LiftedOk(r, id, w.now);
      LiftedFirsts(r, id, w.now);
      DetectedStates(r);
      TwoBarsDetected(v);
      if Detected(v) {
        LiftedFits(r, id, w.now);
        ReportsPush(v, Begin);
        DetectedPush(v, Begin);
        ReportsFinish(Push(v, Begin), id);
      }
      if !v.waitingRelease || v.state == NOGESTURE { ReportsFinish(v, id); }
      hide Shape, Fingers, Lifted, Finish, Push, Detected, Reports, Average, Fits, Blocks;
    }
  }

  lemma LiftedFirsts(r: Recogniser, id: int, now: nat)
    ensures var v := Lifted(r, id, now);
      FirstXs(v.tracked) == FirstXs(r.tracked) && FirstYs(v.tracked) == FirstYs(r.tracked)
  {
    FirstsReleased(r.tracked, id);
    hide Detected, FirstXs, FirstYs, TooSlow, Released;
  }

  lemma LiftedFits(r: Recogniser, id: int, now: nat)
    requires Shape(r) && id in r.tracked && r.tracked[id].active && Detected(Lifted(r, id, now))
    ensures Fits(Lifted(r, id, now).state, |r.tracked|)
  {
    LiftedOk(r, id, now);
    DetectedStates(r);
    TwoBarsDetected(Lifted(r, id, now));
    if Detected(r) { ShapeFits(r); }
    hide Shape, Lifted, Detected;
  }

  lemma ReportsTimers(r: Recogniser, hypot: (real, real) -> real)
    requires Shape(r) && Inv2(r)
    ensures r.longpress ==> Inv2(LongpressTimeout(r))
    ensures r.twoTouch ==> Inv2(TwoTouchTimeout(r, hypot))
  {
    if r.longpress {
      ReportsPush(r.(longpress := false, state := LONGPRESS, failed := r.failed || Detected(r)), Begin);
    }
    if r.twoTouch {
      var s := BeforeTwoTouch(r, hypot);
      assert Fits(s.state, |s.tracked|);
      ReportsPush(s, Begin);
      ReportsPush(Push(s, Begin), Update);
    }
    hide Shape, Push, Reports, Anchored, Average, Spread, FirstXs, FirstYs, LastXs, LastYs;
  }

  lemma {:induction false} RunReports(inputs: seq<Input>, hypot: (real, real) -> real)
    ensures Inv2(Run(inputs, hypot).r)
    decreases |inputs|
  {
    if inputs != [] {
      var w, i := Run(inputs[..|inputs| - 1], hypot), inputs[|inputs| - 1];
      RunReports(inputs[..|inputs| - 1], hypot);
      RunKeeps(inputs[..|inputs| - 1], hypot);
      match i {
        case Down(id, x, y) => if id !in w.down { ReportsDown(w, id, x, y); }
        case Move(id, x, y, apart) => ReportsMove(w.r, id, x, y, apart, hypot);
        case Up(id) => if id in w.down { ReportsUp(w, id); }
        case _ => ReportsTimers(w.r, hypot);
      }
      hide Shape, Fingers, Blocks, Inv2, TouchBegin, TouchUpdate, TouchEnd, LongpressTimeout, TwoTouchTimeout, LateMove;
    }
  }

  // Every gesture is reported with the number of fingers it takes, and every report of
  // a scroll or a pinch is where the block began.
  lemma GesturesReported(inputs: seq<Input>, hypot: (real, real) -> real)
    ensures Reports(Run(inputs, hypot).r.events)
  {
    RunReports(inputs, hypot);
  }
}
