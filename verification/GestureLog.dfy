// What the recogniser reports, over every run.
module GestureLog {
  import opened GestureMachine
  import opened GestureRuns

  // ----- Blocks: Begin, any number of Updates, End, all of one gesture ------------

  datatype Parse = Closed | Open(gesture: Gesture) | Broken

  function ParseStep(p: Parse, kind: Kind, gesture: Gesture): Parse {
    if p == Closed && kind == Begin then Open(gesture)
    else if p == Open(gesture) && kind == Update then p
    else if p == Open(gesture) && kind == End then Closed
    else Broken
  }

  function ParseOf(events: seq<Event>): Parse {
    if events == [] then Closed
    else
      var e := events[|events| - 1];
      ParseStep(ParseOf(events[..|events| - 1]), e.kind, e.gesture)
  }

  // A gesture detected while waiting for releases can only come from a late timer.
  ghost predicate Blocks(w: World) {
    && (!w.late ==> ParseOf(w.r.events) == if Detected(w.r) then Open(StateToGesture(w.r.state)) else Closed)
    && (w.late ==> ParseOf(w.r.events) != Closed)
    && (w.late && Detected(w.r) && !w.r.waitingRelease ==> ParseOf(w.r.events) == Broken)
    && (w.r.waitingRelease && Detected(w.r) ==> w.late)
    && (w.r.twoTouch && w.r.waitingRelease ==> w.lateMove)
    && (w.late ==> w.lateMove)
  }

  lemma ParsePush(r: Recogniser, kind: Kind)
    ensures ParseOf(Push(r, kind).events) == ParseStep(ParseOf(r.events), kind, StateToGesture(r.state))
  {
    hide StateToGesture, EventX, EventY, MagnitudeX, MagnitudeY;
    assert Push(r, kind).events[..|r.events|] == r.events;
  }

  ghost predicate Inv(w: World) {
    Shape(w.r) && Fingers(w.r, w.down) && Blocks(w)
  }

  lemma BeginKeepsDetected(r: Recogniser, id: int, x: real, y: real, now: nat, down: set<int>)
    requires Shape(r) && Fingers(r, down) && id !in down
    ensures var t := TouchBegin(r, id, x, y, now);
      && t.events == r.events && t.waitingRelease == r.waitingRelease && t.twoTouch == r.twoTouch
      && (Detected(t) <==> Detected(r)) && (Detected(r) ==> t.state == r.state)
  {
    DetectedStates(r);
    ShapeBegin(r, id, x, y, now, down);
    DetectedStates(TouchBegin(r, id, x, y, now));
    if !Detected(r) && r.state != NOGESTURE && !r.waitingRelease {
      assert id !in r.tracked;
      BegunOk(|r.tracked|, r.state);
    }
    hide Shape, Detected, BegunMask, StateOk, Fingers;
  }

  lemma BlocksDown(w: World, id: int, x: real, y: real)
    requires Inv(w) && id !in w.down
    ensures Blocks(w.(r := TouchBegin(w.r, id, x, y, w.now), down := w.down + {id}))
  {
    BeginKeepsDetected(w.r, id, x, y, w.now, w.down);
    hide Shape, Fingers, TouchBegin, Detected, StateToGesture;
  }

  lemma DetectedAfterMove(r: Recogniser, id: int, x: real, y: real)
    requires id in r.tracked
    ensures Detected(r.(tracked := Moved(r.tracked, id, x, y))) <==> Detected(r)
  {
    MovedKeeps(r.tracked, id, x, y);
    hide Moved, AnyActive;
  }

  lemma FarMoveKeeps(t: Recogniser, id: int, apart: bool, hypot: (real, real) -> real)
    requires id in t.tracked
    ensures var v := FarMove(t, id, apart, hypot);
      v.events == t.events && v.waitingRelease == t.waitingRelease && v.tracked == t.tracked && v.ignored == t.ignored
  {
    hide Other, MovedMask;
  }

  // What a move past the threshold adds to the log.
  lemma LogFarMove(t: Recogniser, id: int, apart: bool, hypot: (real, real) -> real)
    requires Shape(t) && !Detected(t) && id in t.tracked
    ensures var v := FarMove(t, id, apart, hypot);
      var u := if Detected(v) then Push(Push(v, Begin), Update) else v;
      && u.waitingRelease == t.waitingRelease && (Detected(u) <==> Detected(v))
      && (Detected(u) ==> !t.waitingRelease)
      && ParseOf(u.events) == (if !Detected(u) then ParseOf(t.events)
                               else if ParseOf(t.events) == Closed then Open(StateToGesture(u.state)) else Broken)
  {
    var v := FarMove(t, id, apart, hypot);
    FarMoveKeeps(t, id, apart, hypot);
    ShapeFarMove(t, id, apart, hypot);
    ParsePush(v, Begin);
    ParsePush(Push(v, Begin), Update);
    DetectedPush(v, Begin);
    DetectedPush(Push(v, Begin), Update);
    hide Shape, FarMove, Detected, StateToGesture, Push, ParseOf;
  }

  // What a move adds to the log while a gesture is on.
  lemma LogMoveOn(r: Recogniser, i: Input, hypot: (real, real) -> real)
    requires Detected(r) && i.Move?
    ensures var u := TouchUpdate(r, i.id, i.x, i.y, i.apart, hypot);
      && u.waitingRelease == r.waitingRelease && u.twoTouch == r.twoTouch && Detected(u) && u.state == r.state
      && (u.events == r.events || ParseOf(u.events) == ParseStep(ParseOf(r.events), Update, StateToGesture(r.state)))
  {
    if i.id in r.tracked {
      var t := r.(tracked := Moved(r.tracked, i.id, i.x, i.y));
      DetectedAfterMove(r, i.id, i.x, i.y);
      ParsePush(t, Update);
      DetectedPush(t, Update);
      hide FarMove, Moved, Detected, StateToGesture, Push, ParseOf, ParseStep;
    }
  }

  // What a move adds to the log before any gesture is.
  lemma LogMoveOff(r: Recogniser, i: Input, hypot: (real, real) -> real)
    requires Shape(r) && !Detected(r) && i.Move?
    ensures var u := TouchUpdate(r, i.id, i.x, i.y, i.apart, hypot);
      && u.waitingRelease == r.waitingRelease
      && (u.twoTouch && r.waitingRelease ==> r.twoTouch || LateMove(r, i, hypot))
      && (if Detected(u) then
            && !r.waitingRelease
            && ParseOf(u.events) ==
                 if ParseOf(r.events) == Closed then Open(StateToGesture(u.state)) else Broken
          else ParseOf(u.events) == ParseOf(r.events))
  {
    if i.id in r.tracked {
      var t := r.(tracked := Moved(r.tracked, i.id, i.x, i.y));
      DetectedAfterMove(r, i.id, i.x, i.y);
      ShapeMove(r, i.id, i.x, i.y);
      LogFarMove(t, i.id, i.apart, hypot);
      hide Shape, FarMove, Moved, Detected, StateToGesture, Push, ParseOf;
    }
  }

  lemma BlocksMove(w: World, i: Input, hypot: (real, real) -> real)
    requires Inv(w) && i.Move?
    ensures Blocks(Apply(w, i, hypot))
  {
    if Detected(w.r) { LogMoveOn(w.r, i, hypot); } else { LogMoveOff(w.r, i, hypot); }
    hide Shape, Fingers, Detected, StateToGesture, ParseOf, TouchUpdate, LateMove;
  }

  lemma FinishKeeps(v: Recogniser, id: int)
    ensures var f := Finish(v, id);
      && !Detected(f) && (f.twoTouch == v.twoTouch)
      && f.events == (if Detected(v) then Push(v, End).events else v.events)
  {
    assert !SingleBit(INITSTATE) && !SingleBit(NOGESTURE);
    hide SingleBit, StateToGesture, EventX, EventY, MagnitudeX, MagnitudeY, ActiveIds;
  }

  // How handleTouchEnd() goes on from the lifted state.
  ghost function Ended(v: Recogniser, id: int): Recogniser {
    if !v.waitingRelease then Finish(v, id)
    else if Detected(v) then Finish(Push(v, Begin), id)
    else if v.state != NOGESTURE then v
    else Finish(v, id)
  }

  lemma EndIsEnded(r: Recogniser, id: int, now: nat)
    requires id !in r.ignored
    ensures TouchEnd(r, id, now) == Ended(Lifted(r, id, now), id)
  {
    hide Lifted, Finish, Push, Detected;
  }

  // What the end of a release adds to the log.
  lemma LogEnded(v: Recogniser, id: int)
    ensures var u, p, g := Ended(v, id), ParseOf(v.events), StateToGesture(v.state);
      && u.twoTouch == v.twoTouch
      && (v.waitingRelease && v.state != NOGESTURE && !Detected(v) ==> u == v)
      && (!(v.waitingRelease && v.state != NOGESTURE && !Detected(v)) ==> !Detected(u))
      && (!Detected(v) ==> u.events == v.events)
      && (Detected(v) && v.waitingRelease ==> ParseOf(u.events) == ParseStep(ParseStep(p, Begin, g), End, g))
      && (Detected(v) && !v.waitingRelease ==> ParseOf(u.events) == ParseStep(p, End, g))
  {
    hide Detected, Push, Finish, ParseOf, ParseStep, StateToGesture;
    FinishKeeps(v, id);
    FinishKeeps(Push(v, Begin), id);
    DetectedPush(v, Begin);
    ParsePush(v, Begin);
    ParsePush(v, End);
    ParsePush(Push(v, Begin), End);
  }

  // What a release of a tracked touch adds to the log.
  lemma LogUp(r: Recogniser, id: int, now: nat)
    requires Shape(r) && id !in r.ignored && id in r.tracked && r.tracked[id].active
    ensures var u, p := TouchEnd(r, id, now), ParseOf(r.events);
      && !u.twoTouch && !Detected(u)
      && (if Detected(r) then
            if !r.waitingRelease then ParseOf(u.events) == ParseStep(p, End, StateToGesture(r.state))
            else u.events == r.events || (p != Closed ==> ParseOf(u.events) == Broken)
          else u.events == r.events || ParseOf(u.events) == if p == Closed then Closed else Broken)
  {
    hide Shape, TouchEnd, Lifted, Ended, Push, Detected, ParseOf, StateToGesture;
    var v := Lifted(r, id, now);
    LiftedOk(r, id, now);
    DetectedStates(r);
    TwoBarsDetected(v);
    LogEnded(v, id);
    EndIsEnded(r, id, now);
  }

  lemma BlocksUp(w: World, id: int)
    requires Inv(w) && id in w.down
    ensures Blocks(w.(r := TouchEnd(w.r, id, w.now), down := w.down - {id}))
  {
    if id in w.r.ignored {
      DetectedStates(w.r);
      hide Lifted, Finish, StateToGesture, AnyActive, ParseOf;
    } else {
      assert id in ActiveIds(w.r.tracked);
      LogUp(w.r, id, w.now);
      hide Shape, Fingers, TouchEnd, Detected, ParseOf, StateToGesture;
    }
  }

  lemma TwoBarsDetected(v: Recogniser)
    ensures v.state == TWODRAG || v.state == PINCH ==> Detected(v)
    ensures v.state == NOGESTURE ==> !Detected(v)
  {
  }

  lemma BlocksLongpress(w: World)
    requires Inv(w) && w.r.longpress
    ensures Blocks(w.(r := LongpressTimeout(w.r)))
  {
    DetectedStates(w.r);
    var s := w.r.(longpress := false, state := LONGPRESS, failed := w.r.failed || Detected(w.r));
    ParsePush(s, Begin);
    DetectedPush(s, Begin);
    assert Detected(s);
    hide Shape, Fingers, Push, Detected;
  }

  lemma BlocksTwoTouch(w: World, hypot: (real, real) -> real)
    requires Inv(w) && w.r.twoTouch
    ensures Blocks(Apply(w, TwoTouchFires, hypot))
  {
    DetectedStates(w.r);
    var s := BeforeTwoTouch(w.r, hypot);
    ParsePush(s, Begin);
    ParsePush(Push(s, Begin), Update);
    DetectedPush(s, Begin);
    DetectedPush(Push(s, Begin), Update);
    TwoBarsDetected(s);
    hide Shape, Fingers, Push, Detected, Spread, Average, FirstXs, LastXs, FirstYs, LastYs;
  }

  lemma InvKeeps(w: World, i: Input, hypot: (real, real) -> real)
    requires Inv(w)
    ensures Inv(Apply(w, i, hypot))
  {
    match i
    case Down(id, x, y) =>
      if id !in w.down { ShapeBegin(w.r, id, x, y, w.now, w.down); BlocksDown(w, id, x, y); }
    case Move(id, x, y, apart) =>
      ShapeUpdate(w.r, id, x, y, apart, hypot);
      FingersUpdate(w.r, id, x, y, apart, hypot, w.down);
      BlocksMove(w, i, hypot);
    case Up(id) =>
      if id in w.down { ShapeEnd(w.r, id, w.now, w.down); BlocksUp(w, id); }
    case LongpressFires =>
      if w.r.longpress { ShapeLongpress(w.r); BlocksLongpress(w); }
    case TwoTouchFires =>
      if w.r.twoTouch { ShapeTwoTouch(w.r, hypot); BlocksTwoTouch(w, hypot); }
    case Tick(_) =>
    hide Shape, Fingers, Blocks, TouchBegin, TouchUpdate, TouchEnd, LateMove, LongpressTimeout, TwoTouchTimeout;
  }

  lemma {:induction false} RunKeeps(inputs: seq<Input>, hypot: (real, real) -> real)
    ensures Inv(Run(inputs, hypot))
    decreases |inputs|
  {
    if inputs == [] {
      NoneActive();
      assert !Detected(INITIAL);
    } else {
      RunKeeps(inputs[..|inputs| - 1], hypot);
      InvKeeps(Run(inputs[..|inputs| - 1], hypot), inputs[|inputs| - 1], hypot);
    }
  }

  // ----- The promises, in every run -------------------------------------------------

  // The fingers down are the active tracked touches and the ignored ones, never both,
  // and no assertion of the recogniser fails.
  lemma FingersAccounted(inputs: seq<Input>, hypot: (real, real) -> real)
    ensures var w := Run(inputs, hypot);
      && w.down == ActiveIds(w.r.tracked) + w.r.ignored && ActiveIds(w.r.tracked) !! w.r.ignored
      && !w.r.failed
  {
    RunKeeps(inputs, hypot);
  }

  // When the last finger has lifted, the recogniser is as it was built, timers stopped.
  lemma BackToInitial(inputs: seq<Input>, hypot: (real, real) -> real)
    requires Run(inputs, hypot).down == {}
    ensures var r := Run(inputs, hypot).r;
      r == INITIAL.(releaseStart := r.releaseStart, events := r.events)
  {
    RunKeeps(inputs, hypot);
    var r := Run(inputs, hypot).r;
    ActiveIffAny(r.tracked);
  }

  // With all fingers up, the log is whole blocks exactly when no two-touch timer
  // fired between the first release of a gesture and the last.
  lemma BlocksIffNoLateTimer(inputs: seq<Input>, hypot: (real, real) -> real)
    requires Run(inputs, hypot).down == {}
    ensures ParseOf(Run(inputs, hypot).r.events) == Closed <==> !Run(inputs, hypot).late
  {
    RunKeeps(inputs, hypot);
    BackToInitial(inputs, hypot);
    assert !SingleBit(INITSTATE);
  }

  // In particular when no touch moves past the threshold after the first release.
  lemma BlocksWithoutLateMoves(inputs: seq<Input>, hypot: (real, real) -> real)
    requires !Run(inputs, hypot).lateMove
    ensures ParseOf(Run(inputs, hypot).r.events) != Broken
    ensures Run(inputs, hypot).down == {} ==> ParseOf(Run(inputs, hypot).r.events) == Closed
  {
    RunKeeps(inputs, hypot);
    if Run(inputs, hypot).down == {} { BlocksIffNoLateTimer(inputs, hypot); }
  }
}
