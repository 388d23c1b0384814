// The recogniser and the mouse together: nothing stays held.
module TouchComposition {
  import opened GestureMachine
  import opened GestureRuns
  import opened GestureLog
  import opened GestureReports
  import opened TouchMouse

  // ----- The mask, as a fold over the reported events -------------------------------

  function MaskOf(events: seq<Event>): Bits {
    if events == [] then {} else MaskAfter(MaskOf(events[..|events| - 1]), events[|events| - 1])
  }

  // Only drags and long presses happen with a button held.
  predicate Orderly(events: seq<Event>) {
    events != [] ==>
      var e, before := events[|events| - 1], events[..|events| - 1];
      Orderly(before) && (e.gesture != Drag && e.gesture != LongPress ==> MaskOf(before) == {})
  }

  // The button a gesture in progress holds.
  function HeldBy(state: Mask): Bits {
    if state == DRAG then {Bit(1)} else if state == LONGPRESS then {Bit(3)} else {}
  }

  ghost predicate HoldInv(r: Recogniser) {
    Orderly(r.events) && MaskOf(r.events) == HeldBy(r.state)
  }

  lemma HoldPush(r: Recogniser, kind: Kind)
    requires Orderly(r.events) && Known(r.state)
    requires MaskOf(r.events) == if kind == Begin then {} else HeldBy(r.state)
    ensures Orderly(Push(r, kind).events)
    ensures MaskOf(Push(r, kind).events) == if kind == End then {} else HeldBy(r.state)
  {
    Masks(r.state);
    var p := Push(r, kind);
    assert p.events[..|r.events|] == r.events;
    hide EventX, EventY, MagnitudeX, MagnitudeY;
  }

  // The detected states that last from one input to the next.
  lemma LastingStates(r: Recogniser)
    requires Shape(r)
    ensures !Detected(r) ==> HeldBy(r.state) == {}
    ensures Detected(r) ==> Known(r.state)
  {
    DetectedStates(r);
    hide Shape, Detected;
  }

  lemma HoldMove(r: Recogniser, id: int, x: real, y: real, apart: bool, hypot: (real, real) -> real)
    requires Shape(r) && HoldInv(r)
    ensures HoldInv(TouchUpdate(r, id, x, y, apart, hypot))
  {
    if id in r.tracked {
      var t := r.(tracked := Moved(r.tracked, id, x, y));
      ShapeMove(r, id, x, y);
      LastingStates(t);
      if Detected(t) {
        HoldPush(t, Update);
      } else {
        var v := FarMove(t, id, apart, hypot);
        FarMoveKeeps(t, id, apart, hypot);
        ShapeFarMove(t, id, apart, hypot);
        LastingStates(v);
        if Detected(v) {
          HoldPush(v, Begin);
          HoldPush(Push(v, Begin), Update);
        }
      }
      hide Shape, FarMove, Moved, Detected, Push, Orderly, MaskOf, HeldBy;
    }
  }

  lemma HoldFinish(v: Recogniser, id: int)
    requires Orderly(v.events)
    requires if Detected(v) then MaskOf(v.events) == HeldBy(v.state) && v.state != 128 else MaskOf(v.events) == {}
    ensures HoldInv(Finish(v, id))
  {
    if Detected(v) {
      DetectedKnown(v);
      HoldPush(v, End);
    }
    FinishKeeps(v, id);
    FinishedState(v, id);
    hide Detected, Push, Orderly, MaskOf, Finish;
  }

  lemma FinishedState(v: Recogniser, id: int)
    ensures Finish(v, id).state == INITSTATE || Finish(v, id).state == NOGESTURE
    ensures HeldBy(Finish(v, id).state) == {}
  {
    hide Detected, Push, ActiveIds;
  }

  lemma HoldEnded(v: Recogniser, id: int)
    requires Orderly(v.events) && (Detected(v) ==> Known(v.state))
    requires MaskOf(v.events) == if !v.waitingRelease then HeldBy(v.state) else {}
    requires !v.waitingRelease ==> Detected(v)
    requires v.waitingRelease && !Detected(v) ==> HeldBy(v.state) == {}
    ensures HoldInv(Ended(v, id))
  {
    hide Detected, Push, Orderly, MaskOf, Finish, HeldBy;
    if v.waitingRelease && Detected(v) {
      HoldPush(v, Begin);
      DetectedPush(v, Begin);
      HoldFinish(Push(v, Begin), id);
    } else if !v.waitingRelease || v.state == NOGESTURE {
      HoldFinish(v, id);
    }
  }

  lemma HoldLifted(r: Recogniser, id: int, now: nat)
    requires Shape(r) && HoldInv(r) && id in r.tracked && r.tracked[id].active
    ensures var v := Lifted(r, id, now);
      && Orderly(v.events) && (Detected(v) ==> Known(v.state))
      && MaskOf(v.events) == (if !v.waitingRelease then HeldBy(v.state) else {})
      && (!v.waitingRelease ==> Detected(v))
      && (v.waitingRelease && !Detected(v) ==> HeldBy(v.state) == {})
  {
    var v := Lifted(r, id, now);
    LiftedOk(r, id, now);
    DetectedStates(r);
    LastingStates(r);
    TwoBarsDetected(v);
    HeldStates(v.state);
    HeldStates(r.state);
    if Detected(v) {
      LiftedFits(r, id, now);
    }
    hide Shape, Lifted, Detected, Orderly, MaskOf, HeldBy;
  }

  lemma HoldUp(w: World, id: int)
    requires Inv(w) && HoldInv(w.r) && id in w.down
    ensures HoldInv(TouchEnd(w.r, id, w.now))
  {
    var r := w.r;
    if id in r.ignored {
      LastingStates(r);
      hide Lifted, Finish, Orderly, MaskOf;
    } else {
      assert id in ActiveIds(r.tracked);
      hide Shape, Lifted, Detected, Orderly, MaskOf, HeldBy, HoldInv, TouchEnd, Ended, Blocks;
      HoldLifted(r, id, w.now);
      HoldEnded(Lifted(r, id, w.now), id);
      EndIsEnded(r, id, w.now);
    }
  }

  lemma HeldStates(s: Mask)
    ensures s == NOGESTURE || s == TWODRAG || s == PINCH || s == ONETAP || s == TWOTAP || s == THREETAP ==>
      HeldBy(s) == {}
  {
  }

  lemma HoldDown(w: World, id: int, x: real, y: real)
    requires Inv(w) && HoldInv(w.r) && id !in w.down
    ensures HoldInv(TouchBegin(w.r, id, x, y, w.now))
  {
    BeginKeepsDetected(w.r, id, x, y, w.now, w.down);
    ShapeBegin(w.r, id, x, y, w.now, w.down);
    LastingStates(w.r);
    LastingStates(TouchBegin(w.r, id, x, y, w.now));
    hide Shape, Fingers, Detected, TouchBegin, Orderly, MaskOf, HeldBy;
  }

  lemma HoldTimers(r: Recogniser, hypot: (real, real) -> real)
    requires Shape(r) && HoldInv(r)
    ensures r.longpress ==> HoldInv(LongpressTimeout(r))
    ensures r.twoTouch ==> HoldInv(TwoTouchTimeout(r, hypot))
  {
    LastingStates(r);
    DetectedStates(r);
    if r.longpress {
      HoldPush(r.(longpress := false, state := LONGPRESS, failed := r.failed || Detected(r)), Begin);
    }
    if r.twoTouch {
      var s := BeforeTwoTouch(r, hypot);
      HoldPush(s, Begin);
      HoldPush(Push(s, Begin), Update);
    }
    hide Push, Orderly, MaskOf, Average, Spread, FirstXs, FirstYs, LastXs, LastYs;
  }

  lemma {:induction false} RunHolds(inputs: seq<Input>, hypot: (real, real) -> real)
    ensures HoldInv(Run(inputs, hypot).r)
    decreases |inputs|
  {
    if inputs != [] {
      var w, i := Run(inputs[..|inputs| - 1], hypot), inputs[|inputs| - 1];
      RunHolds(inputs[..|inputs| - 1], hypot);
      RunKeeps(inputs[..|inputs| - 1], hypot);
      match i {
        case Down(id, x, y) => if id !in w.down { HoldDown(w, id, x, y); }
        case Move(id, x, y, apart) => HoldMove(w.r, id, x, y, apart, hypot);
        case Up(id) => if id in w.down { HoldUp(w, id); }
        case _ => HoldTimers(w.r, hypot);
      }
      hide Shape, Fingers, Blocks, HoldInv, LateMove;
      hide TouchBegin, TouchUpdate, TouchEnd, LongpressTimeout, TwoTouchTimeout;
    }
  }

  // ----- The mouse behind the recogniser --------------------------------------------

  // The mouse is in the mode of the two-finger gesture being reported.
  predicate ModeOk(events: seq<Event>, m: Mouse) {
    events != [] ==>
      var e := events[|events| - 1];
      (e.gesture == TwoDrag ==> m.scroll == Wheel) && (e.gesture == Pinch ==> m.scroll.Zoom?)
  }

  lemma {:induction false} MouseKeeps(events: seq<Event>, hypot: (real, real) -> real)
    requires Reports(events) && Orderly(events)
    ensures var m := MouseOf(events, hypot);
      && Honest(m) && Booked(m) && m.mask == MaskOf(events) && ModeOk(events, m)
      && (events != [] ==> Handled(MouseOf(events[..|events| - 1], hypot), events[|events| - 1], m, hypot))
    decreases |events|
  {
    if events != [] {
      var n := |events| - 1;
      var before, e := events[..n], events[n];
      ReportsBefore(events);
      MouseKeeps(before, hypot);
      if n > 0 { assert Stays(events[n - 1], events[n]); }
      var m := MouseOf(before, hypot);
      hide Reports, Orderly, Honest, Booked;
      assert InMode(m, e) && Free(m, e) by { ReportsLast(events); OrderlyLast(events); }
      HandleKeeps(m, e, hypot);
      hide Handle;
    }
  }

  lemma ReportsBefore(events: seq<Event>)
    requires Reports(events) && Orderly(events) && events != []
    ensures Reports(events[..|events| - 1]) && Orderly(events[..|events| - 1])
  {
  }

  lemma ReportsLast(events: seq<Event>)
    requires Reports(events) && events != []
    ensures var e := events[|events| - 1];
      && (e.gesture == TwoDrag && e.kind == Begin ==> e.magnitudeX == 0.0 && e.magnitudeY == 0.0)
      && (TwoFinger(e) && e.kind != Begin ==> |events| > 1 && events[|events| - 2].gesture == e.gesture)
  {
    if |events| > 1 { assert Stays(events[|events| - 2], events[|events| - 1]); }
  }

  lemma OrderlyLast(events: seq<Event>)
    requires Orderly(events) && events != []
    ensures var e := events[|events| - 1];
      e.gesture != Drag && e.gesture != LongPress ==> MaskOf(events[..|events| - 1]) == {}
  {
  }

  // ----- The promises, in every run -------------------------------------------------

  ghost function MouseAfter(inputs: seq<Input>, hypot: (real, real) -> real): Mouse {
    MouseOf(Run(inputs, hypot).r.events, hypot)
  }

  // With no finger down, every fake button and fake Control has been released, and
  // the mask is empty.
  lemma NothingHeld(inputs: seq<Input>, hypot: (real, real) -> real)
    requires Run(inputs, hypot).down == {}
    ensures MouseAfter(inputs, hypot).mask == {}
    ensures forall b: Button :: !Held(MouseAfter(inputs, hypot).log, b)
    ensures !ControlHeld(MouseAfter(inputs, hypot).log)
  {
    RunHolds(inputs, hypot);
    RunReports(inputs, hypot);
    BackToInitial(inputs, hypot);
    MouseKeeps(Run(inputs, hypot).r.events, hypot);
    hide Reports, Orderly, HonestLog, Run, Booked;
  }

  // The mask always says exactly what is held, on the mouse and on every event pushed.
  lemma MaskHonest(inputs: seq<Input>, hypot: (real, real) -> real)
    ensures Honest(MouseAfter(inputs, hypot))
  {
    RunHolds(inputs, hypot);
    RunReports(inputs, hypot);
    MouseKeeps(Run(inputs, hypot).r.events, hypot);
    hide Reports, Orderly, Honest, Run, Booked;
  }

  // Net clicks since a scroll or pinch began, times the step, are exactly the magnitude
  // accounted for; and after each update at most one step is left over.
  lemma ScrollConserved(inputs: seq<Input>, hypot: (real, real) -> real)
    ensures var m, events := MouseAfter(inputs, hypot), Run(inputs, hypot).r.events;
      && Booked(m)
      && (events != [] && events[|events| - 1].kind == Update ==>
            var e := events[|events| - 1];
            && (e.gesture == TwoDrag ==>
                  && m.scroll == Wheel
                  && Abs(e.magnitudeX - m.lastX) <= SCRLSENS && Abs(e.magnitudeY - m.lastY) <= SCRLSENS)
            && (e.gesture == Pinch ==>
                  m.scroll.Zoom? && Abs(hypot(e.magnitudeX, e.magnitudeY) - m.lastX) <= ZOOMSENS))
  {
    hide Reports, Orderly, Honest, Run, Booked, MaskOf, HeldBy, MaskAfter, MouseOf;
    RunHolds(inputs, hypot);
    RunReports(inputs, hypot);
    MouseKeeps(Run(inputs, hypot).r.events, hypot);
  }
}
