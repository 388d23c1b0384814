// The recogniser as the program has it: an object whose methods change its fields,
// with loops over the tracked touches. Each method does what the state machine says.
module GestureHandlers {
  import opened GestureMachine
  import opened GestureRuns

  lemma SumStep(t: map<int, Touch>, id: int)
    requires id in t
    ensures Sum(FirstXs(t)) == t[id].firstX + Sum(FirstXs(t - {id}))
    ensures Sum(FirstYs(t)) == t[id].firstY + Sum(FirstYs(t - {id}))
    ensures Sum(LastXs(t)) == t[id].lastX + Sum(LastXs(t - {id}))
    ensures Sum(LastYs(t)) == t[id].lastY + Sum(LastYs(t - {id}))
  {
    SumAny(FirstXs(t), id);
    SumAny(FirstYs(t), id);
    SumAny(LastXs(t), id);
    SumAny(LastYs(t), id);
    assert FirstXs(t) - {id} == FirstXs(t - {id}) && FirstYs(t) - {id} == FirstYs(t - {id});
    assert LastXs(t) - {id} == LastXs(t - {id}) && LastYs(t) - {id} == LastYs(t - {id});
  }

  lemma SumNone()
    ensures Sum(FirstXs(map[])) == 0.0 && Sum(FirstYs(map[])) == 0.0
    ensures Sum(LastXs(map[])) == 0.0 && Sum(LastYs(map[])) == 0.0
  {
  }

  lemma SameSizes(t: map<int, Touch>)
    ensures |FirstXs(t)| == |t| && |FirstYs(t)| == |t| && |LastXs(t)| == |t| && |LastYs(t)| == |t|
  {
    assert FirstXs(t).Keys == t.Keys && FirstYs(t).Keys == t.Keys;
    assert LastXs(t).Keys == t.Keys && LastYs(t).Keys == t.Keys;
    assert |t.Keys| == |t|;
  }

  class GestureHandler {
    var state: Mask
    var tracked: map<int, Touch>
    var ignored: set<int>
    var waitingRelease: bool
    var releaseStart: nat
    var longpressStarted: bool
    var twoTouchStarted: bool
    var events: seq<Event>

    ghost function View(): Recogniser
      reads this
    {
      Recogniser(state, tracked, ignored, waitingRelease, releaseStart, longpressStarted, twoTouchStarted,
        false, events)
    }

    ghost predicate Valid()
      reads this
    {
      Shape(View()) && ActiveIds(tracked) !! ignored
    }

    constructor ()
      ensures Valid() && View() == INITIAL
    {
      state, tracked, ignored, waitingRelease, releaseStart := INITSTATE, map[], {}, false, 0;
      longpressStarted, twoTouchStarted, events := false, false, [];
      new;
      NoneActive();
    }

    method HasDetectedGesture() returns (detected: bool)
      ensures detected == Detected(View())
    {
      if state == NOGESTURE {
        return false;
      }
      if state & (state - 1) != 0 {
        return false;
      }
      if state & (ONETAP | TWOTAP | THREETAP) != 0 {
        var left := tracked;
        while left != map[]
          invariant left.Keys <= tracked.Keys && forall id :: id in left ==> left[id] == tracked[id]
          invariant forall id :: id in tracked && id !in left ==> !tracked[id].active
          decreases |left|
        {
          var id := Least(left.Keys);
          if left[id].active {
            return false;
          }
          left := Rest(left, id);
        }
      }
      return true;
    }

    // The touches after the one with the least id.
    static function Rest(left: map<int, Touch>, id: int): (r: map<int, Touch>)
      requires id in left
      ensures r == left - {id} && |r| < |left|
    {
      assert (left - {id}).Keys == left.Keys - {id};
      left - {id}
    }

    method GetPosition() returns (firstX: real, firstY: real, lastX: real, lastY: real)
      requires tracked != map[]
      ensures firstX == Average(FirstXs(tracked)) && firstY == Average(FirstYs(tracked))
      ensures lastX == Average(LastXs(tracked)) && lastY == Average(LastYs(tracked))
    {
      hide Sum, FirstXs, FirstYs, LastXs, LastYs, Least;
      SumNone();
      SameSizes(tracked);
      var size := |tracked| as real;
      var fx, fy, lx, ly := 0.0, 0.0, 0.0, 0.0;
      var left := tracked;
      while left != map[]
        invariant fx + Sum(FirstXs(left)) == Sum(FirstXs(tracked)) && fy + Sum(FirstYs(left)) == Sum(FirstYs(tracked))
        invariant lx + Sum(LastXs(left)) == Sum(LastXs(tracked)) && ly + Sum(LastYs(left)) == Sum(LastYs(tracked))
        decreases |left|
      {
        var id := Least(left.Keys);
        SumStep(left, id);
        fx, fy, lx, ly := fx + left[id].firstX, fy + left[id].firstY, lx + left[id].lastX, ly + left[id].lastY;
        left := Rest(left, id);
      }
      firstX, firstY, lastX, lastY := fx / size, fy / size, lx / size, ly / size;
    }

    method GetAverageMovement() returns (h: real, v: real)
      requires tracked != map[]
      ensures h == Average(LastXs(tracked)) - Average(FirstXs(tracked))
      ensures v == Average(LastYs(tracked)) - Average(FirstYs(tracked))
    {
      hide Sum, FirstXs, FirstYs, LastXs, LastYs, Least;
      SumNone();
      SameSizes(tracked);
      var size := |tracked| as real;
      var totalH, totalV := 0.0, 0.0;
      var left := tracked;
      while left != map[]
        invariant totalH + (Sum(LastXs(left)) - Sum(FirstXs(left))) == Sum(LastXs(tracked)) - Sum(FirstXs(tracked))
        invariant totalV + (Sum(LastYs(left)) - Sum(FirstYs(left))) == Sum(LastYs(tracked)) - Sum(FirstYs(tracked))
        decreases |left|
      {
        var id := Least(left.Keys);
        SumStep(left, id);
        totalH, totalV := totalH + (left[id].lastX - left[id].firstX), totalV + (left[id].lastY - left[id].firstY);
        left := Rest(left, id);
      }
      h, v := totalH / size, totalV / size;
      DivideDifference(Sum(LastXs(tracked)), Sum(FirstXs(tracked)), size);
      DivideDifference(Sum(LastYs(tracked)), Sum(FirstYs(tracked)), size);
    }

    method GetAverageDistance() returns (firstX: real, firstY: real, lastX: real, lastY: real)
      requires tracked != map[]
      ensures firstX == Spread(FirstXs(tracked)) && firstY == Spread(FirstYs(tracked))
      ensures lastX == Spread(LastXs(tracked)) && lastY == Spread(LastYs(tracked))
    {
      assert tracked != map[];
      var begin, rbegin := tracked[Least(tracked.Keys)], tracked[Greatest(tracked.Keys)];
      assert FirstXs(tracked).Keys == tracked.Keys && FirstYs(tracked).Keys == tracked.Keys;
      assert LastXs(tracked).Keys == tracked.Keys && LastYs(tracked).Keys == tracked.Keys;
      firstX, firstY := Abs(rbegin.firstX - begin.firstX), Abs(rbegin.firstY - begin.firstY);
      lastX, lastY := Abs(rbegin.lastX - begin.lastX), Abs(rbegin.lastY - begin.lastY);
    }

    method PushEvent(kind: Kind)
      requires tracked != map[] && Known(state)
      modifies this`events
      ensures View() == Push(old(View()), kind)
    {
      hide Average, Spread, FirstXs, FirstYs, LastXs, LastYs, StateToGesture;
      var gesture := StateToGesture(state);
      var firstX, firstY, lastX, lastY := GetPosition();
      var x, y := lastX, lastY;
      if kind == Begin {
        x, y := firstX, firstY;
      }
      if state == TWODRAG || state == PINCH {
        x, y := firstX, firstY;
      }
      var magnitudeX, magnitudeY := 0.0, 0.0;
      if state == PINCH {
        var fx, fy, lx, ly := GetAverageDistance();
        if kind == Begin {
          magnitudeX, magnitudeY := fx, fy;
        } else {
          magnitudeX, magnitudeY := lx, ly;
        }
      } else if state == TWODRAG {
        if kind != Begin {
          magnitudeX, magnitudeY := GetAverageMovement();
        }
      }
      events := events + [Event(kind, gesture, x, y, magnitudeX, magnitudeY, |tracked|)];
    }

    method HandleTouchBegin(id: int, x: real, y: real, now: nat)
      requires Valid() && id !in ActiveIds(tracked) + ignored
      modifies this
      ensures Valid() && View() == TouchBegin(old(View()), id, x, y, now)
    {
      ghost var r, down := View(), ActiveIds(tracked) + ignored;
      hide Shape, Detected, ActiveIds, MsBetween, BegunMask;
      ShapeBegin(r, id, x, y, now, down);
      var detected := HasDetectedGesture();
      if detected || state == NOGESTURE {
        ignored := ignored + {id};
        return;
      }
      if tracked != map[] && MsBetween(tracked[Least(tracked.Keys)].started, now) > MULTITOUCH_TIMEOUT {
        state := NOGESTURE;
        ignored := ignored + {id};
        return;
      }
      if waitingRelease {
        state := NOGESTURE;
        ignored := ignored + {id};
        return;
      }
      TrackTouch(id, x, y, now);
    }

    method TrackTouch(id: int, x: real, y: real, now: nat)
      modifies this`tracked, this`state, this`longpressStarted
      ensures tracked == old(tracked)[id := Touch(now, true, x, y, x, y)]
      ensures state == BegunMask(old(state), |tracked|)
      ensures longpressStarted ==
        if |tracked| == 1 then true else if |tracked| == 2 then false else old(longpressStarted)
    {
      tracked := tracked[id := Touch(now, true, x, y, x, y)];
      if |tracked| == 1 {
        longpressStarted := true;
      } else if |tracked| == 2 {
        state := state & !(ONETAP | DRAG | LONGPRESS);
        longpressStarted := false;
      } else if |tracked| == 3 {
        state := state & !(TWOTAP | TWODRAG | PINCH);
      } else {
        state := NOGESTURE;
      }
    }

    // Past the threshold; `apart` is the answer of the angle comparison.
    method MoveFar(id: int, apart: bool, hypot: (real, real) -> real)
      requires id in tracked
      modifies this`state, this`longpressStarted, this`twoTouchStarted
      ensures View() == FarMove(old(View()), id, apart, hypot)
    {
      hide Other, MovedMask;
      NarrowMask();
      longpressStarted := false;
      if |tracked| == 2 {
        CompareTouches(id, apart, hypot);
      }
    }

    method NarrowMask()
      modifies this`state
      ensures state == MovedMask(old(state), |tracked|)
    {
      state := state & !(ONETAP | TWOTAP | THREETAP | LONGPRESS);
      if |tracked| != 1 {
        state := state & !DRAG;
      }
      if |tracked| != 2 {
        state := state & !(TWODRAG | PINCH);
      }
    }

    method OtherTouch(id: int) returns (prev: Touch)
      requires id in tracked
      ensures prev == Other(tracked, id)
    {
      prev := tracked[Greatest(tracked.Keys)];
      if Greatest(tracked.Keys) == id {
        prev := tracked[Least(tracked.Keys)];
      }
    }

    method CompareTouches(id: int, apart: bool, hypot: (real, real) -> real)
      requires id in tracked
      modifies this`state, this`twoTouchStarted
      ensures var prev := Other(tracked, id);
        var far := hypot(prev.firstX - prev.lastX, prev.firstY - prev.lastY) > MOVE_THRESHOLD;
        && state == (if !far then old(state) else if apart then old(state) & !TWODRAG else old(state) & !PINCH)
        && twoTouchStarted == !far
    {
      hide Other;
      var prev := OtherTouch(id);
      if hypot(prev.firstX - prev.lastX, prev.firstY - prev.lastY) > MOVE_THRESHOLD {
        if apart {
          state := state & !TWODRAG;
        } else {
          state := state & !PINCH;
        }
        twoTouchStarted := false;
      } else if !twoTouchStarted {
        twoTouchStarted := true;
      }
    }

    method HandleTouchUpdate(id: int, x: real, y: real, apart: bool, hypot: (real, real) -> real)
      requires Valid()
      modifies this
      ensures Valid() && View() == TouchUpdate(old(View()), id, x, y, apart, hypot)
    {
      hide Shape, ActiveIds, TouchUpdate;
      ShapeUpdate(View(), id, x, y, apart, hypot);
      FingersUpdate(View(), id, x, y, apart, hypot, ActiveIds(tracked) + ignored);
      if id !in tracked {
        UntrackedUpdate(View(), id, x, y, apart, hypot);
        return;
      }
      MoveTouch(id, x, y, apart, hypot);
    }

    method StoreMove(id: int, x: real, y: real)
      requires id in tracked
      modifies this`tracked
      ensures View() == old(View()).(tracked := Moved(old(tracked), id, x, y)) && id in tracked
    {
      tracked := tracked[id := tracked[id].(lastX := x, lastY := y)];
    }

    // The update of a tracked touch.
    method MoveTouch(id: int, x: real, y: real, apart: bool, hypot: (real, real) -> real)
      requires id in tracked && Shape(View())
      modifies this
      ensures View() == TouchUpdate(old(View()), id, x, y, apart, hypot)
    {
      hide Detected, FarMove, Push, Shape, TouchUpdate, Moved;
      MovedUpdate(View(), id, x, y, apart, hypot);
      ShapeMove(View(), id, x, y);
      var touch := tracked[id];
      StoreMove(id, x, y);
      var detected := HasDetectedGesture();
      if detected {
        ShapeKnown(View());
        PushEvent(Update);
      } else if hypot(x - touch.firstX, y - touch.firstY) >= MOVE_THRESHOLD {
        DetectFar(id, apart, hypot);
      }
    }

    // A move past the threshold before any gesture is detected.
    method DetectFar(id: int, apart: bool, hypot: (real, real) -> real)
      requires id in tracked && Shape(View()) && !Detected(View())
      modifies this
      ensures var v := FarMove(old(View()), id, apart, hypot);
        View() == if Detected(v) then Push(Push(v, Begin), Update) else v
    {
      hide Detected, FarMove, Push, Shape;
      FarMoveFrame(View(), id, apart, hypot);
      ShapeFarMove(View(), id, apart, hypot);
      MoveFar(id, apart, hypot);
      var detected := HasDetectedGesture();
      if !detected {
        return;
      }
      ShapeKnown(View());
      DetectedPush(View(), Begin);
      PushEvent(Begin);
      PushEvent(Update);
    }

    method IgnoreActive()
      modifies this`ignored
      ensures ignored == old(ignored) + ActiveIds(tracked)
    {
      var left := tracked;
      while left != map[]
        invariant left.Keys <= tracked.Keys && (forall i :: i in left ==> left[i] == tracked[i])
        invariant ignored + ActiveIds(left) == old(ignored) + ActiveIds(tracked)
        decreases |left|
      {
        var i := Least(left.Keys);
        RestActive(left, i);
        if left[i].active {
          ignored := ignored + {i};
        }
        left := Rest(left, i);
      }
      NoneActive();
    }

    // Reports the end of a gesture, then ignores the touches that remain.
    method FinishTouches(id: int)
      requires tracked != map[] && state != 128
      modifies this
      ensures View() == Finish(old(View()), id)
    {
      hide Detected, ActiveIds, StateToGesture, EventX, EventY, MagnitudeX, MagnitudeY;
      DetectedKnown(View());
      var detected := HasDetectedGesture();
      if detected {
        PushEvent(End);
      }
      IgnoreActive();
      tracked := map[];
      state := NOGESTURE;
      ignored := ignored - {id};
      if ignored == {} {
        state := INITSTATE;
        waitingRelease := false;
      }
    }

    method HandleTouchEnd(id: int, now: nat)
      requires Valid() && id in ActiveIds(tracked) + ignored
      modifies this
      ensures Valid() && View() == TouchEnd(old(View()), id, now)
    {
      ghost var r, down := View(), ActiveIds(tracked) + ignored;
      hide Shape, Detected, ActiveIds, Lifted, Finish, SingleBit, Push;
      ActiveId(tracked, id);
      ShapeEnd(r, id, now, down);
      if id in ignored {
        ignored := ignored - {id};
        if ignored == {} && tracked == map[] {
          state := INITSTATE;
          waitingRelease := false;
        }
        return;
      }
      LiftedOk(r, id, now);
      Lift(id, now);
      if waitingRelease {
        var detected := HasDetectedGesture();
        if detected {
          DetectedKnown(View());
          DetectedPush(View(), Begin);
          PushEvent(Begin);
        } else if state != NOGESTURE {
          return;
        }
      }
      FinishTouches(id);
    }

    method ReleaseMasks(now: nat)
      modifies this`state, this`longpressStarted, this`waitingRelease, this`releaseStart
      ensures View() == ReleaseMask(old(View()), now)
    {
      hide Detected;
      var detected := HasDetectedGesture();
      if !detected {
        state := state & !(DRAG | TWODRAG | PINCH);
        state := state & !LONGPRESS;
        longpressStarted := false;
        if !waitingRelease {
          releaseStart := now;
          waitingRelease := true;
          if |tracked| == 1 {
            state := state & !(TWOTAP | THREETAP);
          } else if |tracked| == 2 {
            state := state & !(ONETAP | THREETAP);
          }
        }
      }
    }

    // The part of handleTouchEnd() before anything is reported.
    method Lift(id: int, now: nat)
      requires id in tracked
      modifies this
      ensures View() == Lifted(old(View()), id, now)
    {
      hide Detected, TooSlow, ReleaseMask;
      var detected := HasDetectedGesture();
      if !detected && twoTouchStarted {
        twoTouchStarted := false;
        state := NOGESTURE;
      }
      ReleaseMasks(now);
      if waitingRelease {
        var slow := TookTooLong(now);
        if slow {
          state := NOGESTURE;
        }
        tracked := tracked[id := tracked[id].(active := false)];
      }
    }

    method TookTooLong(now: nat) returns (slow: bool)
      ensures slow == TooSlow(View(), now)
    {
      slow := MsBetween(releaseStart, now) > MULTITOUCH_TIMEOUT;
      var left := tracked;
      while left != map[]
        invariant left.Keys <= tracked.Keys && (forall i :: i in left ==> left[i] == tracked[i])
        invariant slow ==> TooSlow(View(), now)
        invariant TooSlow(View(), now) ==>
          slow || exists i :: i in left && MsBetween(left[i].started, now) > TAP_TIMEOUT
        decreases |left|
      {
        var i := Least(left.Keys);
        if MsBetween(left[i].started, now) > TAP_TIMEOUT {
          slow := true;
          break;
        }
        left := Rest(left, i);
      }
    }

    method HandleLongpressTimeout()
      requires Valid() && longpressStarted
      modifies this
      ensures Valid() && View() == LongpressTimeout(old(View()))
    {
      ShapeLongpress(View());
      DetectedStates(View());
      longpressStarted := false;
      var detected := HasDetectedGesture();
      assert !detected;
      state := LONGPRESS;
      PushEvent(Begin);
    }

    method DecideTwoTouch(hypot: (real, real) -> real)
      requires tracked != map[]
      modifies this`twoTouchStarted, this`state
      ensures View() == BeforeTwoTouch(old(View()), hypot)
      ensures state == PINCH || state == TWODRAG
    {
      twoTouchStarted := false;
      var avgMoveH, avgMoveV := GetAverageMovement();
      avgMoveH, avgMoveV := Abs(avgMoveH), Abs(avgMoveV);
      var fdx, fdy, ldx, ldy := GetAverageDistance();
      var deltaTouchDistance := Abs(hypot(fdx, fdy) - hypot(ldx, ldy));
      if avgMoveV < deltaTouchDistance && avgMoveH < deltaTouchDistance {
        state := PINCH;
      } else {
        state := TWODRAG;
      }
    }

    method HandleTwoTouchTimeout(hypot: (real, real) -> real)
      requires Valid() && twoTouchStarted
      modifies this
      ensures Valid() && View() == TwoTouchTimeout(old(View()), hypot)
    {
      NonemptyWhileTwoTouch(View());
      ShapeTwoTouch(View(), hypot);
      TwoTouchKeeps(View(), hypot);
      hide Shape, ActiveIds, StateToGesture, EventX, EventY, MagnitudeX, MagnitudeY, BeforeTwoTouch;
      DecideTwoTouch(hypot);
      PushEvent(Begin);
      PushEvent(Update);
    }
  }

  lemma DivideDifference(a: real, b: real, n: real)
    requires n != 0.0
    ensures (a - b) / n == a / n - b / n
  {
  }

  lemma RestActive(left: map<int, Touch>, i: int)
    requires i in left
    ensures ActiveIds(left - {i}) == ActiveIds(left) - {i}
    ensures i in ActiveIds(left) <==> left[i].active
  {
  }

  lemma ActiveId(t: map<int, Touch>, id: int)
    ensures id in ActiveIds(t) <==> id in t && t[id].active
  {
  }

  lemma NonemptyWhileTwoTouch(r: Recogniser)
    requires Shape(r) && r.twoTouch
    ensures r.tracked != map[]
  {
  }

  lemma TwoTouchKeeps(r: Recogniser, hypot: (real, real) -> real)
    ensures var t := TwoTouchTimeout(r, hypot); t.tracked == r.tracked && t.ignored == r.ignored
  {
    hide Average, Spread, StateToGesture, EventX, EventY, MagnitudeX, MagnitudeY;
  }

  lemma UntrackedUpdate(r: Recogniser, id: int, x: real, y: real, apart: bool, hypot: (real, real) -> real)
    requires id !in r.tracked
    ensures TouchUpdate(r, id, x, y, apart, hypot) == r
  {
  }
}
