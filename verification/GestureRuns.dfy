// Every run of touches and timers through the gesture recogniser.
module GestureRuns {
  import opened GestureMachine
  import opened Sets

  datatype Input =
    | Down(id: int, x: real, y: real)
    | Move(id: int, x: real, y: real, apart: bool)
    | Up(id: int)
    | LongpressFires
    | TwoTouchFires
    | Tick(us: nat)

  // `down` is the environment's set of fingers; `late` and `lateMove` are history:
  // a two-touch timer fired, or a touch moved past the threshold, after some finger
  // had been released and before all were.
  datatype World = World(r: Recogniser, down: set<int>, now: nat, late: bool, lateMove: bool)

  const START := World(INITIAL, {}, 0, false, false)

  ghost predicate LateMove(r: Recogniser, i: Input, hypot: (real, real) -> real) {
    && i.Move? && r.waitingRelease && i.id in r.tracked
    && hypot(i.x - r.tracked[i.id].firstX, i.y - r.tracked[i.id].firstY) >= MOVE_THRESHOLD
  }

  // An input that is not possible leaves the world alone: a finger goes down only
  // when up and up only when down, and a timer fires only when started.
  ghost function Apply(w: World, i: Input, hypot: (real, real) -> real): World {
    match i
    case Down(id, x, y) =>
      if id in w.down then w
      else w.(r := TouchBegin(w.r, id, x, y, w.now), down := w.down + {id})
    case Move(id, x, y, apart) =>
      w.(r := TouchUpdate(w.r, id, x, y, apart, hypot), lateMove := w.lateMove || LateMove(w.r, i, hypot))
    case Up(id) =>
      if id !in w.down then w
      else w.(r := TouchEnd(w.r, id, w.now), down := w.down - {id})
    case LongpressFires => if w.r.longpress then w.(r := LongpressTimeout(w.r)) else w
    case TwoTouchFires =>
      if w.r.twoTouch then w.(r := TwoTouchTimeout(w.r, hypot), late := w.late || w.r.waitingRelease) else w
    case Tick(us) => w.(now := w.now + us)
  }

  ghost function Run(inputs: seq<Input>, hypot: (real, real) -> real): World {
    if inputs == [] then START
    else Apply(Run(inputs[..|inputs| - 1], hypot), inputs[|inputs| - 1], hypot)
  }

  // ----- The invariant ------------------------------------------------------------

  // The states that are possible with n tracked touches.
  predicate StateOk(n: nat, waiting: bool, s: Mask) {
    if n == 0 then s == NOGESTURE || s == INITSTATE
    else if n == 1 then !waiting && (s == INITSTATE || s == NOGESTURE || s == DRAG || s == LONGPRESS)
    else
      || s == NOGESTURE || s == TWODRAG || s == PINCH
      || (n == 2 && waiting && s == TWOTAP)
      || (n == 2 && !waiting && (s == TWOTAP | THREETAP | TWODRAG | PINCH || s == TWODRAG | PINCH))
      || (n == 3 && s == THREETAP)
  }

  ghost predicate Shape(r: Recogniser) {
    && !r.failed
    && StateOk(|r.tracked|, r.waitingRelease, r.state)
    && (r.tracked == map[] ==>
          && !r.longpress && !r.twoTouch
          && (if r.ignored == {} then r.state == INITSTATE && !r.waitingRelease else r.state == NOGESTURE))
    && (r.tracked != map[] ==> AnyActive(r.tracked))
    && (!r.waitingRelease ==> forall id :: id in r.tracked ==> r.tracked[id].active)
    && (r.longpress ==> |r.tracked| == 1 && !r.waitingRelease && (r.state == INITSTATE || r.state == NOGESTURE))
    && (r.twoTouch ==> |r.tracked| >= 2 && (r.state == NOGESTURE || r.state == TWODRAG | PINCH))
  }

  ghost predicate Fingers(r: Recogniser, down: set<int>) {
    && down == ActiveIds(r.tracked) + r.ignored
    && ActiveIds(r.tracked) !! r.ignored
  }

  lemma Masks(s: Mask)
    ensures SingleBit(s) <==> Known(s) || s == 128
  {
  }

  lemma DetectedStates(r: Recogniser)
    requires Shape(r)
    ensures Detected(r) <==> r.state == DRAG || r.state == LONGPRESS || r.state == TWODRAG || r.state == PINCH
  {
  }

  lemma BegunOk(n: nat, s: Mask)
    requires StateOk(n, false, s) && (s != NOGESTURE || n == 0) && (n == 0 ==> s == INITSTATE)
    requires s != DRAG && s != LONGPRESS && s != TWODRAG && s != PINCH
    ensures StateOk(n + 1, false, BegunMask(s, n + 1))
    ensures n == 2 ==> BegunMask(s, 3) == if s == TWODRAG | PINCH then NOGESTURE else THREETAP
    ensures n >= 3 ==> BegunMask(s, n + 1) == NOGESTURE
    ensures var b := BegunMask(s, n + 1); b != DRAG && b != LONGPRESS && b != TWODRAG && b != PINCH
  {
  }

  lemma ShapeTrack(r: Recogniser, id: int, x: real, y: real, now: nat)
    requires Shape(r) && !Detected(r) && r.state != NOGESTURE && !r.waitingRelease && id !in r.tracked
    requires r.tracked == map[] ==> r.ignored == {}
    ensures Shape(Track(r, id, x, y, now))
  {
    DetectedStates(r);
    var n := |r.tracked|;
    BegunOk(n, r.state);
    var t := r.tracked[id := Touch(now, true, x, y, x, y)];
    assert |t| == n + 1;
    assert t[id].active;
    hide StateOk, BegunMask, Detected;
  }

  lemma FingersTrack(r: Recogniser, id: int, x: real, y: real, now: nat, down: set<int>)
    requires Fingers(r, down) && id !in down
    ensures Fingers(Track(r, id, x, y, now), down + {id})
  {
    hide BegunMask;
  }

  lemma ShapeIgnore(r: Recogniser, id: int)
    requires Shape(r) && (r.tracked == map[] ==> r.ignored != {})
    ensures Shape(Ignore(r, id)) && Shape(Ignore(r.(state := NOGESTURE), id))
  {
  }

  lemma ShapeBegin(r: Recogniser, id: int, x: real, y: real, now: nat, down: set<int>)
    requires Shape(r) && Fingers(r, down) && id !in down
    ensures Shape(TouchBegin(r, id, x, y, now)) && Fingers(TouchBegin(r, id, x, y, now), down + {id})
  {
    DetectedStates(r);
    FingersTrack(r, id, x, y, now, down);
    if Detected(r) || r.state == NOGESTURE || r.tracked != map[] || r.ignored != {} { ShapeIgnore(r, id); }
    if !Detected(r) && r.state != NOGESTURE && !r.waitingRelease { ShapeTrack(r, id, x, y, now); }
    hide Shape, Track;
  }

  lemma MovedOk(n: nat, waiting: bool, s: Mask)
    requires StateOk(n, waiting, s) && n > 0
    requires s != DRAG && s != LONGPRESS && s != TWODRAG && s != PINCH
    ensures var m := MovedMask(s, n);
      if n == 1 then m == DRAG || m == NOGESTURE
      else if n == 2 then m == NOGESTURE || (m == TWODRAG | PINCH && !waiting)
      else m == NOGESTURE
  {
  }

  lemma MovedKeeps(t: map<int, Touch>, id: int, x: real, y: real)
    requires id in t
    ensures Moved(t, id, x, y).Keys == t.Keys && |Moved(t, id, x, y)| == |t|
    ensures forall i :: i in t ==> Moved(t, id, x, y)[i].active == t[i].active
    ensures ActiveIds(Moved(t, id, x, y)) == ActiveIds(t)
    ensures AnyActive(Moved(t, id, x, y)) <==> AnyActive(t)
  {
    assert |Moved(t, id, x, y).Keys| == |t.Keys|;
    assert forall i :: i in Moved(t, id, x, y) && Moved(t, id, x, y)[i].active ==> t[i].active;
    assert forall i :: i in t && t[i].active ==> Moved(t, id, x, y)[i].active;
  }

  lemma ShapePush(r: Recogniser, kind: Kind)
    requires Shape(r) && r.tracked != map[] && Known(r.state)
    ensures Shape(Push(r, kind))
  {
    hide StateOk;
  }

  lemma ShapeMove(r: Recogniser, id: int, x: real, y: real)
    requires Shape(r) && id in r.tracked
    ensures Shape(r.(tracked := Moved(r.tracked, id, x, y)))
  {
    MovedKeeps(r.tracked, id, x, y);
    hide StateOk, Moved, AnyActive;
  }

  lemma ShapeFarMove(t: Recogniser, id: int, apart: bool, hypot: (real, real) -> real)
    requires Shape(t) && !Detected(t) && id in t.tracked
    ensures Shape(FarMove(t, id, apart, hypot))
    ensures Detected(FarMove(t, id, apart, hypot)) ==> !t.waitingRelease
  {
    DetectedStates(t);
    MovedOk(|t.tracked|, t.waitingRelease, t.state);
    hide AnyActive, Other, MovedMask;
  }

  lemma ShapeUpdate(r: Recogniser, id: int, x: real, y: real, apart: bool, hypot: (real, real) -> real)
    requires Shape(r)
    ensures Shape(TouchUpdate(r, id, x, y, apart, hypot))
  {
    if id in r.tracked {
      var t := r.(tracked := Moved(r.tracked, id, x, y));
      ShapeMove(r, id, x, y);
      if Detected(t) {
        ShapePush(t, Update);
      } else {
        ShapeFarMove(t, id, apart, hypot);
        var v := FarMove(t, id, apart, hypot);
        if Detected(v) {
          ShapePush(v, Begin);
          ShapePush(Push(v, Begin), Update);
        }
        hide FarMove, TwoTouchMove, MovedMask;
      }
      hide Shape, Push, Moved;
    }
  }

  lemma FarMoveFrame(t: Recogniser, id: int, apart: bool, hypot: (real, real) -> real)
    requires id in t.tracked
    ensures var v := FarMove(t, id, apart, hypot); v.tracked == t.tracked && v.ignored == t.ignored
  {
    hide Other, MovedMask;
  }

  lemma DetectedPush(r: Recogniser, kind: Kind)
    ensures var p := Push(r, kind);
      && (Detected(p) <==> Detected(r)) && p.state == r.state && p.waitingRelease == r.waitingRelease
      && p.tracked == r.tracked && p.twoTouch == r.twoTouch && p.ignored == r.ignored
  {
    hide StateToGesture, EventX, EventY, MagnitudeX, MagnitudeY, AnyActive;
  }

  lemma UpdateFrame(r: Recogniser, id: int, x: real, y: real, apart: bool, hypot: (real, real) -> real)
    ensures var u := TouchUpdate(r, id, x, y, apart, hypot);
      u.ignored == r.ignored && u.tracked == if id in r.tracked then Moved(r.tracked, id, x, y) else r.tracked
  {
    if id in r.tracked {
      var t := r.(tracked := Moved(r.tracked, id, x, y));
      FarMoveFrame(t, id, apart, hypot);
      var v := FarMove(t, id, apart, hypot);
      DetectedPush(t, Update);
      DetectedPush(v, Begin);
      DetectedPush(Push(v, Begin), Update);
      hide Moved, Detected, FarMove, Push;
    }
  }

  lemma FingersUpdate(r: Recogniser, id: int, x: real, y: real, apart: bool, hypot: (real, real) -> real,
      down: set<int>)
    requires Fingers(r, down)
    ensures Fingers(TouchUpdate(r, id, x, y, apart, hypot), down)
  {
    UpdateFrame(r, id, x, y, apart, hypot);
    if id in r.tracked { MovedKeeps(r.tracked, id, x, y); }
    hide Moved, TouchUpdate, ActiveIds;
  }

  // ----- Releases -----------------------------------------------------------------

  lemma ReleaseOk(r: Recogniser, now: nat)
    requires Shape(r) && r.tracked != map[] && !r.twoTouch
    ensures var u, n := ReleaseMask(r, now), |r.tracked|;
      && u.tracked == r.tracked && u.ignored == r.ignored && u.events == r.events
      && !u.failed && !u.twoTouch && !u.longpress
      && (!Detected(r) ==> u.waitingRelease)
      && (!Detected(r) && u.state != NOGESTURE ==>
            (n == 1 && u.state == ONETAP) || (n == 2 && u.state == TWOTAP) || (n == 3 && u.state == THREETAP))
      && (Detected(r) ==> u == r)
  {
    DetectedStates(r);
    hide AnyActive;
  }

  lemma ReleasedActive(t: map<int, Touch>, id: int)
    requires id in t
    ensures Released(t, id).Keys == t.Keys && |Released(t, id)| == |t|
    ensures ActiveIds(Released(t, id)) == ActiveIds(t) - {id}
    ensures AnyActive(Released(t, id)) <==> ActiveIds(t) - {id} != {}
  {
    var u := Released(t, id);
    assert |u.Keys| == |t.Keys|;
    assert forall i :: i in u && u[i].active <==> i in t && t[i].active && i != id;
    if AnyActive(u) {
      var i :| i in u && u[i].active;
      assert i in ActiveIds(t) - {id};
    }
    if ActiveIds(t) - {id} != {} {
      var i := Pick(ActiveIds(t) - {id});
      assert i in u && u[i].active;
    }
  }

  // Whatever handleTouchEnd() ends with, it leaves nothing tracked.
  lemma ShapeFinish(r: Recogniser, id: int)
    requires !r.failed && r.tracked != map[] && !r.longpress && !r.twoTouch
    requires id in r.tracked && id !in r.ignored && r.state != 128
    ensures Shape(Finish(r, id))
    ensures Fingers(Finish(r, id), r.ignored + ActiveIds(r.tracked) - {id})
  {
    hide Detected, ActiveIds, StateToGesture, EventX, EventY, MagnitudeX, MagnitudeY;
    assert ActiveIds(map[]) == {} by { NoneActive(); }
    assert Detected(r) ==> Known(r.state) by { DetectedKnown(r); }
  }

  lemma NoneActive()
    ensures ActiveIds(map[]) == {}
  {
  }

  lemma DetectedKnown(r: Recogniser)
    requires r.state != 128
    ensures Detected(r) ==> Known(r.state)
  {
    Masks(r.state);
  }

  lemma ShapeUnignore(r: Recogniser, id: int)
    requires Shape(r) && id in r.ignored
    ensures var t := r.(ignored := r.ignored - {id});
      Shape(if t.ignored == {} && t.tracked == map[] then t.(state := INITSTATE, waitingRelease := false) else t)
  {
    assert StateOk(0, false, INITSTATE);
    hide StateOk, AnyActive;
  }

  lemma ShapeEndIgnored(r: Recogniser, id: int, now: nat, down: set<int>)
    requires Shape(r) && Fingers(r, down) && id in r.ignored
    ensures Shape(TouchEnd(r, id, now)) && Fingers(TouchEnd(r, id, now), down - {id})
  {
    ShapeUnignore(r, id);
    hide Shape, ActiveIds, Finish, ReleaseMask, Detected;
  }

  lemma LiftedOk(r: Recogniser, id: int, now: nat)
    requires Shape(r) && id in r.tracked && r.tracked[id].active
    ensures var v, n := Lifted(r, id, now), |r.tracked|;
      && v.tracked.Keys == r.tracked.Keys && |v.tracked| == n && v.ignored == r.ignored && v.events == r.events
      && !v.failed && !v.twoTouch && !v.longpress && v.state != 128
      && (if !v.waitingRelease then v == r && Detected(r)
          else ActiveIds(v.tracked) == ActiveIds(r.tracked) - {id})
      && (v.waitingRelease && !Detected(r) && v.state != NOGESTURE ==>
            (n == 1 && v.state == ONETAP) || (n == 2 && v.state == TWOTAP) || (n == 3 && v.state == THREETAP))
      && (v.waitingRelease && Detected(r) ==>
            && n >= 2 && r.waitingRelease
            && (v.state == NOGESTURE || v.state == r.state) && (r.state == TWODRAG || r.state == PINCH))
  {
    DetectedStates(r);
    var t := if !Detected(r) && r.twoTouch then r.(twoTouch := false, state := NOGESTURE) else r;
    assert Shape(t) by { hide AnyActive, ReleaseMask, TooSlow, Released; }
    ReleaseOk(t, now);
    ReleasedActive(r.tracked, id);
    hide AnyActive, ReleaseMask, TooSlow, ActiveIds, Released;
  }

  lemma LastOfOne(t: map<int, Touch>, id: int)
    requires id in t && |t| == 1
    ensures ActiveIds(t) - {id} == {}
  {
    assert |t.Keys - {id}| == 0;
    assert ActiveIds(t) <= t.Keys;
  }

  lemma ActiveIffAny(t: map<int, Touch>)
    ensures AnyActive(t) <==> ActiveIds(t) != {}
  {
    if AnyActive(t) {
      var i :| i in t && t[i].active;
      assert i in ActiveIds(t);
    }
    if ActiveIds(t) != {} {
      var i := Pick(ActiveIds(t));
      assert i in t && t[i].active;
    }
  }

  // Waiting for more releases: the state is one tap, and fingers are left.
  lemma ShapeWaiting(r: Recogniser, id: int, now: nat, down: set<int>)
    requires Shape(r) && Fingers(r, down) && id in r.tracked && r.tracked[id].active
    requires var v := Lifted(r, id, now); v.waitingRelease && !Detected(v) && v.state != NOGESTURE
    ensures Shape(Lifted(r, id, now)) && Fingers(Lifted(r, id, now), down - {id})
  {
    var v := Lifted(r, id, now);
    LiftedOk(r, id, now);
    ActiveIffAny(v.tracked);
    if |r.tracked| == 1 { LastOfOne(r.tracked, id); }
    hide Lifted, ActiveIds;
  }

  lemma ShapeEnd(r: Recogniser, id: int, now: nat, down: set<int>)
    requires Shape(r) && Fingers(r, down) && id in down
    ensures Shape(TouchEnd(r, id, now)) && Fingers(TouchEnd(r, id, now), down - {id})
  {
    if id in r.ignored {
      ShapeEndIgnored(r, id, now, down);
    } else {
      assert id in ActiveIds(r.tracked);
      var v := Lifted(r, id, now);
      LiftedOk(r, id, now);
      assert down - {id} == v.ignored + ActiveIds(v.tracked) - {id};
      if !v.waitingRelease {
        ShapeFinish(v, id);
      } else if Detected(v) {
        PushFrame(v, Begin);
        ShapeFinish(Push(v, Begin), id);
      } else if v.state != NOGESTURE {
        ShapeWaiting(r, id, now, down);
      } else {
        ShapeFinish(v, id);
      }
      hide Shape, Lifted, Finish, Detected, Push;
    }
  }

  lemma PushFrame(v: Recogniser, kind: Kind)
    requires v.tracked != map[] && Detected(v) && v.state != 128
    ensures var p := Push(v, kind);
      p == v.(events := p.events) && |p.events| == |v.events| + 1 && p.events[..|v.events|] == v.events
  {
    hide StateToGesture, EventX, EventY, MagnitudeX, MagnitudeY;
    DetectedKnown(v);
  }

  // ----- Timers ---------------------------------------------------------------------

  lemma ShapeLongpress(r: Recogniser)
    requires Shape(r) && r.longpress
    ensures Shape(LongpressTimeout(r))
  {
    DetectedStates(r);
    var s := r.(longpress := false, state := LONGPRESS);
    hide AnyActive;
    ShapePush(s, Begin);
    hide Push;
  }

  lemma ShapeTwoTouch(r: Recogniser, hypot: (real, real) -> real)
    requires Shape(r) && r.twoTouch
    ensures Shape(TwoTouchTimeout(r, hypot))
  {
    ghost var t := TwoTouchTimeout(r, hypot);
    hide AnyActive, Average, FirstXs, FirstYs, LastXs, LastYs, Spread;
    hide StateToGesture, EventX, EventY, MagnitudeX, MagnitudeY;
  }

  // The update of a tracked touch, case by case.
  lemma MovedUpdate(r: Recogniser, id: int, x: real, y: real, apart: bool, hypot: (real, real) -> real)
    requires id in r.tracked
    ensures var t := r.(tracked := Moved(r.tracked, id, x, y)); var v := FarMove(t, id, apart, hypot);
      TouchUpdate(r, id, x, y, apart, hypot) ==
        if Detected(t) then Push(t, Update)
        else if hypot(x - r.tracked[id].firstX, y - r.tracked[id].firstY) < MOVE_THRESHOLD then t
        else if Detected(v) then Push(Push(v, Begin), Update) else v
  {
    hide Detected, FarMove, Push, Moved;
  }

  lemma ShapeKnown(r: Recogniser)
    requires Shape(r) && Detected(r)
    ensures Known(r.state)
  {
    DetectedStates(r);
  }
}
