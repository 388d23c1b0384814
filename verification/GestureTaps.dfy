// Gestures that must be reported: quick taps, drags and long presses.
module GestureTaps {
  import opened GestureMachine
  import opened GestureRuns
  import opened GestureLog

  // How far a tap has come: fingers going down, then up, within a quarter of a second.
  datatype Tap =
    | Downs(fingers: set<int>, us: nat)
    | Ups(n: nat, left: set<int>, us: nat)
    | Done(n: nat)
    | NoTap

  const QUICK: nat := 250_000

  function TapNext(t: Tap, i: Input): Tap {
    match t
    case Downs(fingers, us) => (
      match i
      case Down(id, _, _) => if id in fingers || |fingers| == 3 then NoTap else Downs(fingers + {id}, us)
      case Up(id) =>
        if id !in fingers then NoTap
        else if |fingers| == 1 then Done(1)
        else Ups(|fingers|, fingers - {id}, us)
      case Tick(k) => if fingers == {} then t else if us + k <= QUICK then Downs(fingers, us + k) else NoTap
      case _ => NoTap
    )
    case Ups(n, left, us) => (
      match i
      case Up(id) => if id !in left then NoTap else if left - {id} == {} then Done(n) else Ups(n, left - {id}, us)
      case Tick(k) => if us + k <= QUICK then Ups(n, left, us + k) else NoTap
      case _ => NoTap
    )
    case _ => NoTap
  }

  function TapOf(inputs: seq<Input>): Tap {
    if inputs == [] then Downs({}, 0) else TapNext(TapOf(inputs[..|inputs| - 1]), inputs[|inputs| - 1])
  }

  function TapGesture(n: nat): Gesture {
    if n == 1 then OneTap else if n == 2 then TwoTap else ThreeTap
  }

  // What is possible with n fingers down and nothing else yet.
  function DownMask(n: nat): Mask {
    if n <= 1 then INITSTATE else if n == 2 then TWOTAP | THREETAP | TWODRAG | PINCH else THREETAP
  }

  function TapBit(n: nat): Mask {
    if n == 1 then ONETAP else if n == 2 then TWOTAP else THREETAP
  }

  ghost predicate Recent(r: Recogniser, now: nat, us: nat) {
    forall id :: id in r.tracked ==> r.tracked[id].started <= now <= r.tracked[id].started + us
  }

  ghost predicate Still(r: Recogniser) {
    r.ignored == {} && !r.twoTouch && r.events == []
  }

  ghost predicate Going(w: World, t: Tap) {
    match t
    case Downs(fingers, us) =>
      && Still(w.r) && !w.r.waitingRelease && us <= QUICK && |fingers| <= 3
      && w.r.tracked.Keys == fingers == w.down && ActiveIds(w.r.tracked) == fingers
      && w.r.state == DownMask(|fingers|) && Recent(w.r, w.now, us)
      && (w.r.longpress <==> |fingers| == 1)
    case Ups(n, left, us) =>
      && Still(w.r) && w.r.waitingRelease && us <= QUICK && (n == 2 || n == 3)
      && |w.r.tracked| == n && ActiveIds(w.r.tracked) == left == w.down && left != {}
      && w.r.state == TapBit(n) && Recent(w.r, w.now, us)
      && w.r.releaseStart <= w.now <= w.r.releaseStart + us
    case Done(n) =>
      && |w.r.events| == 2
      && w.r.events[0].kind == Begin && w.r.events[0].gesture == TapGesture(n)
      && w.r.events[1].kind == End && w.r.events[1].gesture == TapGesture(n)
    case NoTap => true
  }

  lemma Quickly(first: nat, second: nat, us: nat)
    requires first <= second <= first + us && us <= QUICK
    ensures MsBetween(first, second) <= MULTITOUCH_TIMEOUT
  {
  }

  lemma NotSlow(r: Recogniser, now: nat, us: nat)
    requires Recent(r, now, us) && us <= QUICK && r.releaseStart <= now <= r.releaseStart + us
    ensures !TooSlow(r, now)
  {
    hide MsBetween;
    Quickly(r.releaseStart, now, us);
    forall id | id in r.tracked ensures MsBetween(r.tracked[id].started, now) <= MULTITOUCH_TIMEOUT {
      Quickly(r.tracked[id].started, now, us);
    }
  }

  lemma MasksOpen(n: nat)
    requires n <= 3
    ensures n <= 2 ==> !SingleBit(DownMask(n)) && BegunMask(DownMask(n), n + 1) == DownMask(n + 1)
    ensures DownMask(n) != NOGESTURE
    ensures SingleBit(TapBit(n)) && TapBit(n) & (ONETAP | TWOTAP | THREETAP) != 0 && TapBit(n) != NOGESTURE
    ensures TapBit(n) & !(DRAG | TWODRAG | PINCH | LONGPRESS) == TapBit(n)
    ensures var s := DownMask(n) & !(DRAG | TWODRAG | PINCH | LONGPRESS);
      n > 0 ==> TapBit(n) == if n == 1 then s & !(TWOTAP | THREETAP) else if n == 2 then s & !(ONETAP | THREETAP) else s
    ensures n > 0 ==> StateToGesture(TapBit(n)) == TapGesture(n)
  {
  }

  // A quick finger more is tracked.
  lemma QuicklyTracked(r: Recogniser, id: int, x: real, y: real, now: nat, us: nat)
    requires |r.tracked| <= 2 && r.state == DownMask(|r.tracked|) && !r.waitingRelease
    requires Recent(r, now, us) && us <= QUICK
    ensures TouchBegin(r, id, x, y, now) == Track(r, id, x, y, now)
  {
    MasksOpen(|r.tracked|);
    if r.tracked != map[] {
      assert r.tracked.Keys != {};
      var first := Least(r.tracked.Keys);
      Quickly(r.tracked[first].started, now, us);
    }
    hide MsBetween, BegunMask, DownMask, SingleBit, AnyActive, Track;
  }

  lemma TrackedMore(t: map<int, Touch>, id: int, touch: Touch)
    requires id !in t && touch.active
    ensures t[id := touch].Keys == t.Keys + {id} && |t[id := touch]| == |t| + 1
    ensures ActiveIds(t[id := touch]) == ActiveIds(t) + {id}
  {
  }

  lemma GoingDown(w: World, t: Tap, id: int, x: real, y: real, hypot: (real, real) -> real)
    requires Going(w, t) && t.Downs? && id !in t.fingers && |t.fingers| < 3
    ensures Going(Apply(w, Down(id, x, y), hypot), TapNext(t, Down(id, x, y)))
  {
    var r, n := w.r, |t.fingers|;
    assert |r.tracked| == |r.tracked.Keys|;
    MasksOpen(n);
    QuicklyTracked(r, id, x, y, w.now, t.us);
    TrackedMore(r.tracked, id, Touch(w.now, true, x, y, x, y));
    hide TouchBegin, MsBetween, BegunMask, DownMask, SingleBit, ActiveIds;
  }

  lemma Wait(w: World, t: Tap, k: nat, hypot: (real, real) -> real)
    requires Going(w, t)
    ensures Going(Apply(w, Tick(k), hypot), TapNext(t, Tick(k)))
  {
    hide DownMask, TapBit, ActiveIds;
  }

  lemma NotYet(r: Recogniser, n: nat)
    requires 1 <= n <= 3 && AnyActive(r.tracked) && (r.state == DownMask(n) || r.state == TapBit(n))
    ensures !Detected(r)
  {
    hide AnyActive;
  }

  lemma HasActive(t: map<int, Touch>, id: int)
    requires id in ActiveIds(t)
    ensures AnyActive(t) && id in t
  {
  }

  // A finger lifted from a tap so far.
  lemma LiftTap(r: Recogniser, id: int, now: nat, n: nat, us: nat)
    requires 1 <= n <= 3 && |r.tracked| == n && id in ActiveIds(r.tracked) && !r.twoTouch
    requires if r.waitingRelease then r.state == TapBit(n) && r.releaseStart <= now <= r.releaseStart + us
             else r.state == DownMask(n)
    requires Recent(r, now, us) && us <= QUICK
    ensures var v := Lifted(r, id, now);
      && v.state == TapBit(n) && v.waitingRelease && v.tracked == Released(r.tracked, id) && v.ignored == r.ignored
      && !v.twoTouch && v.events == r.events
      && v.releaseStart == if r.waitingRelease then r.releaseStart else now
  {
    HasActive(r.tracked, id);
    NotYet(r, n);
    MasksOpen(n);
    var start := if r.waitingRelease then r.releaseStart else now;
    NotSlow(r.(releaseStart := start), now, us);
    assert TooSlow(ReleaseMask(r, now), now) == TooSlow(r.(releaseStart := start), now) by {
      hide Detected, DownMask, TapBit, MsBetween;
    }
    hide Detected, AnyActive, DownMask, TapBit, TooSlow, Released, MsBetween;
  }

  lemma TapDetected(v: Recogniser, n: nat)
    requires 1 <= n <= 3 && v.state == TapBit(n)
    ensures Detected(v) <==> ActiveIds(v.tracked) == {}
    ensures v.state != NOGESTURE && StateToGesture(v.state) == TapGesture(n)
  {
    MasksOpen(n);
    ActiveIffAny(v.tracked);
    hide AnyActive, ActiveIds, TapBit;
  }

  lemma FinishedTap(v: Recogniser, id: int, n: nat)
    requires 1 <= n <= 3 && v.state == TapBit(n) && v.waitingRelease && ActiveIds(v.tracked) == {} && v.events == []
    ensures var events := Ended(v, id).events;
      && |events| == 2
      && events[0].kind == Begin && events[0].gesture == TapGesture(n)
      && events[1].kind == End && events[1].gesture == TapGesture(n)
  {
    TapDetected(v, n);
    DetectedPush(v, Begin);
    FinishKeeps(Push(v, Begin), id);
    hide Detected, Finish, StateToGesture, EventX, EventY, MagnitudeX, MagnitudeY, Known, TapBit, ActiveIds;
  }

  lemma UpAfter(v: Recogniser, id: int, n: nat)
    requires 1 <= n <= 3 && v.state == TapBit(n) && v.waitingRelease && ActiveIds(v.tracked) != {}
    ensures Ended(v, id) == v
  {
    TapDetected(v, n);
    hide Detected, Finish, TapBit, ActiveIds, Push;
  }

  // The tap is reported with the last finger, and goes on before.
  ghost predicate LiftedTap(r: Recogniser, u: Recogniser, id: int, now: nat, n: nat, us: nat) {
    if ActiveIds(r.tracked) - {id} == {} then
      && |u.events| == 2
      && u.events[0].kind == Begin && u.events[0].gesture == TapGesture(n)
      && u.events[1].kind == End && u.events[1].gesture == TapGesture(n)
    else
      && Still(u) && u.waitingRelease && u.state == TapBit(n) && |u.tracked| == n
      && ActiveIds(u.tracked) == ActiveIds(r.tracked) - {id} && Recent(u, now, us)
      && u.releaseStart == if r.waitingRelease then r.releaseStart else now
  }

  lemma LiftReports(r: Recogniser, id: int, now: nat, n: nat, us: nat)
    requires 1 <= n <= 3 && |r.tracked| == n && id in ActiveIds(r.tracked) && Still(r)
    requires if r.waitingRelease then r.state == TapBit(n) && r.releaseStart <= now <= r.releaseStart + us
             else r.state == DownMask(n)
    requires Recent(r, now, us) && us <= QUICK
    ensures LiftedTap(r, TouchEnd(r, id, now), id, now, n, us)
  {
    LiftTap(r, id, now, n, us);
    var v := Lifted(r, id, now);
    EndIsEnded(r, id, now);
    HasActive(r.tracked, id);
    ReleasedActive(r.tracked, id);
    RecentReleased(r, now, us, id);
    hide Lifted, Detected, TouchEnd, Ended, DownMask, TapBit, ActiveIds, Released;
    if ActiveIds(r.tracked) - {id} == {} {
      FinishedTap(v, id, n);
    } else {
      UpAfter(v, id, n);
      hide Recent;
      RecentSame(r.(tracked := Released(r.tracked, id)), v, now, us);
    }
  }

  lemma RecentSame(r: Recogniser, v: Recogniser, now: nat, us: nat)
    requires Recent(r, now, us) && v.tracked == r.tracked
    ensures Recent(v, now, us)
  {
  }

  lemma GoingUp(w: World, t: Tap, id: int, hypot: (real, real) -> real)
    requires Going(w, t) && (t.Downs? || t.Ups?) && id in (if t.Downs? then t.fingers else t.left)
    ensures Going(Apply(w, Up(id), hypot), TapNext(t, Up(id)))
  {
    var r, n := w.r, if t.Downs? then |t.fingers| else t.n;
    assert |r.tracked| == |r.tracked.Keys|;
    if t.Downs? { SomeFingers(t.fingers, id); }
    LiftReports(r, id, w.now, n, t.us);
    hide TouchEnd, DownMask, TapBit, ActiveIds, Recent;
  }

  lemma SomeFingers(s: set<int>, id: int)
    requires id in s
    ensures |s| >= 1 && (|s| == 1 <==> s - {id} == {})
  {
    assert |s - {id}| == |s| - 1;
  }

  lemma RecentReleased(r: Recogniser, now: nat, us: nat, id: int)
    requires Recent(r, now, us)
    ensures Recent(r.(tracked := Released(r.tracked, id)), now, us)
  {
  }

  lemma GoingStep(w: World, t: Tap, i: Input, hypot: (real, real) -> real)
    requires Going(w, t)
    ensures Going(Apply(w, i, hypot), TapNext(t, i))
  {
    hide Apply;
    match i
    case Down(id, x, y) =>
      if t.Downs? && id !in t.fingers && |t.fingers| < 3 { GoingDown(w, t, id, x, y, hypot); }
      hide Going;
    case Up(id) =>
      if (t.Downs? && id in t.fingers) || (t.Ups? && id in t.left) { GoingUp(w, t, id, hypot); }
      hide Going;
    case Tick(k) => Wait(w, t, k, hypot);
    case _ =>
  }

  lemma {:induction false} RunGoing(inputs: seq<Input>, hypot: (real, real) -> real)
    ensures Going(Run(inputs, hypot), TapOf(inputs))
    decreases |inputs|
  {
    if inputs == [] {
      NoneActive();
    } else {
      var before := inputs[..|inputs| - 1];
      RunGoing(before, hypot);
      hide Going, Apply, TapNext;
      GoingStep(Run(before, hypot), TapOf(before), inputs[|inputs| - 1], hypot);
    }
  }

  // One, two or three fingers put down and lifted within a quarter of a second, and nothing
  // else, are reported as that tap, and as nothing else.
  lemma QuickTapReported(inputs: seq<Input>, hypot: (real, real) -> real)
    requires TapOf(inputs).Done?
    ensures var n, events := TapOf(inputs).n, Run(inputs, hypot).r.events;
      && |events| == 2
      && events[0].kind == Begin && events[0].gesture == TapGesture(n)
      && events[1].kind == End && events[1].gesture == TapGesture(n)
  {
    RunGoing(inputs, hypot);
  }

  // One finger held is reported as a long press when the timer fires.
  lemma HoldReported(inputs: seq<Input>, hypot: (real, real) -> real)
    requires TapOf(inputs).Downs? && |TapOf(inputs).fingers| == 1
    ensures var events := Run(inputs + [LongpressFires], hypot).r.events;
      |events| == 1 && events[0].kind == Begin && events[0].gesture == LongPress && events[0].fingers == 1
  {
    hide Run, Going, LongpressTimeout, TapOf;
    RunGoing(inputs, hypot);
    var w, t := Run(inputs, hypot), TapOf(inputs);
    OneHeld(w, t);
    HoldRun(inputs, hypot);
    HoldFrom(w.r);
  }

  lemma OneHeld(w: World, t: Tap)
    requires Going(w, t) && t.Downs? && |t.fingers| == 1
    ensures w.r.longpress && |w.r.tracked| == 1 && w.r.events == []
  {
    assert |w.r.tracked| == |w.r.tracked.Keys|;
    hide ActiveIds, Recent, DownMask;
  }

  lemma HoldRun(inputs: seq<Input>, hypot: (real, real) -> real)
    requires Run(inputs, hypot).r.longpress
    ensures Run(inputs + [LongpressFires], hypot).r == LongpressTimeout(Run(inputs, hypot).r)
  {
    assert (inputs + [LongpressFires])[..|inputs|] == inputs;
    hide LongpressTimeout;
  }

  lemma HoldFrom(r: Recogniser)
    requires r.events == [] && |r.tracked| == 1
    ensures var events := LongpressTimeout(r).events;
      |events| == 1 && events[0].kind == Begin && events[0].gesture == LongPress && events[0].fingers == 1
  {
    hide Detected, EventX, EventY, MagnitudeX, MagnitudeY, Known;
  }

  // One finger moved past the threshold, and nothing else, is reported as a drag at once.
  lemma DragReported(inputs: seq<Input>, id: int, x: real, y: real, apart: bool, hypot: (real, real) -> real)
    requires TapOf(inputs).Downs? && TapOf(inputs).fingers == {id}
    requires var t := Run(inputs, hypot).r.tracked;
      id in t ==> hypot(x - t[id].firstX, y - t[id].firstY) >= MOVE_THRESHOLD
    ensures var events := Run(inputs + [Move(id, x, y, apart)], hypot).r.events;
      && |events| == 2
      && events[0].kind == Begin && events[0].gesture == Drag
      && events[1].kind == Update && events[1].gesture == Drag
  {
    hide Run, Going, TouchUpdate, TapOf;
    RunGoing(inputs, hypot);
    MoveRun(inputs, Move(id, x, y, apart), hypot);
    OneFinger(Run(inputs, hypot), TapOf(inputs), id);
    DragFrom(Run(inputs, hypot).r, id, x, y, apart, hypot);
  }

  lemma OneFinger(w: World, t: Tap, id: int)
    requires Going(w, t) && t.Downs? && t.fingers == {id}
    ensures id in w.r.tracked && |w.r.tracked| == 1 && w.r.state == INITSTATE && w.r.events == []
  {
    assert |w.r.tracked| == |w.r.tracked.Keys|;
    hide ActiveIds, Recent;
  }

  lemma MoveRun(inputs: seq<Input>, i: Input, hypot: (real, real) -> real)
    requires i.Move?
    ensures Run(inputs + [i], hypot).r == TouchUpdate(Run(inputs, hypot).r, i.id, i.x, i.y, i.apart, hypot)
  {
    assert (inputs + [i])[..|inputs|] == inputs;
    hide TouchUpdate, LateMove;
  }

  lemma DragFrom(r: Recogniser, id: int, x: real, y: real, apart: bool, hypot: (real, real) -> real)
    requires id in r.tracked && |r.tracked| == 1 && r.state == INITSTATE && r.events == []
    requires hypot(x - r.tracked[id].firstX, y - r.tracked[id].firstY) >= MOVE_THRESHOLD
    ensures var events := TouchUpdate(r, id, x, y, apart, hypot).events;
      && |events| == 2
      && events[0].kind == Begin && events[0].gesture == Drag
      && events[1].kind == Update && events[1].gesture == Drag
  {
    var t := r.(tracked := Moved(r.tracked, id, x, y));
    MovedUpdate(r, id, x, y, apart, hypot);
    MovedKeeps(r.tracked, id, x, y);
    assert !SingleBit(INITSTATE);
    assert MovedMask(INITSTATE, 1) == DRAG;
    var v := FarMove(t, id, apart, hypot);
    assert v.state == DRAG && Detected(v);
    DetectedPush(v, Begin);
    assert !Detected(t);
    hide TouchUpdate, FarMove, Detected, Moved, EventX, EventY, MagnitudeX, MagnitudeY, Known;
  }

  // ---- Too late ----------------------------------------------------------------------

  // A finger that comes more than a quarter of a second after the first is ignored, and no
  // tap, drag or scroll is possible any more.
  lemma LateFingerEnds(r: Recogniser, first: int, id: int, x: real, y: real, now: nat)
    requires first in r.tracked && (forall k :: k in r.tracked ==> first <= k) && !Detected(r)
    requires MsBetween(r.tracked[first].started, now) > 250
    ensures var u := TouchBegin(r, id, x, y, now);
      u.state == NOGESTURE && u.tracked == r.tracked && id in u.ignored && u.events == r.events
  {
    hide MsBetween, Detected, Track;
    assert r.tracked.Keys != {};
    assert Least(r.tracked.Keys) == first;
  }

  // A finger lifted more than a quarter of a second after another, or a second after one was
  // put down, makes no tap.
  lemma SlowUpDrops(r: Recogniser, id: int, now: nat)
    requires Shape(r) && id in r.tracked && r.tracked[id].active && id !in r.ignored && !Detected(r)
    requires (r.waitingRelease && MsBetween(r.releaseStart, now) > 250)
      || exists k :: k in r.tracked && MsBetween(r.tracked[k].started, now) > 1000
    ensures TouchEnd(r, id, now).events == r.events
  {
    LiftedOk(r, id, now);
    EndIsEnded(r, id, now);
    SlowLift(r, id, now);
    var v := Lifted(r, id, now);
    TwoBarsDetected(v);
    hide Lifted, TouchEnd, Detected, Shape;
    FinishKeeps(v, id);
    hide Finish, Push;
  }

  lemma SlowLift(r: Recogniser, id: int, now: nat)
    requires !Detected(r)
    requires (r.waitingRelease && MsBetween(r.releaseStart, now) > 250)
      || exists k :: k in r.tracked && MsBetween(r.tracked[k].started, now) > 1000
    ensures Lifted(r, id, now).state == NOGESTURE && Lifted(r, id, now).events == r.events
  {
    hide MsBetween, AnyActive, Released;
    assert !SingleBit(NOGESTURE);
  }

  // A finger that stays near where it was put down is only followed.
  lemma NearMoveKeeps(r: Recogniser, id: int, x: real, y: real, apart: bool, hypot: (real, real) -> real)
    requires id in r.tracked && !Detected(r)
    requires hypot(x - r.tracked[id].firstX, y - r.tracked[id].firstY) < 50.0
    ensures TouchUpdate(r, id, x, y, apart, hypot) == r.(tracked := Moved(r.tracked, id, x, y))
  {
    DetectedAfterMove(r, id, x, y);
    MovedUpdate(r, id, x, y, apart, hypot);
    hide TouchUpdate, Detected, Moved, FarMove, Push;
  }
}
