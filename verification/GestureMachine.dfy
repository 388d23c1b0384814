// The touch gesture recogniser: a mask of gestures still possible, the touches being
// followed, the touches being ignored, and two one-shot timers.
module GestureMachine {
  import opened Sets

  type Mask = bv8

  const NOGESTURE: Mask := 0
  const ONETAP: Mask := 1
  const TWOTAP: Mask := 2
  const THREETAP: Mask := 4
  const DRAG: Mask := 8
  const LONGPRESS: Mask := 16
  const TWODRAG: Mask := 32
  const PINCH: Mask := 64
  const INITSTATE: Mask := 127

  const MOVE_THRESHOLD: real := 50.0
  const MULTITOUCH_TIMEOUT: nat := 250
  const TAP_TIMEOUT: nat := 1000

  datatype Gesture = OneTap | TwoTap | ThreeTap | Drag | LongPress | TwoDrag | Pinch
  datatype Kind = Begin | Update | End

  // `fingers` is history: how many touches were tracked when the event was pushed.
  datatype Event = Event(kind: Kind, gesture: Gesture, x: real, y: real,
                         magnitudeX: real, magnitudeY: real, fingers: nat)

  predicate TwoFinger(e: Event) { e.gesture == TwoDrag || e.gesture == Pinch }

  datatype Touch = Touch(started: nat, active: bool,
                         firstX: real, firstY: real, lastX: real, lastY: real)

  // `failed` says that an assertion of the program has failed; `events` is the
  // history of calls to handleGestureEvent().
  datatype Recogniser = Recogniser(
    state: Mask, tracked: map<int, Touch>, ignored: set<int>,
    waitingRelease: bool, releaseStart: nat, longpress: bool, twoTouch: bool,
    failed: bool, events: seq<Event>)

  const INITIAL := Recogniser(INITSTATE, map[], {}, false, 0, false, false, false, [])

  // core::msSince() on clocks in microseconds. The difference is an unsigned int.
  function MsBetween(first: nat, second: nat): nat {
    if second < first then 0
    else ((second - first) % 0x1_0000_0000 + 999) % 0x1_0000_0000 / 1000
  }

  // ----- Averages over the tracked touches ------------------------------------

  ghost function Sum(m: map<int, real>): real {
    if m.Keys == {} then 0.0
    else
      var k := Pick(m.Keys);
      m[k] + Sum(m - {k})
  }

  lemma {:induction false} SumAny(m: map<int, real>, k: int)
    requires k in m
    ensures Sum(m) == m[k] + Sum(m - {k})
    decreases |m|
  {
    var p := Pick(m.Keys);
    if p != k {
      assert |m - {p}| < |m| by { assert (m - {p}).Keys == m.Keys - {p}; }
      assert |m - {k}| < |m| by { assert (m - {k}).Keys == m.Keys - {k}; }
      SumAny(m - {p}, k);
      SumAny(m - {k}, p);
      assert m - {p} - {k} == m - {k} - {p};
    }
  }

  function FirstXs(t: map<int, Touch>): map<int, real> { map id | id in t :: t[id].firstX }
  function FirstYs(t: map<int, Touch>): map<int, real> { map id | id in t :: t[id].firstY }
  function LastXs(t: map<int, Touch>): map<int, real> { map id | id in t :: t[id].lastX }
  function LastYs(t: map<int, Touch>): map<int, real> { map id | id in t :: t[id].lastY }

  ghost function Average(m: map<int, real>): real {
    if m == map[] then 0.0 else Sum(m) / |m| as real
  }

  // tracked.begin() and tracked.rbegin()
  function Least(s: set<int>): (m: int)
    requires s != {}
    ensures m in s && forall x :: x in s ==> m <= x
  {
    LeastExists(s);
    var m :| m in s && forall x :: x in s ==> m <= x;
    m
  }

  function Greatest(s: set<int>): (m: int)
    requires s != {}
    ensures m in s && forall x :: x in s ==> x <= m
  {
    GreatestExists(s);
    var m :| m in s && forall x :: x in s ==> x <= m;
    m
  }

  lemma {:induction false} LeastExists(s: set<int>)
    requires s != {}
    ensures exists m :: m in s && forall x :: x in s ==> m <= x
  {
    var k := Pick(s);
    if s != {k} {
      LeastExists(s - {k});
      var n :| n in s - {k} && forall x :: x in s - {k} ==> n <= x;
      var m := if k < n then k else n;
      assert m in s && forall x :: x in s ==> m <= x by { assert s == (s - {k}) + {k}; }
    }
  }

  lemma {:induction false} GreatestExists(s: set<int>)
    requires s != {}
    ensures exists m :: m in s && forall x :: x in s ==> x <= m
  {
    var k := Pick(s);
    if s != {k} {
      GreatestExists(s - {k});
      var n :| n in s - {k} && forall x :: x in s - {k} ==> x <= n;
      var m := if k > n then k else n;
      assert m in s && forall x :: x in s ==> x <= m by { assert s == (s - {k}) + {k}; }
    }
  }

  function Abs(x: real): real { if x < 0.0 then -x else x }

  // Distance between the touches with the first and the last id, along one axis.
  ghost function Spread(m: map<int, real>): real {
    if m == map[] then 0.0 else Abs(m[Greatest(m.Keys)] - m[Least(m.Keys)])
  }

  // ----- The state machine ------------------------------------------------------

  predicate SingleBit(state: Mask) { state != 0 && state & (state - 1) == 0 }

  predicate AnyActive(t: map<int, Touch>) { exists id :: id in t && t[id].active }

  predicate Detected(r: Recogniser) {
    && SingleBit(r.state)
    && (r.state & (ONETAP | TWOTAP | THREETAP) != 0 ==> !AnyActive(r.tracked))
  }

  // The states that stand for a gesture.
  predicate Known(state: Mask) {
    || state == ONETAP || state == TWOTAP || state == THREETAP || state == DRAG
    || state == LONGPRESS || state == TWODRAG || state == PINCH
  }

  function StateToGesture(state: Mask): Gesture {
    if state == ONETAP then OneTap
    else if state == TWOTAP then TwoTap
    else if state == THREETAP then ThreeTap
    else if state == DRAG then Drag
    else if state == LONGPRESS then LongPress
    else if state == TWODRAG then TwoDrag
    else if state == PINCH then Pinch
    else OneTap
  }

  ghost function EventX(r: Recogniser, kind: Kind): real {
    if kind == Begin || r.state == TWODRAG || r.state == PINCH then Average(FirstXs(r.tracked))
    else Average(LastXs(r.tracked))
  }

  ghost function EventY(r: Recogniser, kind: Kind): real {
    if kind == Begin || r.state == TWODRAG || r.state == PINCH then Average(FirstYs(r.tracked))
    else Average(LastYs(r.tracked))
  }

  ghost function MagnitudeX(r: Recogniser, kind: Kind): real {
    if r.state == PINCH then Spread(if kind == Begin then FirstXs(r.tracked) else LastXs(r.tracked))
    else if r.state == TWODRAG && kind != Begin then Average(LastXs(r.tracked)) - Average(FirstXs(r.tracked))
    else 0.0
  }

  ghost function MagnitudeY(r: Recogniser, kind: Kind): real {
    if r.state == PINCH then Spread(if kind == Begin then FirstYs(r.tracked) else LastYs(r.tracked))
    else if r.state == TWODRAG && kind != Begin then Average(LastYs(r.tracked)) - Average(FirstYs(r.tracked))
    else 0.0
  }

  ghost function Push(r: Recogniser, kind: Kind): Recogniser {
    r.(events := r.events + [Event(kind, StateToGesture(r.state), EventX(r, kind), EventY(r, kind),
                                   MagnitudeX(r, kind), MagnitudeY(r, kind), |r.tracked|)],
       failed := r.failed || r.tracked == map[] || !Known(r.state))
  }

  ghost function Ignore(r: Recogniser, id: int): Recogniser {
    r.(ignored := r.ignored + {id})
  }

  // The gestures still possible with n touches, the last of them new.
  function BegunMask(state: Mask, n: nat): Mask {
    if n == 1 then state
    else if n == 2 then state & !(ONETAP | DRAG | LONGPRESS)
    else if n == 3 then state & !(TWOTAP | TWODRAG | PINCH)
    else NOGESTURE
  }

  ghost function Track(r: Recogniser, id: int, x: real, y: real, now: nat): Recogniser {
    var tracked := r.tracked[id := Touch(now, true, x, y, x, y)];
    r.(tracked := tracked, state := BegunMask(r.state, |tracked|),
       longpress := if |tracked| == 1 then true else if |tracked| == 2 then false else r.longpress)
  }

  ghost function TouchBegin(r: Recogniser, id: int, x: real, y: real, now: nat): Recogniser {
    if Detected(r) || r.state == NOGESTURE then Ignore(r, id)
    else if r.tracked != map[] && MsBetween(r.tracked[Least(r.tracked.Keys)].started, now) > MULTITOUCH_TIMEOUT then
      Ignore(r.(state := NOGESTURE), id)
    else if r.waitingRelease then Ignore(r.(state := NOGESTURE), id)
    else Track(r, id, x, y, now)
  }

  ghost function Moved(t: map<int, Touch>, id: int, x: real, y: real): map<int, Touch>
    requires id in t
  {
    t[id := t[id].(lastX := x, lastY := y)]
  }

  // The masks after a move past the threshold, before telling two-finger gestures apart.
  function MovedMask(state: Mask, fingers: nat): Mask {
    var s := state & !(ONETAP | TWOTAP | THREETAP | LONGPRESS);
    var t := if fingers != 1 then s & !DRAG else s;
    if fingers != 2 then t & !(TWODRAG | PINCH) else t
  }

  // The other one of two touches.
  ghost function Other(t: map<int, Touch>, id: int): Touch
    requires id in t
  {
    if Greatest(t.Keys) == id then t[Least(t.Keys)] else t[Greatest(t.Keys)]
  }

  // `apart` is the answer of the angle comparison.
  ghost function TwoTouchMove(r: Recogniser, id: int, apart: bool, hypot: (real, real) -> real): Recogniser
    requires id in r.tracked
  {
    var prev := Other(r.tracked, id);
    if hypot(prev.firstX - prev.lastX, prev.firstY - prev.lastY) > MOVE_THRESHOLD then
      r.(state := if apart then r.state & !TWODRAG else r.state & !PINCH, twoTouch := false)
    else r.(twoTouch := true)
  }

  // A move past the threshold with no gesture detected yet.
  ghost function FarMove(t: Recogniser, id: int, apart: bool, hypot: (real, real) -> real): Recogniser
    requires id in t.tracked
  {
    var u := t.(state := MovedMask(t.state, |t.tracked|), longpress := false);
    if |u.tracked| == 2 then TwoTouchMove(u, id, apart, hypot) else u
  }

  ghost function TouchUpdate(r: Recogniser, id: int, x: real, y: real, apart: bool, hypot: (real, real) -> real):
    Recogniser
  {
    if id !in r.tracked then r
    else
      var t := r.(tracked := Moved(r.tracked, id, x, y));
      if Detected(t) then Push(t, Update)
      else if hypot(x - r.tracked[id].firstX, y - r.tracked[id].firstY) < MOVE_THRESHOLD then t
      else
        var v := FarMove(t, id, apart, hypot);
        if !Detected(v) then v else Push(Push(v, Begin), Update)
  }

  // Only gestures without movement or waiting survive a release, and at the first
  // one only taps of as many fingers as there are.
  ghost function ReleaseMask(r: Recogniser, now: nat): Recogniser {
    if Detected(r) then r
    else
      var s := r.state & !(DRAG | TWODRAG | PINCH | LONGPRESS);
      if r.waitingRelease then r.(state := s, longpress := false)
      else r.(state := if |r.tracked| == 1 then s & !(TWOTAP | THREETAP)
                       else if |r.tracked| == 2 then s & !(ONETAP | THREETAP) else s,
              longpress := false, waitingRelease := true, releaseStart := now)
  }

  ghost predicate TooSlow(r: Recogniser, now: nat) {
    || MsBetween(r.releaseStart, now) > MULTITOUCH_TIMEOUT
    || exists id :: id in r.tracked && MsBetween(r.tracked[id].started, now) > TAP_TIMEOUT
  }

  function Released(t: map<int, Touch>, id: int): map<int, Touch> {
    if id in t then t[id := t[id].(active := false)] else t
  }

  function ActiveIds(t: map<int, Touch>): set<int> { set id | id in t && t[id].active }

  // The end of handleTouchEnd(): report, then ignore whoever is left.
  ghost function Finish(r: Recogniser, id: int): Recogniser {
    var p := if Detected(r) then Push(r, End) else r;
    var left := (p.ignored + ActiveIds(p.tracked)) - {id};
    if left == {} then p.(tracked := map[], ignored := {}, state := INITSTATE, waitingRelease := false)
    else p.(tracked := map[], ignored := left, state := NOGESTURE)
  }

  // The state after the release of a tracked touch, before anything is reported.
  ghost function Lifted(r: Recogniser, id: int, now: nat): Recogniser {
    var t := if !Detected(r) && r.twoTouch then r.(twoTouch := false, state := NOGESTURE) else r;
    var u := ReleaseMask(t, now);
    if !u.waitingRelease then u
    else u.(state := if TooSlow(u, now) then NOGESTURE else u.state, tracked := Released(u.tracked, id))
  }

  ghost function TouchEnd(r: Recogniser, id: int, now: nat): Recogniser {
    if id in r.ignored then
      var t := r.(ignored := r.ignored - {id});
      if t.ignored == {} && t.tracked == map[] then t.(state := INITSTATE, waitingRelease := false) else t
    else
      var v := Lifted(r, id, now);
      if !v.waitingRelease then Finish(v, id)
      else if Detected(v) then Finish(Push(v, Begin), id)
      else if v.state != NOGESTURE then v
      else Finish(v, id)
  }

  ghost function LongpressTimeout(r: Recogniser): Recogniser {
    Push(r.(longpress := false, state := LONGPRESS, failed := r.failed || Detected(r)), Begin)
  }

  // Pinch when the touches have spread or closed by more than they have moved together.
  ghost function BeforeTwoTouch(r: Recogniser, hypot: (real, real) -> real): Recogniser {
    var t := r.tracked;
    var moveX := Abs(Average(LastXs(t)) - Average(FirstXs(t)));
    var moveY := Abs(Average(LastYs(t)) - Average(FirstYs(t)));
    var stretch := Abs(hypot(Spread(FirstXs(t)), Spread(FirstYs(t))) - hypot(Spread(LastXs(t)), Spread(LastYs(t))));
    r.(twoTouch := false, failed := r.failed || t == map[],
       state := if moveY < stretch && moveX < stretch then PINCH else TWODRAG)
  }

  ghost function TwoTouchTimeout(r: Recogniser, hypot: (real, real) -> real): Recogniser {
    Push(Push(BeforeTwoTouch(r, hypot), Begin), Update)
  }
}
