// A run in which what the recogniser reports is not whole blocks: two fingers touch, one
// lifts, the other moves far, and the two-touch timer fires before it lifts too.
module GestureWitness {
  import opened GestureMachine
  import opened GestureRuns
  import opened GestureLog

  function Taxi(): (real, real) -> real {
    (x: real, y: real) => Abs(x) + Abs(y)
  }

  const FAR := Move(2, 200.0, 0.0, false)

  const INPUTS: seq<Input> :=
    [Down(1, 0.0, 0.0), Down(2, 100.0, 0.0), Up(1), FAR, TwoTouchFires, Up(2)]

  const FIRST := Touch(0, true, 0.0, 0.0, 0.0, 0.0)
  const SECOND := Touch(0, true, 100.0, 0.0, 100.0, 0.0)
  const BOTH: map<int, Touch> := map[1 := FIRST, 2 := SECOND]
  const ONE_UP: map<int, Touch> := map[1 := FIRST.(active := false), 2 := SECOND]

  ghost function Next(w: World, i: Input): World { Apply(w, i, Taxi()) }

  lemma OneDown()
    ensures var w := Next(START, Down(1, 0.0, 0.0));
      w == START.(r := INITIAL.(tracked := map[1 := FIRST], longpress := true), down := {1})
  {
    assert |map[1 := FIRST]| == 1;
    assert !SingleBit(INITSTATE);
    assert INITIAL.tracked[1 := FIRST] == map[1 := FIRST];
  }

  lemma TwoDown(w: World)
    requires w == START.(r := INITIAL.(tracked := map[1 := FIRST], longpress := true), down := {1})
    ensures var v := Next(w, Down(2, 100.0, 0.0));
      v == START.(r := INITIAL.(tracked := BOTH, state := TWOTAP | THREETAP | TWODRAG | PINCH), down := {1, 2})
  {
    var t := map[1 := FIRST];
    assert t[2 := SECOND] == BOTH;
    assert |BOTH| == 2;
    assert !SingleBit(INITSTATE);
    assert INITSTATE & !(ONETAP | DRAG | LONGPRESS) == TWOTAP | THREETAP | TWODRAG | PINCH;
    assert w.r.tracked[Least(w.r.tracked.Keys)].started == 0;
  }

  lemma OneLifted(w: World)
    requires w == START.(r := INITIAL.(tracked := BOTH, state := TWOTAP | THREETAP | TWODRAG | PINCH), down := {1, 2})
    ensures var v := Next(w, Up(1));
      && v.r == INITIAL.(tracked := ONE_UP, state := TWOTAP, waitingRelease := true)
      && v.down == {2} && v.now == 0 && !v.late
  {
    assert |BOTH| == 2;
    assert !SingleBit(w.r.state);
    var s := w.r.state & !(DRAG | TWODRAG | PINCH | LONGPRESS);
    assert s & !(ONETAP | THREETAP) == TWOTAP;
    assert Released(BOTH, 1) == ONE_UP;
    assert ONE_UP[2].active;
    assert AnyActive(ONE_UP);
    assert !TooSlow(w.r.(state := TWOTAP, waitingRelease := true), 0);
  }

  ghost function AfterFar(): map<int, Touch> { Moved(ONE_UP, 2, 200.0, 0.0) }

  lemma FarTouches()
    ensures AfterFar().Keys == {1, 2} && |AfterFar()| == 2
    ensures AfterFar()[1] == ONE_UP[1] && AfterFar()[2].active
    ensures Other(AfterFar(), 2) == ONE_UP[1]
  {
    var t := AfterFar();
    assert t.Keys == {1, 2};
    assert |t.Keys| == 2;
    var g := Greatest(t.Keys);
    assert g == 2 by { assert g in {1, 2} && 2 in t.Keys; }
    var l := Least(t.Keys);
    assert l == 1 by { assert l in {1, 2} && 1 in t.Keys; }
  }

  lemma FarMoved(w: World)
    requires w.r == INITIAL.(tracked := ONE_UP, state := TWOTAP, waitingRelease := true)
    requires w.down == {2} && !w.late
    ensures var v := Next(w, FAR);
      && v.r == w.r.(tracked := AfterFar(), state := NOGESTURE, twoTouch := true)
      && v.down == {2} && v.now == w.now && !v.late
  {
    hide Other, Moved;
    FarTouches();
    var t := w.r.(tracked := AfterFar());
    assert AnyActive(t.tracked) && !Detected(t);
    assert TWOTAP & !(ONETAP | TWOTAP | THREETAP | LONGPRESS) == NOGESTURE;
    assert MovedMask(TWOTAP, 2) == NOGESTURE;
    assert NOGESTURE & !TWODRAG == NOGESTURE;
  }

  lemma TimerFired(w: World)
    requires w.r.twoTouch && w.r.waitingRelease && w.down == {2}
    ensures var v := Next(w, TwoTouchFires); v.late && v.down == {2}
  {
  }

  lemma LastLifted(w: World)
    requires w.late && w.down == {2}
    ensures var v := Next(w, Up(2)); v.late && v.down == {}
  {
    hide TouchEnd;
  }

  // Late timers do happen, and then the log is no sequence of blocks.
  lemma LateTimerBreaksBlocks()
    ensures Run(INPUTS, Taxi()).down == {}
    ensures Run(INPUTS, Taxi()).late
    ensures ParseOf(Run(INPUTS, Taxi()).r.events) != Closed
  {
    hide Next, Run, ParseOf;
    var w1 := Next(START, INPUTS[0]);
    var w2 := Next(w1, INPUTS[1]);
    var w3 := Next(w2, INPUTS[2]);
    var w4 := Next(w3, INPUTS[3]);
    var w5 := Next(w4, INPUTS[4]);
    OneDown();
    TwoDown(w1);
    OneLifted(w2);
    FarMoved(w3);
    TimerFired(w4);
    LastLifted(w5);
    Started();
    Unfold(0, START);
    Unfold(1, w1);
    Unfold(2, w2);
    Unfold(3, w3);
    Unfold(4, w4);
    Unfold(5, w5);
    assert INPUTS[..6] == INPUTS;
    BlocksIffNoLateTimer(INPUTS, Taxi());
  }

  lemma Started()
    ensures Run(INPUTS[..0], Taxi()) == START
  {
  }

  lemma Unfold(n: nat, w: World)
    requires n < 6 && Run(INPUTS[..n], Taxi()) == w
    ensures Run(INPUTS[..n + 1], Taxi()) == Next(w, INPUTS[n])
  {
    hide Apply;
    assert INPUTS[..n + 1][..n] == INPUTS[..n];
  }
}
