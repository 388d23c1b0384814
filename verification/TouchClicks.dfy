// What the fake mouse does for each gesture event, read off the events it pushes.
module TouchClicks {
  import opened GestureMachine
  import opened GestureRuns
  import opened TouchMouse
  import opened TouchComposition

  function Actions(log: seq<Fake>): seq<Action> {
    seq(|log|, i requires 0 <= i < |log| => log[i].action)
  }

  function Clicks(b: Button, n: nat): seq<Action> {
    if n == 0 then [] else [Press(b), Release(b)] + Clicks(b, n - 1)
  }

  lemma ClickActs(m: Mouse, b: Button)
    ensures Actions(Click(m, b).log) == Actions(m.log) + [Press(b), Release(b)]
  {
  }

  lemma Grouped(a: seq<Action>, b: seq<Action>, c: seq<Action>)
    ensures (a + b) + c == a + (b + c)
  {
  }

  // Scrolling to a magnitude along one axis: n clicks of the one or the other button, each
  // worth a step, stopping within a step of the magnitude and not past it.
  ghost predicate Scrolls(log: seq<Action>, log': seq<Action>, up: Button, down: Button, from: real, to: real,
      magnitude: real, sens: real, n: nat)
  {
    if magnitude >= from then
      log' == log + Clicks(up, n) && to == from + sens * n as real && 0.0 <= magnitude - to <= sens
    else
      log' == log + Clicks(down, n) && to == from - sens * n as real && 0.0 <= to - magnitude <= sens
  }

  lemma {:induction false} ScrollYActs(m: Mouse, magnitude: real) returns (n: nat)
    ensures var r := ScrollY(m, magnitude);
      && Scrolls(Actions(m.log), Actions(r.log), 4, 5, m.lastY, r.lastY, magnitude, 50.0, n)
      && r.lastX == m.lastX
    decreases Abs(magnitude - m.lastY)
  {
    hide Click;
    n := 0;
    var up, down := Click(m, 4).(lastY := m.lastY + SCRLSENS), Click(m, 5).(lastY := m.lastY - SCRLSENS);
    ClickKeepsLast(m, 4);
    ClickKeepsLast(m, 5);
    if magnitude - m.lastY > SCRLSENS {
      var k := ScrollYActs(up, magnitude);
      n := k + 1;
      ClickActs(m, 4);
      Grouped(Actions(m.log), [Press(4), Release(4)], Clicks(4, k));
    } else if magnitude - m.lastY < -SCRLSENS {
      var k := ScrollYActs(down, magnitude);
      n := k + 1;
      ClickActs(m, 5);
      Grouped(Actions(m.log), [Press(5), Release(5)], Clicks(5, k));
    }
  }

  lemma {:induction false} ScrollXActs(m: Mouse, magnitude: real) returns (n: nat)
    ensures var r := ScrollX(m, magnitude);
      && Scrolls(Actions(m.log), Actions(r.log), 6, 7, m.lastX, r.lastX, magnitude, 50.0, n)
      && r.lastY == m.lastY
    decreases Abs(magnitude - m.lastX)
  {
    hide Click;
    n := 0;
    var up, down := Click(m, 6).(lastX := m.lastX + SCRLSENS), Click(m, 7).(lastX := m.lastX - SCRLSENS);
    ClickKeepsLast(m, 6);
    ClickKeepsLast(m, 7);
    if magnitude - m.lastX > SCRLSENS {
      var k := ScrollXActs(up, magnitude);
      n := k + 1;
      ClickActs(m, 6);
      Grouped(Actions(m.log), [Press(6), Release(6)], Clicks(6, k));
    } else if magnitude - m.lastX < -SCRLSENS {
      var k := ScrollXActs(down, magnitude);
      n := k + 1;
      ClickActs(m, 7);
      Grouped(Actions(m.log), [Press(7), Release(7)], Clicks(7, k));
    }
  }

  lemma {:induction false} ZoomActs(m: Mouse, magnitude: real) returns (n: nat)
    ensures var r := ZoomTo(m, magnitude);
      Scrolls(Actions(m.log), Actions(r.log), 4, 5, m.lastX, r.lastX, magnitude, 30.0, n)
    decreases Abs(magnitude - m.lastX)
  {
    hide Click;
    n := 0;
    var up, down := Click(m, 4).(lastX := m.lastX + ZOOMSENS), Click(m, 5).(lastX := m.lastX - ZOOMSENS);
    ClickKeepsLast(m, 4);
    ClickKeepsLast(m, 5);
    if magnitude - m.lastX > ZOOMSENS {
      var k := ZoomActs(up, magnitude);
      n := k + 1;
      ClickActs(m, 4);
      Grouped(Actions(m.log), [Press(4), Release(4)], Clicks(4, k));
    } else if magnitude - m.lastX < -ZOOMSENS {
      var k := ZoomActs(down, magnitude);
      n := k + 1;
      ClickActs(m, 5);
      Grouped(Actions(m.log), [Press(5), Release(5)], Clicks(5, k));
    }
  }

  lemma ClickKeepsLast(m: Mouse, b: Button)
    ensures Click(m, b).lastX == m.lastX && Click(m, b).lastY == m.lastY
  {
  }

  // ---- Each event --------------------------------------------------------------------

  // What a Begin or an End does: a tap clicks left, right or middle for one, two or three
  // fingers, a drag holds left and a long press right.
  function Acts(e: Event): seq<Action> {
    match e.kind
    case Begin => (
      match e.gesture
      case OneTap => [Motion, Press(1), Release(1)]
      case TwoTap => [Motion, Press(3), Release(3)]
      case ThreeTap => [Motion, Press(2), Release(2)]
      case Drag => [Motion, Press(1)]
      case LongPress => [Motion, Press(3)]
      case TwoDrag => [Motion]
      case Pinch => [Motion]
    )
    case Update => if e.gesture == Drag || e.gesture == LongPress then [Motion] else []
    case End =>
      if e.gesture == Drag then [Motion, Release(1)]
      else if e.gesture == LongPress then [Motion, Release(3)]
      else []
  }

  predicate Scrolling(e: Event) { e.kind == Update && TwoFinger(e) }

  lemma PlainActs(m: Mouse, e: Event, hypot: (real, real) -> real)
    requires !Scrolling(e)
    ensures Actions(Handle(m, e, hypot).log) == Actions(m.log) + Acts(e)
  {
    hide ScrollX, ScrollY, ZoomTo;
  }

  // A scroll turns the wheel up or down, then sideways, by whole steps of 50.
  lemma WheelActs(m: Mouse, e: Event, hypot: (real, real) -> real) returns (middle: seq<Action>, v: nat, h: nat)
    requires e.kind == Update && e.gesture == TwoDrag
    ensures var r := Handle(m, e, hypot);
      && Scrolls(Actions(m.log) + [Motion], middle, 4, 5, m.lastY, r.lastY, e.magnitudeY, 50.0, v)
      && Scrolls(middle, Actions(r.log), 6, 7, m.lastX, r.lastX, e.magnitudeX, 50.0, h)
  {
    hide Scrolls, ScrollX, ScrollY;
    var n := FakeMotion(m);
    var t := ScrollY(n, e.magnitudeY);
    v := ScrollYActs(n, e.magnitudeY);
    h := ScrollXActs(t, e.magnitudeX);
    middle := Actions(t.log);
    assert Actions(n.log) == Actions(m.log) + [Motion];
  }

  // A pinch turns the wheel with Control held, by whole steps of 30, once it has passed one.
  lemma PinchActs(m: Mouse, e: Event, hypot: (real, real) -> real) returns (middle: seq<Action>, n: nat)
    requires e.kind == Update && e.gesture == Pinch
    ensures var r, magnitude := Handle(m, e, hypot), hypot(e.magnitudeX, e.magnitudeY);
      if Abs(magnitude - m.lastX) > 30.0 then
        && Scrolls(Actions(m.log) + [Motion, ControlDown], middle, 4, 5, m.lastX, r.lastX, magnitude, 30.0, n)
        && Actions(r.log) == middle + [ControlUp]
      else Actions(r.log) == Actions(m.log) + [Motion] && r.lastX == m.lastX
  {
    hide Scrolls, ZoomTo;
    var c := FakeControl(FakeMotion(m), true);
    var t := ZoomTo(c, hypot(e.magnitudeX, e.magnitudeY));
    n := ZoomActs(c, hypot(e.magnitudeX, e.magnitudeY));
    middle := Actions(t.log);
    assert Actions(c.log) == Actions(m.log) + [Motion, ControlDown];
  }

  // ---- Every run -----------------------------------------------------------------------

  // The presses of the left, middle and right button.
  function Pressed(log: seq<Action>): seq<int> {
    if log == [] then []
    else
      var a := log[|log| - 1];
      Pressed(log[..|log| - 1]) + if a.Press? && a.button <= 3 then [a.button as int] else []
  }

  // The button of each gesture that has begun.
  function Wanted(events: seq<Event>): seq<int> {
    if events == [] then []
    else
      var e := events[|events| - 1];
      Wanted(events[..|events| - 1]) +
        if e.kind != Begin then []
        else
          match e.gesture
          case OneTap => [1]
          case TwoTap => [3]
          case ThreeTap => [2]
          case Drag => [1]
          case LongPress => [3]
          case _ => []
  }

  lemma {:induction false} PressedConcat(a: seq<Action>, b: seq<Action>)
    ensures Pressed(a + b) == Pressed(a) + Pressed(b)
    decreases |b|
  {
    if b == [] {
      assert a + b == a;
    } else {
      var n := |b| - 1;
      PressedConcat(a, b[..n]);
      assert (a + b)[..|a + b| - 1] == a + b[..n];
    }
  }

  lemma {:induction false} WheelPressesNone(b: Button, n: nat)
    requires b > 3
    ensures Pressed(Clicks(b, n)) == []
  {
    if n > 0 {
      WheelPressesNone(b, n - 1);
      PressedConcat([Press(b), Release(b)], Clicks(b, n - 1));
      PressedConcat([Press(b)], [Release(b)]);
    }
  }

  lemma ScrollsPressNone(log: seq<Action>, log': seq<Action>, up: Button, down: Button, from: real, to: real,
      magnitude: real, sens: real, n: nat)
    requires Scrolls(log, log', up, down, from, to, magnitude, sens, n) && up > 3 && down > 3
    ensures Pressed(log') == Pressed(log)
  {
    WheelPressesNone(up, n);
    WheelPressesNone(down, n);
    PressedConcat(log, Clicks(up, n));
    PressedConcat(log, Clicks(down, n));
  }

  lemma OneAction(a: Action)
    ensures Pressed([a]) == if a.Press? && a.button <= 3 then [a.button as int] else []
  {
    assert [a][..0] == [];
  }

  lemma OneWanted(e: Event)
    ensures Wanted([e]) ==
      if e.kind != Begin then []
      else
        match e.gesture
        case OneTap => [1]
        case TwoTap => [3]
        case ThreeTap => [2]
        case Drag => [1]
        case LongPress => [3]
        case _ => []
  {
    assert [e][..0] == [];
  }

  lemma ActsPress(e: Event)
    requires !Scrolling(e)
    ensures Pressed(Acts(e)) == Wanted([e])
  {
    hide Pressed, Wanted;
    OneWanted(e);
    var a := Acts(e);
    if |a| >= 1 { OneAction(a[0]); }
    if |a| >= 2 {
      OneAction(a[1]);
      PressedConcat([a[0]], [a[1]]);
      assert [a[0]] + [a[1]] == [a[0], a[1]];
    }
    if |a| == 3 {
      OneAction(a[2]);
      PressedConcat([a[0], a[1]], [a[2]]);
      assert a == [a[0], a[1]] + [a[2]];
    } else if |a| == 2 {
      assert a == [a[0], a[1]];
    } else if |a| == 1 {
      assert a == [a[0]];
    } else {
      assert Pressed([]) == [] by { NonePressed(); }
    }
  }

  lemma NonePressed()
    ensures Pressed([]) == []
  {
  }

  lemma HandlePresses(m: Mouse, e: Event, hypot: (real, real) -> real)
    ensures Pressed(Actions(Handle(m, e, hypot).log)) == Pressed(Actions(m.log)) + Wanted([e])
  {
    hide Handle, Scrolls, Pressed, Actions;
    if !Scrolling(e) {
      PlainActs(m, e, hypot);
      PressedConcat(Actions(m.log), Acts(e));
      ActsPress(e);
    } else if e.gesture == TwoDrag {
      var middle, v, h := WheelActs(m, e, hypot);
      var r := Handle(m, e, hypot);
      ScrollsPressNone(Actions(m.log) + [Motion], middle, 4, 5, m.lastY, r.lastY, e.magnitudeY, 50.0, v);
      ScrollsPressNone(middle, Actions(r.log), 6, 7, m.lastX, r.lastX, e.magnitudeX, 50.0, h);
      PressedConcat(Actions(m.log), [Motion]);
      NoPresses(e);
    } else {
      var middle, n := PinchActs(m, e, hypot);
      var r, magnitude := Handle(m, e, hypot), hypot(e.magnitudeX, e.magnitudeY);
      PressedConcat(Actions(m.log), [Motion, ControlDown]);
      PressedConcat(Actions(m.log), [Motion]);
      PressedConcat(middle, [ControlUp]);
      if Abs(magnitude - m.lastX) > 30.0 {
        ScrollsPressNone(Actions(m.log) + [Motion, ControlDown], middle, 4, 5, m.lastX, r.lastX, magnitude, 30.0, n);
      }
      NoPresses(e);
    }
  }

  lemma NoPresses(e: Event)
    ensures Pressed([Motion]) == [] && Pressed([Motion, ControlDown]) == [] && Pressed([ControlUp]) == []
    ensures Scrolling(e) ==> Wanted([e]) == []
  {
    assert [Motion, ControlDown][..1] == [Motion] && [e][..0] == [];
  }

  lemma WantedLast(events: seq<Event>)
    requires events != []
    ensures Wanted(events) == Wanted(events[..|events| - 1]) + Wanted([events[|events| - 1]])
  {
    OneWanted(events[|events| - 1]);
  }

  lemma {:induction false} MousePresses(events: seq<Event>, hypot: (real, real) -> real)
    ensures Pressed(Actions(MouseOf(events, hypot).log)) == Wanted(events)
    decreases |events|
  {
    if events == [] {
      assert Actions(IDLE.log) == [];
    } else {
      hide Handle, Pressed, Wanted, Actions;
      var n := |events| - 1;
      MousePresses(events[..n], hypot);
      HandlePresses(MouseOf(events[..n], hypot), events[n], hypot);
      WantedLast(events);
    }
  }

  // In every run, the left, middle and right buttons are pressed exactly for the gestures
  // that begin, in their order.
  lemma ButtonsPressed(inputs: seq<Input>, hypot: (real, real) -> real)
    ensures Pressed(Actions(MouseAfter(inputs, hypot).log)) == Wanted(Run(inputs, hypot).r.events)
  {
    MousePresses(Run(inputs, hypot).r.events, hypot);
  }
}
