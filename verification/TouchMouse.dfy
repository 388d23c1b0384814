// Gestures to synthetic pointer and key events, and the mask of fake buttons that
// goes with them.
module TouchMouse {
  import opened GestureMachine

  const ZOOMSENS: real := 30.0
  const SCRLSENS: real := 50.0

  type Button = b: int | 1 <= b <= 7 witness 1

  // Pushed X events; `state` is the fake part of the event's state field.
  datatype Action = Motion | Press(button: Button) | Release(button: Button) | ControlDown | ControlUp
  datatype Fake = Fake(action: Action, state: Bits)

  // The numbers of the bits that are set in a mask.
  type Bits = set<nat>

  // The last two fields are history: which scrolling gesture began last, with the
  // magnitude it began at, and the net wheel clicks since then on each axis.
  datatype Scroll = NoScroll | Wheel | Zoom(start: real)
  datatype Mouse = Mouse(mask: Bits, lastX: real, lastY: real, log: seq<Fake>,
                         scroll: Scroll, netX: int, netY: int)

  const IDLE := Mouse({}, 0.0, 0.0, [], NoScroll, 0, 0)

  // The mask bit of a button is 1 << (7 + button).
  function Bit(b: Button): nat { 7 + b }

  const CONTROLBIT: nat := 2

  // The event carries the mask from before it; the mask changes after the push.
  function FakeMotion(m: Mouse): Mouse {
    m.(log := m.log + [Fake(Motion, m.mask)])
  }

  function FakeButton(m: Mouse, press: bool, b: Button): Mouse {
    m.(log := m.log + [Fake(if press then Press(b) else Release(b), m.mask)],
       mask := if press then m.mask + {Bit(b)} else m.mask - {Bit(b)},
       netY := if press && b == 4 then m.netY + 1 else if press && b == 5 then m.netY - 1 else m.netY,
       netX := if press && b == 6 then m.netX + 1 else if press && b == 7 then m.netX - 1 else m.netX)
  }

  function FakeControl(m: Mouse, press: bool): Mouse {
    m.(log := m.log + [Fake(if press then ControlDown else ControlUp, m.mask)],
       mask := if press then m.mask + {CONTROLBIT} else m.mask - {CONTROLBIT})
  }

  function Click(m: Mouse, b: Button): Mouse {
    FakeButton(FakeButton(m, true, b), false, b)
  }

  // The two loops along one axis: whole steps of `sens` towards the magnitude.
  function ScrollY(m: Mouse, magnitude: real): Mouse
    decreases Abs(magnitude - m.lastY)
  {
    if magnitude - m.lastY > SCRLSENS then ScrollY(Click(m, 4).(lastY := m.lastY + SCRLSENS), magnitude)
    else if magnitude - m.lastY < -SCRLSENS then ScrollY(Click(m, 5).(lastY := m.lastY - SCRLSENS), magnitude)
    else m
  }

  function ScrollX(m: Mouse, magnitude: real): Mouse
    decreases Abs(magnitude - m.lastX)
  {
    if magnitude - m.lastX > SCRLSENS then ScrollX(Click(m, 6).(lastX := m.lastX + SCRLSENS), magnitude)
    else if magnitude - m.lastX < -SCRLSENS then ScrollX(Click(m, 7).(lastX := m.lastX - SCRLSENS), magnitude)
    else m
  }

  function ZoomTo(m: Mouse, magnitude: real): Mouse
    decreases Abs(magnitude - m.lastX)
  {
    if magnitude - m.lastX > ZOOMSENS then ZoomTo(Click(m, 4).(lastX := m.lastX + ZOOMSENS), magnitude)
    else if magnitude - m.lastX < -ZOOMSENS then ZoomTo(Click(m, 5).(lastX := m.lastX - ZOOMSENS), magnitude)
    else m
  }

  function TapButton(g: Gesture): Button {
    match g
    case OneTap => 1
    case TwoTap => 3
    case ThreeTap => 2
    case _ => 1
  }

  // handleGestureEvent()
  function Handle(m: Mouse, e: Event, hypot: (real, real) -> real): Mouse {
    match e.kind
    case Begin => (
      match e.gesture
      case Drag => FakeButton(FakeMotion(m), true, 1)
      case LongPress => FakeButton(FakeMotion(m), true, 3)
      case TwoDrag =>
        FakeMotion(m.(lastX := e.magnitudeX, lastY := e.magnitudeY, scroll := Wheel, netX := 0, netY := 0))
      case Pinch =>
        var start := hypot(e.magnitudeX, e.magnitudeY);
        FakeMotion(m.(lastX := start, scroll := Zoom(start), netX := 0, netY := 0))
      case _ => Click(FakeMotion(m), TapButton(e.gesture))
    )
    case Update => (
      match e.gesture
      case Drag => FakeMotion(m)
      case LongPress => FakeMotion(m)
      case TwoDrag => ScrollX(ScrollY(FakeMotion(m), e.magnitudeY), e.magnitudeX)
      case Pinch =>
        var n, magnitude := FakeMotion(m), hypot(e.magnitudeX, e.magnitudeY);
        if Abs(magnitude - n.lastX) > ZOOMSENS then FakeControl(ZoomTo(FakeControl(n, true), magnitude), false) else n
      case _ => m
    )
    case End => (
      match e.gesture
      case Drag => FakeButton(FakeMotion(m), false, 1)
      case LongPress => FakeButton(FakeMotion(m), false, 3)
      case _ => m
    )
  }

  function MouseOf(events: seq<Event>, hypot: (real, real) -> real): Mouse {
    if events == [] then IDLE
    else Handle(MouseOf(events[..|events| - 1], hypot), events[|events| - 1], hypot)
  }

  // ----- What is held, read off the pushed events alone -----------------------------

  function Held(log: seq<Fake>, b: Button): bool {
    if log == [] then false
    else
      var a := log[|log| - 1].action;
      if a == Press(b) then true else if a == Release(b) then false else Held(log[..|log| - 1], b)
  }

  function ControlHeld(log: seq<Fake>): bool {
    if log == [] then false
    else
      var a := log[|log| - 1].action;
      if a == ControlDown then true else if a == ControlUp then false else ControlHeld(log[..|log| - 1])
  }

  // A mask says exactly what is held.
  ghost predicate MaskFor(mask: Bits, log: seq<Fake>) {
    && (forall b: Button :: Bit(b) in mask <==> Held(log, b))
    && (CONTROLBIT in mask <==> ControlHeld(log))
    && (forall n :: n in mask ==> n == CONTROLBIT || 8 <= n <= 14)
  }

  // Every pushed event carries the mask of what was held just before it.
  ghost predicate HonestLog(log: seq<Fake>) {
    log != [] ==>
      var before := log[..|log| - 1];
      HonestLog(before) && MaskFor(log[|log| - 1].state, before)
  }

  ghost predicate Honest(m: Mouse) {
    MaskFor(m.mask, m.log) && HonestLog(m.log)
  }

  lemma HonestMotion(m: Mouse)
    requires Honest(m)
    ensures Honest(FakeMotion(m))
  {
    assert FakeMotion(m).log[..|m.log|] == m.log;
  }

  lemma HonestButton(m: Mouse, press: bool, b: Button)
    requires Honest(m)
    ensures Honest(FakeButton(m, press, b))
  {
    assert FakeButton(m, press, b).log[..|m.log|] == m.log;
  }

  lemma HonestControl(m: Mouse, press: bool)
    requires Honest(m)
    ensures Honest(FakeControl(m, press))
  {
    assert FakeControl(m, press).log[..|m.log|] == m.log;
  }

  lemma HonestClick(m: Mouse, b: Button)
    requires Honest(m)
    ensures Honest(Click(m, b))
    ensures Bit(b) !in m.mask ==> Click(m, b).mask == m.mask
  {
    HonestButton(m, true, b);
    HonestButton(FakeButton(m, true, b), false, b);
    hide Honest;
  }

  // Buttons 4 to 7 are up.
  predicate NoWheel(mask: Bits) { 11 !in mask && 12 !in mask && 13 !in mask && 14 !in mask }

  // Scrolling keeps the books: each net click is one step of the magnitude, at most
  // one step is left over, and no button stays down.
  lemma {:induction false} ScrollYKeeps(m: Mouse, magnitude: real)
    requires Honest(m) && NoWheel(m.mask)
    ensures var r := ScrollY(m, magnitude);
      && Honest(r) && r.mask == m.mask && r.scroll == m.scroll && r.netX == m.netX && r.lastX == m.lastX
      && r.lastY - m.lastY == SCRLSENS * (r.netY - m.netY) as real
      && Abs(magnitude - r.lastY) <= SCRLSENS
    decreases Abs(magnitude - m.lastY)
  {
    HonestClick(m, 4);
    HonestClick(m, 5);
    if magnitude - m.lastY > SCRLSENS {
      ScrollYKeeps(Click(m, 4).(lastY := m.lastY + SCRLSENS), magnitude);
    } else if magnitude - m.lastY < -SCRLSENS {
      ScrollYKeeps(Click(m, 5).(lastY := m.lastY - SCRLSENS), magnitude);
    }
    hide MaskFor, HonestLog;
  }

  lemma {:induction false} ScrollXKeeps(m: Mouse, magnitude: real)
    requires Honest(m) && NoWheel(m.mask)
    ensures var r := ScrollX(m, magnitude);
      && Honest(r) && r.mask == m.mask && r.scroll == m.scroll && r.netY == m.netY && r.lastY == m.lastY
      && r.lastX - m.lastX == SCRLSENS * (r.netX - m.netX) as real
      && Abs(magnitude - r.lastX) <= SCRLSENS
    decreases Abs(magnitude - m.lastX)
  {
    HonestClick(m, 6);
    HonestClick(m, 7);
    if magnitude - m.lastX > SCRLSENS {
      ScrollXKeeps(Click(m, 6).(lastX := m.lastX + SCRLSENS), magnitude);
    } else if magnitude - m.lastX < -SCRLSENS {
      ScrollXKeeps(Click(m, 7).(lastX := m.lastX - SCRLSENS), magnitude);
    }
    hide MaskFor, HonestLog;
  }

  lemma {:induction false} ZoomKeeps(m: Mouse, magnitude: real)
    requires Honest(m) && NoWheel(m.mask)
    ensures var r := ZoomTo(m, magnitude);
      && Honest(r) && r.mask == m.mask && r.scroll == m.scroll && r.netX == m.netX && r.lastY == m.lastY
      && r.lastX - m.lastX == ZOOMSENS * (r.netY - m.netY) as real
      && Abs(magnitude - r.lastX) <= ZOOMSENS
    decreases Abs(magnitude - m.lastX)
  {
    HonestClick(m, 4);
    HonestClick(m, 5);
    if magnitude - m.lastX > ZOOMSENS {
      ZoomKeeps(Click(m, 4).(lastX := m.lastX + ZOOMSENS), magnitude);
    } else if magnitude - m.lastX < -ZOOMSENS {
      ZoomKeeps(Click(m, 5).(lastX := m.lastX - ZOOMSENS), magnitude);
    }
    hide MaskFor, HonestLog;
  }

  // What handling one event does to the mask and to the books.
  predicate Booked(m: Mouse) {
    match m.scroll
    case NoScroll => true
    case Wheel => m.lastX == SCRLSENS * m.netX as real && m.lastY == SCRLSENS * m.netY as real
    case Zoom(start) => m.lastX - start == ZOOMSENS * m.netY as real
  }

  function MaskAfter(mask: Bits, e: Event): Bits {
    if e.gesture == Drag && e.kind == Begin then mask + {Bit(1)}
    else if e.gesture == Drag && e.kind == End then mask - {Bit(1)}
    else if e.gesture == LongPress && e.kind == Begin then mask + {Bit(3)}
    else if e.gesture == LongPress && e.kind == End then mask - {Bit(3)}
    else mask
  }

  // The event scrolls in the mode its gesture began, and a scroll begins at zero.
  predicate InMode(m: Mouse, e: Event) {
    && (e.gesture == TwoDrag && e.kind == Update ==> m.scroll == Wheel)
    && (e.gesture == Pinch && e.kind == Update ==> m.scroll.Zoom?)
    && (e.gesture == TwoDrag && e.kind == Begin ==> e.magnitudeX == 0.0 && e.magnitudeY == 0.0)
  }

  // A tap or a scroll comes with nothing held.
  predicate Free(m: Mouse, e: Event) {
    e.gesture != Drag && e.gesture != LongPress ==> m.mask == {}
  }

  // What handling event e makes of m: the mask and the books are right, the scrolling
  // mode changes only at a Begin, and an update leaves at most one step over.
  ghost predicate Handled(m: Mouse, e: Event, r: Mouse, hypot: (real, real) -> real) {
    && Honest(r) && Booked(r) && r.mask == MaskAfter(m.mask, e)
    && (e.gesture == TwoDrag && e.kind == Begin ==> r.scroll == Wheel)
    && (e.gesture == Pinch && e.kind == Begin ==> r.scroll.Zoom?)
    && (!TwoFinger(e) || e.kind != Begin ==> r.scroll == m.scroll)
    && (e.gesture == TwoDrag && e.kind == Update ==>
          Abs(e.magnitudeX - r.lastX) <= SCRLSENS && Abs(e.magnitudeY - r.lastY) <= SCRLSENS)
    && (e.gesture == Pinch && e.kind == Update ==>
          Abs(hypot(e.magnitudeX, e.magnitudeY) - r.lastX) <= ZOOMSENS)
  }

  lemma HandleBegin(m: Mouse, e: Event, hypot: (real, real) -> real)
    requires Honest(m) && Booked(m) && InMode(m, e) && Free(m, e) && e.kind == Begin
    ensures Handled(m, e, Handle(m, e, hypot), hypot)
  {
    hide MaskFor, HonestLog, ScrollX, ScrollY, ZoomTo;
    var n := FakeMotion(m);
    HonestMotion(m);
    match e.gesture
    case Drag => HonestButton(n, true, 1);
    case LongPress => HonestButton(n, true, 3);
    case TwoDrag =>
      HonestMotion(m.(lastX := e.magnitudeX, lastY := e.magnitudeY, scroll := Wheel, netX := 0, netY := 0));
    case Pinch =>
    case _ => HonestClick(n, TapButton(e.gesture));
  }

  lemma HandleScroll(m: Mouse, e: Event, hypot: (real, real) -> real)
    requires Honest(m) && Booked(m) && m.scroll == Wheel && m.mask == {} && e.kind == Update && e.gesture == TwoDrag
    ensures Handled(m, e, Handle(m, e, hypot), hypot)
  {
    var n := FakeMotion(m);
    HonestMotion(m);
    hide Honest, ScrollX, ScrollY;
    ScrollYKeeps(n, e.magnitudeY);
    ScrollXKeeps(ScrollY(n, e.magnitudeY), e.magnitudeX);
    assert Handle(m, e, hypot) == ScrollX(ScrollY(n, e.magnitudeY), e.magnitudeX);
    hide Handle;
  }

  lemma HandleZoom(m: Mouse, e: Event, hypot: (real, real) -> real)
    requires Honest(m) && Booked(m) && m.scroll.Zoom? && m.mask == {} && e.kind == Update && e.gesture == Pinch
    ensures Handled(m, e, Handle(m, e, hypot), hypot)
  {
    var n, magnitude := FakeMotion(m), hypot(e.magnitudeX, e.magnitudeY);
    var c := FakeControl(n, true);
    HonestMotion(m);
    HonestControl(n, true);
    hide Honest, ZoomTo;
    ZoomKeeps(c, magnitude);
    HonestControl(ZoomTo(c, magnitude), false);
    assert Handle(m, e, hypot) ==
      if Abs(magnitude - n.lastX) > ZOOMSENS then FakeControl(ZoomTo(c, magnitude), false) else n;
    hide Handle;
  }

  lemma HandleUpdate(m: Mouse, e: Event, hypot: (real, real) -> real)
    requires Honest(m) && Booked(m) && InMode(m, e) && Free(m, e) && e.kind == Update
    ensures Handled(m, e, Handle(m, e, hypot), hypot)
  {
    if e.gesture == TwoDrag {
      HandleScroll(m, e, hypot);
    } else if e.gesture == Pinch {
      HandleZoom(m, e, hypot);
    } else {
      hide MaskFor, HonestLog;
      HonestMotion(m);
    }
  }

  lemma HandleEnd(m: Mouse, e: Event, hypot: (real, real) -> real)
    requires Honest(m) && Booked(m) && e.kind == End
    ensures Handled(m, e, Handle(m, e, hypot), hypot)
  {
    hide MaskFor, HonestLog, ScrollX, ScrollY, ZoomTo;
    var n := FakeMotion(m);
    HonestMotion(m);
    HonestButton(n, false, 1);
    HonestButton(n, false, 3);
  }

  lemma HandleKeeps(m: Mouse, e: Event, hypot: (real, real) -> real)
    requires Honest(m) && Booked(m) && InMode(m, e) && Free(m, e)
    ensures Handled(m, e, Handle(m, e, hypot), hypot)
  {
    match e.kind
    case Begin => HandleBegin(m, e, hypot);
    case Update => HandleUpdate(m, e, hypot);
    case End => HandleEnd(m, e, hypot);
  }
}
