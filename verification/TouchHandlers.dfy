// Gestures to fake events as the program has it: an object whose methods push events
// and keep the mask, with the scrolling loops. Each method does what TouchMouse says.
module TouchHandlers {
  import opened GestureMachine
  import opened TouchMouse

  class TouchHandler {
    var fakeStateMask: Bits
    var lastMagnitudeX: real
    var lastMagnitudeY: real
    var pushed: seq<Fake>
    ghost var scroll: Scroll
    ghost var netX: int
    ghost var netY: int

    ghost function View(): Mouse
      reads this
    {
      Mouse(fakeStateMask, lastMagnitudeX, lastMagnitudeY, pushed, scroll, netX, netY)
    }

    constructor ()
      ensures View() == IDLE
    {
      fakeStateMask, lastMagnitudeX, lastMagnitudeY, pushed := {}, 0.0, 0.0, [];
      scroll, netX, netY := NoScroll, 0, 0;
    }

    method FakeMotionEvent()
      modifies this`pushed
      ensures View() == FakeMotion(old(View()))
    {
      pushed := pushed + [Fake(Motion, fakeStateMask)];
    }

    method FakeButtonEvent(press: bool, button: Button)
      modifies this`pushed, this`fakeStateMask, this`netX, this`netY
      ensures View() == FakeButton(old(View()), press, button)
    {
      // The mask of the event is the state just prior to it
      pushed := pushed + [Fake(if press then Press(button) else Release(button), fakeStateMask)];
      if press {
        fakeStateMask := fakeStateMask + {Bit(button)};
        netY := if button == 4 then netY + 1 else if button == 5 then netY - 1 else netY;
        netX := if button == 6 then netX + 1 else if button == 7 then netX - 1 else netX;
      } else {
        fakeStateMask := fakeStateMask - {Bit(button)};
      }
    }

    method FakeControlEvent(press: bool)
      modifies this`pushed, this`fakeStateMask
      ensures View() == FakeControl(old(View()), press)
    {
      pushed := pushed + [Fake(if press then ControlDown else ControlUp, fakeStateMask)];
      if press {
        fakeStateMask := fakeStateMask + {CONTROLBIT};
      } else {
        fakeStateMask := fakeStateMask - {CONTROLBIT};
      }
    }

    method ClickButton(button: Button)
      modifies this`pushed, this`fakeStateMask, this`netX, this`netY
      ensures View() == Click(old(View()), button)
    {
      FakeButtonEvent(true, button);
      FakeButtonEvent(false, button);
    }

    method ScrollVertically(magnitudeY: real)
      modifies this`pushed, this`fakeStateMask, this`netX, this`netY, this`lastMagnitudeY
      ensures View() == ScrollY(old(View()), magnitudeY)
    {
      hide Click;
      while magnitudeY - lastMagnitudeY > SCRLSENS
        invariant ScrollY(View(), magnitudeY) == ScrollY(old(View()), magnitudeY)
        decreases Abs(magnitudeY - lastMagnitudeY)
      {
        ghost var m := View();
        ClickButton(4);
        ClickKeeps(m, 4);
        lastMagnitudeY := lastMagnitudeY + SCRLSENS;
      }
      while magnitudeY - lastMagnitudeY < -SCRLSENS
        invariant ScrollY(View(), magnitudeY) == ScrollY(old(View()), magnitudeY)
        invariant magnitudeY - lastMagnitudeY <= SCRLSENS
        decreases Abs(magnitudeY - lastMagnitudeY)
      {
        ghost var m := View();
        ClickButton(5);
        ClickKeeps(m, 5);
        lastMagnitudeY := lastMagnitudeY - SCRLSENS;
      }
    }

    method ScrollHorizontally(magnitudeX: real)
      modifies this`pushed, this`fakeStateMask, this`netX, this`netY, this`lastMagnitudeX
      ensures View() == ScrollX(old(View()), magnitudeX)
    {
      hide Click;
      while magnitudeX - lastMagnitudeX > SCRLSENS
        invariant ScrollX(View(), magnitudeX) == ScrollX(old(View()), magnitudeX)
        decreases Abs(magnitudeX - lastMagnitudeX)
      {
        ghost var m := View();
        ClickButton(6);
        ClickKeeps(m, 6);
        lastMagnitudeX := lastMagnitudeX + SCRLSENS;
      }
      while magnitudeX - lastMagnitudeX < -SCRLSENS
        invariant ScrollX(View(), magnitudeX) == ScrollX(old(View()), magnitudeX)
        invariant magnitudeX - lastMagnitudeX <= SCRLSENS
        decreases Abs(magnitudeX - lastMagnitudeX)
      {
        ghost var m := View();
        ClickButton(7);
        ClickKeeps(m, 7);
        lastMagnitudeX := lastMagnitudeX - SCRLSENS;
      }
    }

    method ZoomSteps(magnitude: real)
      modifies this`pushed, this`fakeStateMask, this`netX, this`netY, this`lastMagnitudeX
      ensures View() == ZoomTo(old(View()), magnitude)
    {
      hide Click;
      while magnitude - lastMagnitudeX > ZOOMSENS
        invariant ZoomTo(View(), magnitude) == ZoomTo(old(View()), magnitude)
        decreases Abs(magnitude - lastMagnitudeX)
      {
        ghost var m := View();
        ClickButton(4);
        ClickKeeps(m, 4);
        lastMagnitudeX := lastMagnitudeX + ZOOMSENS;
      }
      while magnitude - lastMagnitudeX < -ZOOMSENS
        invariant ZoomTo(View(), magnitude) == ZoomTo(old(View()), magnitude)
        invariant magnitude - lastMagnitudeX <= ZOOMSENS
        decreases Abs(magnitude - lastMagnitudeX)
      {
        ghost var m := View();
        ClickButton(5);
        ClickKeeps(m, 5);
        lastMagnitudeX := lastMagnitudeX - ZOOMSENS;
      }
    }

    method HandleGestureEvent(e: Event, hypot: (real, real) -> real)
      modifies this
      ensures View() == Handle(old(View()), e, hypot)
    {
      hide Click, ScrollX, ScrollY, ZoomTo, Bit;
      match e.kind
      case Begin =>
        match e.gesture {
          case Drag =>
            FakeMotionEvent();
            FakeButtonEvent(true, 1);
          case LongPress =>
            FakeMotionEvent();
            FakeButtonEvent(true, 3);
          case TwoDrag =>
            lastMagnitudeX := e.magnitudeX;
            lastMagnitudeY := e.magnitudeY;
            scroll, netX, netY := Wheel, 0, 0;
            FakeMotionEvent();
          case Pinch =>
            lastMagnitudeX := hypot(e.magnitudeX, e.magnitudeY);
            scroll, netX, netY := Zoom(lastMagnitudeX), 0, 0;
            FakeMotionEvent();
          case _ =>
            FakeMotionEvent();
            ClickButton(TapButton(e.gesture));
        }
      case Update =>
        match e.gesture {
          case Drag => FakeMotionEvent();
          case LongPress => FakeMotionEvent();
          case TwoDrag =>
            FakeMotionEvent();
            ScrollVertically(e.magnitudeY);
            ScrollHorizontally(e.magnitudeX);
          case Pinch =>
            FakeMotionEvent();
            var magnitude := hypot(e.magnitudeX, e.magnitudeY);
            if Abs(magnitude - lastMagnitudeX) > ZOOMSENS {
              FakeControlEvent(true);
              ZoomSteps(magnitude);
              FakeControlEvent(false);
            }
          case _ =>
        }
      case End =>
        match e.gesture {
          case Drag =>
            FakeMotionEvent();
            FakeButtonEvent(false, 1);
          case LongPress =>
            FakeMotionEvent();
            FakeButtonEvent(false, 3);
          case _ =>
        }
    }
  }

  lemma ClickKeeps(m: Mouse, b: Button)
    ensures Click(m, b).lastX == m.lastX && Click(m, b).lastY == m.lastY && Click(m, b).scroll == m.scroll
  {
  }
}
