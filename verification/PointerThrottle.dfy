// Which pointer events reach the server when movements are rate limited.
module PointerThrottle {
  import opened Rects

  // What the server is told, and how large its framebuffer is then.
  datatype Write = Write(pos: Pixel, mask: nat, width: nat, height: nat)

  datatype State = State(
    width: nat, height: nat,
    interval: nat, viewOnly: bool,
    lastPointerPos: Pixel, lastButtonMask: nat,
    timeout: bool,          // a delayed write is pending
    fired: nat,             // delayed writes done
    requested: seq<Write>,  // what was asked for while not view-only
    written: seq<Write>)

  datatype Event =
    | Move(pos: Pixel, mask: nat)
    | TimeoutFires
    | Replaced(width: nat, height: nat)
    | Configured(interval: nat, viewOnly: bool)

  function Initial(width: nat, height: nat, interval: nat, viewOnly: bool): State {
    State(width, height, interval, viewOnly, Pixel(0, 0), 0, false, 0, [], [])
  }

  function Clamp(width: nat, height: nat, p: Pixel): Pixel {
    Pixel(Max(0, Min(width - 1, p.x)), Max(0, Min(height - 1, p.y)))
  }

  function Latest(s: State): Write {
    Write(s.lastPointerPos, s.lastButtonMask, s.width, s.height)
  }

  function Apply(s: State, e: Event): State {
    match e
    case Move(p, mask) =>
      if s.viewOnly then s
      else
        var told := s.(lastPointerPos := Clamp(s.width, s.height, p), lastButtonMask := mask,
          requested := s.requested + [Write(p, mask, s.width, s.height)]);
        if s.interval == 0 || mask != s.lastButtonMask then told.(written := s.written + [Latest(told)])
        else told.(timeout := true)
    case TimeoutFires =>
      if s.timeout then s.(timeout := false, fired := s.fired + 1, written := s.written + [Latest(s)]) else s
    case Replaced(w, h) =>
      s.(width := w, height := h, lastPointerPos := Clamp(w, h, s.lastPointerPos))
    case Configured(interval, viewOnly) =>
      s.(interval := interval, viewOnly := viewOnly)
  }

  function Run(s: State, es: seq<Event>): State
    decreases |es|
  {
    if es == [] then s else Run(Apply(s, es[0]), es[1..])
  }

  // ---- Masks ----

  function LastMask(ws: seq<Write>): nat {
    if ws == [] then 0 else ws[|ws| - 1].mask
  }

  // The masks in order, without those that repeat their predecessor; the first predecessor
  // is 0, no button.
  function Changes(ws: seq<Write>): seq<nat> {
    if ws == [] then []
    else
      var before := ws[..|ws| - 1];
      Changes(before) + if LastMask(ws) == LastMask(before) then [] else [LastMask(ws)]
  }

  lemma ChangesAppend(ws: seq<Write>, w: Write)
    ensures Changes(ws + [w]) == Changes(ws) + if w.mask == LastMask(ws) then [] else [w.mask]
    ensures LastMask(ws + [w]) == w.mask
  {
    assert (ws + [w])[..|ws|] == ws;
  }

  ghost predicate SameChanges(s: State) {
    && Changes(s.written) == Changes(s.requested)
    && LastMask(s.written) == LastMask(s.requested) == s.lastButtonMask
  }

  lemma ApplySameChanges(s: State, e: Event)
    requires SameChanges(s)
    ensures SameChanges(Apply(s, e))
  {
    hide Changes, LastMask;
    match e
    case Move(p, mask) =>
      ChangesAppend(s.requested, Write(p, mask, s.width, s.height));
      ChangesAppend(s.written, Write(Clamp(s.width, s.height, p), mask, s.width, s.height));
    case TimeoutFires =>
      ChangesAppend(s.written, Latest(s));
    case _ =>
  }

  // No press or release is lost, added or reordered, however writes are delayed.
  lemma {:induction false} MasksKept(s: State, es: seq<Event>)
    requires SameChanges(s)
    ensures SameChanges(Run(s, es))
    decreases |es|
  {
    hide SameChanges, Apply;
    if es != [] {
      ApplySameChanges(s, es[0]);
      MasksKept(Apply(s, es[0]), es[1..]);
    }
  }

  predicate Throttled(es: seq<Event>) {
    forall i :: 0 <= i < |es| && es[i].Configured? ==> es[i].interval > 0
  }

  // While there is an interval, what is written is one event for each change and one for
  // each firing of the timer, however many are requested.
  lemma {:induction false} WritesCounted(s: State, es: seq<Event>)
    requires s.interval > 0 && Throttled(es) && SameChanges(s)
    requires |s.written| == |Changes(s.written)| + s.fired
    ensures var r := Run(s, es); |r.written| == |Changes(r.requested)| + r.fired
    decreases |es|
  {
    hide Changes, LastMask;
    if es != [] {
      var e := es[0];
      var r := Apply(s, e);
      ApplySameChanges(s, e);
      if r.written != s.written {
        ChangesAppend(s.written, Latest(r));
      }
      WritesCounted(r, es[1..]);
    }
  }

  // Only a movement that repeats the buttons is delayed, and only with an interval; any other
  // is written at once. While view-only nothing is.
  lemma DelaysOnlyRepeats(s: State, p: Pixel, mask: nat)
    ensures var r := Apply(s, Move(p, mask));
      if s.viewOnly then r == s
      else if s.interval > 0 && mask == s.lastButtonMask then r.written == s.written && r.timeout
      else
        && r.written == s.written + [Write(Clamp(s.width, s.height, p), mask, s.width, s.height)]
        && r.timeout == s.timeout
  {
  }

  // ---- Positions ----

  predicate Inside(p: Pixel, width: nat, height: nat) {
    0 <= p.x < width && 0 <= p.y < height
  }

  ghost predicate AllInside(ws: seq<Write>) {
    forall i :: 0 <= i < |ws| ==>
      (Inside(ws[i].pos, ws[i].width, ws[i].height) <==> ws[i].width > 0 && ws[i].height > 0)
  }

  ghost predicate PositionInside(s: State) {
    && (Inside(s.lastPointerPos, s.width, s.height) <==> s.width > 0 && s.height > 0)
    && AllInside(s.written)
  }

  // Every write, delayed past a resize or not, lies inside the framebuffer of its time,
  // unless that is empty.
  lemma {:induction false} PositionsInside(s: State, es: seq<Event>)
    requires PositionInside(s)
    ensures PositionInside(Run(s, es))
    decreases |es|
  {
    if es != [] {
      PositionsInside(Apply(s, es[0]), es[1..]);
    }
  }

  // Clamping goes to the nearest position inside, so one inside stays.
  lemma ClampIsNearest(width: nat, height: nat, p: Pixel, q: Pixel)
    requires Inside(q, width, height)
    ensures var c := Clamp(width, height, p);
      && Inside(c, width, height) && (Inside(p, width, height) ==> c == p)
      && Distance(c.x, p.x) <= Distance(q.x, p.x) && Distance(c.y, p.y) <= Distance(q.y, p.y)
  {
  }

  function Distance(a: int, b: int): int { if a < b then b - a else a - b }

  // The position the server knows.
  function LastPos(ws: seq<Write>): Pixel {
    if ws == [] then Pixel(0, 0) else ws[|ws| - 1].pos
  }

  // A position the server does not know yet has a timeout to tell it.
  ghost predicate Fresh(s: State) {
    s.timeout || LastPos(s.written) == s.lastPointerPos
  }

  // What was last asked for, as it fits the framebuffer.
  function LastAsked(s: State): Pixel {
    if s.requested == [] then Pixel(0, 0) else Clamp(s.width, s.height, s.requested[|s.requested| - 1].pos)
  }

  predicate NoResize(es: seq<Event>) {
    forall i :: 0 <= i < |es| ==> !es[i].Replaced?
  }

  lemma {:induction false} RunFresh(s: State, es: seq<Event>)
    requires Fresh(s) && NoResize(es)
    ensures Fresh(Run(s, es))
    decreases |es|
  {
    if es != [] {
      RunFresh(Apply(s, es[0]), es[1..]);
    }
  }

  lemma {:induction false} RunAsked(s: State, es: seq<Event>)
    requires s.lastPointerPos == LastAsked(s) && NoResize(es)
    ensures Run(s, es).lastPointerPos == LastAsked(Run(s, es))
    decreases |es|
  {
    if es != [] {
      RunAsked(Apply(s, es[0]), es[1..]);
    }
  }

  // Once no write is pending, the server knows the latest position and buttons asked for.
  lemma LatestArrives(s: State, es: seq<Event>)
    requires Fresh(s) && SameChanges(s) && s.lastPointerPos == LastAsked(s) && NoResize(es)
    requires !Run(s, es).timeout
    ensures var r := Run(s, es);
      LastPos(r.written) == LastAsked(r) && LastMask(r.written) == LastMask(r.requested)
  {
    RunFresh(s, es);
    RunAsked(s, es);
    MasksKept(s, es);
  }

  // A resize that moves the position when no delayed write is pending.
  predicate Displaces(s: State, e: Event) {
    e.Replaced? && !s.timeout && Clamp(e.width, e.height, s.lastPointerPos) != s.lastPointerPos
  }

  // Has there been such a resize since the last movement that was not view-only?
  function Stale(s: State, es: seq<Event>, stale: bool): bool
    decreases |es|
  {
    if es == [] then stale
    else
      Stale(Apply(s, es[0]), es[1..], if es[0].Move? && !s.viewOnly then false else stale || Displaces(s, es[0]))
  }

  // A displaced position is short of the one the server knows.
  ghost predicate ShortOf(p: Pixel, known: Pixel) {
    p.x <= known.x && p.y <= known.y && p != known
  }

  ghost predicate StaleInv(s: State, stale: bool) {
    && s.lastPointerPos.x >= 0 && s.lastPointerPos.y >= 0
    && if stale then !s.timeout && ShortOf(s.lastPointerPos, LastPos(s.written)) else Fresh(s)
  }

  lemma {:induction false} RunStale(s: State, es: seq<Event>, stale: bool)
    requires StaleInv(s, stale)
    ensures Fresh(Run(s, es)) <==> !Stale(s, es, stale)
    decreases |es|
  {
    if es != [] {
      RunStale(Apply(s, es[0]), es[1..], if es[0].Move? && !s.viewOnly then false else stale || Displaces(s, es[0]));
    }
  }

  // In every run, the server is left with a position that nothing will correct exactly when
  // a resize has moved it with no write pending and no movement has followed.
  lemma FreshIffNotStale(width: nat, height: nat, interval: nat, viewOnly: bool, es: seq<Event>)
    ensures var s := Initial(width, height, interval, viewOnly);
      Fresh(Run(s, es)) <==> !Stale(s, es, false)
  {
    RunStale(Initial(width, height, interval, viewOnly), es, false);
  }

  const SHRINK: seq<Event> := [Move(Pixel(150, 150), 0), Replaced(100, 100)]

  // It happens: the server knows (150, 150), and nothing will tell it (99, 99).
  lemma ShrinkLeavesStale()
    ensures !Fresh(Run(Initial(200, 200, 0, false), SHRINK))
  {
    var s := Apply(Initial(200, 200, 0, false), SHRINK[0]);
    assert SHRINK[1..] == [SHRINK[1]] && SHRINK[1..][1..] == [];
    assert Run(s, SHRINK[1..]) == Run(Apply(s, SHRINK[1]), []);
  }

  // The next movement makes up for it, whatever happened before.
  lemma MoveMakesFresh(s: State, p: Pixel, mask: nat)
    requires !s.viewOnly
    ensures Fresh(Apply(s, Move(p, mask)))
    ensures LastAsked(Apply(s, Move(p, mask))) == Apply(s, Move(p, mask)).lastPointerPos
  {
  }

  // All of it from the start.
  lemma FromTheStart(width: nat, height: nat, interval: nat, viewOnly: bool, es: seq<Event>)
    ensures var r := Run(Initial(width, height, interval, viewOnly), es);
      && Changes(r.written) == Changes(r.requested)
      && AllInside(r.written)
      && (NoResize(es) && !r.timeout ==> LastPos(r.written) == LastAsked(r))
  {
    var s := Initial(width, height, interval, viewOnly);
    MasksKept(s, es);
    PositionsInside(s, es);
    if NoResize(es) && !Run(s, es).timeout {
      LatestArrives(s, es);
    }
  }

  // The part of a viewport that sends pointer events.
  class PointerSender {
    var width: nat
    var height: nat
    var pointerEventInterval: nat
    var viewOnly: bool
    var lastPointerPos: Pixel
    var lastButtonMask: nat
    var hasTimeout: bool
    var fired: nat
    var requested: seq<Write>
    var written: seq<Write>

    function View(): State
      reads this
    {
      State(width, height, pointerEventInterval, viewOnly, lastPointerPos, lastButtonMask, hasTimeout,
        fired, requested, written)
    }

    constructor (width: nat, height: nat, interval: nat, viewOnly: bool)
      ensures View() == Initial(width, height, interval, viewOnly)
    {
      this.width, this.height := width, height;
      pointerEventInterval, this.viewOnly := interval, viewOnly;
      lastPointerPos, lastButtonMask := Pixel(0, 0), 0;
      hasTimeout, fired := false, 0;
      requested, written := [], [];
    }

    method SendPointerEvent(position: Pixel, buttonMask: nat)
      modifies this
      ensures View() == Apply(old(View()), Move(position, buttonMask))
    {
      var pos := Pixel(Max(0, Min(width - 1, position.x)), Max(0, Min(height - 1, position.y)));
      if viewOnly {
        return;
      }
      requested := requested + [Write(position, buttonMask, width, height)];
      if pointerEventInterval == 0 || buttonMask != lastButtonMask {
        written := written + [Write(pos, buttonMask, width, height)];
      } else if !hasTimeout {
        hasTimeout := true;
      }
      lastPointerPos := pos;
      lastButtonMask := buttonMask;
    }

    method HandlePointerTimeout()
      requires hasTimeout
      modifies this
      ensures View() == Apply(old(View()), TimeoutFires)
    {
      hasTimeout := false;
      fired := fired + 1;
      written := written + [Write(lastPointerPos, lastButtonMask, width, height)];
    }

    method SourceReplaced(width: nat, height: nat)
      modifies this
      ensures View() == Apply(old(View()), Replaced(width, height))
    {
      this.width, this.height := width, height;
      lastPointerPos := Pixel(Max(0, Min(width - 1, lastPointerPos.x)),
        Max(0, Min(height - 1, lastPointerPos.y)));
    }

    method Configure(interval: nat, viewOnly: bool)
      modifies this
      ensures View() == Apply(old(View()), Configured(interval, viewOnly))
    {
      pointerEventInterval, this.viewOnly := interval, viewOnly;
    }
  }
}
