// One framebuffer shared by several views: decoder threads write and commit pixels at
// any time, while the one UI thread harvests the damage, fans it out to every view,
// and redraws. Every access to shared data is a step of its own.
module DesktopDamage {
  import opened Rects

  type ViewId = nat
  type Image = Pixel -> int

  // `painted` is what is on the screen; `cached` what the tile cache would answer;
  // `requested` the damage FLTK has been asked to redraw.
  datatype View = View(painted: Image, cached: Pixel -> bool, cache: Image,
                       deferred: Rect, requested: iset<Pixel>)

  // What synchronize() goes back to. A draw calls it before each piece of the window, so
  // with some of its clip left to paint.
  datatype Caller = FromUpdate | FromDraw(view: ViewId, clip: iset<Pixel>, left: iset<Pixel>)

  datatype Ui =
    | Idle
    | Harvest(caller: Caller)                                 // about to take the damage, under the lock
    | Copy(rect: Rect, caller: Caller)                        // about to copy it to the X server
    | FanOut(rect: Rect, todo: set<ViewId>, caller: Caller)   // telling the views
    | Arm(caller: Caller)                                     // about to add the flush timeout
    | Flush(todo: set<ViewId>)                                // asking FLTK to redraw
    | Drawing(view: ViewId, clip: iset<Pixel>, left: iset<Pixel>)

  // `dirty` is history: pixels written since they were last committed.
  datatype State = State(width: int, height: int, mem: Image, dirty: iset<Pixel>,
                         damage: seq<Rect>, pixmap: Image,
                         views: map<ViewId, View>, flushPending: bool, ui: Ui)

  datatype Event =
    | Write(pixels: iset<Pixel>, image: Image)      // a decoder writes pixels
    | Commit(rect: Rect)                            // commitBufferRW()
    | Update                                        // DesktopSession::update()
    | Timeout                                       // the flush timeout fires
    | Attach(view: ViewId, screen: Image)
    | Detach(view: ViewId)
    | Resize(width: int, height: int, image: Image)
    | Expose(view: ViewId, clip: iset<Pixel>)       // FLTK starts to draw a view
    | Step(view: ViewId)                            // the UI thread's next step
    | NextPiece                                     // the draw goes on to another piece
    | Paint(pixels: iset<Pixel>, fromPixmap: bool)  // some of a piece is painted

  ghost const EVERYWHERE: iset<Pixel> := iset p: Pixel {:trigger Here(p)} | Here(p)

  predicate Here(p: Pixel) { true }

  // get_bounding_rect()
  function Bounding(damage: seq<Rect>): Rect {
    if damage == [] then EMPTY
    else Bounding(damage[..|damage| - 1]).UnionBoundary(damage[|damage| - 1])
  }

  predicate Covered(damage: seq<Rect>, p: Pixel) {
    exists i :: 0 <= i < |damage| && damage[i].Contains(p)
  }

  // sourceDamaged()
  ghost function SourceDamaged(v: View, r: Rect): View {
    v.(cached := p => v.cached(p) && !r.Contains(p), deferred := v.deferred.UnionBoundary(r))
  }

  // flushSourceDamage(), where the logical damage covers the deferred one
  ghost function FlushSource(v: View): View {
    v.(requested := v.requested + (iset p: Pixel | v.deferred.Contains(p)), deferred := EMPTY)
  }

  // sourceReplaced(), which redraws the whole window
  ghost function SourceReplaced(v: View): View {
    v.(deferred := EMPTY, cached := p => false, requested := EVERYWHERE)
  }

  // Painting some pixels, from the X server's copy or from memory through the cache.
  ghost function PaintView(s: State, v: View, pixels: iset<Pixel>, fromPixmap: bool): View {
    if fromPixmap then v.(painted := p => if p in pixels then s.pixmap(p) else v.painted(p))
    else
      var seen: Image := p => if v.cached(p) then v.cache(p) else s.mem(p);
      v.(painted := p => if p in pixels then seen(p) else v.painted(p),
         cache := p => if p in pixels then seen(p) else v.cache(p),
         cached := p => v.cached(p) || p in pixels)
  }

  // synchronize() returns to its caller.
  ghost function Return(s: State, caller: Caller): State {
    match caller
    case FromUpdate => s.(ui := Flush(s.views.Keys), flushPending := false)
    case FromDraw(v, clip, left) => s.(ui := Drawing(v, clip, left))
  }

  // The UI thread's next step; `view` picks which view a loop takes next.
  ghost function UiStep(s: State, view: ViewId): State {
    match s.ui
    case Harvest(caller) => s.(damage := [], ui := Copy(Bounding(s.damage), caller))
    case Copy(r, caller) =>
      var t := s.(pixmap := p => if r.Contains(p) then s.mem(p) else s.pixmap(p));
      if r.IsEmpty() then Return(t, caller) else t.(ui := FanOut(r, s.views.Keys, caller))
    case FanOut(r, todo, caller) =>
      if todo == {} then s.(ui := Arm(caller))
      else if view in todo && view in s.views then
        s.(views := s.views[view := SourceDamaged(s.views[view], r)], ui := FanOut(r, todo - {view}, caller))
      else s
    case Arm(caller) => Return(s.(flushPending := true), caller)
    case Flush(todo) =>
      if todo == {} then s.(ui := Idle)
      else if view in todo && view in s.views then
        s.(views := s.views[view := FlushSource(s.views[view])], ui := Flush(todo - {view}))
      else s
    case Drawing(v, clip, left) =>
      if left == iset{} && v in s.views then
        s.(views := s.views[v := s.views[v].(requested := iset{})], ui := Idle)
      else s
    case Idle => s
  }

  // An event that is not possible in a state leaves it alone. The UI thread runs one
  // thing at a time; FLTK starts a draw with at least the damage it was asked for.
  ghost function Apply(s: State, e: Event): State {
    match e
    case Write(pixels, image) =>
      s.(mem := p => if p in pixels then image(p) else s.mem(p), dirty := s.dirty + pixels)
    case Commit(r) => s.(damage := s.damage + [r], dirty := iset p | p in s.dirty && !r.Contains(p))
    case Update => if s.ui.Idle? then s.(ui := Harvest(FromUpdate)) else s
    case Timeout =>
      if s.ui.Idle? && s.flushPending then s.(ui := Flush(s.views.Keys), flushPending := false) else s
    case Attach(v, screen) =>
      if s.ui.Idle? && v !in s.views then
        s.(views := s.views[v := View(screen, p => false, screen, EMPTY, EVERYWHERE)])
      else s
    case Detach(v) => if s.ui.Idle? then s.(views := s.views - {v}) else s
    case Resize(w, h, image) =>
      if s.ui.Idle? && !(w == s.width && h == s.height) then
        s.(width := w, height := h, mem := image, dirty := iset{}, damage := [Rect(0, 0, w, h)], pixmap := p => 0,
           views := map v | v in s.views :: SourceReplaced(s.views[v]))
      else s
    case Expose(v, clip) =>
      if s.ui.Idle? && v in s.views && s.views[v].requested <= clip then
        s.(ui := Harvest(FromDraw(v, clip, clip)))
      else s
    case NextPiece =>
      if s.ui.Drawing? then s.(ui := Harvest(FromDraw(s.ui.view, s.ui.clip, s.ui.left))) else s
    case Step(v) => UiStep(s, v)
    case Paint(pixels, fromPixmap) =>
      if s.ui.Drawing? && s.ui.view in s.views then
        var ps := pixels * s.ui.clip;
        s.(views := s.views[s.ui.view := PaintView(s, s.views[s.ui.view], ps, fromPixmap)],
           ui := s.ui.(left := s.ui.left - ps))
      else s
  }

  ghost function Init(width: int, height: int): State {
    State(width, height, p => 0, iset{}, [], p => 0, map[], false, Idle)
  }

  ghost function Run(width: int, height: int, es: seq<Event>): State {
    if es == [] then Init(width, height) else Apply(Run(width, height, es[..|es| - 1]), es[|es| - 1])
  }

  // One state leads to another by some events.
  ghost function From(s: State, es: seq<Event>): State {
    if es == [] then s else Apply(From(s, es[..|es| - 1]), es[|es| - 1])
  }

  ghost predicate Leads(s: State, t: State) {
    exists es :: t == From(s, es)
  }

  lemma LeadsHere(s: State)
    ensures Leads(s, s)
  {
    assert s == From(s, []);
  }

  lemma LeadsOn(s: State, t: State, e: Event)
    requires Leads(s, t)
    ensures Leads(s, Apply(t, e))
  {
    hide Apply;
    var es :| t == From(s, es);
    assert (es + [e])[..|es|] == es;
    assert Apply(t, e) == From(s, es + [e]);
  }

  lemma {:induction false} FromFrom(s: State, es: seq<Event>, more: seq<Event>)
    ensures From(From(s, es), more) == From(s, es + more)
    decreases |more|
  {
    hide Apply;
    if more == [] {
      assert es + more == es;
    } else {
      var n := |more| - 1;
      FromFrom(s, es, more[..n]);
      assert (es + more)[..|es| + n] == es + more[..n];
    }
  }

  lemma LeadsThrough(s: State, t: State, u: State)
    requires Leads(s, t) && Leads(t, u)
    ensures Leads(s, u)
  {
    var es :| t == From(s, es);
    var more :| u == From(t, more);
    FromFrom(s, es, more);
  }

  lemma {:induction false} RunIsFrom(width: int, height: int, es: seq<Event>)
    ensures Run(width, height, es) == From(Init(width, height), es)
    decreases |es|
  {
    hide Apply;
    if es != [] {
      RunIsFrom(width, height, es[..|es| - 1]);
    }
  }

  // What a state of a run leads to is a state of a run.
  lemma LeadsIsRun(width: int, height: int, es: seq<Event>, t: State) returns (all: seq<Event>)
    requires Leads(Run(width, height, es), t)
    ensures t == Run(width, height, all)
  {
    var more :| t == From(Run(width, height, es), more);
    all := es + more;
    RunIsFrom(width, height, es);
    RunIsFrom(width, height, all);
    FromFrom(Init(width, height), es, more);
  }

  // ----- The invariant ------------------------------------------------------------

  predicate InFrame(s: State, p: Pixel) { 0 <= p.x < s.width && 0 <= p.y < s.height }

  // Still to be harvested.
  ghost predicate Unharvested(s: State, p: Pixel) {
    p in s.dirty || Covered(s.damage, p)
  }

  // Harvested, but view v has not been told yet.
  predicate InHand(s: State, v: ViewId, p: Pixel) {
    || (s.ui.Copy? && s.ui.rect.Contains(p))
    || (s.ui.FanOut? && v in s.ui.todo && s.ui.rect.Contains(p))
  }

  // On its way to being redrawn in view v.
  ghost predicate Pending(s: State, v: ViewId, p: Pixel)
    requires v in s.views
  {
    Unharvested(s, p) || InHand(s, v, p) || s.views[v].deferred.Contains(p) || p in s.views[v].requested
  }

  // Nothing out of date goes unnoticed.
  ghost predicate Noticed(s: State) {
    forall v, p :: v in s.views && InFrame(s, p) && s.views[v].painted(p) != s.mem(p) ==> Pending(s, v, p)
  }

  ghost predicate CopiesOk(s: State) {
    && (forall p :: InFrame(s, p) && s.pixmap(p) != s.mem(p) ==>
          Unharvested(s, p) || (s.ui.Copy? && s.ui.rect.Contains(p)))
    && (forall v, p :: v in s.views && InFrame(s, p) && s.views[v].cached(p) && s.views[v].cache(p) != s.mem(p) ==>
          Unharvested(s, p) || InHand(s, v, p))
  }

  // What a draw has painted is only out of date for another reason than the damage that
  // the end of the draw clears.
  ghost predicate PaintedOk(s: State, v: ViewId, clip: iset<Pixel>, left: iset<Pixel>) {
    && v in s.views && s.views[v].requested <= clip
    && (forall p :: p in clip && p !in left && InFrame(s, p) && s.views[v].painted(p) != s.mem(p) ==>
          Unharvested(s, p) || InHand(s, v, p) || s.views[v].deferred.Contains(p))
  }

  ghost predicate DrawOk(s: State) {
    match s.ui
    case Drawing(v, clip, left) => PaintedOk(s, v, clip, left)
    case Harvest(FromDraw(v, clip, left)) => PaintedOk(s, v, clip, left)
    case Copy(_, FromDraw(v, clip, left)) => PaintedOk(s, v, clip, left)
    case FanOut(_, _, FromDraw(v, clip, left)) => PaintedOk(s, v, clip, left)
    case Arm(FromDraw(v, clip, left)) => PaintedOk(s, v, clip, left)
    case _ => true
  }

  // Deferred damage has a flush on its way.
  ghost predicate FlushOk(s: State) {
    forall v :: v in s.views && !s.views[v].deferred.IsEmpty() ==>
      s.flushPending || s.ui.FanOut? || s.ui.Arm? || (s.ui.Flush? && v in s.ui.todo)
  }

  ghost predicate Inv(s: State) {
    Noticed(s) && CopiesOk(s) && DrawOk(s) && FlushOk(s)
  }

  lemma {:induction false} BoundingCovers(damage: seq<Rect>, p: Pixel)
    requires Covered(damage, p)
    ensures Bounding(damage).Contains(p)
  {
    var n := |damage| - 1;
    if !damage[n].Contains(p) {
      assert Covered(damage[..n], p) by {
        var i :| 0 <= i < |damage| && damage[i].Contains(p);
        assert damage[..n][i].Contains(p);
      }
      BoundingCovers(damage[..n], p);
    }
  }

  lemma CoveredGrows(damage: seq<Rect>, r: Rect, p: Pixel)
    ensures Covered(damage + [r], p) <==> Covered(damage, p) || r.Contains(p)
  {
    var d := damage + [r];
    if Covered(damage, p) {
      var i :| 0 <= i < |damage| && damage[i].Contains(p);
      assert d[i].Contains(p);
    }
    if r.Contains(p) { assert d[|damage|].Contains(p); }
  }

  lemma BoundingCoversAll(s: State)
    ensures forall p :: Covered(s.damage, p) ==> Bounding(s.damage).Contains(p)
  {
    forall p | Covered(s.damage, p)
      ensures Bounding(s.damage).Contains(p)
    {
      BoundingCovers(s.damage, p);
    }
  }

  lemma InvDecoders(s: State, e: Event)
    requires Inv(s) && (e.Write? || e.Commit?)
    ensures Inv(Apply(s, e))
  {
    if e.Commit? {
      forall p ensures Covered(s.damage + [e.rect], p) <==> Covered(s.damage, p) || e.rect.Contains(p) {
        CoveredGrows(s.damage, e.rect, p);
      }
      hide Covered;
    }
  }

  lemma InvHarvest(s: State, v: ViewId)
    requires Inv(s) && s.ui.Harvest?
    ensures Inv(UiStep(s, v))
  {
    BoundingCoversAll(s);
    assert forall p :: !Covered([], p);
    hide Covered, Bounding;
  }

  lemma InvCopy(s: State, v: ViewId)
    requires Inv(s) && s.ui.Copy?
    ensures Inv(UiStep(s, v))
  {
    hide Covered;
  }

  lemma InvFanOut(s: State, v: ViewId)
    requires Inv(s) && s.ui.FanOut?
    ensures Inv(UiStep(s, v))
  {
    hide Covered;
  }

  lemma InvArm(s: State, v: ViewId)
    requires Inv(s) && s.ui.Arm?
    ensures Inv(UiStep(s, v))
  {
    hide Covered;
  }

  lemma InvFlush(s: State, v: ViewId)
    requires Inv(s) && s.ui.Flush?
    ensures Inv(UiStep(s, v))
  {
    hide Covered;
  }

  lemma InvDrawn(s: State, v: ViewId)
    requires Inv(s) && s.ui.Drawing?
    ensures Inv(UiStep(s, v))
  {
    hide Covered;
  }

  lemma InvPaint(s: State, pixels: iset<Pixel>, fromPixmap: bool)
    requires Inv(s)
    ensures Inv(Apply(s, Paint(pixels, fromPixmap)))
  {
    hide Covered;
  }

  lemma InvViews(s: State, e: Event)
    requires Inv(s) && (e.Attach? || e.Detach? || e.Expose? || e.NextPiece? || e.Update? || e.Timeout?)
    ensures Inv(Apply(s, e))
  {
    assert forall p :: p in EVERYWHERE by { assert forall p :: Here(p); }
    hide Covered;
  }

  lemma InvResize(s: State, e: Event)
    requires Inv(s) && e.Resize?
    ensures Inv(Apply(s, e))
  {
    var r := Apply(s, e);
    assert forall p :: p in EVERYWHERE by { assert forall p :: Here(p); }
    if r != s {
      forall p | InFrame(r, p) ensures Covered(r.damage, p) { assert r.damage[0].Contains(p); }
    }
    hide Covered;
  }

  lemma InvKeeps(s: State, e: Event)
    requires Inv(s)
    ensures Inv(Apply(s, e))
  {
    hide Noticed, CopiesOk, DrawOk, FlushOk;
    match e
    case Write(_, _) => InvDecoders(s, e);
    case Commit(_) => InvDecoders(s, e);
    case Resize(_, _, _) => InvResize(s, e);
    case Paint(pixels, fromPixmap) => InvPaint(s, pixels, fromPixmap);
    case Step(v) =>
      match s.ui {
        case Harvest(_) => InvHarvest(s, v);
        case Copy(_, _) => InvCopy(s, v);
        case FanOut(_, _, _) => InvFanOut(s, v);
        case Arm(_) => InvArm(s, v);
        case Flush(_) => InvFlush(s, v);
        case Drawing(_, _, _) => InvDrawn(s, v);
        case Idle =>
      }
    case _ => InvViews(s, e);
  }

  lemma {:induction false} RunKeeps(width: int, height: int, es: seq<Event>)
    ensures Inv(Run(width, height, es))
    decreases |es|
  {
    if es != [] {
      RunKeeps(width, height, es[..|es| - 1]);
      InvKeeps(Run(width, height, es[..|es| - 1]), es[|es| - 1]);
    }
  }

  // ----- The promises, in every run -------------------------------------------------

  // A pixel whose painted content is out of date is uncommitted, in the buffer's
  // damage, being handed out, in the view's deferred damage, or already to be redrawn.
  lemma NoDamageLost(width: int, height: int, es: seq<Event>, v: ViewId, p: Pixel)
    requires var s := Run(width, height, es);
      v in s.views && InFrame(s, p) && s.views[v].painted(p) != s.mem(p)
    ensures Pending(Run(width, height, es), v, p)
  {
    RunKeeps(width, height, es);
    hide CopiesOk, DrawOk, FlushOk, Pending, Run;
  }

  // Deferred damage always has a flush timeout pending, or is about to: its views are being
  // told, the timeout is being added, or the flush is under way.
  lemma DeferredIsFlushed(width: int, height: int, es: seq<Event>, v: ViewId)
    requires var s := Run(width, height, es); v in s.views && !s.views[v].deferred.IsEmpty()
    ensures var s := Run(width, height, es);
      s.flushPending || s.ui.FanOut? || s.ui.Arm? || (s.ui.Flush? && v in s.ui.todo)
  {
    RunKeeps(width, height, es);
    hide CopiesOk, DrawOk, Noticed, Run;
  }

  // When everything is quiet, every view shows the framebuffer.
  lemma QuietMeansCurrent(width: int, height: int, es: seq<Event>, v: ViewId, p: Pixel)
    requires var s := Run(width, height, es);
      && s.ui.Idle? && !s.flushPending && s.dirty == iset{} && s.damage == []
      && v in s.views && s.views[v].requested == iset{} && InFrame(s, p)
    ensures Run(width, height, es).views[v].painted(p) == Run(width, height, es).mem(p)
  {
    RunKeeps(width, height, es);
    hide CopiesOk, DrawOk, Run;
  }

  // When a draw is done, what its view shows wrongly is still to be harvested, or deferred.
  lemma DrawnMeansShown(width: int, height: int, es: seq<Event>, p: Pixel)
    requires var s := Run(width, height, es);
      && s.ui.Drawing? && s.ui.left == iset{} && s.ui.view in s.views
      && InFrame(s, p) && s.views[s.ui.view].painted(p) != s.mem(p)
    ensures var s := Run(width, height, es);
      Unharvested(s, p) || s.views[s.ui.view].deferred.Contains(p)
  {
    RunKeeps(width, height, es);
    hide CopiesOk, FlushOk, Unharvested, Run;
  }
}
