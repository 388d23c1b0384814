// The session object that the views of one connection share.
module DesktopSessions {
  import opened DesktopDamage
  import opened Optional
  import opened Rects
  import opened Sets

  const VIEW_CACHE: nat := 32 * 1024 * 1024
  const TOTAL_CACHE: nat := 128 * 1024 * 1024

  function Share(n: nat): nat
    requires n > 0
  {
    Min(VIEW_CACHE, TOTAL_CACHE / n)
  }

  // n caches of b bytes stay within the total.
  predicate Fits(n: nat, b: nat) { n * b <= TOTAL_CACHE }

  // What a view keeps is what the object has noted.
  ghost predicate Noted(v: View, deferred: Rect, requested: seq<Rect>, redraw: bool) {
    v.deferred == deferred && forall p :: p in v.requested <==> redraw || Covered(requested, p)
  }

  ghost predicate AllNoted(consumers: set<ViewId>, views: map<ViewId, View>, deferred: map<ViewId, Rect>,
      requested: map<ViewId, seq<Rect>>, redraw: map<ViewId, bool>)
  {
    && consumers == views.Keys == deferred.Keys == requested.Keys == redraw.Keys
    && forall v :: v in views ==> Noted(views[v], deferred[v], requested[v], redraw[v])
  }

  ghost predicate Budgets(consumers: set<ViewId>, budget: map<ViewId, nat>) {
    budget.Keys == consumers &&
    forall v :: v in consumers ==> budget[v] <= VIEW_CACHE && Fits(|consumers|, budget[v])
  }

  // Every method is a run of the state machine: its ghost argument is the state the object
  // stands for before, its ghost result the one after.
  class DesktopSession {
    var consumers: set<ViewId>
    var input: Option<ViewId>
    var width: int
    var height: int
    // PlatformPixelBuffer::damage
    var damage: seq<Rect>
    // what each view keeps: its deferred damage, what FLTK has been asked to redraw,
    // whether its whole window is to be, and its cache budget
    var deferred: map<ViewId, Rect>
    var requested: map<ViewId, seq<Rect>>
    var redraw: map<ViewId, bool>
    var budget: map<ViewId, nat>
    var flushPending: bool

    ghost predicate Valid()
      reads this
    {
      consumers == deferred.Keys == requested.Keys && Budgets(consumers, budget)
    }

    ghost predicate ShowsViews(s: State)
      reads this
    {
      AllNoted(consumers, s.views, deferred, requested, redraw)
    }

    ghost predicate Shows(s: State)
      reads this
    {
      && s.width == width && s.height == height && s.damage == damage && s.flushPending == flushPending
      && ShowsViews(s)
    }

    constructor (w: int, h: int)
      ensures Valid() && Shows(Init(w, h)) && input.None?
    {
      consumers, input, width, height, damage := {}, None, w, h, [];
      deferred, requested, redraw, budget, flushPending := map[], map[], map[], map[], false;
    }

    method CommitBufferRW(r: Rect, ghost s: State)
      requires Valid() && Shows(s)
      modifies this`damage
      ensures Valid() && Shows(Apply(s, Commit(r)))
      ensures forall p :: Covered(damage, p) <==> Covered(old(damage), p) || r.Contains(p)
    {
      hide AllNoted, Budgets, Covered;
      forall p ensures Covered(damage + [r], p) <==> Covered(damage, p) || r.Contains(p) {
        CoveredGrows(damage, r, p);
      }
      damage := damage + [r];
    }

    // A new view starts fully to be redrawn; the caches together stay within the total.
    method Attach(view: ViewId, ghost screen: Image, ghost s: State)
      requires Valid() && view !in consumers && Shows(s) && s.ui.Idle?
      modifies this
      ensures Valid() && consumers == old(consumers) + {view} && Shows(Apply(s, Event.Attach(view, screen)))
      ensures input == if old(input).None? then Some(view) else old(input)
      ensures deferred == old(deferred)[view := EMPTY] && requested == old(requested)[view := []]
      ensures redraw == old(redraw)[view := true] && redraw[view]
      ensures damage == old(damage) && flushPending == old(flushPending)
      ensures forall v :: v in consumers ==> Fits(|consumers|, budget[v])
      ensures forall v, b: nat :: v in consumers && b <= VIEW_CACHE && Fits(|consumers|, b) ==> b <= budget[v]
    {
      hide Fits, Share, AllNoted, Budgets, Apply;
      if input.None? {
        input := Some(view);
      }
      AddConsumer(view, screen, s);
      ShareFits(|consumers|);
      SetCacheBudgets(Share(|consumers|));
      assert deferred.Keys == consumers;
      SameBudgets(consumers, budget, Share(|consumers|));
    }

    method AddConsumer(view: ViewId, ghost screen: Image, ghost s: State)
      requires view !in consumers && Shows(s) && s.ui.Idle?
      modifies this`consumers, this`deferred, this`requested, this`redraw
      ensures consumers == old(consumers) + {view} && |consumers| > 0
      ensures deferred == old(deferred)[view := EMPTY] && requested == old(requested)[view := []]
      ensures redraw == old(redraw)[view := true]
      ensures Shows(Apply(s, Event.Attach(view, screen)))
    {
      hide AllNoted, Apply;
      NotedKeys(consumers, s.views, deferred, requested, redraw);
      AttachStep(s, view, screen);
      OneMoreNoted(consumers, s.views, deferred, requested, redraw, view, screen);
      consumers := consumers + {view};
      deferred, requested, redraw := deferred[view := EMPTY], requested[view := []], redraw[view := true];
    }

    method SetCacheBudgets(bytes: nat)
      modifies this`budget
      ensures budget.Keys == consumers && forall v :: v in consumers ==> budget[v] == bytes
    {
      var todo := consumers;
      budget := map[];
      while todo != {}
        invariant todo <= consumers && budget.Keys == consumers - todo
        invariant forall v :: v in budget ==> budget[v] == bytes
      {
        assert Pick(todo) in todo;
        var v: ViewId :| v in todo;
        budget := budget[v := bytes];
        todo := todo - {v};
      }
    }

    method Detach(view: ViewId, ghost s: State)
      requires Valid() && Shows(s) && s.ui.Idle?
      modifies this
      ensures Valid() && consumers == old(consumers) - {view} && Shows(Apply(s, Event.Detach(view)))
      ensures damage == old(damage) && deferred == old(deferred) - {view} && flushPending == old(flushPending)
    {
      hide AllNoted, Budgets, Apply;
      DetachStep(s, view);
      OneLessNoted(consumers, s.views, deferred, requested, redraw, view);
      FewerBudgets(consumers, view, budget);
      consumers, budget := consumers - {view}, budget - {view};
      deferred, requested, redraw := deferred - {view}, requested - {view}, redraw - {view};
    }

    // sourceDamaged() of every view
    method TellViews(r: Rect, ghost s: State) returns (ghost t: State)
      requires ShowsViews(s) && s.ui.FanOut? && s.ui.rect == r && s.ui.todo == consumers
      modifies this`deferred
      ensures Leads(s, t) && ShowsViews(t)
      ensures t == s.(views := t.views, ui := FanOut(r, {}, s.ui.caller))
      ensures Told({}, r, old(deferred), deferred)
    {
      hide AllNoted, Leads, Apply, SourceDamaged, Told;
      LeadsHere(s);
      NoneTold(consumers, r, deferred) by { NotedKeys(consumers, s.views, deferred, requested, redraw); }
      t := s;
      var todo := consumers;
      while todo != {}
        invariant todo <= consumers && Leads(s, t) && ShowsViews(t)
        invariant t == s.(views := t.views, ui := FanOut(r, todo, s.ui.caller))
        invariant Told(todo, r, old(deferred), deferred)
      {
        assert Pick(todo) in todo;
        var v: ViewId :| v in todo;
        NotedKeys(consumers, t.views, deferred, requested, redraw);
        LeadsOn(s, t, Step(v));
        TellStep(t, v);
        AllNotedTold(consumers, t.views, deferred, requested, redraw, v, r);
        OneTold(todo, r, old(deferred), deferred, v);
        deferred := deferred[v := deferred[v].UnionBoundary(r)];
        todo := todo - {v};
        t := Apply(t, Step(v));
      }
    }

    // Takes the damage once and tells every view, as one run from the harvest to the return
    // to its caller.
    method Synchronize(ghost s: State) returns (ghost t: State)
      requires Valid() && Shows(s) && s.ui.Harvest?
      modifies this`damage, this`deferred, this`flushPending
      ensures Valid() && Shows(t) && Leads(s, Return(t, s.ui.caller))
      ensures damage == []
      ensures forall v, p :: v in consumers && (Covered(old(damage), p) || old(deferred)[v].Contains(p)) ==>
        deferred[v].Contains(p)
      ensures flushPending == (old(flushPending) || !Bounding(old(damage)).IsEmpty())
    {
      hide AllNoted, Leads, Bounding, Budgets, Apply, Return, Covered, Told;
      var r := Bounding(damage);
      BoundingAll(damage);
      damage := [];
      t := HarvestSteps(s);
      if r.IsEmpty() {
        return;
      }
      ghost var u := TellViews(r, t) by { NotedKeys(consumers, s.views, deferred, requested, redraw); }
      ToldCovers(r, old(deferred), deferred);
      if !flushPending {
        flushPending := true;
      }
      LeadsThrough(s, t, u);
      ArmSteps(s, u);
      t := u.(ui := Ui.Arm(s.ui.caller), flushPending := true);
    }

    // flushSourceDamage() of every view
    method FlushSources(ghost s: State) returns (ghost t: State)
      requires ShowsViews(s) && s.ui == Flush(consumers)
      modifies this`deferred, this`requested
      ensures Leads(s, t) && ShowsViews(t) && t == s.(views := t.views, ui := Flush({}))
      ensures Flushed({}, old(deferred), old(requested), deferred, requested)
    {
      hide AllNoted, Leads, Apply, FlushSource, Flushed;
      LeadsHere(s);
      NoneFlushed(consumers, deferred, requested) by { NotedKeys(consumers, s.views, deferred, requested, redraw); }
      t := s;
      var todo := consumers;
      while todo != {}
        invariant todo <= consumers && Leads(s, t) && ShowsViews(t)
        invariant t == s.(views := t.views, ui := Flush(todo))
        invariant Flushed(todo, old(deferred), old(requested), deferred, requested)
      {
        assert Pick(todo) in todo;
        var v: ViewId :| v in todo;
        NotedKeys(consumers, t.views, deferred, requested, redraw);
        LeadsOn(s, t, Step(v));
        FlushStep(t, v);
        AllNotedFlushed(consumers, t.views, deferred, requested, redraw, v);
        OneFlushed(todo, old(deferred), old(requested), deferred, requested, v);
        requested := requested[v := requested[v] + [deferred[v]]];
        deferred := deferred[v := EMPTY];
        todo := todo - {v};
        t := Apply(t, Step(v));
      }
    }

    // The flush, from where the timeout has been removed.
    method FlushDamage(ghost s: State) returns (ghost t: State)
      requires Valid() && Shows(s.(flushPending := flushPending)) && !s.flushPending && s.ui == Flush(consumers)
      modifies this`deferred, this`requested, this`flushPending
      ensures Valid() && Shows(t) && Leads(s, t) && t.ui.Idle? && !flushPending
      ensures forall v, p :: v in consumers && (Covered(old(requested)[v], p) || old(deferred)[v].Contains(p)) ==>
        Covered(requested[v], p)
      ensures forall v :: v in consumers ==> deferred[v] == EMPTY
    {
      hide AllNoted, Leads, Budgets, Apply, Covered, Flushed;
      flushPending := false;
      t := FlushSources(s);
      FlushedCovers(old(deferred), old(requested), deferred, requested);
      LeadsOn(s, t, Step(0));
      FlushedStep(t);
      t := t.(ui := Idle);
    }

    // One update: all that was damaged ends up requested in every view.
    method Update(ghost s: State) returns (ghost t: State)
      requires Valid() && Shows(s) && s.ui.Idle?
      modifies this
      ensures Valid() && Shows(t) && Leads(s, t) && t.ui.Idle?
      ensures damage == [] && !flushPending && consumers == old(consumers)
      ensures forall v, p :: v in consumers && (Covered(old(damage), p) || old(deferred)[v].Contains(p)) ==>
        Covered(requested[v], p)
    {
      hide AllNoted, Leads, Budgets, Apply, Bounding, Covered;
      ghost var h := UpdateStarts(s);
      ghost var u := Synchronize(h);
      ghost var f := u.(ui := Flush(consumers), flushPending := false);
      NotedKeys(consumers, u.views, deferred, requested, redraw);
      assert Return(u, FromUpdate) == f;
      label told:
      t := FlushDamage(f);
      forall v, p | v in consumers && (Covered(old(damage), p) || old(deferred)[v].Contains(p))
        ensures Covered(requested[v], p)
      {
        assert old@told(deferred)[v].Contains(p);
      }
      LeadsThrough(s, h, f);
      LeadsThrough(s, f, t);
    }

    method Resize(w: int, h: int, ghost image: Image, ghost s: State)
      requires Valid() && Shows(s) && s.ui.Idle?
      modifies this
      ensures Valid() && consumers == old(consumers) && Shows(Apply(s, Event.Resize(w, h, image)))
      ensures w == old(width) && h == old(height) ==> unchanged(this)
      ensures !(w == old(width) && h == old(height)) ==>
        damage == [Rect(0, 0, w, h)] && forall v :: v in consumers ==> redraw[v] && deferred[v] == EMPTY
    {
      hide Budgets, AllNoted, Apply;
      NotedKeys(consumers, s.views, deferred, requested, redraw);
      ResizeStep(s, w, h, image);
      if w == width && h == height {
        return;
      }
      width, height := w, h;
      damage := [Rect(0, 0, w, h)];
      ReplaceSources();
      AllNotedReplaced(consumers, s.views, Apply(s, Event.Resize(w, h, image)).views, deferred, requested, redraw);
    }

    // sourceReplaced() of every view
    method ReplaceSources()
      requires deferred.Keys == consumers && redraw.Keys == consumers
      modifies this`deferred, this`redraw
      ensures deferred.Keys == consumers && redraw.Keys == consumers
      ensures forall v :: v in consumers ==> redraw[v] && deferred[v] == EMPTY
    {
      var todo := consumers;
      while todo != {}
        invariant todo <= consumers && deferred.Keys == redraw.Keys == consumers
        invariant forall v :: v in consumers && v !in todo ==> redraw[v] && deferred[v] == EMPTY
      {
        assert Pick(todo) in todo;
        var v: ViewId :| v in todo;
        deferred, redraw := deferred[v := EMPTY], redraw[v := true];
        todo := todo - {v};
      }
    }
  }

  // ----- What the loops over the views have done ------------------------------------

  ghost predicate Told(todo: set<ViewId>, r: Rect, before: map<ViewId, Rect>, after: map<ViewId, Rect>) {
    && before.Keys == after.Keys
    && forall v :: v in before ==> after[v] == if v in todo then before[v] else before[v].UnionBoundary(r)
  }

  lemma NoneTold(todo: set<ViewId>, r: Rect, deferred: map<ViewId, Rect>)
    requires todo == deferred.Keys
    ensures Told(todo, r, deferred, deferred)
  {
  }

  lemma OneTold(todo: set<ViewId>, r: Rect, before: map<ViewId, Rect>, after: map<ViewId, Rect>, v: ViewId)
    requires Told(todo, r, before, after) && v in todo && v in after
    ensures Told(todo - {v}, r, before, after[v := after[v].UnionBoundary(r)])
  {
  }

  ghost predicate Flushed(todo: set<ViewId>, d: map<ViewId, Rect>, q: map<ViewId, seq<Rect>>, d': map<ViewId, Rect>,
      q': map<ViewId, seq<Rect>>)
  {
    && d.Keys == q.Keys == d'.Keys == q'.Keys
    && (forall v :: v in d ==> d'[v] == if v in todo then d[v] else EMPTY)
    && (forall v :: v in d ==> q'[v] == if v in todo then q[v] else q[v] + [d[v]])
  }

  lemma NoneFlushed(todo: set<ViewId>, d: map<ViewId, Rect>, q: map<ViewId, seq<Rect>>)
    requires todo == d.Keys == q.Keys
    ensures Flushed(todo, d, q, d, q)
  {
  }

  lemma OneFlushed(todo: set<ViewId>, d: map<ViewId, Rect>, q: map<ViewId, seq<Rect>>, d': map<ViewId, Rect>,
      q': map<ViewId, seq<Rect>>, v: ViewId)
    requires Flushed(todo, d, q, d', q') && v in todo && v in d' && v in q'
    ensures Flushed(todo - {v}, d, q, d'[v := EMPTY], q'[v := q'[v] + [d'[v]]])
  {
  }

  // What was requested or deferred is requested.
  lemma FlushedCovers(d: map<ViewId, Rect>, q: map<ViewId, seq<Rect>>, d': map<ViewId, Rect>,
      q': map<ViewId, seq<Rect>>)
    requires Flushed({}, d, q, d', q')
    ensures d.Keys == q.Keys == d'.Keys == q'.Keys
    ensures forall v, p :: v in d && (Covered(q[v], p) || d[v].Contains(p)) ==> Covered(q'[v], p)
    ensures forall v :: v in d' ==> d'[v] == EMPTY
  {
    hide Covered;
    forall v, p | v in d && (Covered(q[v], p) || d[v].Contains(p)) ensures Covered(q'[v], p) {
      CoveredGrows(q[v], d[v], p);
    }
  }

  lemma ToldCovers(r: Rect, before: map<ViewId, Rect>, after: map<ViewId, Rect>)
    requires Told({}, r, before, after)
    ensures before.Keys == after.Keys
    ensures forall v, p :: v in before && (r.Contains(p) || before[v].Contains(p)) ==> after[v].Contains(p)
  {
  }

  // ----- The steps of the state machine that the methods take ---------------------

  lemma TellStep(s: State, v: ViewId)
    requires s.ui.FanOut? && v in s.ui.todo && v in s.views
    ensures Apply(s, Step(v)) ==
      s.(views := s.views[v := SourceDamaged(s.views[v], s.ui.rect)], ui := s.ui.(todo := s.ui.todo - {v}))
  {
  }

  lemma NotedTold(v: View, deferred: Rect, requested: seq<Rect>, redraw: bool, r: Rect)
    requires Noted(v, deferred, requested, redraw)
    ensures Noted(SourceDamaged(v, r), deferred.UnionBoundary(r), requested, redraw)
  {
    hide Covered;
  }

  lemma FlushStep(s: State, v: ViewId)
    requires s.ui.Flush? && v in s.ui.todo && v in s.views
    ensures Apply(s, Step(v)) ==
      s.(views := s.views[v := FlushSource(s.views[v])], ui := Flush(s.ui.todo - {v}))
  {
  }

  lemma NotedFlushed(v: View, deferred: Rect, requested: seq<Rect>, redraw: bool)
    requires Noted(v, deferred, requested, redraw)
    ensures Noted(FlushSource(v), EMPTY, requested + [deferred], redraw)
  {
    forall p ensures Covered(requested + [deferred], p) <==> Covered(requested, p) || deferred.Contains(p) {
      CoveredGrows(requested, deferred, p);
    }
    hide Covered;
  }

  lemma FlushedStep(s: State)
    requires s.ui == Flush({})
    ensures Apply(s, Step(0)) == s.(ui := Idle)
  {
  }

  lemma AttachStep(s: State, view: ViewId, screen: Image)
    requires s.ui.Idle? && view !in s.views
    ensures Apply(s, Event.Attach(view, screen)) ==
      s.(views := s.views[view := View(screen, p => false, screen, EMPTY, EVERYWHERE)])
  {
  }

  lemma DetachStep(s: State, view: ViewId)
    requires s.ui.Idle?
    ensures Apply(s, Event.Detach(view)) == s.(views := s.views - {view})
  {
  }

  lemma ResizeStep(s: State, w: int, h: int, image: Image)
    requires s.ui.Idle?
    ensures var r := Apply(s, Event.Resize(w, h, image));
      if w == s.width && h == s.height then r == s
      else
        && r.width == w && r.height == h && r.damage == [Rect(0, 0, w, h)] && r.flushPending == s.flushPending
        && r.views.Keys == s.views.Keys && forall v :: v in s.views ==> r.views[v] == SourceReplaced(s.views[v])
  {
  }

  lemma Everywhere(p: Pixel)
    ensures p in EVERYWHERE
  {
    assert Here(p);
  }

  lemma NotedNew(screen: Image)
    ensures Noted(View(screen, p => false, screen, EMPTY, EVERYWHERE), EMPTY, [], true)
  {
    forall p: Pixel ensures p in EVERYWHERE { Everywhere(p); }
  }

  lemma NotedKeys(consumers: set<ViewId>, views: map<ViewId, View>, deferred: map<ViewId, Rect>,
      requested: map<ViewId, seq<Rect>>, redraw: map<ViewId, bool>)
    requires AllNoted(consumers, views, deferred, requested, redraw)
    ensures consumers == views.Keys == deferred.Keys == requested.Keys == redraw.Keys
  {
    hide Noted;
  }

  lemma OneMoreNoted(consumers: set<ViewId>, views: map<ViewId, View>, deferred: map<ViewId, Rect>,
      requested: map<ViewId, seq<Rect>>, redraw: map<ViewId, bool>, view: ViewId, screen: Image)
    requires AllNoted(consumers, views, deferred, requested, redraw)
    ensures AllNoted(consumers + {view}, views[view := View(screen, p => false, screen, EMPTY, EVERYWHERE)],
      deferred[view := EMPTY], requested[view := []], redraw[view := true])
  {
    hide Noted;
    NotedNew(screen);
  }

  lemma OneLessNoted(consumers: set<ViewId>, views: map<ViewId, View>, deferred: map<ViewId, Rect>,
      requested: map<ViewId, seq<Rect>>, redraw: map<ViewId, bool>, view: ViewId)
    requires AllNoted(consumers, views, deferred, requested, redraw)
    ensures AllNoted(consumers - {view}, views - {view}, deferred - {view}, requested - {view}, redraw - {view})
  {
    hide Noted;
  }

  lemma AllNotedTold(consumers: set<ViewId>, views: map<ViewId, View>, deferred: map<ViewId, Rect>,
      requested: map<ViewId, seq<Rect>>, redraw: map<ViewId, bool>, v: ViewId, r: Rect)
    requires AllNoted(consumers, views, deferred, requested, redraw) && v in views && v in deferred
    ensures AllNoted(consumers, views[v := SourceDamaged(views[v], r)],
      deferred[v := deferred[v].UnionBoundary(r)], requested, redraw)
  {
    NotedTold(views[v], deferred[v], requested[v], redraw[v], r);
    hide Noted, SourceDamaged;
  }

  lemma AllNotedFlushed(consumers: set<ViewId>, views: map<ViewId, View>, deferred: map<ViewId, Rect>,
      requested: map<ViewId, seq<Rect>>, redraw: map<ViewId, bool>, v: ViewId)
    requires AllNoted(consumers, views, deferred, requested, redraw) && v in views && v in deferred && v in requested
    ensures AllNoted(consumers, views[v := FlushSource(views[v])], deferred[v := EMPTY],
      requested[v := requested[v] + [deferred[v]]], redraw)
  {
    NotedFlushed(views[v], deferred[v], requested[v], redraw[v]);
    hide Noted, FlushSource;
  }

  lemma AllNotedReplaced(consumers: set<ViewId>, views: map<ViewId, View>, after: map<ViewId, View>,
      deferred: map<ViewId, Rect>, requested: map<ViewId, seq<Rect>>, redraw: map<ViewId, bool>)
    requires consumers == views.Keys == after.Keys == deferred.Keys == requested.Keys == redraw.Keys
    requires forall v :: v in views ==> after[v] == SourceReplaced(views[v]) && redraw[v] && deferred[v] == EMPTY
    ensures AllNoted(consumers, after, deferred, requested, redraw)
  {
    hide Noted;
    forall v | v in views ensures Noted(after[v], deferred[v], requested[v], redraw[v]) {
      NotedReplaced(views[v], requested[v]);
    }
  }

  lemma NotedReplaced(v: View, requested: seq<Rect>)
    ensures Noted(SourceReplaced(v), EMPTY, requested, true)
  {
    forall p: Pixel ensures p in EVERYWHERE { Everywhere(p); }
  }

  lemma UpdateStarts(s: State) returns (h: State)
    requires s.ui.Idle?
    ensures Leads(s, h) && h == s.(ui := Harvest(FromUpdate))
  {
    LeadsHere(s);
    LeadsOn(s, s, Event.Update);
    h := Apply(s, Event.Update);
  }

  // The harvest and the copy; with nothing harvested that is all.
  lemma HarvestSteps(s: State) returns (t: State)
    requires s.ui.Harvest?
    ensures var r := Bounding(s.damage);
      if r.IsEmpty() then
        t == s.(damage := [], pixmap := t.pixmap, ui := Ui.Copy(r, s.ui.caller)) && Leads(s, Return(t, s.ui.caller))
      else
        t == s.(damage := [], pixmap := t.pixmap, ui := FanOut(r, s.views.Keys, s.ui.caller)) && Leads(s, t)
  {
    hide Bounding, Return, Leads;
    var r := Bounding(s.damage);
    LeadsHere(s);
    LeadsOn(s, s, Step(0));
    var u := Apply(s, Step(0));
    LeadsOn(s, u, Step(0));
    var copied := u.(pixmap := p => if r.Contains(p) then u.mem(p) else u.pixmap(p));
    t := if r.IsEmpty() then copied else copied.(ui := FanOut(r, s.views.Keys, s.ui.caller));
  }

  // All told: the timeout is added, and the caller goes on.
  lemma ArmSteps(s: State, u: State)
    requires Leads(s, u) && u.ui.FanOut? && u.ui.todo == {}
    ensures Leads(s, Return(u.(ui := Ui.Arm(u.ui.caller), flushPending := true), u.ui.caller))
  {
    hide Leads;
    LeadsOn(s, u, Step(0));
    var a := Apply(u, Step(0));
    LeadsOn(s, a, Step(0));
  }

  // ----- Budgets --------------------------------------------------------------------

  lemma SameBudgets(consumers: set<ViewId>, budget: map<ViewId, nat>, bytes: nat)
    requires budget.Keys == consumers && forall v :: v in consumers ==> budget[v] == bytes
    requires bytes <= VIEW_CACHE && Fits(|consumers|, bytes)
    ensures Budgets(consumers, budget)
  {
    hide Fits;
  }

  lemma FewerBudgets(consumers: set<ViewId>, view: ViewId, budget: map<ViewId, nat>)
    requires Budgets(consumers, budget)
    ensures Budgets(consumers - {view}, budget - {view})
  {
    FewerFit(consumers, view, budget);
    hide Fits;
  }

  lemma ShareFits(n: nat)
    requires n > 0
    ensures Fits(n, Share(n)) && Share(n) <= VIEW_CACHE
    ensures forall b: nat :: b <= VIEW_CACHE && Fits(n, b) ==> b <= Share(n)
  {
    forall b: nat | b <= VIEW_CACHE && Fits(n, b) ensures b <= Share(n) {
      if b > TOTAL_CACHE / n {
        assert n * b >= n * (TOTAL_CACHE / n + 1);
      }
    }
    assert n * (TOTAL_CACHE / n) <= TOTAL_CACHE;
    if VIEW_CACHE < TOTAL_CACHE / n {
      assert n * VIEW_CACHE <= n * (TOTAL_CACHE / n);
    }
  }

  lemma FewerFit(s: set<ViewId>, view: ViewId, budget: map<ViewId, nat>)
    requires forall v :: v in s ==> v in budget && Fits(|s|, budget[v])
    ensures forall v :: v in s - {view} ==> Fits(|s - {view}|, budget[v])
  {
    forall v | v in s - {view} ensures Fits(|s - {view}|, budget[v]) {
      assert |s - {view}| <= |s|;
      assert |s - {view}| * budget[v] <= |s| * budget[v];
    }
  }

  lemma BoundingAll(damage: seq<Rect>)
    ensures forall p :: Covered(damage, p) ==> Bounding(damage).Contains(p)
  {
    forall p | Covered(damage, p) ensures Bounding(damage).Contains(p) { BoundingCovers(damage, p); }
  }
}
