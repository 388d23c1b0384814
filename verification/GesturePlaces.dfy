// Where gestures are reported, told from the touches alone: where each finger was put down
// and where it was last seen.
module GesturePlaces {
  import opened GestureMachine
  import opened GestureRuns
  import opened GestureLog
  import opened GestureReports

  datatype Place = Place(firstX: real, firstY: real, lastX: real, lastY: real)

  // The fingers since all were last up, in the order they were first put down. One that
  // comes back before all are up is not followed again.
  datatype Session = Session(down: set<int>, order: seq<int>, places: map<int, Place>)

  const FRESH := Session({}, [], map[])

  function Next(s: Session, i: Input): Session {
    match i
    case Down(id, x, y) =>
      if id in s.down then s
      else if id in s.places then s.(down := s.down + {id})
      else Session(s.down + {id}, s.order + [id], s.places[id := Place(x, y, x, y)])
    case Move(id, x, y, _) =>
      if id in s.places then s.(places := s.places[id := s.places[id].(lastX := x, lastY := y)]) else s
    case Up(id) =>
      if id !in s.down then s else if s.down - {id} == {} then FRESH else s.(down := s.down - {id})
    case _ => s
  }

  function SessionOf(inputs: seq<Input>): Session {
    if inputs == [] then FRESH else Next(SessionOf(inputs[..|inputs| - 1]), inputs[|inputs| - 1])
  }

  // What has been seen when an input is reported: a move counts, a release does not yet.
  function Seen(s: Session, i: Input): Session {
    if i.Move? then Next(s, i) else s
  }

  // ---- Averages ------------------------------------------------------------------------

  function FirstX(s: Session): map<int, real> { map id | id in s.places :: s.places[id].firstX }
  function FirstY(s: Session): map<int, real> { map id | id in s.places :: s.places[id].firstY }
  function LastX(s: Session): map<int, real> { map id | id in s.places :: s.places[id].lastX }
  function LastY(s: Session): map<int, real> { map id | id in s.places :: s.places[id].lastY }

  function Total(ids: seq<int>, f: map<int, real>): real
    requires forall i :: 0 <= i < |ids| ==> ids[i] in f
  {
    if ids == [] then 0.0 else Total(ids[..|ids| - 1], f) + f[ids[|ids| - 1]]
  }

  function Mean(ids: seq<int>, f: map<int, real>): real
    requires ids != [] && forall i :: 0 <= i < |ids| ==> ids[i] in f
  {
    Total(ids, f) / |ids| as real
  }

  // The distance between the fingers with the lowest and the highest number.
  ghost predicate Apart(ids: set<int>, f: map<int, real>, distance: real)
    requires ids <= f.Keys
  {
    exists lo, hi :: Outer(ids, lo, hi) && distance == Abs(f[hi] - f[lo])
  }

  ghost predicate Outer(ids: set<int>, lo: int, hi: int) {
    lo in ids && hi in ids && forall id :: id in ids ==> lo <= id <= hi
  }

  function Ids(order: seq<int>): set<int> { set i | 0 <= i < |order| :: order[i] }

  ghost predicate Distinct(order: seq<int>) {
    forall i, j :: 0 <= i < j < |order| ==> order[i] != order[j]
  }

  lemma {:induction false} TotalSame(ids: seq<int>, f: map<int, real>, g: map<int, real>)
    requires forall i :: 0 <= i < |ids| ==> ids[i] in f && ids[i] in g && f[ids[i]] == g[ids[i]]
    ensures Total(ids, f) == Total(ids, g)
  {
    if ids != [] {
      TotalSame(ids[..|ids| - 1], f, g);
    }
  }

  lemma {:induction false} TotalIsSum(ids: seq<int>, m: map<int, real>)
    requires Distinct(ids) && Ids(ids) == m.Keys
    ensures forall i :: 0 <= i < |ids| ==> ids[i] in m
    ensures Total(ids, m) == Sum(m)
    decreases |ids|
  {
    assert forall i :: 0 <= i < |ids| ==> ids[i] in Ids(ids);
    if ids != [] {
      var n := |ids| - 1;
      var k := ids[n];
      RestIds(ids);
      TotalIsSum(ids[..n], m - {k});
      TotalSame(ids[..n], m, m - {k});
      SumAny(m, k);
    }
  }

  lemma RestIds(ids: seq<int>)
    requires Distinct(ids) && ids != []
    ensures var n := |ids| - 1; Distinct(ids[..n]) && Ids(ids[..n]) == Ids(ids) - {ids[n]}
  {
    var n := |ids| - 1;
    forall x ensures x in Ids(ids[..n]) <==> x in Ids(ids) && x != ids[n] {
      if x in Ids(ids) && x != ids[n] {
        var i :| 0 <= i < |ids| && ids[i] == x;
        assert ids[..n][i] == x;
      }
    }
  }

  lemma IdsCount(ids: seq<int>)
    requires Distinct(ids)
    ensures |Ids(ids)| == |ids|
  {
    if ids != [] {
      RestIds(ids);
      IdsCount(ids[..|ids| - 1]);
      assert ids[|ids| - 1] in Ids(ids);
    }
  }

  lemma MeanIsAverage(ids: seq<int>, m: map<int, real>, f: map<int, real>)
    requires Distinct(ids) && Ids(ids) == m.Keys && ids != []
    requires forall i :: 0 <= i < |ids| ==> ids[i] in f && ids[i] in m && f[ids[i]] == m[ids[i]]
    ensures Average(m) == Mean(ids, f)
  {
    hide Sum, Total;
    TotalIsSum(ids, m);
    TotalSame(ids, m, f);
    IdsCount(ids);
    assert ids[0] in m.Keys;
    assert |m| == |m.Keys|;
  }

  lemma SpreadIsApart(m: map<int, real>, f: map<int, real>)
    requires m.Keys <= f.Keys && m != map[] && forall id :: id in m ==> f[id] == m[id]
    ensures Apart(m.Keys, f, Spread(m))
  {
    assert m.Keys != {};
    var lo, hi := Least(m.Keys), Greatest(m.Keys);
    assert Outer(m.Keys, lo, hi);
    hide Outer, Abs, Least, Greatest;
    assert f[lo] == m[lo] && f[hi] == m[hi];
  }

  // ---- The recogniser follows the session ----------------------------------------------

  predicate SamePlace(t: Touch, p: Place) {
    t.firstX == p.firstX && t.firstY == p.firstY && t.lastX == p.lastX && t.lastY == p.lastY
  }

  // The fingers followed are the first of the session, each at its place.
  ghost predicate Follows(t: map<int, Touch>, s: Session) {
    && Ordered(s)
    && |t| <= |s.order| && t.Keys == Ids(s.order[..|t|])
    && forall id :: id in t ==> id in s.places && SamePlace(t[id], s.places[id])
  }

  ghost predicate Ordered(s: Session) {
    Distinct(s.order) && s.places.Keys == Ids(s.order)
  }

  // As long as more may be followed, all of them are.
  ghost predicate AllFollowed(r: Recogniser, s: Session) {
    !Detected(r) && r.state != NOGESTURE && !r.waitingRelease ==> |r.tracked| == |s.order|
  }

  ghost predicate InSession(w: World, s: Session) {
    && Follows(w.r.tracked, s) && AllFollowed(w.r, s) && s.down == w.down
    && (s.down == {} ==> s == FRESH)
  }

  // The fingers of an event are the first of the session.
  ghost predicate HasFingers(s: Session, e: Event) {
    0 < e.fingers <= |s.order| && s.places.Keys == Ids(s.order)
  }

  lemma FirstKnown(s: Session, n: nat)
    requires n <= |s.order| && s.places.Keys == Ids(s.order)
    ensures forall i :: 0 <= i < n ==> s.order[..n][i] in s.places
    ensures Ids(s.order[..n]) <= s.places.Keys
  {
    forall i | 0 <= i < n ensures s.order[..n][i] in s.places {
      assert s.order[i] in Ids(s.order);
    }
  }

  // Where an event is reported: at the Begin where its fingers were put down, later where
  // they are, but two-finger gestures stay.
  ghost predicate Positioned(s: Session, e: Event)
    requires HasFingers(s, e)
  {
    FirstKnown(s, e.fingers);
    var ids := s.order[..e.fingers];
    if e.kind == Begin || TwoFinger(e) then e.x == Mean(ids, FirstX(s)) && e.y == Mean(ids, FirstY(s))
    else e.x == Mean(ids, LastX(s)) && e.y == Mean(ids, LastY(s))
  }

  // How far a two-finger gesture has scrolled, or its outer fingers are apart.
  ghost predicate Measured(s: Session, e: Event)
    requires HasFingers(s, e)
  {
    FirstKnown(s, e.fingers);
    var ids := s.order[..e.fingers];
    && (e.gesture == TwoDrag && e.kind == Begin ==> e.magnitudeX == 0.0 && e.magnitudeY == 0.0)
    && (e.gesture == TwoDrag && e.kind != Begin ==>
          && e.magnitudeX == Mean(ids, LastX(s)) - Mean(ids, FirstX(s))
          && e.magnitudeY == Mean(ids, LastY(s)) - Mean(ids, FirstY(s)))
    && (e.gesture == Pinch && e.kind == Begin ==>
          Apart(Ids(ids), FirstX(s), e.magnitudeX) && Apart(Ids(ids), FirstY(s), e.magnitudeY))
    && (e.gesture == Pinch && e.kind != Begin ==>
          Apart(Ids(ids), LastX(s), e.magnitudeX) && Apart(Ids(ids), LastY(s), e.magnitudeY))
  }

  ghost predicate Located(s: Session, e: Event) {
    HasFingers(s, e) && Positioned(s, e) && Measured(s, e)
  }

  // A coordinate of the followed touches is that of their places.
  ghost predicate Coordinate(t: map<int, Touch>, s: Session, m: map<int, real>, f: map<int, real>) {
    && m.Keys == t.Keys && f.Keys == s.places.Keys
    && forall id :: id in t ==> id in f && m[id] == f[id]
  }

  lemma Coordinates(t: map<int, Touch>, s: Session)
    requires Follows(t, s)
    ensures Coordinate(t, s, FirstXs(t), FirstX(s)) && Coordinate(t, s, FirstYs(t), FirstY(s))
    ensures Coordinate(t, s, LastXs(t), LastX(s)) && Coordinate(t, s, LastYs(t), LastY(s))
  {
    hide Ids, Distinct;
  }

  lemma FollowedIds(t: map<int, Touch>, s: Session)
    requires Follows(t, s) && t != map[]
    ensures var ids := s.order[..|t|];
      && ids != [] && Distinct(ids) && Ids(ids) == t.Keys
      && forall i :: 0 <= i < |ids| ==> ids[i] in t && ids[i] in s.places
  {
    var ids := s.order[..|t|];
    assert t.Keys != {};
    assert forall i :: 0 <= i < |ids| ==> ids[i] in Ids(ids);
  }

  // The recogniser's average and spread are the session's.
  lemma SameMeasures(t: map<int, Touch>, s: Session, m: map<int, real>, f: map<int, real>)
    requires Follows(t, s) && t != map[] && Coordinate(t, s, m, f)
    ensures var ids := s.order[..|t|];
      && ids != [] && (forall i :: 0 <= i < |ids| ==> ids[i] in f) && Ids(ids) <= f.Keys
      && Average(m) == Mean(ids, f) && Apart(Ids(ids), f, Spread(m))
  {
    FollowedIds(t, s);
    hide Follows, Average, Mean, Apart, Spread, Ids, Distinct;
    MeanIsAverage(s.order[..|t|], m, f);
    SpreadIsApart(m, f);
  }

  lemma GestureOf(state: Mask)
    requires Known(state)
    ensures var g := StateToGesture(state);
      && (g == TwoDrag <==> state == TWODRAG) && (g == Pinch <==> state == PINCH)
  {
  }

  lemma PushFields(r: Recogniser, kind: Kind)
    ensures Push(r, kind).events == r.events + [Pushed(r, kind)]
  {
    hide StateToGesture, EventX, EventY, MagnitudeX, MagnitudeY, Known;
  }

  ghost function Pushed(r: Recogniser, kind: Kind): Event {
    Event(kind, StateToGesture(r.state), EventX(r, kind), EventY(r, kind), MagnitudeX(r, kind), MagnitudeY(r, kind),
      |r.tracked|)
  }

  lemma PushedFingers(r: Recogniser, kind: Kind, s: Session)
    requires Follows(r.tracked, s) && r.tracked != map[]
    ensures HasFingers(s, Pushed(r, kind))
  {
    FollowedIds(r.tracked, s);
  }

  lemma PushedPositioned(r: Recogniser, kind: Kind, s: Session)
    requires Follows(r.tracked, s) && r.tracked != map[] && Known(r.state) && HasFingers(s, Pushed(r, kind))
    ensures Positioned(s, Pushed(r, kind))
  {
    hide Follows, Coordinate, Average, Mean, Apart, FirstX, FirstY, LastX, LastY, StateToGesture, Ids;
    hide FirstXs, FirstYs, LastXs, LastYs, Known, MagnitudeX, MagnitudeY;
    var t := r.tracked;
    Coordinates(t, s);
    SameMeasures(t, s, FirstXs(t), FirstX(s));
    SameMeasures(t, s, FirstYs(t), FirstY(s));
    SameMeasures(t, s, LastXs(t), LastX(s));
    SameMeasures(t, s, LastYs(t), LastY(s));
    GestureOf(r.state);
  }

  lemma PushedDrag(r: Recogniser, kind: Kind, s: Session)
    requires Follows(r.tracked, s) && r.tracked != map[] && r.state == TWODRAG && HasFingers(s, Pushed(r, kind))
    ensures Measured(s, Pushed(r, kind))
  {
    hide Follows, Coordinate, Average, Mean, Spread, Apart, FirstX, FirstY, LastX, LastY, Ids;
    hide FirstXs, FirstYs, LastXs, LastYs, EventX, EventY;
    var t := r.tracked;
    Coordinates(t, s);
    SameMeasures(t, s, FirstXs(t), FirstX(s));
    SameMeasures(t, s, FirstYs(t), FirstY(s));
    SameMeasures(t, s, LastXs(t), LastX(s));
    SameMeasures(t, s, LastYs(t), LastY(s));
  }

  lemma PushedPinch(r: Recogniser, kind: Kind, s: Session)
    requires Follows(r.tracked, s) && r.tracked != map[] && r.state == PINCH && HasFingers(s, Pushed(r, kind))
    ensures Measured(s, Pushed(r, kind))
  {
    hide Follows, Coordinate, Average, Mean, Spread, Apart, FirstX, FirstY, LastX, LastY, Ids;
    hide FirstXs, FirstYs, LastXs, LastYs, EventX, EventY;
    var t := r.tracked;
    Coordinates(t, s);
    if kind == Begin {
      SameMeasures(t, s, FirstXs(t), FirstX(s));
      SameMeasures(t, s, FirstYs(t), FirstY(s));
    } else {
      SameMeasures(t, s, LastXs(t), LastX(s));
      SameMeasures(t, s, LastYs(t), LastY(s));
    }
  }

  lemma PushedMeasured(r: Recogniser, kind: Kind, s: Session)
    requires Follows(r.tracked, s) && r.tracked != map[] && Known(r.state) && HasFingers(s, Pushed(r, kind))
    ensures Measured(s, Pushed(r, kind))
  {
    GestureOf(r.state);
    if r.state == TWODRAG {
      PushedDrag(r, kind, s);
    } else if r.state == PINCH {
      PushedPinch(r, kind, s);
    }
    hide Follows, HasFingers, StateToGesture, EventX, EventY, MagnitudeX, MagnitudeY, Known;
  }

  lemma PushLocated(r: Recogniser, kind: Kind, s: Session)
    requires Follows(r.tracked, s) && r.tracked != map[] && Known(r.state)
    ensures var events := Push(r, kind).events;
      |events| == |r.events| + 1 && events[..|r.events|] == r.events && Located(s, events[|r.events|])
  {
    hide Follows, Known, Pushed, HasFingers, Positioned, Measured;
    PushFields(r, kind);
    PushedFingers(r, kind, s);
    PushedPositioned(r, kind, s);
    PushedMeasured(r, kind, s);
  }

  // ---- Each input ------------------------------------------------------------------------

  lemma AppendIds(order: seq<int>, id: int)
    requires Distinct(order)
    ensures Ids(order + [id]) == Ids(order) + {id}
    ensures id !in Ids(order) ==> Distinct(order + [id])
  {
    var all := order + [id];
    forall x ensures x in Ids(all) <==> x in Ids(order) || x == id {
      if x in Ids(order) {
        var i :| 0 <= i < |order| && order[i] == x;
        assert all[i] == x;
      }
      if x == id { assert all[|order|] == x; }
    }
    if id !in Ids(order) {
      forall i, j | 0 <= i < j < |all| ensures all[i] != all[j] {
        if j == |order| { assert order[i] in Ids(order); }
      }
    }
  }

  lemma OrderedMore(s: Session, id: int, place: Place)
    requires Ordered(s) && id !in s.places
    ensures Ordered(Session(s.down + {id}, s.order + [id], s.places[id := place]))
  {
    AppendIds(s.order, id);
    hide Ids, Distinct;
    assert s.places[id := place].Keys == s.places.Keys + {id};
  }

  // A finger not followed only lengthens the session.
  lemma FollowsMore(t: map<int, Touch>, s: Session, id: int, place: Place)
    requires Follows(t, s) && id !in s.places
    ensures Follows(t, Session(s.down + {id}, s.order + [id], s.places[id := place]))
  {
    hide Ordered, Ids, Distinct, SamePlace;
    OrderedMore(s, id, place);
    assert (s.order + [id])[..|t|] == s.order[..|t|];
  }

  // A finger followed joins as the last when all so far are.
  lemma FollowsOne(t: map<int, Touch>, s: Session, id: int, touch: Touch, place: Place)
    requires Follows(t, s) && id !in s.places && |t| == |s.order| && SamePlace(touch, place)
    ensures Follows(t[id := touch], Session(s.down + {id}, s.order + [id], s.places[id := place]))
  {
    AllKeys(t, s);
    KeysMore(t, s, id);
    hide Ids, Distinct, SamePlace, Ordered;
    OrderedMore(s, id, place);
    OneMoreTouch(t, id, touch);
    PlacesMore(t, s, id, touch, place);
  }

  lemma PlacesMore(t: map<int, Touch>, s: Session, id: int, touch: Touch, place: Place)
    requires SamePlace(touch, place) && forall k :: k in t ==> k in s.places && SamePlace(t[k], s.places[k])
    ensures var t', places := t[id := touch], s.places[id := place];
      forall k :: k in t' ==> k in places && SamePlace(t'[k], places[k])
  {
    hide SamePlace;
  }

  lemma AllKeys(t: map<int, Touch>, s: Session)
    requires Follows(t, s) && |t| == |s.order|
    ensures t.Keys == s.places.Keys == Ids(s.order)
  {
    hide Ids, Distinct, SamePlace;
    assert s.order[..|t|] == s.order;
  }

  lemma KeysMore(t: map<int, Touch>, s: Session, id: int)
    requires Ordered(s) && t.Keys == Ids(s.order) && |t| == |s.order|
    ensures Ids((s.order + [id])[..|t| + 1]) == t.Keys + {id}
  {
    AppendIds(s.order, id);
    hide Ids, Distinct;
    assert (s.order + [id])[..|t| + 1] == s.order + [id];
  }

  lemma OneMoreTouch(t: map<int, Touch>, id: int, touch: Touch)
    requires id !in t
    ensures |t[id := touch]| == |t| + 1 && t[id := touch].Keys == t.Keys + {id}
  {
  }

  // Without a gesture and before any release, the fingers followed are all that are down.
  lemma AllDown(w: World, s: Session)
    requires Shape(w.r) && Fingers(w.r, w.down) && InSession(w, s)
    requires !Detected(w.r) && w.r.state != NOGESTURE && !w.r.waitingRelease
    ensures s.places.Keys == w.r.tracked.Keys && w.r.tracked.Keys <= w.down && |w.r.tracked| == |s.order|
  {
    assert s.order[..|w.r.tracked|] == s.order;
    hide Ids, Distinct, Detected;
    forall id | id in w.r.tracked ensures id in w.down {
      assert id in ActiveIds(w.r.tracked);
    }
  }

  lemma DownIgnored(r: Recogniser, u: Recogniser, s: Session, id: int, x: real, y: real)
    requires Follows(r.tracked, s) && u.tracked == r.tracked && (Detected(u) || u.state == NOGESTURE) && id !in s.down
    ensures var next := Next(s, Down(id, x, y)); Follows(u.tracked, next) && AllFollowed(u, next)
  {
    hide Follows, Detected;
    if id !in s.places { FollowsMore(r.tracked, s, id, Place(x, y, x, y)); }
    SameFollows(r.tracked, s, s.down + {id});
  }

  lemma DownTracked(r: Recogniser, u: Recogniser, s: Session, id: int, x: real, y: real, now: nat)
    requires Follows(r.tracked, s) && |r.tracked| == |s.order| && id !in s.down && id !in s.places
    requires id !in r.tracked && u.tracked == r.tracked[id := Touch(now, true, x, y, x, y)]
    ensures var next := Next(s, Down(id, x, y)); Follows(u.tracked, next) && AllFollowed(u, next)
  {
    hide Follows, Detected;
    FollowsOne(r.tracked, s, id, Touch(now, true, x, y, x, y), Place(x, y, x, y));
    OneMoreTouch(r.tracked, id, Touch(now, true, x, y, x, y));
  }

  lemma SessionBegin(w: World, s: Session, id: int, x: real, y: real)
    requires Inv(w) && InSession(w, s) && id !in w.down
    ensures var u, next := TouchBegin(w.r, id, x, y, w.now), Next(s, Down(id, x, y));
      Follows(u.tracked, next) && AllFollowed(u, next) && u.events == w.r.events
  {
    var r, u := w.r, TouchBegin(w.r, id, x, y, w.now);
    BeginKeepsDetected(r, id, x, y, w.now, w.down);
    assert Follows(r.tracked, s) && id !in s.down;
    if Detected(r) || r.state == NOGESTURE || r.waitingRelease {
      hide TouchBegin, Detected, Follows, AllFollowed, Next, Inv, InSession;
      IgnoredBegin(r, id, x, y, w.now);
      DownIgnored(r, u, s, id, x, y);
    } else {
      AllDown(w, s);
      hide TouchBegin, Detected, Follows, AllFollowed, Next, Inv, InSession;
      TrackedBegin(r, id, x, y, w.now);
      if u.tracked == r.tracked { DownIgnored(r, u, s, id, x, y); } else { DownTracked(r, u, s, id, x, y, w.now); }
    }
  }

  lemma SameFollows(t: map<int, Touch>, s: Session, down: set<int>)
    requires Follows(t, s)
    ensures Follows(t, s.(down := down))
  {
    hide Ids, Distinct, SamePlace;
  }

  lemma IgnoredBegin(r: Recogniser, id: int, x: real, y: real, now: nat)
    requires Detected(r) || r.state == NOGESTURE || r.waitingRelease
    ensures var u := TouchBegin(r, id, x, y, now);
      u.tracked == r.tracked && (Detected(r) || u.state == NOGESTURE)
  {
    hide Detected, BegunMask;
  }

  lemma TrackedBegin(r: Recogniser, id: int, x: real, y: real, now: nat)
    requires !Detected(r) && r.state != NOGESTURE && !r.waitingRelease && id !in r.tracked
    ensures var u := TouchBegin(r, id, x, y, now);
      if u.tracked == r.tracked then u.state == NOGESTURE
      else u.tracked == r.tracked[id := Touch(now, true, x, y, x, y)]
  {
    hide Detected, BegunMask;
  }

  // What is reported with this input is where the session says.
  ghost predicate Adds(before: seq<Event>, after: seq<Event>, s: Session) {
    && |before| <= |after| && after[..|before|] == before
    && forall j :: |before| <= j < |after| ==> Located(s, after[j])
  }

  lemma AddsNone(events: seq<Event>, s: Session)
    ensures Adds(events, events, s)
  {
  }

  lemma AddsPush(before: seq<Event>, r: Recogniser, kind: Kind, s: Session)
    requires Adds(before, r.events, s) && Follows(r.tracked, s) && r.tracked != map[] && Known(r.state)
    ensures Adds(before, Push(r, kind).events, s) && Push(r, kind).tracked == r.tracked
    ensures Push(r, kind).state == r.state
  {
    hide Push, Located, Follows, Known, Adds;
    PushLocated(r, kind, s);
    DetectedPush(r, kind);
    AddsOne(before, r.events, Push(r, kind).events, s);
  }

  lemma AddsOne(before: seq<Event>, events: seq<Event>, after: seq<Event>, s: Session)
    requires Adds(before, events, s) && |after| == |events| + 1 && after[..|events|] == events
    requires Located(s, after[|events|])
    ensures Adds(before, after, s)
  {
    hide Located;
    forall j | |before| <= j < |after| ensures Located(s, after[j]) {
      if j < |events| { assert after[j] == events[j]; }
    }
    assert after[..|before|] == events[..|before|];
  }

  // A move of a followed finger, or of one that is not.
  lemma FollowsMove(t: map<int, Touch>, s: Session, id: int, x: real, y: real, apart: bool)
    requires Follows(t, s)
    ensures var next := Next(s, Move(id, x, y, apart));
      Follows(if id in t then Moved(t, id, x, y) else t, next) && next.order == s.order && next.down == s.down
  {
    if id in t { MovedKeeps(t, id, x, y); }
    assert id in s.places ==> s.places[id := s.places[id].(lastX := x, lastY := y)].Keys == s.places.Keys;
    hide Ids, Distinct;
  }

  // No move makes more gestures possible.
  lemma MoveGrounds(r: Recogniser, id: int, x: real, y: real, apart: bool, hypot: (real, real) -> real)
    requires Shape(r)
    ensures var u := TouchUpdate(r, id, x, y, apart, hypot);
      !Detected(u) && u.state != NOGESTURE && !u.waitingRelease ==>
        !Detected(r) && r.state != NOGESTURE && !r.waitingRelease
  {
    if Detected(r) {
      LogMoveOn(r, Move(id, x, y, apart), hypot);
    } else if id in r.tracked {
      LogMoveOff(r, Move(id, x, y, apart), hypot);
      MovedUpdate(r, id, x, y, apart, hypot);
      var t := r.(tracked := Moved(r.tracked, id, x, y));
      FarNone(t, id, apart, hypot);
      DetectedPush(FarMove(t, id, apart, hypot), Begin);
      DetectedPush(Push(FarMove(t, id, apart, hypot), Begin), Update);
      DetectedPush(t, Update);
      hide Shape, TouchUpdate, FarMove, Push, Detected, Moved;
    }
  }

  lemma FarNone(t: Recogniser, id: int, apart: bool, hypot: (real, real) -> real)
    requires id in t.tracked
    ensures t.state == NOGESTURE ==> FarMove(t, id, apart, hypot).state == NOGESTURE
  {
    assert MovedMask(NOGESTURE, |t.tracked|) == NOGESTURE;
    hide MovedMask, Other;
  }

  lemma MoveReports(r: Recogniser, s: Session, i: Input, hypot: (real, real) -> real)
    requires Shape(r) && Follows(r.tracked, s) && i.Move?
    ensures Adds(r.events, TouchUpdate(r, i.id, i.x, i.y, i.apart, hypot).events, Next(s, i))
  {
    hide Shape, Follows, Push, Detected, FarMove, Moved, TouchUpdate, Adds, Known;
    var next := Next(s, i);
    AddsNone(r.events, next);
    if i.id in r.tracked {
      FollowsMove(r.tracked, s, i.id, i.x, i.y, i.apart);
      MovedUpdate(r, i.id, i.x, i.y, i.apart, hypot);
      ShapeMove(r, i.id, i.x, i.y);
      var t := r.(tracked := Moved(r.tracked, i.id, i.x, i.y));
      assert i.id in t.tracked by { MovedKeeps(r.tracked, i.id, i.x, i.y); }
      if Detected(t) {
        ShapeKnown(t);
        AddsPush(r.events, t, Update, next);
      } else {
        var v := FarMove(t, i.id, i.apart, hypot);
        FarMoveKeeps(t, i.id, i.apart, hypot);
        ShapeFarMove(t, i.id, i.apart, hypot);
        if Detected(v) {
          ShapeKnown(v);
          AddsPush(r.events, v, Begin, next);
          AddsPush(r.events, Push(v, Begin), Update, next);
        }
      }
    } else {
      UntouchedUpdate(r, i, hypot);
    }
  }

  lemma UntouchedUpdate(r: Recogniser, i: Input, hypot: (real, real) -> real)
    requires i.Move? && i.id !in r.tracked
    ensures TouchUpdate(r, i.id, i.x, i.y, i.apart, hypot) == r
  {
  }

  lemma FollowsNone(s: Session)
    requires Ordered(s)
    ensures Follows(map[], s)
  {
  }

  lemma FollowsReleased(t: map<int, Touch>, s: Session, id: int)
    requires Follows(t, s) && id in t
    ensures Follows(Released(t, id), s)
  {
    ReleasedActive(t, id);
    hide Ordered, Ids;
  }

  lemma LiftedFollows(r: Recogniser, id: int, now: nat, s: Session)
    requires Shape(r) && id in r.tracked && r.tracked[id].active && Follows(r.tracked, s)
    ensures Follows(Lifted(r, id, now).tracked, s)
  {
    FollowsReleased(r.tracked, s, id);
    LiftedTracked(r, id, now);
    hide Follows, Lifted, Released;
  }

  lemma LiftedTracked(r: Recogniser, id: int, now: nat)
    ensures Lifted(r, id, now).tracked == r.tracked || Lifted(r, id, now).tracked == Released(r.tracked, id)
  {
    hide Detected, Released, TooSlow;
  }

  lemma FinishEvents(v: Recogniser, id: int)
    ensures Finish(v, id).events == (if Detected(v) then Push(v, End).events else v.events)
    ensures Finish(v, id).tracked == map[]
  {
    hide Detected, Push, ActiveIds;
  }

  lemma EndedReports(v: Recogniser, id: int, s: Session)
    requires Follows(v.tracked, s) && v.tracked != map[] && v.state != 128
    ensures Adds(v.events, Ended(v, id).events, s)
    ensures Ended(v, id) == v || Ended(v, id).tracked == map[]
  {
    hide Follows, Push, Detected, Adds, Finish, Known;
    AddsNone(v.events, s);
    DetectedKnown(v);
    FinishEvents(v, id);
    FinishEvents(Push(v, Begin), id);
    DetectedPush(v, Begin);
    if Detected(v) {
      AddsPush(v.events, v, End, s);
      AddsPush(v.events, v, Begin, s);
      AddsPush(v.events, Push(v, Begin), End, s);
    }
  }

  lemma UpReports(w: World, s: Session, id: int)
    requires Inv(w) && InSession(w, s) && id in w.down
    ensures Adds(w.r.events, TouchEnd(w.r, id, w.now).events, s)
    ensures id in w.r.ignored || TouchEnd(w.r, id, w.now).tracked == map[] ||
      (Follows(TouchEnd(w.r, id, w.now).tracked, s) && TouchEnd(w.r, id, w.now).waitingRelease)
  {
    var r := w.r;
    if id in r.ignored {
      AddsNone(r.events, s);
      hide Adds, Lifted, Ended;
    } else {
      assert id in ActiveIds(r.tracked);
      assert Follows(r.tracked, s) && Shape(r);
      hide Inv, InSession, Shape, Lifted, Ended, TouchEnd, Follows, Adds;
      var v := Lifted(r, id, w.now);
      LiftedOk(r, id, w.now);
      LiftedFollows(r, id, w.now, s);
      EndIsEnded(r, id, w.now);
      EndedReports(v, id, s);
      EndedWaits(v, id);
    }
  }

  lemma EndedWaits(v: Recogniser, id: int)
    ensures Ended(v, id) == v && v.tracked != map[] ==> v.waitingRelease
  {
    FinishEvents(v, id);
    FinishEvents(Push(v, Begin), id);
    hide Detected, Push, Finish;
  }

  // ---- The session through each input ----------------------------------------------------

  lemma SessionMove(w: World, s: Session, i: Input, hypot: (real, real) -> real)
    requires Inv(w) && InSession(w, s) && i.Move?
    ensures InSession(Apply(w, i, hypot), Next(s, i))
  {
    assert Shape(w.r) && Follows(w.r.tracked, s) && AllFollowed(w.r, s);
    FollowsMove(w.r.tracked, s, i.id, i.x, i.y, i.apart);
    UpdateFrame(w.r, i.id, i.x, i.y, i.apart, hypot);
    MoveGrounds(w.r, i.id, i.x, i.y, i.apart, hypot);
    if i.id in w.r.tracked { MovedKeeps(w.r.tracked, i.id, i.x, i.y); }
    hide Inv, Follows, TouchUpdate, Moved, Detected;
  }

  lemma LastFinger(r: Recogniser)
    requires Shape(r) && Fingers(r, {})
    ensures r.tracked == map[]
  {
    ActiveIffAny(r.tracked);
    hide StateOk, AnyActive, ActiveIds;
  }

  lemma SessionUp(w: World, s: Session, id: int, hypot: (real, real) -> real)
    requires Inv(w) && InSession(w, s) && id in w.down
    ensures InSession(Apply(w, Up(id), hypot), Next(s, Up(id)))
  {
    var r, u := w.r, TouchEnd(w.r, id, w.now);
    assert Follows(r.tracked, s) && AllFollowed(r, s) && s.down == w.down;
    ShapeEnd(r, id, w.now, w.down);
    UpReports(w, s, id);
    if w.down - {id} == {} {
      LastFinger(u);
      FreshFollows(u);
    } else if id in r.ignored {
      UpIgnored(r, id, w.now, w.down);
      SameFollows(r.tracked, s, s.down - {id});
    } else if u.tracked == map[] {
      NoneFollowed(u, s, w.down - {id});
      SameFollows(map[], s, s.down - {id});
    } else {
      SameFollows(u.tracked, s, s.down - {id});
    }
    hide Inv, Follows, TouchEnd, Detected, Adds, Shape, Fingers;
  }

  lemma FreshFollows(u: Recogniser)
    requires u.tracked == map[]
    ensures Follows(u.tracked, FRESH) && AllFollowed(u, FRESH)
  {
  }

  // With fingers down and none followed, no gesture is possible.
  lemma NoneFollowed(u: Recogniser, s: Session, down: set<int>)
    requires Shape(u) && Fingers(u, down) && u.tracked == map[] && down != {} && Ordered(s)
    ensures u.state == NOGESTURE && Follows(map[], s)
  {
    NoneActive();
    FollowsNone(s);
    hide StateOk, AnyActive;
  }

  lemma UpIgnored(r: Recogniser, id: int, now: nat, down: set<int>)
    requires Shape(r) && Fingers(r, down) && id in r.ignored && down - {id} != {}
    ensures var u := TouchEnd(r, id, now);
      u.tracked == r.tracked && u.state == r.state && u.waitingRelease == r.waitingRelease
  {
    NoneActive();
    hide StateOk, Lifted, Ended;
  }

  lemma TimerReports(r: Recogniser, s: Session, hypot: (real, real) -> real)
    requires Shape(r) && Follows(r.tracked, s)
    ensures r.longpress ==> var u := LongpressTimeout(r);
      Adds(r.events, u.events, s) && u.tracked == r.tracked && u.state == LONGPRESS
    ensures r.twoTouch ==> var u := TwoTouchTimeout(r, hypot);
      Adds(r.events, u.events, s) && u.tracked == r.tracked && (u.state == PINCH || u.state == TWODRAG)
  {
    assert r.longpress || r.twoTouch ==> r.tracked != map[];
    hide Shape, Follows, Adds, Push, Average, Spread, Detected;
    AddsNone(r.events, s);
    if r.longpress {
      AddsPush(r.events, r.(longpress := false, state := LONGPRESS, failed := r.failed || Detected(r)), Begin, s);
    }
    if r.twoTouch {
      var b := BeforeTwoTouch(r, hypot);
      AddsPush(r.events, b, Begin, s);
      AddsPush(r.events, Push(b, Begin), Update, s);
    }
  }

  lemma TimerDetected(u: Recogniser)
    requires u.state == LONGPRESS || u.state == PINCH || u.state == TWODRAG
    ensures Detected(u)
  {
  }

  lemma SessionStep(w: World, s: Session, i: Input, hypot: (real, real) -> real)
    requires Inv(w) && InSession(w, s)
    ensures InSession(Apply(w, i, hypot), Next(s, i))
    ensures Adds(w.r.events, Apply(w, i, hypot).r.events, Seen(s, i))
  {
    AddsNone(w.r.events, Seen(s, i));
    match i
    case Down(id, x, y) =>
      if id !in w.down {
        SessionBegin(w, s, id, x, y);
        hide Inv, Follows, AllFollowed, TouchBegin, Adds;
        assert s.down == w.down;
      }
    case Move(id, x, y, _) =>
      SessionMove(w, s, i, hypot);
      assert Shape(w.r);
      hide Inv, Follows, AllFollowed, TouchUpdate, Adds, Shape;
      MoveReports(w.r, s, i, hypot);
    case Up(id) =>
      if id in w.down {
        SessionUp(w, s, id, hypot);
        hide Inv, Follows, AllFollowed, TouchEnd, Adds;
        UpReports(w, s, id);
      }
    case Tick(_) => hide Inv, Follows, AllFollowed, Adds;
    case _ =>
      hide Adds, Follows;
      SessionTimers(w, s, i, hypot);
  }

  lemma SessionTimers(w: World, s: Session, i: Input, hypot: (real, real) -> real)
    requires Inv(w) && InSession(w, s) && (i.LongpressFires? || i.TwoTouchFires?)
    ensures InSession(Apply(w, i, hypot), s) && Adds(w.r.events, Apply(w, i, hypot).r.events, s)
  {
    assert Shape(w.r) && Follows(w.r.tracked, s);
    hide Inv, Follows, Detected, LongpressTimeout, TwoTouchTimeout, Adds, Shape;
    AddsNone(w.r.events, s);
    TimerReports(w.r, s, hypot);
    if w.r.longpress { TimerDetected(LongpressTimeout(w.r)); }
    if w.r.twoTouch { TimerDetected(TwoTouchTimeout(w.r, hypot)); }
  }

  lemma {:induction false} RunInSession(inputs: seq<Input>, hypot: (real, real) -> real)
    ensures InSession(Run(inputs, hypot), SessionOf(inputs))
    decreases |inputs|
  {
    if inputs == [] {
      FreshFollows(INITIAL);
    } else {
      var before := inputs[..|inputs| - 1];
      RunInSession(before, hypot);
      RunKeeps(before, hypot);
      hide Inv, InSession, Apply, Next;
      SessionStep(Run(before, hypot), SessionOf(before), inputs[|inputs| - 1], hypot);
    }
  }

  // ---- The promises, in every run --------------------------------------------------------

  // Whatever is reported with the last input is where the fingers of the session are.
  lemma ReportsLocated(inputs: seq<Input>, i: Input, hypot: (real, real) -> real)
    ensures var before, after := Run(inputs, hypot).r.events, Run(inputs + [i], hypot).r.events;
      && |before| <= |after| && after[..|before|] == before
      && forall j :: |before| <= j < |after| ==> Located(Seen(SessionOf(inputs), i), after[j])
  {
    assert (inputs + [i])[..|inputs|] == inputs;
    RunInSession(inputs, hypot);
    RunKeeps(inputs, hypot);
    hide Inv, InSession, Apply, Next, Located;
    SessionStep(Run(inputs, hypot), SessionOf(inputs), i, hypot);
  }

  // A gesture of one finger begins where that finger was put down, and is updated and ends
  // where it was last seen.
  lemma OneFingerReports(inputs: seq<Input>, i: Input, j: nat, hypot: (real, real) -> real)
    requires |Run(inputs, hypot).r.events| <= j < |Run(inputs + [i], hypot).r.events|
    requires Run(inputs + [i], hypot).r.events[j].fingers == 1
    ensures var e, s := Run(inputs + [i], hypot).r.events[j], Seen(SessionOf(inputs), i);
      && s.order != [] && s.order[0] in s.places
      && var p := s.places[s.order[0]];
        if e.kind == Begin || TwoFinger(e) then e.x == p.firstX && e.y == p.firstY
        else e.x == p.lastX && e.y == p.lastY
  {
    ReportsLocated(inputs, i, hypot);
    var e, s := Run(inputs + [i], hypot).r.events[j], Seen(SessionOf(inputs), i);
    hide Run, SessionOf, Seen, Measured;
    FirstKnown(s, 1);
    assert s.order[..1] == [s.order[0]];
    OneMean(s.order[0], FirstX(s));
    OneMean(s.order[0], FirstY(s));
    OneMean(s.order[0], LastX(s));
    OneMean(s.order[0], LastY(s));
    hide Mean;
  }

  lemma OneMean(id: int, f: map<int, real>)
    requires id in f
    ensures Mean([id], f) == f[id]
  {
    var ids := [id];
    assert ids[..0] == [];
    assert Total(ids[..0], f) == 0.0;
    assert Total(ids, f) == f[id];
    assert |ids| as real == 1.0;
  }

  // ---- Scroll or pinch -------------------------------------------------------------------

  // The distance, so scaled, that two-finger gestures are told apart by.
  ghost predicate Stretched(s: Session, n: nat, hypot: (real, real) -> real, stretch: real)
    requires n <= |s.order| && Ordered(s)
  {
    FirstKnown(s, n);
    var ids := Ids(s.order[..n]);
    exists fx, fy, lx, ly ::
      Apart(ids, FirstX(s), fx) && Apart(ids, FirstY(s), fy) && Apart(ids, LastX(s), lx) && Apart(ids, LastY(s), ly)
      && stretch == Abs(hypot(fx, fy) - hypot(lx, ly))
  }

  // A pinch when the outer fingers have spread or closed by more than the fingers have moved
  // together along either axis, else a scroll; begun and updated at once.
  ghost predicate Decided(s: Session, n: nat, before: seq<Event>, after: seq<Event>, stretch: real)
    requires 0 < n <= |s.order| && Ordered(s)
  {
    FirstKnown(s, n);
    var ids := s.order[..n];
    var g := if Abs(Mean(ids, LastX(s)) - Mean(ids, FirstX(s))) < stretch
                && Abs(Mean(ids, LastY(s)) - Mean(ids, FirstY(s))) < stretch
             then Pinch else TwoDrag;
    && |after| == |before| + 2
    && after[|before|].gesture == g && after[|before|].kind == Begin
    && after[|before| + 1].gesture == g && after[|before| + 1].kind == Update
  }

  lemma TimerStretch(t: map<int, Touch>, s: Session, hypot: (real, real) -> real) returns (stretch: real)
    requires Follows(t, s) && t != map[]
    ensures Ordered(s) && 0 < |t| <= |s.order| && Stretched(s, |t|, hypot, stretch)
    ensures stretch ==
      Abs(hypot(Spread(FirstXs(t)), Spread(FirstYs(t))) - hypot(Spread(LastXs(t)), Spread(LastYs(t))))
  {
    FollowedIds(t, s);
    FollowsOrdered(t, s);
    hide Follows, Ordered, Mean, Apart, Average, Spread, Abs, Coordinate, Ids, FirstX, FirstY, LastX, LastY;
    hide FirstXs, FirstYs, LastXs, LastYs;
    stretch := Abs(hypot(Spread(FirstXs(t)), Spread(FirstYs(t))) - hypot(Spread(LastXs(t)), Spread(LastYs(t))));
    Coordinates(t, s);
    SameMeasures(t, s, FirstXs(t), FirstX(s));
    SameMeasures(t, s, FirstYs(t), FirstY(s));
    SameMeasures(t, s, LastXs(t), LastX(s));
    SameMeasures(t, s, LastYs(t), LastY(s));
  }

  lemma TimerMeans(r: Recogniser, s: Session, hypot: (real, real) -> real, stretch: real)
    requires Follows(r.tracked, s) && r.tracked != map[] && Ordered(s) && 0 < |r.tracked| <= |s.order|
    requires var t := r.tracked;
      stretch == Abs(hypot(Spread(FirstXs(t)), Spread(FirstYs(t))) - hypot(Spread(LastXs(t)), Spread(LastYs(t))))
    ensures Decided(s, |r.tracked|, r.events, TwoTouchTimeout(r, hypot).events, stretch)
  {
    hide Follows, Ordered, Mean, Apart, Average, Spread, Abs, Coordinate, Ids, FirstX, FirstY, LastX, LastY;
    hide FirstXs, FirstYs, LastXs, LastYs, TwoTouchTimeout;
    var t := r.tracked;
    Coordinates(t, s);
    SameMeasures(t, s, FirstXs(t), FirstX(s));
    SameMeasures(t, s, FirstYs(t), FirstY(s));
    SameMeasures(t, s, LastXs(t), LastX(s));
    SameMeasures(t, s, LastYs(t), LastY(s));
    TimerPushes(r, hypot);
  }

  // What the two-touch timer decides, in every run.
  lemma TimerDecides(inputs: seq<Input>, hypot: (real, real) -> real) returns (stretch: real)
    requires Run(inputs, hypot).r.twoTouch
    ensures var r, s := Run(inputs, hypot).r, SessionOf(inputs);
      && Ordered(s) && 0 < |r.tracked| <= |s.order|
      && Stretched(s, |r.tracked|, hypot, stretch)
      && Decided(s, |r.tracked|, r.events, Run(inputs + [TwoTouchFires], hypot).r.events, stretch)
  {
    var r, s := Run(inputs, hypot).r, SessionOf(inputs);
    RunInSession(inputs, hypot);
    RunKeeps(inputs, hypot);
    assert Follows(r.tracked, s) && r.tracked != map[];
    hide Run, SessionOf, Inv, InSession, Follows, Stretched, Decided, Ordered, Spread, Abs, TwoTouchTimeout;
    stretch := TimerStretch(r.tracked, s, hypot);
    TimerMeans(r, s, hypot, stretch);
    TimerRun(inputs, hypot);
  }

  lemma FollowsOrdered(t: map<int, Touch>, s: Session)
    requires Follows(t, s)
    ensures Ordered(s) && |t| <= |s.order|
  {
  }

  lemma TimerRun(inputs: seq<Input>, hypot: (real, real) -> real)
    requires Run(inputs, hypot).r.twoTouch
    ensures Run(inputs + [TwoTouchFires], hypot).r == TwoTouchTimeout(Run(inputs, hypot).r, hypot)
  {
    assert (inputs + [TwoTouchFires])[..|inputs|] == inputs;
    hide TwoTouchTimeout;
  }

  lemma TimerPushes(r: Recogniser, hypot: (real, real) -> real)
    ensures var t, u := r.tracked, TwoTouchTimeout(r, hypot);
      var stretch := Abs(hypot(Spread(FirstXs(t)), Spread(FirstYs(t))) - hypot(Spread(LastXs(t)), Spread(LastYs(t))));
      var g := if Abs(Average(LastXs(t)) - Average(FirstXs(t))) < stretch
                  && Abs(Average(LastYs(t)) - Average(FirstYs(t))) < stretch then Pinch else TwoDrag;
      && |u.events| == |r.events| + 2
      && u.events[|r.events|].gesture == g && u.events[|r.events|].kind == Begin
      && u.events[|r.events| + 1].gesture == g && u.events[|r.events| + 1].kind == Update
  {
    hide EventX, EventY, MagnitudeX, MagnitudeY, Average, Spread, FirstXs, FirstYs, LastXs, LastYs, Known, Abs;
  }

  // When both fingers have moved far, the angle between their moves decides; until then the
  // timer runs.
  lemma AngleDecides(t: Recogniser, id: int, apart: bool, hypot: (real, real) -> real)
    requires id in t.tracked && |t.tracked| == 2
    requires t.state == TWOTAP | THREETAP | TWODRAG | PINCH || t.state == TWODRAG | PINCH
    ensures var other, v := Other(t.tracked, id), FarMove(t, id, apart, hypot);
      if hypot(other.firstX - other.lastX, other.firstY - other.lastY) > 50.0 then
        v.state == (if apart then PINCH else TWODRAG) && !v.twoTouch
      else
        v.state == TWODRAG | PINCH && v.twoTouch
  {
    hide Other;
  }
}
