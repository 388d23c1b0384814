// The numbering of monitors in the configuration.
module Monitors {
  datatype Screen = Screen(x: int, y: int, w: int, h: int)

  datatype Monitor = Monitor(screen: Screen, fltkIndex: nat)

  // ---- Mirrored screens ----

  // A screen that mirrors no earlier one.
  predicate First(screens: seq<Screen>, i: nat) {
    i < |screens| && screens[i] !in screens[..i]
  }

  function Survivors(screens: seq<Screen>): seq<Monitor> {
    if screens == [] then []
    else
      var n := |screens| - 1;
      Survivors(screens[..n]) + if First(screens, n) then [Monitor(screens[n], n)] else []
  }

  lemma {:induction false} SurvivorsAreFirst(screens: seq<Screen>, m: Monitor)
    ensures m in Survivors(screens) <==> First(screens, m.fltkIndex) && m.screen == screens[m.fltkIndex]
  {
    if screens != [] {
      var n := |screens| - 1;
      SurvivorsAreFirst(screens[..n], m);
      if m.fltkIndex < n {
        assert screens[..n][..m.fltkIndex] == screens[..m.fltkIndex];
      }
    }
  }

  // No screen is lost with its mirrors.
  lemma {:induction false} EveryScreenShown(screens: seq<Screen>, i: nat) returns (m: Monitor)
    requires i < |screens|
    ensures m in Survivors(screens) && m.screen == screens[i] && m.fltkIndex <= i
    decreases i
  {
    if First(screens, i) {
      m := Monitor(screens[i], i);
      SurvivorsAreFirst(screens, m);
    } else {
      var j :| 0 <= j < i && screens[..i][j] == screens[i];
      m := EveryScreenShown(screens, j);
    }
  }

  // ---- Order ----

  function Compare(a: Monitor, b: Monitor): int {
    if a.screen.x < b.screen.x then -1
    else if a.screen.x > b.screen.x then 1
    else if a.screen.y < b.screen.y then -1
    else if a.screen.y > b.screen.y then 1
    else 0
  }

  predicate Sorted(ms: seq<Monitor>) {
    forall i, j :: 0 <= i < j < |ms| ==> Compare(ms[i], ms[j]) <= 0
  }

  // Left to right, and top to bottom where left edges agree.
  lemma SortedIsLeftToRight(ms: seq<Monitor>)
    ensures Sorted(ms) <==> forall i, j :: 0 <= i < j < |ms| ==>
      var a, b := ms[i].screen, ms[j].screen; a.x < b.x || (a.x == b.x && a.y <= b.y)
  {
    if Sorted(ms) {
      forall i, j | 0 <= i < j < |ms|
        ensures var a, b := ms[i].screen, ms[j].screen; a.x < b.x || (a.x == b.x && a.y <= b.y)
      {
        assert Compare(ms[i], ms[j]) <= 0;
      }
    }
  }

  // What fetching may give: sorting says nothing of the order of ties.
  ghost predicate Fetched(screens: seq<Screen>, ms: seq<Monitor>) {
    multiset(ms) == multiset(Survivors(screens)) && Sorted(ms)
  }

  function Insert(m: Monitor, ms: seq<Monitor>): seq<Monitor> {
    if ms == [] || Compare(m, ms[0]) <= 0 then [m] + ms else [ms[0]] + Insert(m, ms[1..])
  }

  // One of the orders a sort may give.
  function Sort(ms: seq<Monitor>): seq<Monitor> {
    if ms == [] then [] else Insert(ms[0], Sort(ms[1..]))
  }

  lemma {:induction false} InsertAdds(m: Monitor, ms: seq<Monitor>)
    ensures multiset(Insert(m, ms)) == multiset(ms) + multiset{m}
  {
    hide Compare;
    if ms != [] && Compare(m, ms[0]) > 0 {
      assert ms == [ms[0]] + ms[1..];
      InsertAdds(m, ms[1..]);
    }
  }

  lemma CompareTransitive(a: Monitor, b: Monitor, c: Monitor)
    requires Compare(a, b) <= 0 && Compare(b, c) <= 0
    ensures Compare(a, c) <= 0
  {
  }

  lemma SortedPrepend(m: Monitor, ms: seq<Monitor>)
    requires Sorted(ms) && forall k :: 0 <= k < |ms| ==> Compare(m, ms[k]) <= 0
    ensures Sorted([m] + ms)
  {
  }

  lemma {:induction false} InsertSorted(m: Monitor, ms: seq<Monitor>)
    requires Sorted(ms)
    ensures Sorted(Insert(m, ms))
  {
    hide Sorted, Compare;
    if ms == [] {
      SortedPrepend(m, ms);
    } else if Compare(m, ms[0]) <= 0 {
      forall k | 0 <= k < |ms| ensures Compare(m, ms[k]) <= 0 {
        FirstLeast(ms, k);
        CompareTransitive(m, ms[0], ms[k]);
      }
      SortedPrepend(m, ms);
    } else {
      var rest := Insert(m, ms[1..]);
      SortedTail(ms);
      InsertSorted(m, ms[1..]);
      InsertAdds(m, ms[1..]);
      forall k | 0 <= k < |rest| ensures Compare(ms[0], rest[k]) <= 0 {
        assert rest[k] in multiset(rest);
        if rest[k] != m {
          var i :| 0 <= i < |ms[1..]| && ms[1..][i] == rest[k];
          FirstLeast(ms, i + 1);
        } else {
          CompareTotal(m, ms[0]);
        }
      }
      SortedPrepend(ms[0], rest);
    }
  }

  lemma CompareTotal(a: Monitor, b: Monitor)
    ensures Compare(a, b) == -Compare(b, a)
  {
  }

  lemma FirstLeast(ms: seq<Monitor>, k: nat)
    requires Sorted(ms) && k < |ms|
    ensures Compare(ms[0], ms[k]) <= 0
  {
  }

  lemma SortedTail(ms: seq<Monitor>)
    requires Sorted(ms) && ms != []
    ensures Sorted(ms[1..])
  {
  }

  lemma {:induction false} SortSorts(ms: seq<Monitor>)
    ensures multiset(Sort(ms)) == multiset(ms) && Sorted(Sort(ms))
  {
    if ms != [] {
      hide Sorted, Insert;
      SortSorts(ms[1..]);
      InsertAdds(ms[0], Sort(ms[1..]));
      InsertSorted(ms[0], Sort(ms[1..]));
      assert ms == [ms[0]] + ms[1..];
    }
  }

  method FetchMonitors(screens: seq<Screen>) returns (monitors: seq<Monitor>)
    ensures Fetched(screens, monitors)
  {
    monitors := [];
    for i := 0 to |screens|
      invariant monitors == Survivors(screens[..i])
    {
      var screen := screens[i];
      var mirrored := false;
      for j := 0 to |monitors|
        invariant !mirrored
        invariant forall k :: 0 <= k < j ==> monitors[k].screen != screen
      {
        if monitors[j].screen == screen {
          mirrored := true;
          break;
        }
      }
      assert screens[..i + 1][..i] == screens[..i];
      if mirrored {
        assert screen in screens[..i] by {
          var k :| 0 <= k < |monitors| && monitors[k].screen == screen;
          SurvivorsAreFirst(screens[..i], monitors[k]);
        }
        continue;
      }
      if screen in screens[..i] {
        var j :| 0 <= j < i && screens[..i][j] == screen;
        var m := EveryScreenShown(screens[..i], j);
        assert false;
      }
      monitors := monitors + [Monitor(screen, i)];
    }
    assert screens[..|screens|] == screens;
    SortSorts(monitors);
    monitors := Sort(monitors);
  }

  // ---- The configuration ----

  // The screens that a configuration of one-based positions names.
  function Chosen(config: seq<int>, ms: seq<Monitor>): set<int> {
    set i | 0 <= i < |ms| && i + 1 in config :: ms[i].fltkIndex
  }

  method GetMonitors(config: seq<int>, monitors: seq<Monitor>) returns (indices: set<int>)
    ensures indices == Chosen(config, monitors)
  {
    indices := {};
    if |monitors| == 0 {
      return;
    }
    for i := 0 to |monitors|
      invariant indices == Chosen(config, monitors[..i])
    {
      if i + 1 in config {
        indices := indices + {monitors[i].fltkIndex};
      }
      ChosenAppend(config, monitors[..i], monitors[i]);
      assert monitors[..i + 1] == monitors[..i] + [monitors[i]];
    }
    assert monitors[..|monitors|] == monitors;
  }

  lemma ChosenAppend(config: seq<int>, ms: seq<Monitor>, m: Monitor)
    ensures Chosen(config, ms + [m]) == Chosen(config, ms) + if |ms| + 1 in config then {m.fltkIndex} else {}
  {
    var all := ms + [m];
    forall x ensures x in Chosen(config, all) <==> x in Chosen(config, ms) || (|ms| + 1 in config && x == m.fltkIndex) {
      if x in Chosen(config, ms) {
        var i :| 0 <= i < |ms| && i + 1 in config && ms[i].fltkIndex == x;
        assert all[i].fltkIndex == x;
      }
      if |ms| + 1 in config && x == m.fltkIndex {
        assert all[|ms|].fltkIndex == x;
      }
    }
  }

  // The positions of the chosen screens, lowest first.
  function Positions(indices: set<int>, ms: seq<Monitor>): (r: seq<int>)
    ensures forall p :: p in r <==> 1 <= p <= |ms| && ms[p - 1].fltkIndex in indices
    ensures forall i, j :: 0 <= i < j < |r| ==> r[i] < r[j]
  {
    if ms == [] then []
    else
      var n := |ms| - 1;
      var before := Positions(indices, ms[..n]);
      assert forall i :: 0 <= i < |before| ==> before[i] in before;
      before + if ms[n].fltkIndex in indices then [n + 1] else []
  }

  method SetMonitors(indices: set<int>, monitors: seq<Monitor>) returns (config: seq<int>)
    ensures config == Positions(indices, monitors)
  {
    config := [];
    for i := 0 to |monitors|
      invariant config == Positions(indices, monitors[..i])
    {
      assert monitors[..i + 1][..i] == monitors[..i];
      if monitors[i].fltkIndex in indices {
        config := config + [i + 1];
      }
    }
    assert monitors[..|monitors|] == monitors;
  }

  ghost function FirstsIn(screens: seq<Screen>, indices: set<int>): set<int> {
    set i | i in indices && i >= 0 && First(screens, i)
  }

  lemma FetchedHas(screens: seq<Screen>, ms: seq<Monitor>, m: Monitor)
    requires Fetched(screens, ms)
    ensures m in ms <==> First(screens, m.fltkIndex) && m.screen == screens[m.fltkIndex]
  {
    SurvivorsAreFirst(screens, m);
    assert m in ms <==> m in multiset(ms);
    assert m in Survivors(screens) <==> m in multiset(Survivors(screens));
  }

  // What was stored comes back: the members that mirror no earlier screen.
  lemma SetThenGet(screens: seq<Screen>, ms: seq<Monitor>, indices: set<int>)
    requires Fetched(screens, ms)
    ensures Chosen(Positions(indices, ms), ms) == FirstsIn(screens, indices)
  {
    var back := Chosen(Positions(indices, ms), ms);
    forall x ensures x in back <==> x in FirstsIn(screens, indices) {
      if x in back {
        var i :| 0 <= i < |ms| && i + 1 in Positions(indices, ms) && ms[i].fltkIndex == x;
        FetchedHas(screens, ms, ms[i]);
      }
      if x in FirstsIn(screens, indices) {
        var m := Monitor(screens[x], x);
        FetchedHas(screens, ms, m);
        var i :| 0 <= i < |ms| && ms[i] == m;
        assert i + 1 in Positions(indices, ms);
      }
    }
  }

  // ---- Two fetches ----

  // Storing with one order and reading with another gives every choice back exactly when
  // the orders are the same.
  lemma RoundTripIff(screens: seq<Screen>, ms: seq<Monitor>, later: seq<Monitor>)
    requires Fetched(screens, ms) && Fetched(screens, later)
    ensures (forall indices :: Chosen(Positions(indices, ms), later) == FirstsIn(screens, indices)) <==> ms == later
  {
    if ms == later {
      forall indices ensures Chosen(Positions(indices, ms), later) == FirstsIn(screens, indices) {
        SetThenGet(screens, ms, indices);
      }
    } else {
      assert |ms| == |multiset(ms)| == |multiset(later)| == |later|;
      var i :| 0 <= i < |ms| && ms[i] != later[i];
      var x := ms[i].fltkIndex;
      FetchedHas(screens, ms, ms[i]);
      FetchedHas(screens, later, later[i]);
      assert i + 1 in Positions({x}, ms);
      assert later[i].fltkIndex in Chosen(Positions({x}, ms), later);
      assert later[i].fltkIndex !in FirstsIn(screens, {x});
    }
  }

  const CORNER: seq<Screen> := [Screen(0, 0, 10, 10), Screen(0, 0, 20, 20)]

  lemma CornerSurvivors()
    ensures Survivors(CORNER) == [Monitor(CORNER[0], 0), Monitor(CORNER[1], 1)]
  {
    assert CORNER[..1] == [CORNER[0]] && CORNER[..1][..0] == [];
    assert Survivors(CORNER[..1]) == [Monitor(CORNER[0], 0)];
  }

  // It happens when monitors share a corner: screen 0 is stored and screen 1 comes back.
  lemma SharedCorner() returns (ms: seq<Monitor>, later: seq<Monitor>)
    ensures Fetched(CORNER, ms) && Fetched(CORNER, later)
    ensures FirstsIn(CORNER, {0}) == {0} && Chosen(Positions({0}, ms), later) == {1}
  {
    hide Survivors, Positions;
    var a, b := Monitor(CORNER[0], 0), Monitor(CORNER[1], 1);
    ms, later := [a, b], [b, a];
    CornerSurvivors();
    assert multiset(later) == multiset(ms);
    assert forall p :: p in Positions({0}, ms) <==> p == 1;
    assert later[0].fltkIndex == 1;
    assert First(CORNER, 0);
  }

  // When no two monitors share a corner there is only one order, so any two fetches agree.
  lemma {:induction false} OneOrder(ms: seq<Monitor>, later: seq<Monitor>)
    requires Sorted(ms) && Sorted(later) && multiset(ms) == multiset(later)
    requires forall i, j :: 0 <= i < j < |ms| ==> Compare(ms[i], ms[j]) != 0
    ensures ms == later
  {
    hide Sorted, Compare;
    assert |ms| == |multiset(ms)| == |multiset(later)| == |later|;
    if ms != [] {
      SameLeast(ms, later);
      SortedTail(ms);
      SortedTail(later);
      TailMultiset(ms);
      TailMultiset(later);
      var rest := ms[1..];
      forall i, j | 0 <= i < j < |rest| ensures Compare(rest[i], rest[j]) != 0 {
        assert rest[i] == ms[i + 1] && rest[j] == ms[j + 1];
      }
      OneOrder(rest, later[1..]);
    }
  }

  lemma TailMultiset(ms: seq<Monitor>)
    requires ms != []
    ensures multiset(ms[1..]) == multiset(ms) - multiset{ms[0]}
    ensures ms == [ms[0]] + ms[1..] && |ms| == |multiset(ms)|
  {
    assert ms == [ms[0]] + ms[1..];
  }

  lemma SameLeast(ms: seq<Monitor>, later: seq<Monitor>)
    requires Sorted(ms) && Sorted(later) && multiset(ms) == multiset(later) && ms != [] && later != []
    requires forall i, j :: 0 <= i < j < |ms| ==> Compare(ms[i], ms[j]) != 0
    ensures ms[0] == later[0]
  {
    hide Sorted, Compare;
    assert ms[0] in multiset(later) && later[0] in multiset(ms);
    var i :| 0 <= i < |ms| && ms[i] == later[0];
    var j :| 0 <= j < |later| && later[j] == ms[0];
    FirstLeast(ms, i);
    FirstLeast(later, j);
    CompareTotal(ms[0], ms[i]);
  }

  // ---- The screens decide ----

  // No two survivors share a corner.
  ghost predicate DistinctCorners(screens: seq<Screen>) {
    forall i, j :: 0 <= i < j < |Survivors(screens)| ==> Compare(Survivors(screens)[i], Survivors(screens)[j]) != 0
  }

  // Every choice that is stored comes back, whatever order each fetch gives.
  ghost predicate AlwaysComesBack(screens: seq<Screen>) {
    forall ms, later, indices :: Fetched(screens, ms) && Fetched(screens, later) ==>
      Chosen(Positions(indices, ms), later) == FirstsIn(screens, indices)
  }

  lemma {:induction false} SurvivorsInOrder(screens: seq<Screen>, i: nat, j: nat)
    requires i < j < |Survivors(screens)|
    ensures Survivors(screens)[i].fltkIndex < Survivors(screens)[j].fltkIndex
  {
    var n := |screens| - 1;
    var before := Survivors(screens[..n]);
    if j < |before| {
      SurvivorsInOrder(screens[..n], i, j);
    } else {
      SurvivorsAreFirst(screens[..n], before[i]);
    }
  }

  lemma Twice(s: seq<Monitor>, i: nat, j: nat)
    requires i < j < |s| && s[i] == s[j]
    ensures multiset(s)[s[i]] > 1
  {
    assert s == s[..i] + [s[i]] + s[i + 1..j] + [s[j]] + s[j + 1..];
  }

  lemma {:induction false} OccursTwice(s: seq<Monitor>, m: Monitor) returns (i: nat, j: nat)
    requires multiset(s)[m] > 1
    ensures i < j < |s| && s[i] == s[j] == m
  {
    assert s == [s[0]] + s[1..];
    if s[0] == m {
      assert m in multiset(s[1..]);
      var k :| 0 <= k < |s[1..]| && s[1..][k] == m;
      i, j := 0, k + 1;
    } else {
      i, j := OccursTwice(s[1..], m);
      i, j := i + 1, j + 1;
    }
  }

  lemma NoTwice(screens: seq<Screen>, m: Monitor)
    requires DistinctCorners(screens)
    ensures multiset(Survivors(screens))[m] <= 1
  {
    hide Survivors, Compare;
    var s := Survivors(screens);
    if multiset(s)[m] > 1 {
      var i, j := OccursTwice(s, m);
      CompareTotal(s[i], s[j]);
    }
  }

  // Two places of a fetch at one corner come from two survivors at one corner.
  lemma FetchedCorners(screens: seq<Screen>, ms: seq<Monitor>, i: nat, j: nat)
    requires Fetched(screens, ms) && DistinctCorners(screens) && i < j < |ms|
    ensures Compare(ms[i], ms[j]) != 0
  {
    hide Compare, Survivors, Sorted;
    var s := Survivors(screens);
    assert ms[i] in multiset(ms) && ms[j] in multiset(ms);
    assert ms[i] in multiset(s) && ms[j] in multiset(s);
    var p :| 0 <= p < |s| && s[p] == ms[i];
    var q :| 0 <= q < |s| && s[q] == ms[j];
    CompareTotal(ms[i], ms[j]);
    NoTwice(screens, ms[i]);
    if ms[i] == ms[j] {
      Twice(ms, i, j);
    }
  }

  lemma DistinctComesBack(screens: seq<Screen>)
    requires DistinctCorners(screens)
    ensures AlwaysComesBack(screens)
  {
    forall ms, later, indices | Fetched(screens, ms) && Fetched(screens, later)
      ensures Chosen(Positions(indices, ms), later) == FirstsIn(screens, indices)
    {
      forall i, j | 0 <= i < j < |ms| ensures Compare(ms[i], ms[j]) != 0 {
        FetchedCorners(screens, ms, i, j);
      }
      OneOrder(ms, later);
      SetThenGet(screens, ms, indices);
    }
  }

  function Swapped(ms: seq<Monitor>, i: nat, j: nat): seq<Monitor>
    requires i < |ms| && j < |ms|
  {
    ms[i := ms[j]][j := ms[i]]
  }

  lemma SwappedMultiset(ms: seq<Monitor>, i: nat, j: nat)
    requires i < |ms| && j < |ms| && i != j
    ensures multiset(Swapped(ms, i, j)) == multiset(ms)
  {
  }

  // Monitors of one corner may change places.
  lemma SwappedSorted(ms: seq<Monitor>, i: nat, j: nat)
    requires Sorted(ms) && i < |ms| && j < |ms| && Compare(ms[i], ms[j]) == 0
    ensures Sorted(Swapped(ms, i, j))
  {
    var t := Swapped(ms, i, j);
    assert forall k :: 0 <= k < |ms| ==> t[k].screen.x == ms[k].screen.x && t[k].screen.y == ms[k].screen.y;
  }

  lemma SharedLosesOne(screens: seq<Screen>, i: nat, j: nat)
    requires i < j < |Survivors(screens)| && Compare(Survivors(screens)[i], Survivors(screens)[j]) == 0
    ensures !AlwaysComesBack(screens)
  {
    hide Compare, Sorted, Survivors, Chosen, Positions, FirstsIn, AlwaysComesBack;
    var s := Survivors(screens);
    SurvivorsInOrder(screens, i, j);
    SortSorts(s);
    var ms := Sort(s);
    assert s[i] in multiset(s) && s[j] in multiset(s);
    assert s[i] in multiset(ms) && s[j] in multiset(ms);
    var p :| 0 <= p < |ms| && ms[p] == s[i];
    var q :| 0 <= q < |ms| && ms[q] == s[j];
    var later := Swapped(ms, p, q);
    SwappedMultiset(ms, p, q);
    SwappedSorted(ms, p, q);
    assert later[q] != ms[q];
    RoundTripIff(screens, ms, later);
    if AlwaysComesBack(screens) {
      forall indices ensures Chosen(Positions(indices, ms), later) == FirstsIn(screens, indices) {
        ComesBack(screens, ms, later, indices);
      }
    }
  }

  lemma ComesBack(screens: seq<Screen>, ms: seq<Monitor>, later: seq<Monitor>, indices: set<int>)
    requires AlwaysComesBack(screens) && Fetched(screens, ms) && Fetched(screens, later)
    ensures Chosen(Positions(indices, ms), later) == FirstsIn(screens, indices)
  {
  }

  // Every stored choice survives every pair of fetches exactly when no two of the screens
  // shown share a corner.
  lemma ComesBackIff(screens: seq<Screen>)
    ensures AlwaysComesBack(screens) <==> DistinctCorners(screens)
  {
    hide AlwaysComesBack, Survivors, Compare;
    if DistinctCorners(screens) {
      DistinctComesBack(screens);
    } else {
      var i, j :| 0 <= i < j < |Survivors(screens)|
        && Compare(Survivors(screens)[i], Survivors(screens)[j]) == 0;
      SharedLosesOne(screens, i, j);
    }
  }
}
