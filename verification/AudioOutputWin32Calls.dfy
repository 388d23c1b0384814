// What one call of submit() gets done, whatever the other threads do meanwhile.
module AudioOutputWin32Calls {
  import opened Optional
  import opened AudioOutput
  import opened AudioRing
  import opened AudioOutputWin32
  import opened AudioOutputWin32Theorems

  // A node is needed, and neither the spare list nor the allocator has one.
  predicate NoNode(s: State, e: Event) {
    && e.Main? && s.pc.Writing? && s.ring.pend > 0 && s.pc.spare.None?
    && (e.block.None? || e.block.value in s.heap)
  }

  // The system refuses what the main thread asks: a node, a prepared header or a write.
  predicate Refuses(s: State, e: Event) {
    NoNode(s, e) || (e.Main? && !e.ok && (s.pc.Got? || s.pc.Counted?))
  }

  predicate InSubmit(pc: MainPc) { !pc.Idle? && !pc.Filling? }

  // The main thread is in submit() before each of these events.
  ghost predicate Submits(s: State, es: seq<Event>)
    requires Valid(s)
    decreases |es|
  {
    es != [] ==> InSubmit(s.pc) && Submits(Apply(s, es[0]), es[1..])
  }

  // One of them met a refusal.
  ghost predicate Refused(s: State, es: seq<Event>)
    requires Valid(s)
    decreases |es|
  {
    es != [] && (Refuses(s, es[0]) || Refused(Apply(s, es[0]), es[1..]))
  }

  // Past its write loop, submit() leaves bytes pending exactly when it was refused.
  predicate Ends(s: State, refused: bool) {
    if refused then (s.pc.Refused? || s.pc.Freeing? || s.pc.Idle?) && s.ring.pend > 0
    else !s.pc.Filling? && !s.pc.Refused? && (s.pc.Freeing? || s.pc.Idle? ==> s.ring.pend == 0)
  }

  lemma EndsMain(s: State, e: Event, refused: bool)
    requires Valid(s) && Ends(s, refused) && InSubmit(s.pc) && e.Main?
    requires s.pc.Got? || s.pc.Counted? ==> 0 < s.pc.len
    ensures Ends(Apply(s, e), refused || Refuses(s, e))
  {
    hide Put, Room, Delay;
  }

  lemma EndsOthers(s: State, e: Event, refused: bool)
    requires Valid(s) && Ends(s, refused) && InSubmit(s.pc) && !e.Main?
    ensures Ends(Apply(s, e), refused) && !Refuses(s, e)
  {
    hide Valid, MainStep, Slice, SetNext;
  }

  lemma LengthPositive(s: State)
    requires Reachable(s) && (s.pc.Got? || s.pc.Counted?)
    ensures 0 < s.pc.len
  {
    ReachableInv(s);
  }

  lemma {:induction false} SubmitEnds(s: State, es: seq<Event>, refused: bool)
    requires Reachable(s) && Valid(s) && Submits(s, es) && Ends(s, refused)
    ensures Reachable(After(s, es)) && Ends(After(s, es), refused || Refused(s, es))
    decreases |es|
  {
    if es != [] {
      hide Ends, Refuses, Apply, Reachable, Valid;
      var e := es[0];
      ReachableNext(s, e);
      if e.Main? {
        if s.pc.Got? || s.pc.Counted? { LengthPositive(s); }
        EndsMain(s, e, refused);
      } else {
        EndsOthers(s, e, refused);
      }
      SubmitEnds(Apply(s, e), es[1..], refused || Refuses(s, e));
    }
  }

  // From where submit() begins to where it returns: it leaves bytes pending exactly when the
  // system refused a node, a header or a write.
  lemma PendingIffRefused(s: State, es: seq<Event>)
    requires Reachable(s) && Valid(s) && s.pc.Exchange? && Submits(s, es) && After(s, es).pc.Idle?
    ensures After(s, es).ring.pend > 0 <==> Refused(s, es)
  {
    SubmitEnds(s, es, false);
  }

  // Without a refusal, all that was ever taken in has been played or is the device's.
  lemma AllHandedOver(s: State, es: seq<Event>)
    requires Reachable(s) && Valid(s) && s.pc.Exchange? && Submits(s, es) && After(s, es).pc.Idle?
    requires !Refused(s, es)
    ensures var r := After(s, es); r.ring.pend == 0 && r.ring.played + Owned(r, r.device) == r.ring.accepted
  {
    SubmitEnds(s, es, false);
    var r := After(s, es);
    BytesConserved(r);
    assert Pending(r.ring)[0..] == [];
  }

  // start() begins a new stream, whose buffers are told apart from those before; nothing else
  // does.
  lemma StreamStarts(s: State, e: Event)
    requires Valid(s)
    ensures Apply(s, e).stream == if e.Start? && s.pc.Idle? then s.stream + 1 else s.stream
  {
    hide Valid, Put, Room, Delay, Reclaim, Post, Submit, SilenceBytes;
  }
}
