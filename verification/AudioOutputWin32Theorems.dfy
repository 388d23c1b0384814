// The promises of the Windows audio output, for every interleaving of the main
// thread, the device and its callbacks.
module AudioOutputWin32Theorems {
  import opened Optional
  import opened Bits
  import opened AudioOutput
  import opened AudioRing
  import opened AudioOutputWin32
  import opened AudioOutputWin32Safety

  // What the device would read out of the ring now, for the headers it still has.
  function Owned(s: State, device: seq<NodeId>): seq<Byte> {
    if device == [] then []
    else
      var node := Deref(s.heap, device[0]);
      Slice(s.ring.mem, node.off, node.len) + Owned(s, device[1..])
  }

  // What is in the ring but not yet submitted.
  function Pending(r: Ring): seq<Byte>
    requires AudioRing.Wf(r)
  {
    seq(r.pend, (i: nat) => r.mem[Slot(r.writtenHead + i, |r.mem|)])
  }

  // Bytes of a write that has succeeded, until the written head has moved past them.
  function Moving(pc: MainPc): nat {
    if pc.Written? then pc.len else 0
  }

  lemma PendingIsAccepted(r: Ring, k: nat)
    requires RingInv(r) && r.posted + k >= ReadFrom(r) && k <= r.pend
    ensures Pending(r)[k..] == r.accepted[r.posted + k..]
  {
    hide Slot, Held, Stream;
    forall i | k <= i < r.pend
      ensures Pending(r)[i] == r.accepted[r.posted + i]
    {
      SlotStep(r.posted, i, |r.mem|);
      assert r.mem[Slot(r.posted + i, |r.mem|)] == r.accepted[r.posted + i];
    }
  }

  lemma {:induction false} ReadFromBelow(r: Ring, k: nat)
    requires Accounts(r) && Heads(r) && r.finished <= k <= |r.subs|
    ensures ReadFrom(r) <= StartAt(r.subs, k)
    decreases k
  {
    if k > r.finished {
      ReadFromBelow(r, k - 1);
    }
  }

  // A submission the device is not done with is still in the ring, byte for byte.
  lemma SubInRing(r: Ring, k: nat)
    requires RingInv(r) && r.finished <= k < |r.subs|
    ensures var sub := r.subs[k];
      && ReadFrom(r) <= sub.start && StartAt(r.subs, k + 1) == sub.start + sub.len <= |r.accepted|
      && Slot(sub.start, |r.mem|) + sub.len <= |r.mem|
      && Slice(r.mem, Slot(sub.start, |r.mem|), sub.len) == r.accepted[sub.start..sub.start + sub.len]
  {
    ReadFromBelow(r, k);
    HeldCovers(r.subs, |r.mem|, k + 1);
    SliceIsStream(r, r.subs[k].start, r.subs[k].len);
  }

  lemma OwnedSub(s: State, i: nat)
    requires Holders(s) && Queue(s) && i < |s.device|
    ensures var sub, node := s.ring.subs[s.ring.finished + i], Deref(s.heap, s.device[i]);
      node.off == Slot(sub.start, |s.ring.mem|) && node.len == sub.len
  {
    assert s.heap[s.device[i]].serial == s.ring.finished + i;
  }

  lemma EndBounded(r: Ring)
    requires RingInv(r)
    ensures End(r.subs) <= |r.accepted|
    ensures ReadFrom(r) <= End(r.subs)
  {
    ReadFromBelow(r, |r.subs|);
  }

  lemma {:induction false} OwnedIsAccepted(s: State, i: nat)
    requires RingInv(s.ring) && Holders(s) && Queue(s) && i <= |s.device|
    ensures StartAt(s.ring.subs, s.ring.finished + i) <= End(s.ring.subs) <= |s.ring.accepted|
    ensures Owned(s, s.device[i..]) == s.ring.accepted[StartAt(s.ring.subs, s.ring.finished + i)..End(s.ring.subs)]
    decreases |s.device| - i
  {
    hide RingInv, Holders, Slice, Slot, End;
    EndBounded(s.ring);
    assert |s.device| + s.ring.finished == |s.ring.subs|;
    if i < |s.device| {
      OwnedIsAccepted(s, i + 1);
      OwnedSub(s, i);
      SubInRing(s.ring, s.ring.finished + i);
      hide Queue;
      var sub, a := s.ring.subs[s.ring.finished + i], s.ring.accepted;
      assert s.device[i..][1..] == s.device[i + 1..];
      var next := sub.start + sub.len;
      assert a[sub.start..next] + a[next..End(s.ring.subs)] == a[sub.start..End(s.ring.subs)];
    }
  }

  lemma PlayedIsAccepted(r: Ring)
    requires RingInv(r)
    ensures AudioRing.Wf(r) && ReadFrom(r) <= |r.accepted| && r.played == r.accepted[..ReadFrom(r)]
  {
  }

  // ----- Reachable states -------------------------------------------------------

  ghost predicate Reachable(s: State) {
    exists k: nat, es: seq<Event> :: s == Run(Init(k), es)
  }

  lemma ReachableInv(s: State)
    requires Reachable(s)
    ensures Inv(s)
  {
    var k: nat, es: seq<Event> :| s == Run(Init(k), es);
    RunKeeps(k, es);
  }

  lemma ReachableNext(s: State, e: Event)
    requires Reachable(s) && Valid(s)
    ensures Reachable(Apply(s, e))
  {
    var k: nat, es: seq<Event> :| s == Run(Init(k), es);
    assert (es + [e])[..|es|] == es;
    assert Apply(s, e) == Run(Init(k), es + [e]);
  }

  // No byte is lost, repeated or reordered: what was played, what the device still
  // has and what waits in the ring are together what was taken in. Between a write and
  // the move of the written head, the first of the waiting bytes are the device's too.
  lemma BytesConserved(s: State)
    requires Reachable(s)
    ensures AudioRing.Wf(s.ring) && Moving(s.pc) <= s.ring.pend
    ensures s.ring.played + Owned(s, s.device) + Pending(s.ring)[Moving(s.pc)..] == s.ring.accepted
  {
    hide RingInv, Placed, Linked, Holders, Kept, CountInv, Owned, Pending, Slot, End;
    ReachableInv(s);
    EndBounded(s.ring);
    OwnedIsAccepted(s, 0);
    PendingIsAccepted(s.ring, Moving(s.pc));
    PlayedIsAccepted(s.ring);
    assert s.device[0..] == s.device;
    var a, p, q := s.ring.accepted, ReadFrom(s.ring), End(s.ring.subs);
    assert a == a[..p] + a[p..q] + a[q..];
  }

  // No step of any thread changes a byte of a buffer the device is not done with.
  lemma OwnedUntouched(s: State, e: Event, i: nat, j: nat)
    requires Reachable(s) && i < |s.device|
    requires var node := Deref(s.heap, s.device[i]); node.off <= j < node.off + node.len
    ensures Valid(s)
    ensures j < |s.ring.mem| == |Apply(s, e).ring.mem| && Apply(s, e).ring.mem[j] == s.ring.mem[j]
  {
    hide RingInv, Placed, Linked, Kept, CountInv, PcInv;
    ReachableInv(s);
    OwnedSub(s, i);
    SubInRing(s.ring, s.ring.finished + i);
    SubUntouched(s.ring, s.ring.finished + i, j);
    hide Inv, RingInv, Slice, Slot, Deref, Queue, Holders, Room, MainStep;
    if e.Main? {
      MainWrites(s, e.now, e.block, e.ok);
    }
  }

  // Wherever the next bytes go, it is not into a submission the device is not done with.
  lemma SubUntouched(r: Ring, k: nat, j: nat)
    requires RingInv(r) && r.finished <= k < |r.subs|
    requires Slot(r.subs[k].start, |r.mem|) <= j < Slot(r.subs[k].start, |r.mem|) + r.subs[k].len
    ensures forall n: nat :: n <= Room(r, n) ==> !(r.pendingHead <= j < r.pendingHead + n)
  {
    SubInRing(r, k);
    var at := j - Slot(r.subs[k].start, |r.mem|);
    SlotStep(r.subs[k].start, at, |r.mem|);
    forall n: nat | n <= Room(r, n)
      ensures !(r.pendingHead <= j < r.pendingHead + n)
    {
      PutClear(r, n, r.subs[k].start + at);
    }
  }

  // The main thread writes ring bytes only where Room() says they fit.
  lemma MainWrites(s: State, now: nat, block: Option<NodeId>, ok: bool)
    requires Valid(s)
    ensures var r := MainStep(s, now, block, ok);
      && |r.ring.mem| == |s.ring.mem|
      && exists n: nat :: n <= Room(s.ring, n) &&
           forall j :: 0 <= j < |s.ring.mem| && !(s.ring.pendingHead <= j < s.ring.pendingHead + n) ==>
             r.ring.mem[j] == s.ring.mem[j]
  {
    var n := if s.pc.Filling? then Room(s.ring, |s.pc.rest|) else 0;
    assert n <= Room(s.ring, n);
  }

  // Free, pending and handed out make up the whole ring; only the bytes of a write that the
  // written head has not moved past yet count twice.
  lemma SpaceConserved(s: State)
    requires Reachable(s)
    ensures s.ring.free + s.ring.pend + Held(s.ring.subs) == |s.ring.mem| + Moving(s.pc)
  {
    ReachableInv(s);
  }

  // Once every buffer has come back nothing is handed out: no space leaks.
  lemma SpaceComesBack(s: State)
    requires Reachable(s) && s.pc.Idle?
    requires s.device == [] && s.entered == {} && s.pushing == map[] && s.done == []
    ensures s.ring.free + s.ring.pend == |s.ring.mem|
  {
    ReachableInv(s);
    forall i | 0 <= i < |s.ring.subs|
      ensures s.ring.subs[i].drained
    {
      UndrainedIsLive(s, i);
    }
    NoneHeld(s.ring.subs);
  }

  lemma UndrainedIsLive(s: State, i: nat)
    requires Holders(s) && Kept(s) && i < |s.ring.subs|
    ensures s.ring.subs[i].drained || exists n :: n in s.heap && Live(s, n)
  {
    if !s.ring.subs[i].drained {
      assert HasHolder(s.heap, i);
    }
  }

  lemma {:induction false} NoneHeld(subs: seq<Sub>)
    requires forall i :: 0 <= i < |subs| ==> subs[i].drained
    ensures Held(subs) == 0
  {
    if subs != [] {
      NoneHeld(subs[..|subs| - 1]);
    }
  }

  // Every allocated node is in exactly one of the device, a callback before or after
  // its decrement, the done list, the spare list or the main thread's hand, and no
  // freed node is anywhere; both lists link exactly the nodes they should; and the
  // counter is the headers counted for a write less those called back or refused.
  lemma NodesAccounted(s: State, n: NodeId)
    requires Reachable(s)
    ensures Places(s, n) == One(n in s.heap)
    ensures Chain(s.heap, s.doneHead, s.done) && Distinct(s.done)
    ensures Chain(s.heap, SpareHead(s.pc), s.spares) && Distinct(s.spares)
    ensures s.inFlight == |s.device| + |s.entered| + One(s.pc.Counted? || s.pc.Refused?)
  {
    ReachableInv(s);
  }

  // A callback marks its buffer as starving the device exactly when the device has none, no
  // other callback is before its decrement and none is being written; and with the time.
  lemma StarvedIffDry(s: State, n: NodeId, now: nat)
    requires Reachable(s) && Valid(s) && n in s.entered && !Deref(s.heap, n).starved
    ensures var node := Deref(CallbackStep(s, n, now).heap, n);
      && (node.starved <==> s.device == [] && s.entered == {n} && !s.pc.Counted? && !s.pc.Refused?)
      && (node.starved ==> node.starvedAt == now)
  {
    ReachableInv(s);
    assert s.entered == (s.entered - {n}) + {n};
    assert |s.entered - {n}| == |s.entered| - 1;
    if |s.entered| == 1 { assert s.entered - {n} == {}; }
  }

  // A node is handed out unmarked, with the stream of its time.
  lemma TakenAfresh(s: State, now: nat, block: Option<NodeId>, ok: bool)
    requires Valid(s) && s.pc.Writing? && MainStep(s, now, block, ok).pc.Got?
    ensures var r := MainStep(s, now, block, ok);
      var node := Deref(r.heap, r.pc.node); !node.starved && node.stream == s.stream
  {
    hide Valid;
  }

  // Taking back a starved buffer of the stream makes the delay cover the gap it left, up to
  // the limit, and no more than a millisecond beyond it unless it was longer already. Any
  // other step leaves the delay alone.
  lemma DelayCoversGap(s: State, now: nat, block: Option<NodeId>, ok: bool)
    requires Valid(s)
    ensures var d := MainStep(s, now, block, ok).extraDelay;
      if s.pc.Draining? && s.pc.buf.Some? && Starves(s, Deref(s.heap, s.pc.buf.value), now) then
        var gap := now - Deref(s.heap, s.pc.buf.value).starvedAt;
        && (10000 * d >= gap || d >= MAX_JITTER_MS)
        && (d == s.extraDelay || (10000 * (d - 1) < gap && d <= MAX_JITTER_MS)) && d >= s.extraDelay
      else d == s.extraDelay
  {
    hide Valid, Room, Put, Post, Reclaim, Submit;
    if s.pc.Draining? && s.pc.buf.Some? && Starves(s, Deref(s.heap, s.pc.buf.value), now) {
      var gap := now - Deref(s.heap, s.pc.buf.value).starvedAt;
      assert 10000 * ((gap + 9999) / 10000) >= gap;
    }
  }

  predicate Starves(s: State, node: Node, now: nat) {
    node.starved && node.stream == s.stream && node.starvedAt < now
  }

  // The silence lasts the minimum and the extra delay, to the byte.
  lemma SilenceLasts(delay: nat)
    ensures 1000 * SilenceBytes(delay) == (MIN_STREAM_DELAY_MS + delay) * FREQUENCY * SAMPLE_SIZE
  {
  }

  lemma DelayGrows(s: State, e: Event)
    requires Valid(s)
    ensures s.extraDelay <= Apply(s, e).extraDelay
  {
    hide Put, Post, Reclaim, Submit, Delay;
  }

  // The delay learnt from starvation never shrinks and never passes the limit.
  lemma DelayBounded(s: State, e: Event)
    requires Reachable(s) && Valid(s)
    ensures s.extraDelay <= Apply(s, e).extraDelay <= MAX_JITTER_MS
  {
    hide Placed, Linked, Holders, Queue, Kept, RingInv, CountInv;
    ReachableInv(s);
    DelayGrows(s, e);
    InvKeeps(s, e);
  }

  lemma SizeKept(s: State, e: Event)
    requires Valid(s)
    ensures |Apply(s, e).ring.mem| == |s.ring.mem|
  {
    if e.Main? {
      hide MainStep;
      MainWrites(s, e.now, e.block, e.ok);
    }
  }

  lemma {:induction false} RunSize(k: nat, es: seq<Event>)
    ensures |Run(Init(k), es).ring.mem| == Pow2(k)
    decreases |es|
  {
    if es != [] {
      hide Apply;
      RunSize(k, es[..|es| - 1]);
      SizeKept(Run(Init(k), es[..|es| - 1]), es[|es| - 1]);
    }
  }

  // The size in bytes that open() rounds up to a power of two.
  const WANTED: nat := 4 * MAX_JITTER_MS * FREQUENCY / 1000 * SAMPLE_SIZE

  // So the silence before a stream always fits the buffer that open() allocates.
  lemma SilenceFits(k: nat, es: seq<Event>)
    requires Pow2(k) >= WANTED
    ensures SilenceBytes(Run(Init(k), es).extraDelay) <= |Run(Init(k), es).ring.mem|
  {
    hide Run;
    RunKeeps(k, es);
    RunSize(k, es);
    hide RingInv, Placed, Linked, Holders, Queue, Kept, CountInv;
  }

  // ----- What a call takes in -------------------------------------------------------

  // What has been taken in once the filling that is under way is done.
  function WillAccept(s: State): seq<Byte> {
    s.ring.accepted + if s.pc.Filling? then s.pc.rest[..Min(|s.pc.rest|, s.ring.free)] else []
  }

  // No event of any thread changes that while the main thread fills.
  lemma FillingKeeps(s: State, e: Event)
    requires Valid(s) && s.pc.Filling?
    ensures WillAccept(Apply(s, e)) == WillAccept(s)
    ensures Apply(s, e).pc.Filling? || Apply(s, e).pc.Exchange?
  {
    if e.Main? {
      hide Overwrite, Slot, Drain, Take, GiveBack, HandOver;
      var rest, free := s.pc.rest, s.ring.free;
      var chunk := Room(s.ring, |rest|);
      var n := Min(|rest|, free);
      assert chunk <= n && (chunk == 0 ==> n == 0);
      assert rest[..chunk] + rest[chunk..][..n - chunk] == rest[..n];
      assert s.ring.accepted + (rest[..chunk] + rest[chunk..][..n - chunk])
        == (s.ring.accepted + rest[..chunk]) + rest[chunk..][..n - chunk];
    } else {
      hide MainStep, SetNext;
    }
  }

  // The main thread is filling before each of these events.
  ghost predicate Fills(s: State, es: seq<Event>)
    requires Valid(s)
    decreases |es|
  {
    es != [] ==> s.pc.Filling? && Fills(Apply(s, es[0]), es[1..])
  }

  ghost function After(s: State, es: seq<Event>): (r: State)
    requires Valid(s)
    ensures Valid(r)
    decreases |es|
  {
    if es == [] then s else After(Apply(s, es[0]), es[1..])
  }

  lemma {:induction false} FillsKeep(s: State, es: seq<Event>)
    requires Valid(s) && Fills(s, es)
    ensures WillAccept(After(s, es)) == WillAccept(s)
    decreases |es|
  {
    if es != [] {
      hide WillAccept, Apply, Valid;
      FillingKeeps(s, es[0]);
      FillsKeep(Apply(s, es[0]), es[1..]);
    }
  }

  // Whatever the other threads do meanwhile, a call takes in exactly as much of its whole
  // samples as there was free space when it was made.
  lemma TakesWhatFits(s: State, e: Event, es: seq<Event>)
    requires Valid(s) && s.pc == Idle && (e.Play? || e.Start?)
    requires Fills(Apply(s, e), es) && After(Apply(s, e), es).pc.Exchange?
    ensures var data := if e.Play? then e.data[..|e.data| - |e.data| % SAMPLE_SIZE]
                        else seq(SilenceBytes(s.extraDelay), _ => SILENCE);
      After(Apply(s, e), es).ring.accepted == s.ring.accepted + data[..Min(|data|, s.ring.free)]
  {
    FillsKeep(Apply(s, e), es);
    hide After, Fills;
  }

  // ----- Contiguity -------------------------------------------------------------

  // The first submission whose buffer has not been taken back.
  function FirstHeld(subs: seq<Sub>): (f: nat)
    ensures f <= |subs|
    ensures forall i :: 0 <= i < f ==> subs[i].drained
    ensures f < |subs| ==> !subs[f].drained
  {
    if subs == [] then 0
    else
      var init := subs[..|subs| - 1];
      var f := FirstHeld(init);
      if f < |init| then f else if subs[|init|].drained then |subs| else |init|
  }

  // Buffers have come back in the order they were written.
  ghost predicate InOrder(subs: seq<Sub>) {
    forall i, j :: 0 <= i < j < |subs| && subs[j].drained ==> subs[i].drained
  }

  ghost predicate AllHeldFrom(subs: seq<Sub>, f: nat) {
    forall j :: f <= j < |subs| ==> !subs[j].drained
  }

  lemma InOrderIff(subs: seq<Sub>)
    ensures InOrder(subs) <==> AllHeldFrom(subs, FirstHeld(subs))
  {
  }

  lemma LastFollows(subs: seq<Sub>, size: nat)
    requires size > 0 && Stream(subs, size) && subs != []
    ensures var n := |subs| - 1;
      && Stream(subs[..n], size) && End(subs[..n]) == subs[n].start
      && End(subs) == subs[n].start + subs[n].len && subs[n].len > 0
  {
  }

  lemma {:induction false} HeldIff(subs: seq<Sub>, size: nat)
    requires size > 0 && Stream(subs, size)
    ensures StartAt(subs, FirstHeld(subs)) + Held(subs) <= End(subs)
    ensures StartAt(subs, FirstHeld(subs)) + Held(subs) == End(subs) <==> AllHeldFrom(subs, FirstHeld(subs))
  {
    if subs != [] {
      var n := |subs| - 1;
      var init, f := subs[..n], FirstHeld(subs[..n]);
      HeldIff(init, size) by { LastFollows(subs, size); }
      LastFollows(subs, size);
      hide Stream;
      if f == n { NoneHeld(init); }
      FirstHeldStep(subs);
    }
  }

  lemma FirstHeldStep(subs: seq<Sub>)
    requires subs != []
    ensures var n := |subs| - 1; var f := FirstHeld(subs[..n]);
      && FirstHeld(subs) == (if f < n then f else if subs[n].drained then |subs| else n)
      && (f < n ==> StartAt(subs, f) == StartAt(subs[..n], f))
      && (AllHeldFrom(subs, FirstHeld(subs)) <==> f == n || (AllHeldFrom(subs[..n], f) && !subs[n].drained))
  {
    var n := |subs| - 1;
    assert forall j :: 0 <= j < n ==> subs[j] == subs[..n][j];
  }

  // In stream positions: the pending bytes follow the handed-out ones, and the free
  // ones run on from there all the way round to the first buffer not taken back,
  // exactly when buffers have been taken back in the order they were written. The
  // device completes in order, but two callbacks can overtake each other.
  lemma ContiguousIffInOrder(s: State)
    requires Reachable(s)
    ensures s.ring.posted + Moving(s.pc) == End(s.ring.subs) && s.ring.posted + s.ring.pend == |s.ring.accepted|
    ensures |s.ring.accepted| + s.ring.free == StartAt(s.ring.subs, FirstHeld(s.ring.subs)) + |s.ring.mem|
       <==> InOrder(s.ring.subs)
  {
    hide Placed, Linked, Holders, Queue, Kept, CountInv;
    ReachableInv(s);
    HeldIff(s.ring.subs, |s.ring.mem|);
    InOrderIff(s.ring.subs);
    hide Data, InOrder;
  }
}
