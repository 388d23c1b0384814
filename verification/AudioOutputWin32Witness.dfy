// A run in which two callbacks overtake each other, so that the later of two buffers is
// taken back first and the free bytes of the ring are in two pieces.
module AudioOutputWin32Witness {
  import opened Optional
  import opened Bits
  import opened AudioOutput
  import opened AudioRing
  import opened AudioOutputWin32
  import opened AudioOutputWin32Safety
  import opened AudioOutputWin32Theorems

  const SAMPLE: seq<Byte> := [1, 2, 3, 4]

  function Step(s: State, n: NodeId): State
    requires Valid(s)
  {
    Apply(s, Main(0, Some(n), true))
  }

  lemma Stepped(s: State, n: NodeId)
    requires Reachable(s) && Valid(s)
    ensures Reachable(Step(s, n)) && Valid(Step(s, n))
  {
    ReachableNext(s, Main(0, Some(n), true));
  }

  // Nothing waits in the ring of eight bytes or on any list.
  ghost predicate Ready(s: State, at: nat) {
    && Reachable(s) && Valid(s) && s.pc == Idle && |s.ring.mem| == 8 && s.ring.pend == 0 && s.ring.free >= 4
    && s.ring.writtenHead == s.ring.pendingHead == at && at + 4 <= 8
    && s.done == [] && s.doneHead == None && s.spares == []
  }

  // Playing one sample hands the device one buffer.
  ghost predicate Handed(s: State, n: NodeId, r: State) {
    && Reachable(r) && Valid(r) && r.pc == Idle && |r.ring.mem| == 8 && r.ring.pend == 0
    && r.ring.free == s.ring.free - 4
    && r.ring.writtenHead == r.ring.pendingHead == Slot(s.ring.writtenHead + 4, 8)
    && |r.ring.subs| == |s.ring.subs| + 1 && r.ring.subs[..|s.ring.subs|] == s.ring.subs
    && !r.ring.subs[|s.ring.subs|].drained && r.ring.finished == s.ring.finished
    && r.device == s.device + [n] && r.entered == s.entered && r.pushing == s.pushing
    && r.done == [] && r.doneHead == None && r.spares == []
    && r.heap.Keys == s.heap.Keys + {n} && r.heap[n].serial == |s.ring.subs|
  }

  lemma Filled(s: State, at: nat, n: NodeId) returns (r: State)
    requires Ready(s, at)
    ensures Reachable(r) && Valid(r) && r == s.(ring := Put(s.ring, SAMPLE), pc := Exchange)
  {
    hide Reachable;
    var s1 := Apply(s, Play(SAMPLE));
    ReachableNext(s, Play(SAMPLE));
    assert SAMPLE[..4] == SAMPLE;
    assert s1 == s.(pc := Filling(SAMPLE));
    var s2 := Step(s1, n);
    Stepped(s1, n);
    assert Room(s.ring, 4) == 4;
    assert SAMPLE[4..] == [];
    assert s2 == s.(ring := Put(s.ring, SAMPLE), pc := Filling([]));
    r := Step(s2, n);
    Stepped(s2, n);
  }

  lemma Emptied(s: State, n: NodeId) returns (r: State)
    requires Reachable(s) && Valid(s) && s.pc == Exchange && s.done == [] && s.doneHead == None && s.spares == []
    ensures Reachable(r) && Valid(r) && r == s.(pc := Writing(None))
  {
    hide Reachable;
    var s1 := Step(s, n);
    Stepped(s, n);
    r := Step(s1, n);
    Stepped(s1, n);
  }

  lemma Counting(s: State, n: NodeId) returns (r: State)
    requires Reachable(s) && Valid(s) && s.pc == Writing(None) && n !in s.heap
    requires s.ring.pend == 4 && s.ring.writtenHead + 4 <= |s.ring.mem|
    ensures Reachable(r) && Valid(r)
    ensures r == s.(heap := s.heap[n := ZEROED.(off := s.ring.writtenHead, len := 4, stream := s.stream)],
      inFlight := s.inFlight + 1, pc := Counted(n, 4, None))
  {
    hide Reachable;
    var s1 := Step(s, n);
    Stepped(s, n);
    r := Step(s1, n);
    Stepped(s1, n);
  }

  lemma Handing(s: State, n: NodeId) returns (r: State)
    requires Reachable(s) && Valid(s) && s.pc == Counted(n, 4, None) && n in s.heap
    requires s.ring.pend == 4
    ensures Reachable(r) && Valid(r)
    ensures r == s.(ring := Post(Submit(s.ring, 4), 4), device := s.device + [n],
      heap := s.heap[n := s.heap[n].(serial := |s.ring.subs|)], pc := Idle)
  {
    hide Reachable;
    var s1 := Step(s, n);
    Stepped(s, n);
    var s2 := Step(s1, n);
    Stepped(s1, n);
    assert s2.ring.pend == 0;
    var s3 := Step(s2, n);
    Stepped(s2, n);
    r := Step(s3, n);
    Stepped(s3, n);
  }

  lemma PlayOne(s: State, at: nat, n: NodeId) returns (r: State)
    requires Ready(s, at) && n !in s.heap
    ensures Handed(s, n, r)
  {
    hide Reachable;
    var s1 := Filled(s, at, n);
    var s2 := Emptied(s1, n);
    var s3 := Counting(s2, n);
    r := Handing(s3, n);
    hide Slot, Overwrite;
  }

  // The device finishes its only two buffers; the callback of the second runs first.
  lemma Overtaking(s: State, a: NodeId, b: NodeId) returns (r: State)
    requires Reachable(s) && Valid(s) && s.device == [a, b] && a != b && b in s.heap
    requires s.entered == {} && s.pushing == map[] && s.done == [] && s.doneHead == None
    ensures Reachable(r) && Valid(r) && r.ring.subs == s.ring.subs && r.pc == s.pc && r.spares == s.spares
    ensures r.done == [b] && r.doneHead == Some(b)
    ensures b in r.heap && r.heap[b].serial == s.heap[b].serial && r.heap[b].next == None
    ensures r.ring.pend == s.ring.pend
  {
    hide Reachable;
    var s1 := Apply(s, Complete);
    ReachableNext(s, Complete);
    assert s1.device == [b] && s1.entered == {a};
    var s2 := Apply(s1, Complete);
    ReachableNext(s1, Complete);
    assert s2.entered == {a, b};
    r := Called(s2, b);
  }

  lemma Called(s: State, b: NodeId) returns (r: State)
    requires Reachable(s) && Valid(s) && b in s.entered && b in s.heap
    requires s.pushing == map[] && s.done == [] && s.doneHead == None
    ensures Reachable(r) && Valid(r) && r.ring == s.ring && r.pc == s.pc && r.spares == s.spares
    ensures r.done == [b] && r.doneHead == Some(b)
    ensures b in r.heap && r.heap[b].serial == s.heap[b].serial && r.heap[b].next == None
  {
    hide Reachable;
    var e := Callback(b, 0);
    var s1 := Apply(s, e);
    ReachableNext(s, e);
    assert s1.pushing[b] == Load && b !in s1.entered;
    var s2 := Apply(s1, e);
    ReachableNext(s1, e);
    assert s2.pushing[b] == Link(None) && b !in s2.entered;
    var s3 := Apply(s2, e);
    ReachableNext(s2, e);
    assert s3.pushing[b] == Swap(None) && b !in s3.entered;
    r := Apply(s3, e);
    ReachableNext(s3, e);
  }

  // The main thread takes back what is on the list.
  lemma TakingBack(s: State, b: NodeId) returns (r: State)
    requires Reachable(s) && Valid(s) && s.pc == Idle && s.ring.pend == 0 && s.spares == []
    requires s.done == [b] && s.doneHead == Some(b) && b in s.heap && s.heap[b].next == None
    ensures Reachable(r) && r.pc == Idle && r.ring.subs == MarkDrained(s.ring.subs, s.heap[b].serial)
  {
    hide Reachable;
    var s1 := Apply(s, Play([]));
    ReachableNext(s, Play([]));
    assert s1 == s.(pc := Filling([]));
    var s2 := Step(s1, b);
    Stepped(s1, b);
    assert s2 == s.(pc := Exchange);
    var s3 := Step(s2, b);
    Stepped(s2, b);
    assert s3.pc == Draining(Some(b), 0, Some(b)) && s3.heap == s.heap && s3.ring == s.ring;
    var s4 := Step(s3, b);
    Stepped(s3, b);
    assert s4.pc == Draining(None, 1, Some(b)) && s4.ring.subs == MarkDrained(s.ring.subs, s.heap[b].serial);
    r := Returning(s4, b);
  }

  lemma Returning(s: State, b: NodeId) returns (r: State)
    requires Reachable(s) && Valid(s) && s.pc == Draining(None, 1, Some(b)) && s.ring.pend == 0
    requires b in s.heap && s.heap[b].next == None
    ensures Reachable(r) && r.pc == Idle && r.ring == s.ring
  {
    hide Reachable;
    var s1 := Step(s, b);
    Stepped(s, b);
    var s2 := Step(s1, b);
    Stepped(s1, b);
    assert s2.pc == Freeing(Some(b)) && s2.heap == s.heap;
    var s3 := Step(s2, b);
    Stepped(s2, b);
    r := Step(s3, b);
    Stepped(s3, b);
  }

  lemma Begun() returns (s: State)
    ensures Ready(s, 0) && s.ring.free == 8 && s.heap == map[] && s.device == [] && s.ring.subs == []
    ensures s.entered == {} && s.pushing == map[]
  {
    s := Init(3);
    assert Run(Init(3), []) == s;
    assert Pow2(3) == 8;
  }

  // The main thread is idle, yet the free bytes do not run on to the first buffer that
  // has not been taken back.
  lemma OvertakingSplitsFree() returns (s: State)
    ensures Reachable(s) && s.pc == Idle && !InOrder(s.ring.subs)
    ensures |s.ring.accepted| + s.ring.free != StartAt(s.ring.subs, FirstHeld(s.ring.subs)) + |s.ring.mem|
  {
    hide Reachable, FirstHeld, StartAt;
    var s0 := Begun();
    var s1 := PlayOne(s0, 0, 1);
    assert Slot(4, 8) == 4;
    var s2 := PlayOne(s1, 4, 2);
    assert s2.ring.subs[..1] == s1.ring.subs;
    assert !s1.ring.subs[0].drained && s2.ring.subs[0] == s2.ring.subs[..1][0];
    var s3 := Overtaking(s2, 1, 2);
    s := TakingBack(s3, 2);
    assert s.ring.subs[1].drained && !s.ring.subs[0].drained;
    ContiguousIffInOrder(s);
  }
}
