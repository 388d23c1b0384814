// The byte ring of the Windows audio output. Bytes wait in the ring until they are
// submitted to the device, which reads them out of the ring later; the space of a
// submission comes back only when its buffer does.
module AudioRing {
  import opened AudioOutput
  import opened Bits

  // History: one submission, at its place in the byte stream.
  datatype Sub = Sub(start: nat, len: nat, drained: bool)

  // The first five fields are the program's. The rest is history: all bytes taken
  // in, how many of them the written head has passed, the submissions in order, how
  // many of those the device has completed, and the bytes it read.
  datatype Ring = Ring(
    mem: seq<Byte>, free: nat, pend: nat, writtenHead: nat, pendingHead: nat,
    accepted: seq<Byte>, posted: nat, subs: seq<Sub>, finished: nat, played: seq<Byte>)

  predicate Wf(r: Ring) {
    |r.mem| > 0 && r.writtenHead < |r.mem| && r.pendingHead < |r.mem|
  }

  // (head + step) & (bufferSize - 1), as WrapIsMask states.
  function Wrap(r: Ring, head: nat, step: nat): nat
    requires Wf(r)
  {
    Slot(head + step, |r.mem|)
  }

  lemma WrapIsMask(r: Ring, head: nat, step: nat)
    requires Wf(r) && IsPow2(|r.mem|)
    ensures Wrap(r, head, step) == And(head + step, |r.mem| - 1)
  {
    MaskIsSlot(head + step, |r.mem|);
  }

  function Slice(mem: seq<Byte>, off: nat, len: nat): seq<Byte> {
    if off + len <= |mem| then mem[off..off + len] else []
  }

  // How much of `length` fits before the ring is full or its end is reached.
  function Room(r: Ring, length: nat): nat
    requires Wf(r)
  {
    Min(Min(length, r.free), |r.mem| - r.pendingHead)
  }

  function Put(r: Ring, data: seq<Byte>): Ring
    requires Wf(r) && |data| <= Room(r, |data|)
  {
    r.(mem := Overwrite(r.mem, r.pendingHead, data),
       pendingHead := Wrap(r, r.pendingHead, |data|),
       free := r.free - |data|, pend := r.pend + |data|,
       accepted := r.accepted + data)
  }

  function End(subs: seq<Sub>): nat {
    if subs == [] then 0 else subs[|subs| - 1].start + subs[|subs| - 1].len
  }

  function Submit(r: Ring, len: nat): Ring {
    r.(subs := r.subs + [Sub(End(r.subs), len, false)])
  }

  function Post(r: Ring, len: nat): Ring
    requires Wf(r) && len <= r.pend
  {
    r.(writtenHead := Wrap(r, r.writtenHead, len), pend := r.pend - len, posted := r.posted + len)
  }

  function Read(r: Ring, off: nat, len: nat): Ring {
    r.(finished := r.finished + 1, played := r.played + Slice(r.mem, off, len))
  }

  function MarkDrained(subs: seq<Sub>, k: int): seq<Sub> {
    if 0 <= k < |subs| then subs[k := subs[k].(drained := true)] else subs
  }

  function Reclaim(r: Ring, k: int, len: nat): Ring {
    r.(free := r.free + len, subs := MarkDrained(r.subs, k))
  }

  lemma MarkKeepsEnd(subs: seq<Sub>, k: int)
    ensures End(MarkDrained(subs, k)) == End(subs)
  {
  }

  // ----- What the ring keeps -------------------------------------------------

  // Ring space held by submissions whose buffer has not come back.
  function Held(subs: seq<Sub>): nat {
    if subs == [] then 0
    else Held(subs[..|subs| - 1]) + (if subs[|subs| - 1].drained then 0 else subs[|subs| - 1].len)
  }

  function StartAt(subs: seq<Sub>, i: nat): nat {
    if i < |subs| then subs[i].start else End(subs)
  }

  // Submissions are back to back, none empty, none across the end of the ring.
  predicate Stream(subs: seq<Sub>, size: nat)
    requires size > 0
  {
    && (subs != [] ==> subs[0].start == 0)
    && (forall i, j {:trigger subs[i], subs[j]} :: 0 <= i < |subs| && j == i + 1 < |subs| ==>
          subs[j].start == subs[i].start + subs[i].len)
    && (forall i {:trigger subs[i]} :: 0 <= i < |subs| ==>
          subs[i].len > 0 && Slot(subs[i].start, size) + subs[i].len <= size)
  }

  predicate Accounts(r: Ring) {
    && Wf(r)
    && r.posted <= End(r.subs) <= |r.accepted|
    && r.posted + r.pend == |r.accepted|
    && r.free + r.pend + Held(r.subs) == |r.mem| + (End(r.subs) - r.posted)
    && r.finished <= |r.subs|
    && (forall i :: r.finished <= i < |r.subs| ==> !r.subs[i].drained)
  }

  predicate Heads(r: Ring) {
    && Wf(r)
    && Stream(r.subs, |r.mem|)
    && r.pendingHead == Slot(|r.accepted|, |r.mem|)
    && r.writtenHead == Slot(r.posted, |r.mem|)
  }

  // Place in the byte stream of the first byte the device may still read.
  function ReadFrom(r: Ring): nat { StartAt(r.subs, r.finished) }

  // The ring still has every byte the device may yet read, and the device has read
  // exactly the bytes before those.
  predicate Data(r: Ring) {
    && Wf(r)
    && ReadFrom(r) <= |r.accepted|
    && r.played == r.accepted[..ReadFrom(r)]
    && (forall a :: ReadFrom(r) <= a < |r.accepted| ==> r.mem[Slot(a, |r.mem|)] == r.accepted[a])
  }

  predicate RingInv(r: Ring) {
    Accounts(r) && Heads(r) && Data(r)
  }

  lemma {:induction false} HeldMark(subs: seq<Sub>, k: nat)
    requires k < |subs| && !subs[k].drained
    ensures Held(MarkDrained(subs, k)) + subs[k].len == Held(subs)
  {
    var marked := MarkDrained(subs, k);
    var n := |subs| - 1;
    if k < n {
      HeldMark(subs[..n], k);
      assert marked[..n] == MarkDrained(subs[..n], k);
    } else {
      assert marked[..n] == subs[..n];
    }
  }

  // Submissions the device still has hold all the space from the first of them on.
  lemma {:induction false} HeldCovers(subs: seq<Sub>, size: nat, i: nat)
    requires size > 0 && Stream(subs, size) && i <= |subs|
    requires forall j :: i <= j < |subs| ==> !subs[j].drained
    ensures StartAt(subs, i) <= End(subs)
    ensures Held(subs) >= End(subs) - StartAt(subs, i)
    decreases |subs|
  {
    if i < |subs| {
      var init := subs[..|subs| - 1];
      HeldCovers(init, size, i);
      assert StartAt(init, i) == StartAt(subs, i);
    }
  }

  // All free space lies before the first byte the device may still read.
  lemma FreeBound(r: Ring)
    requires Accounts(r) && Stream(r.subs, |r.mem|)
    ensures ReadFrom(r) <= |r.accepted|
    ensures |r.accepted| + r.free <= ReadFrom(r) + |r.mem|
  {
    HeldCovers(r.subs, |r.mem|, r.finished);
  }

  // The slots bytes are taken into are none the device may still read.
  lemma PutClear(r: Ring, n: nat, a: nat)
    requires Accounts(r) && Heads(r) && n <= Room(r, n)
    requires ReadFrom(r) <= a < |r.accepted|
    ensures !(r.pendingHead <= Slot(a, |r.mem|) < r.pendingHead + n)
  {
    FreeBound(r);
    var from, size, slot := |r.accepted|, |r.mem|, Slot(a, |r.mem|);
    if r.pendingHead <= slot < r.pendingHead + n {
      SlotStep(from, slot - r.pendingHead, size);
      SlotsDistinct(a, from + (slot - r.pendingHead), size);
    }
  }

  lemma PutSlot(r: Ring, data: seq<Byte>, a: nat)
    requires RingInv(r) && |data| <= Room(r, |data|)
    requires ReadFrom(r) <= a < |r.accepted| + |data|
    ensures Put(r, data).mem[Slot(a, |r.mem|)] == (r.accepted + data)[a]
  {
    hide Slot, Held, Stream;
    if a >= |r.accepted| {
      SlotStep(|r.accepted|, a - |r.accepted|, |r.mem|);
    } else {
      PutClear(r, |data|, a);
    }
  }

  lemma PutAccounts(r: Ring, data: seq<Byte>)
    requires RingInv(r) && |data| <= Room(r, |data|)
    ensures Accounts(Put(r, data)) && Heads(Put(r, data))
  {
    hide Slot, Held, Data, Stream, Overwrite;
    SlotStep(|r.accepted|, |data|, |r.mem|);
  }

  lemma PutData(r: Ring, data: seq<Byte>)
    requires RingInv(r) && |data| <= Room(r, |data|)
    ensures Data(Put(r, data))
  {
    forall a | ReadFrom(r) <= a < |r.accepted| + |data|
      ensures Put(r, data).mem[Slot(a, |r.mem|)] == (r.accepted + data)[a]
    {
      PutSlot(r, data, a);
    }
    hide Slot, Accounts, Heads, Overwrite;
    assert (r.accepted + data)[..ReadFrom(r)] == r.accepted[..ReadFrom(r)];
  }

  lemma PutKeeps(r: Ring, data: seq<Byte>)
    requires RingInv(r) && |data| <= Room(r, |data|)
    ensures RingInv(Put(r, data))
  {
    hide Accounts, Heads, Data, Put;
    PutAccounts(r, data);
    PutData(r, data);
  }

  lemma SubmitAccounts(r: Ring, len: nat)
    requires Accounts(r) && r.posted == End(r.subs) && len <= r.pend
    ensures Accounts(Submit(r, len))
  {
    assert Submit(r, len).subs[..|r.subs|] == r.subs;
  }

  lemma SubmitHeads(r: Ring, len: nat)
    requires Heads(r) && r.posted == End(r.subs) && 0 < len && r.writtenHead + len <= |r.mem|
    ensures Heads(Submit(r, len))
  {
    hide Slot;
  }

  lemma SubmitData(r: Ring, len: nat)
    requires Data(r) && r.finished <= |r.subs|
    ensures Data(Submit(r, len))
  {
    hide Slot;
  }

  lemma SubmitKeeps(r: Ring, len: nat)
    requires RingInv(r) && r.posted == End(r.subs)
    requires 0 < len <= r.pend && r.writtenHead + len <= |r.mem|
    ensures RingInv(Submit(r, len))
  {
    SubmitAccounts(r, len);
    SubmitHeads(r, len);
    SubmitData(r, len);
    hide Heads, Data, Submit, Slot;
  }

  lemma PostKeeps(r: Ring, len: nat)
    requires RingInv(r) && r.posted + len == End(r.subs) && len <= r.pend
    ensures RingInv(Post(r, len))
  {
    hide Slot, Held, Stream;
    SlotStep(r.posted, len, |r.mem|);
  }

  lemma NextStart(r: Ring)
    requires Accounts(r) && Heads(r) && r.finished < |r.subs|
    ensures var sub := r.subs[r.finished];
      StartAt(r.subs, r.finished + 1) == sub.start + sub.len <= |r.accepted|
  {
    HeldCovers(r.subs, |r.mem|, r.finished + 1);
  }

  // A run of slots that does not wrap holds a run of the stream.
  lemma SliceIsStream(r: Ring, start: nat, len: nat)
    requires Data(r) && ReadFrom(r) <= start && start + len <= |r.accepted|
    requires Slot(start, |r.mem|) + len <= |r.mem|
    ensures Slice(r.mem, Slot(start, |r.mem|), len) == r.accepted[start..start + len]
  {
    var off, slice := Slot(start, |r.mem|), Slice(r.mem, Slot(start, |r.mem|), len);
    forall j | 0 <= j < len
      ensures slice[j] == r.accepted[start..start + len][j]
    {
      SlotStep(start, j, |r.mem|);
      assert r.mem[Slot(start + j, |r.mem|)] == r.accepted[start + j];
    }
  }

  // What the device reads is what was taken in.
  lemma ReadIsAccepted(r: Ring)
    requires RingInv(r) && r.finished < |r.subs|
    ensures var sub := r.subs[r.finished];
      && sub.start + sub.len <= |r.accepted|
      && Slice(r.mem, Slot(sub.start, |r.mem|), sub.len) == r.accepted[sub.start..sub.start + sub.len]
  {
    NextStart(r);
    SliceIsStream(r, r.subs[r.finished].start, r.subs[r.finished].len);
  }

  lemma ReadKeeps(r: Ring, off: nat, len: nat)
    requires RingInv(r) && r.finished < |r.subs|
    requires off == Slot(r.subs[r.finished].start, |r.mem|) && len == r.subs[r.finished].len
    ensures RingInv(Read(r, off, len))
  {
    var sub := r.subs[r.finished];
    ReadIsAccepted(r);
    NextStart(r);
    assert r.accepted[..sub.start + sub.len] == r.accepted[..sub.start] + r.accepted[sub.start..sub.start + sub.len];
  }

  lemma MarkedStream(subs: seq<Sub>, k: nat, size: nat)
    requires size > 0 && k < |subs| && Stream(subs, size)
    ensures Stream(MarkDrained(subs, k), size)
    ensures forall i :: StartAt(MarkDrained(subs, k), i) == StartAt(subs, i)
  {
    hide Slot;
    MarkKeepsEnd(subs, k);
  }

  lemma ReclaimKeeps(r: Ring, k: nat)
    requires RingInv(r) && k < r.finished && !r.subs[k].drained
    ensures RingInv(Reclaim(r, k, r.subs[k].len))
  {
    HeldMark(r.subs, k);
    MarkKeepsEnd(r.subs, k);
    MarkedStream(r.subs, k, |r.mem|);
    hide Slot, Stream, StartAt, Held, End;
  }
}
