// The Windows audio output when the system makes its callbacks one after another: then
// buffers are taken back in the order they were written, although each batch comes off
// the list newest first.
module AudioOutputWin32Sequence {
  import opened Optional
  import opened Bits
  import opened AudioOutput
  import opened AudioRing
  import opened AudioOutputWin32
  import opened AudioOutputWin32Safety
  import opened AudioOutputWin32Theorems

  // No callback is under way.
  predicate Quiet(s: State) { s.entered == {} && s.pushing == map[] }

  // The device calls back only when the callback before has returned.
  ghost predicate OneAtATime(k: nat, es: seq<Event>) {
    forall i :: 0 <= i < |es| && es[i] == Complete ==> Quiet(Run(Init(k), es[..i]))
  }

  ghost predicate InHand(s: State, n: NodeId) {
    s.pc.Draining? && s.pc.at <= |s.spares| && n in s.spares[s.pc.at..]
  }

  predicate InProgress(s: State, n: NodeId) { n in s.entered || n in s.pushing }

  ghost predicate Coming(s: State, n: NodeId) {
    n in s.device || InProgress(s, n) || n in s.done
  }

  function SerialOf(s: State, n: NodeId): int { Deref(s.heap, n).serial }

  // A batch in hand is older than all that is still to come, and so is what was taken back.
  ghost predicate BatchFirst(s: State) {
    forall n, m :: InHand(s, n) && Coming(s, m) ==> SerialOf(s, n) < SerialOf(s, m)
  }

  ghost predicate DrainedFirst(s: State) {
    forall i, m :: 0 <= i < |s.ring.subs| && s.ring.subs[i].drained && Coming(s, m) ==> i < SerialOf(s, m)
  }

  ghost predicate OneCallback(s: State) {
    && (forall n, m :: InProgress(s, n) && InProgress(s, m) ==> n == m)
    && (forall n, m :: n in s.done && InProgress(s, m) ==> SerialOf(s, n) < SerialOf(s, m))
  }

  ghost predicate Waves(s: State) {
    BatchFirst(s) && DrainedFirst(s) && OneCallback(s)
  }

  lemma LiveSerial(s: State, n: NodeId)
    requires Placed(s) && Holders(s)
    ensures Live(s, n) <==> Coming(s, n) || InHand(s, n)
    ensures Live(s, n) ==> n in s.heap && SerialOf(s, n) >= 0
  {
    assert Places(s, n) == One(n in s.heap);
  }

  // Steps after which nothing is anywhere new.
  lemma WavesFrame(s: State, r: State)
    requires Waves(s) && Placed(s) && Holders(s)
    requires r.ring.subs == s.ring.subs && SameHolding(s.heap, r.heap)
    requires forall n :: (Coming(r, n) ==> Coming(s, n)) && (InHand(r, n) ==> InHand(s, n))
    requires forall n :: (n in r.done ==> n in s.done) && (InProgress(r, n) ==> InProgress(s, n))
    ensures Waves(r)
  {
    SerialsSame(s, r);
    hide Coming, InHand, InProgress, Placed, Holders;
    assert forall n :: n in s.done || InProgress(s, n) ==> Coming(s, n) by {
      forall n | n in s.done || InProgress(s, n) ensures Coming(s, n) { DoneComing(s, n); }
    }
  }

  lemma DoneComing(s: State, n: NodeId)
    requires n in s.done || InProgress(s, n)
    ensures Coming(s, n)
  {
  }

  // What the device still has is newer than what it has finished.
  lemma FinishedSerial(s: State, n: NodeId)
    requires Placed(s) && Holders(s) && Queue(s) && (InHand(s, n) || InProgress(s, n) || n in s.done)
    ensures 0 <= SerialOf(s, n) < s.ring.finished
  {
    LiveSerial(s, n);
    assert n !in s.device by { assert Places(s, n) == One(n in s.heap); }
    QueueHas(s, SerialOf(s, n));
  }

  lemma DeviceSerial(s: State, n: NodeId)
    requires Queue(s) && n in s.device
    ensures SerialOf(s, n) >= s.ring.finished
  {
  }

  // The exchange takes a batch older than the rest.
  lemma WavesExchange(s: State, now: nat, block: Option<NodeId>, ok: bool)
    requires Valid(s) && Waves(s) && Placed(s) && Holders(s) && Queue(s) && s.pc.Exchange?
    ensures Waves(MainStep(s, now, block, ok))
  {
    var r := MainStep(s, now, block, ok);
    AfterExchange(s, now, block, ok);
    hide MainStep, Coming, InHand, InProgress, Placed, Holders, Queue;
    forall n, m | InHand(r, n) && Coming(r, m) ensures SerialOf(r, n) < SerialOf(r, m) {
      FinishedSerial(s, n);
      if m in s.device { DeviceSerial(s, m); }
    }
  }

  lemma AfterExchange(s: State, now: nat, block: Option<NodeId>, ok: bool)
    requires Valid(s) && s.pc.Exchange?
    ensures var r := MainStep(s, now, block, ok);
      && (forall n :: InHand(r, n) ==> n in s.done)
      && (forall n :: Coming(r, n) ==> Coming(s, n) && (n in s.device || InProgress(s, n)))
      && (forall n :: InProgress(r, n) <==> InProgress(s, n))
      && r.done == [] && r.heap == s.heap && r.ring == s.ring
  {
    hide Fill, Drain, Take, GiveBack, HandOver;
  }

  lemma WavesDrain(s: State, now: nat)
    requires Valid(s) && Waves(s) && Placed(s) && Linked(s) && Holders(s) && Queue(s)
    requires s.pc.Draining? && s.pc.buf.Some?
    ensures Waves(Drain(s, now))
  {
    var n, r := s.pc.buf.value, Drain(s, now);
    AfterDrain(s, now);
    hide Placed, Linked, Holders, Queue, Drain, InHand, Coming, InProgress, MarkDrained, SerialOf, Waves, Valid;
    WavesWithout(s, r, n);
  }

  // The batch in hand gets shorter by one node, which nobody else has.
  lemma WavesWithout(s: State, r: State, n: NodeId)
    requires Waves(s) && InHand(s, n) && !Coming(s, n)
    requires r.done == s.done && r.ring.subs == MarkDrained(s.ring.subs, SerialOf(s, n))
    requires forall m :: Coming(r, m) <==> Coming(s, m)
    requires forall m :: InProgress(r, m) <==> InProgress(s, m)
    requires forall m :: m != n ==> SerialOf(r, m) == SerialOf(s, m)
    requires forall m :: InHand(r, m) ==> InHand(s, m) && m != n
    ensures Waves(r)
  {
    DonesComing(s);
    hide InHand, Coming, InProgress, MarkDrained, SerialOf;
    assert DrainedFirst(r) by { DrainedAfter(s, r, n); }
    hide DrainedFirst;
  }

  lemma DonesComing(s: State)
    ensures forall n :: n in s.done || InProgress(s, n) ==> Coming(s, n)
  {
  }

  lemma MarkedOne(subs: seq<Sub>, k: int, i: nat)
    ensures |MarkDrained(subs, k)| == |subs|
    ensures i < |subs| && MarkDrained(subs, k)[i].drained ==> subs[i].drained || i == k
  {
  }

  lemma DrainedAfter(s: State, r: State, n: NodeId)
    requires BatchFirst(s) && DrainedFirst(s) && InHand(s, n)
    requires r.ring.subs == MarkDrained(s.ring.subs, SerialOf(s, n))
    requires forall m :: Coming(r, m) ==> Coming(s, m) && SerialOf(r, m) == SerialOf(s, m)
    ensures DrainedFirst(r)
  {
    hide MarkDrained, SerialOf, Coming, InHand;
    forall i, m | 0 <= i < |r.ring.subs| && r.ring.subs[i].drained && Coming(r, m) ensures i < SerialOf(r, m) {
      MarkedOne(s.ring.subs, SerialOf(s, n), i);
    }
  }

  // The drained node is nowhere else, and nobody else's serial changes.
  lemma AfterDrain(s: State, now: nat)
    requires Valid(s) && Placed(s) && Linked(s) && s.pc.Draining? && s.pc.buf.Some?
    ensures var n, r := s.pc.buf.value, Drain(s, now);
      && (forall m :: Coming(r, m) <==> Coming(s, m)) && (forall m :: InProgress(r, m) <==> InProgress(s, m))
      && r.done == s.done
      && (forall m :: m != n ==> SerialOf(r, m) == SerialOf(s, m))
      && r.ring.subs == MarkDrained(s.ring.subs, SerialOf(s, n))
      && (forall m :: InHand(r, m) ==> InHand(s, m) && m != n)
      && InHand(s, n) && !Coming(s, n)
  {
    var n := s.pc.buf.value;
    assert s.spares[s.pc.at..] == [n] + s.spares[s.pc.at + 1..];
    Apart(s, n);
    assert n !in s.spares[s.pc.at + 1..];
    hide Placed, Linked, Delay, MarkDrained;
  }

  lemma WavesHandOver(s: State)
    requires Valid(s) && Waves(s) && Placed(s) && Holders(s) && s.pc.Counted?
    ensures Waves(HandOver(s))
  {
    var r, n := HandOver(s), s.pc.node;
    Apart(s, n);
    assert forall m :: Coming(r, m) <==> Coming(s, m) || m == n;
    assert forall m :: InProgress(r, m) <==> InProgress(s, m);
    assert SerialOf(r, n) == |s.ring.subs|;
    hide Placed, Holders, Coming, InProgress;
    assert r.ring.subs == s.ring.subs + [Sub(End(s.ring.subs), s.pc.len, false)];
  }

  lemma WavesMain(s: State, now: nat, block: Option<NodeId>, ok: bool)
    requires Inv(s) && Waves(s)
    ensures Waves(MainStep(s, now, block, ok))
  {
    hide Waves, RingInv, Placed, Linked, Holders, Queue, Kept, PcInv, CountInv, Valid, Drain, HandOver;
    if s.pc.Exchange? {
      WavesExchange(s, now, block, ok);
    } else if s.pc.Draining? && s.pc.buf.Some? {
      WavesDrain(s, now);
    } else if s.pc.Counted? && ok {
      WavesHandOver(s);
    } else {
      HoldingKeepsMain(s, now, block, ok);
      SubsKept(s, now, block, ok);
      NothingNew(s, now, block, ok);
      WavesFrame(s, MainStep(s, now, block, ok));
    }
  }

  lemma NothingNew(s: State, now: nat, block: Option<NodeId>, ok: bool)
    requires Valid(s) && !s.pc.Exchange? && !(s.pc.Draining? && s.pc.buf.Some?) && !(s.pc.Counted? && ok)
    ensures var r := MainStep(s, now, block, ok);
      && r.device == s.device && r.entered == s.entered && r.pushing == s.pushing && r.done == s.done
      && !r.pc.Draining?
    ensures var r := MainStep(s, now, block, ok);
      forall n :: (Coming(r, n) ==> Coming(s, n)) && (InHand(r, n) ==> InHand(s, n))
        && (InProgress(r, n) ==> InProgress(s, n))
  {
    hide Valid, Room, Put, Post, Delay, Reclaim, HandOver;
  }

  lemma WavesComplete(s: State)
    requires Inv(s) && Waves(s) && Quiet(s)
    ensures Waves(CompleteStep(s))
  {
    hide RingInv, Placed, Linked, Holders, Queue, Kept, PcInv, CountInv;
    hide CompleteStep, Coming, InHand, InProgress, SerialOf;
    if s.device != [] {
      AfterComplete(s);
      DeviceFirst(s);
      forall n | n in s.done ensures SerialOf(s, n) < SerialOf(s, s.device[0]) {
        FinishedSerial(s, n);
      }
      WavesMoved(s, CompleteStep(s), s.device[0]);
    } else {
      assert CompleteStep(s) == s by { NoComplete(s); }
    }
  }

  lemma NoComplete(s: State)
    requires Valid(s) && s.device == []
    ensures CompleteStep(s) == s
  {
  }

  // One node is now in its callback, and no other.
  lemma WavesMoved(s: State, r: State, c: NodeId)
    requires Waves(s)
    requires r.ring.subs == s.ring.subs && r.done == s.done
    requires forall n :: (Coming(r, n) ==> Coming(s, n)) && (InHand(r, n) <==> InHand(s, n))
    requires forall n :: InProgress(r, n) <==> n == c
    requires forall n :: SerialOf(r, n) == SerialOf(s, n)
    requires forall n :: n in s.done ==> SerialOf(s, n) < SerialOf(s, c)
    ensures Waves(r)
  {
    hide Coming, InHand, InProgress, SerialOf;
  }

  lemma DeviceFirst(s: State)
    requires Inv(s) && s.device != []
    ensures SerialOf(s, s.device[0]) == s.ring.finished
  {
  }

  lemma AfterComplete(s: State)
    requires Valid(s) && s.device != [] && Quiet(s)
    ensures var r, c := CompleteStep(s), s.device[0];
      && r.ring.subs == s.ring.subs && r.done == s.done
      && (forall n :: Coming(r, n) ==> Coming(s, n)) && (forall n :: InHand(r, n) <==> InHand(s, n))
      && (forall n :: InProgress(r, n) <==> n == c)
      && (forall n :: SerialOf(r, n) == SerialOf(s, n))
  {
  }

  lemma WavesCallback(s: State, c: NodeId, now: nat)
    requires Inv(s) && Waves(s)
    ensures Waves(CallbackStep(s, c, now))
  {
    var r := CallbackStep(s, c, now);
    hide Waves, RingInv, Placed, Linked, Holders, Queue, Kept, PcInv, CountInv, CallbackStep;
    HoldingKeepsCallback(s, c, now);
    if r.done == s.done {
      StillComing(s, c, now);
      WavesFrame(s, r);
    } else {
      assert OneCallback(s) by { WavesParts(s); }
      Pushed(s, c, now);
      SerialsSame(s, r);
      NoneInProgress(s, r);
    }
  }

  lemma WavesParts(s: State)
    requires Waves(s)
    ensures OneCallback(s)
  {
  }

  lemma SerialsSame(s: State, r: State)
    requires Placed(s) && Holders(s) && SameHolding(s.heap, r.heap)
    ensures forall n :: Coming(s, n) || InHand(s, n) ==> SerialOf(r, n) == SerialOf(s, n)
  {
    forall n | Coming(s, n) || InHand(s, n) ensures SerialOf(r, n) == SerialOf(s, n) {
      LiveSerial(s, n);
    }
  }

  lemma NoneInProgress(s: State, r: State)
    requires Waves(s) && r.ring.subs == s.ring.subs && forall n :: !InProgress(r, n)
    requires forall n :: (Coming(r, n) ==> Coming(s, n)) && (InHand(r, n) ==> InHand(s, n))
    requires forall n :: Coming(s, n) || InHand(s, n) ==> SerialOf(r, n) == SerialOf(s, n)
    ensures Waves(r)
  {
    hide Coming, InHand, InProgress, SerialOf;
  }

  lemma StillComing(s: State, c: NodeId, now: nat)
    requires Valid(s) && CallbackStep(s, c, now).done == s.done
    ensures var r := CallbackStep(s, c, now);
      && r.ring.subs == s.ring.subs
      && (forall n :: Coming(r, n) ==> Coming(s, n)) && (forall n :: InHand(r, n) ==> InHand(s, n))
      && (forall n :: InProgress(r, n) ==> InProgress(s, n))
  {
  }

  // The push that succeeds was the only callback.
  lemma Pushed(s: State, c: NodeId, now: nat)
    requires Valid(s) && OneCallback(s) && CallbackStep(s, c, now).done != s.done
    ensures var r := CallbackStep(s, c, now);
      && r.ring.subs == s.ring.subs
      && (forall n :: Coming(r, n) ==> Coming(s, n)) && (forall n :: InHand(r, n) ==> InHand(s, n))
      && (forall n :: !InProgress(r, n))
  {
    var r := CallbackStep(s, c, now);
    assert InProgress(s, c);
    assert r.entered == s.entered && r.pushing == s.pushing - {c} && c !in s.entered;
    forall n ensures !InProgress(r, n) {
      assert InProgress(r, n) ==> InProgress(s, n) && (n in s.entered || n != c);
    }
  }

  lemma WavesKeeps(s: State, e: Event)
    requires Inv(s) && Waves(s) && (e == Complete ==> Quiet(s))
    ensures Waves(Apply(s, e))
  {
    match e
    case Main(now, block, ok) => WavesMain(s, now, block, ok);
    case Complete => WavesComplete(s);
    case Callback(c, now) => WavesCallback(s, c, now);
    case _ =>
      var r := Apply(s, e);
      Entering(s, e);
      hide Inv, Apply;
      DonesComing(s);
      SameEverywhere(s, r);
  }

  // start() and play() only enter the fill loop.
  lemma Entering(s: State, e: Event)
    requires Valid(s) && (e.Start? || e.Play?)
    ensures var r := Apply(s, e);
      && r.ring == s.ring && r.heap == s.heap && r.done == s.done && r.device == s.device
      && r.entered == s.entered && r.pushing == s.pushing && r.spares == s.spares && (r.pc == s.pc || !r.pc.Draining?)
  {
  }

  lemma SameEverywhere(s: State, r: State)
    requires Waves(s)
    requires r.ring == s.ring && r.heap == s.heap && r.done == s.done && r.device == s.device
    requires r.entered == s.entered && r.pushing == s.pushing && r.spares == s.spares
    requires r.pc == s.pc || !r.pc.Draining?
    ensures Waves(r)
  {
    assert forall n :: InHand(r, n) ==> InHand(s, n);
    assert forall n :: Coming(r, n) <==> Coming(s, n);
    assert forall n :: InProgress(r, n) <==> InProgress(s, n);
    assert forall n :: SerialOf(r, n) == SerialOf(s, n);
    hide InHand, Coming, InProgress, SerialOf;
  }

  lemma {:induction false} RunWaves(k: nat, es: seq<Event>)
    requires OneAtATime(k, es)
    ensures Waves(Run(Init(k), es))
    decreases |es|
  {
    hide Waves, Inv, Apply;
    if es == [] {
      NoWaves(k);
    } else {
      var before, e := es[..|es| - 1], es[|es| - 1];
      assert OneAtATime(k, before) by {
        forall i | 0 <= i < |before| && before[i] == Complete ensures Quiet(Run(Init(k), before[..i])) {
          assert before[..i] == es[..i] && es[i] == Complete;
        }
      }
      RunWaves(k, before);
      RunKeeps(k, before);
      WavesKeeps(Run(Init(k), before), e);
    }
  }

  lemma NoWaves(k: nat)
    ensures Waves(Init(k))
  {
  }

  // Between batches, buffers have been taken back in the order they were written.
  lemma TakenBackInOrder(k: nat, es: seq<Event>)
    requires OneAtATime(k, es) && !Run(Init(k), es).pc.Draining?
    ensures InOrder(Run(Init(k), es).ring.subs)
  {
    var s := Run(Init(k), es);
    RunWaves(k, es);
    RunKeeps(k, es);
    hide Run;
    forall i, j | 0 <= i < j < |s.ring.subs| && s.ring.subs[j].drained ensures s.ring.subs[i].drained {
      if !s.ring.subs[i].drained {
        assert HasHolder(s.heap, i);
        var m :| m in s.heap && s.heap[m].serial == i;
        LiveSerial(s, m);
        assert false;
      }
    }
  }

  // So free, pending and handed-out bytes are each one run around the ring.
  lemma ContiguousInSequence(k: nat, es: seq<Event>)
    requires OneAtATime(k, es) && !Run(Init(k), es).pc.Draining?
    ensures var s := Run(Init(k), es);
      && s.ring.posted + Moving(s.pc) == End(s.ring.subs) && s.ring.posted + s.ring.pend == |s.ring.accepted|
      && |s.ring.accepted| + s.ring.free == StartAt(s.ring.subs, FirstHeld(s.ring.subs)) + |s.ring.mem|
  {
    TakenBackInOrder(k, es);
    ContiguousIffInOrder(Run(Init(k), es));
  }
}
