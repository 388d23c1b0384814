// What every interleaving of the Windows audio output keeps.
module AudioOutputWin32Safety {
  import opened Optional
  import opened Bits
  import opened AudioOutput
  import opened AudioRing
  import opened AudioOutputWin32

  // ----- The nodes: who has which -------------------------------------------

  function At(l: seq<NodeId>, i: nat): Option<NodeId> { if i < |l| then Some(l[i]) else None }

  ghost predicate Chain(heap: map<NodeId, Node>, head: Option<NodeId>, l: seq<NodeId>) {
    && head == At(l, 0)
    && (forall i :: 0 <= i < |l| ==> l[i] in heap)
    && (forall i, j {:trigger l[i], l[j]} :: 0 <= i < j < |l| && j == i + 1 ==> heap[l[i]].next == Some(l[j]))
    && (l != [] ==> heap[l[|l| - 1]].next == None)
  }

  ghost predicate Distinct(l: seq<NodeId>) {
    forall i, j :: 0 <= i < j < |l| ==> l[i] != l[j]
  }

  function SpareHead(pc: MainPc): Option<NodeId> {
    if pc.Idle? || pc.Filling? || pc.Exchange? then None else pc.spare
  }

  // The node the main thread is about to write, if any.
  predicate Holding(pc: MainPc, n: NodeId) {
    (pc.Got? || pc.Counted? || pc.Refused?) && pc.node == n
  }

  function One(b: bool): nat { if b then 1 else 0 }

  // In how many places node n is.
  function Places(s: State, n: NodeId): nat {
    One(n in s.device) + One(n in s.entered) + One(n in s.pushing) + One(n in s.done)
    + One(n in s.spares) + One(Holding(s.pc, n))
  }

  // Every allocated node is in exactly one place, and no freed node is in any.
  ghost predicate Placed(s: State) {
    && Distinct(s.device) && Distinct(s.done) && Distinct(s.spares)
    && (forall n :: Places(s, n) == One(n in s.heap))
  }

  ghost predicate DoneLinked(s: State) { Chain(s.heap, s.doneHead, s.done) }

  ghost predicate SparesLinked(s: State) {
    && Chain(s.heap, SpareHead(s.pc), s.spares)
    && (s.pc.Draining? ==> s.pc.at <= |s.spares| && s.pc.buf == At(s.spares, s.pc.at))
  }

  // A callback about to swap has linked its node to the head it saw.
  ghost predicate PushesLinked(s: State) {
    forall n :: n in s.pushing && s.pushing[n].Swap? ==>
      n in s.heap && s.heap[n].next == s.pushing[n].head
  }

  // The two linked lists are what the history says.
  ghost predicate Linked(s: State) {
    DoneLinked(s) && SparesLinked(s) && PushesLinked(s)
  }

  // Headers counted for a write, less those called back or refused.
  ghost predicate CountInv(s: State) {
    s.inFlight == |s.device| + |s.entered| + One(s.pc.Counted? || s.pc.Refused?)
  }

  // Nodes whose ring space has not been taken back.
  ghost predicate Live(s: State, n: NodeId) {
    || n in s.device || n in s.entered || n in s.pushing || n in s.done
    || (s.pc.Draining? && s.pc.at <= |s.spares| && n in s.spares[s.pc.at..])
  }

  ghost predicate Matches(node: Node, sub: Sub, size: nat)
    requires size > 0
  {
    !sub.drained && node.len == sub.len && node.off == Slot(sub.start, size)
  }

  // A node holds a submission exactly while it is live, and no two hold the same.
  ghost predicate Holders(s: State) {
    && |s.ring.mem| > 0
    && (forall n :: n in s.heap ==> (s.heap[n].serial >= 0 <==> Live(s, n)))
    && (forall n :: n in s.heap && s.heap[n].serial >= 0 ==>
          s.heap[n].serial < |s.ring.subs| && Matches(s.heap[n], s.ring.subs[s.heap[n].serial], |s.ring.mem|))
    && (forall n, m :: n in s.heap && m in s.heap && n != m && s.heap[n].serial >= 0 ==>
          s.heap[n].serial != s.heap[m].serial)
  }

  // The device has the latest submissions, in order.
  ghost predicate Queue(s: State) {
    && |s.device| + s.ring.finished == |s.ring.subs|
    && (forall i :: 0 <= i < |s.device| ==>
          s.device[i] in s.heap && s.heap[s.device[i]].serial == s.ring.finished + i)
  }

  // The program counter against the ring.
  ghost predicate PcInv(s: State) {
    && (if s.pc.Written? then s.ring.posted + s.pc.len == End(s.ring.subs)
        else s.ring.posted == End(s.ring.subs))
    && (s.pc.Got? || s.pc.Counted? ==>
          && 0 < s.pc.len && s.ring.writtenHead + s.pc.len <= |s.ring.mem|
          && s.pc.node in s.heap && s.heap[s.pc.node].off == s.ring.writtenHead && s.heap[s.pc.node].len == s.pc.len)
    && s.extraDelay <= MAX_JITTER_MS
  }

  // Every submission not taken back is held by some node, so no space leaks.
  ghost predicate Kept(s: State) {
    forall k :: 0 <= k < |s.ring.subs| && !s.ring.subs[k].drained ==> HasHolder(s.heap, k)
  }

  ghost predicate HasHolder(heap: map<NodeId, Node>, k: int) {
    exists n :: n in heap && heap[n].serial == k
  }

  ghost predicate Inv(s: State) {
    && Valid(s) && RingInv(s.ring) && Placed(s) && Linked(s) && CountInv(s)
    && Holders(s) && Queue(s) && PcInv(s) && Kept(s)
  }

  lemma InitInv(k: nat)
    ensures Inv(Init(k))
  {
    forall n ensures Places(Init(k), n) == One(n in Init(k).heap) {}
  }

  // ----- The ring through every step ----------------------------------------

  lemma QueueHas(s: State, k: int)
    requires Queue(s)
    ensures s.ring.finished <= k < |s.ring.subs| ==>
      exists n :: n in s.device && n in s.heap && s.heap[n].serial == k
  {
    if s.ring.finished <= k < |s.ring.subs| {
      assert s.device[k - s.ring.finished] in s.device;
    }
  }

  // The node being drained is one the device has finished.
  lemma DrainedNode(s: State)
    requires Placed(s) && Linked(s) && Holders(s) && Queue(s)
    requires s.pc.Draining? && s.pc.buf.Some?
    ensures s.pc.buf.value in s.heap && s.pc.buf.value == s.spares[s.pc.at]
    ensures var node := s.heap[s.pc.buf.value];
      && 0 <= node.serial < s.ring.finished <= |s.ring.subs|
      && !s.ring.subs[node.serial].drained && node.len == s.ring.subs[node.serial].len
  {
    var n := s.pc.buf.value;
    assert n == s.spares[s.pc.at..][0];
    assert Live(s, n);
    assert Places(s, n) == One(n in s.heap);
    QueueHas(s, s.heap[n].serial);
  }

  lemma RingKeepsMain(s: State, now: nat, block: Option<NodeId>, ok: bool)
    requires Valid(s) && RingInv(s.ring) && PcInv(s) && Placed(s) && Linked(s) && Holders(s) && Queue(s)
    ensures RingInv(MainStep(s, now, block, ok).ring)
  {
    hide Accounts, Heads, Data, Stream, Put, Reclaim, Submit, Post, Placed, Linked, Holders, Queue;
    match s.pc
    case Filling(rest) => PutKeeps(s.ring, rest[..Room(s.ring, |rest|)]);
    case Draining(buf, _, _) =>
      if buf.Some? {
        DrainedNode(s);
        ReclaimKeeps(s.ring, s.heap[buf.value].serial);
      }
    case Counted(_, len, _) => SubmitKeeps(s.ring, len);
    case Written(len, _) => PostKeeps(s.ring, len);
    case _ =>
  }

  lemma RingKeeps(s: State, e: Event)
    requires Inv(s)
    ensures RingInv(Apply(s, e).ring)
  {
    hide Accounts, Heads, Data, Stream, MainStep, Read;
    match e
    case Complete =>
      if s.device != [] {
        var node := s.heap[s.device[0]];
        ReadKeeps(s.ring, node.off, node.len);
      }
    case Main(now, block, ok) => RingKeepsMain(s, now, block, ok);
    case _ =>
  }

  // ----- The counter --------------------------------------------------------

  lemma CountKeepsMain(s: State, now: nat, block: Option<NodeId>, ok: bool)
    requires Valid(s) && CountInv(s)
    ensures CountInv(MainStep(s, now, block, ok))
  {
    hide Valid, Room, Put, Post, Reclaim, Submit, Delay;
  }

  lemma CountKeepsComplete(s: State)
    requires Valid(s) && CountInv(s) && Placed(s)
    ensures CountInv(CompleteStep(s))
  {
    if s.device != [] {
      assert Places(s, s.device[0]) == One(s.device[0] in s.heap);
    }
  }

  lemma CountKeepsCallback(s: State, c: NodeId, now: nat)
    requires Valid(s) && CountInv(s)
    ensures CountInv(CallbackStep(s, c, now))
  {
  }

  // ----- Places ---------------------------------------------------------------

  lemma PlacedKeepsTake(s: State, block: Option<NodeId>)
    requires Valid(s) && Placed(s) && Linked(s) && s.pc.Writing?
    ensures Placed(Take(s, block))
  {
    var r := Take(s, block);
    forall n
      ensures Places(r, n) == One(n in r.heap)
    {
      assert Places(s, n) == One(n in s.heap);
    }
  }

  lemma PlacedKeepsGiveBack(s: State, node: NodeId)
    requires Valid(s) && Placed(s) && Holding(s.pc, node)
    ensures Placed(GiveBack(s, node, s.pc.spare))
  {
    var r := GiveBack(s, node, s.pc.spare);
    assert Places(s, node) == One(node in s.heap);
    forall n
      ensures Places(r, n) == One(n in r.heap)
    {
      assert Places(s, n) == One(n in s.heap);
    }
  }

  lemma PlacedKeepsHandOver(s: State)
    requires Valid(s) && Placed(s) && s.pc.Counted?
    ensures Placed(HandOver(s))
  {
    var r := HandOver(s);
    assert Places(s, s.pc.node) == One(s.pc.node in s.heap);
    forall n
      ensures Places(r, n) == One(n in r.heap)
    {
      assert Places(s, n) == One(n in s.heap);
    }
  }

  lemma PlacedKeepsFree(s: State)
    requires Valid(s) && Placed(s) && Linked(s) && s.pc.Freeing?
    ensures Placed(MainStep(s, 0, None, true))
  {
    hide Fill, Drain, Take, GiveBack, HandOver;
    var r := MainStep(s, 0, None, true);
    forall n
      ensures Places(r, n) == One(n in r.heap)
    {
      assert Places(s, n) == One(n in s.heap);
    }
  }

  lemma PlacedKeepsExchange(s: State)
    requires Valid(s) && Placed(s) && Linked(s) && s.pc.Exchange?
    ensures Placed(MainStep(s, 0, None, true))
  {
    hide Fill, Drain, Take, GiveBack, HandOver;
    var r := MainStep(s, 0, None, true);
    forall n
      ensures Places(r, n) == One(n in r.heap)
    {
      assert Places(s, n) == One(n in s.heap);
    }
  }

  lemma PlacedKeepsDrain(s: State, now: nat)
    requires Valid(s) && Placed(s) && Linked(s) && s.pc.Draining?
    ensures Placed(Drain(s, now))
  {
    hide Reclaim, Delay;
    var r := Drain(s, now);
    if s.pc.buf.Some? { assert s.spares[s.pc.at] == s.pc.buf.value; }
    forall n
      ensures Places(r, n) == One(n in r.heap)
    {
      assert Places(s, n) == One(n in s.heap);
    }
  }

  // Steps that only move the program counter, or only touch the ring.
  lemma PlacedKeepsOther(s: State, r: State)
    requires Placed(s)
    requires r.heap == s.heap && r.device == s.device && r.entered == s.entered && r.pushing == s.pushing
    requires r.done == s.done && r.spares == s.spares
    requires forall n :: Holding(r.pc, n) == Holding(s.pc, n)
    ensures Placed(r)
  {
    forall n
      ensures Places(r, n) == One(n in r.heap)
    {
      assert Places(s, n) == One(n in s.heap);
    }
  }

  lemma PlacedKeepsMain(s: State, now: nat, block: Option<NodeId>, ok: bool)
    requires Valid(s) && Placed(s) && Linked(s)
    ensures Placed(MainStep(s, now, block, ok))
  {
    hide Placed, Linked, Take, GiveBack, HandOver, Drain;
    var r := MainStep(s, now, block, ok);
    match s.pc
    case Exchange => PlacedKeepsExchange(s);
    case Draining(_, _, _) => PlacedKeepsDrain(s, now);
    case Writing(_) => PlacedKeepsTake(s, block);
    case Got(n, _, spare) => if ok { PlacedKeepsOther(s, r); } else { PlacedKeepsGiveBack(s, n); }
    case Counted(_, _, _) => if ok { PlacedKeepsHandOver(s); } else { PlacedKeepsOther(s, r); }
    case Refused(n, spare) =>
      var t := s.(inFlight := s.inFlight - 1);
      PlacedKeepsOther(s, t);
      PlacedKeepsGiveBack(t, n);
    case Freeing(_) => PlacedKeepsFree(s);
    case _ => PlacedKeepsOther(s, r);
  }

  lemma PlacedKeepsComplete(s: State)
    requires Valid(s) && Placed(s)
    ensures Placed(CompleteStep(s))
  {
    hide Read, AudioRing.Wf;
    forall n
      ensures Places(CompleteStep(s), n) == One(n in s.heap)
    {
      assert Places(s, n) == One(n in s.heap);
    }
  }

  lemma PlacedKeepsCallback(s: State, c: NodeId, now: nat)
    requires Valid(s) && Placed(s)
    ensures Placed(CallbackStep(s, c, now))
  {
    assert Places(s, c) == One(c in s.heap);
    forall n
      ensures Places(CallbackStep(s, c, now), n) == One(n in CallbackStep(s, c, now).heap)
    {
      assert Places(s, n) == One(n in s.heap);
    }
  }

  // ----- Linked lists ---------------------------------------------------------

  // Node n is still there and linked to the same.
  predicate SameNext(heap: map<NodeId, Node>, heap': map<NodeId, Node>, n: NodeId) {
    n in heap ==> n in heap' && heap'[n].next == heap[n].next
  }

  // Changing a node that is in no list, or nothing but its history, keeps a list.
  lemma ChainFrame(heap: map<NodeId, Node>, heap': map<NodeId, Node>, head: Option<NodeId>, l: seq<NodeId>)
    requires Chain(heap, head, l)
    requires forall n :: n in l ==> SameNext(heap, heap', n)
    ensures Chain(heap', head, l)
  {
    forall i | 0 <= i < |l| ensures l[i] in heap' && heap'[l[i]].next == heap[l[i]].next {
      assert SameNext(heap, heap', l[i]);
    }
  }

  // A node is on this list at most: not with another callback, the device or the main thread.
  ghost predicate OnlySpare(s: State, n: NodeId) {
    && n in s.heap && n !in s.done && n !in s.pushing && n !in s.entered && n !in s.device && !Holding(s.pc, n)
  }

  ghost predicate OnlyDone(s: State, n: NodeId) {
    && n in s.heap && n !in s.spares && n !in s.pushing && n !in s.entered && n !in s.device && !Holding(s.pc, n)
  }

  ghost predicate OnlyPushing(s: State, n: NodeId) {
    && n in s.heap && n !in s.spares && n !in s.done && n !in s.entered && n !in s.device && !Holding(s.pc, n)
  }

  ghost predicate OnlyEntered(s: State, n: NodeId) {
    && n in s.heap && n !in s.spares && n !in s.done && n !in s.pushing && n !in s.device && !Holding(s.pc, n)
  }

  ghost predicate OnlyDevice(s: State, n: NodeId) {
    && n in s.heap && n !in s.spares && n !in s.done && n !in s.pushing && n !in s.entered && !Holding(s.pc, n)
  }

  ghost predicate OnlyHeld(s: State, n: NodeId) {
    && n in s.heap && n !in s.spares && n !in s.done && n !in s.pushing && n !in s.entered && n !in s.device
  }

  // A node in one place is in no other.
  lemma Apart(s: State, n: NodeId)
    requires Placed(s)
    ensures n in s.spares ==> OnlySpare(s, n)
    ensures n in s.done ==> OnlyDone(s, n)
    ensures n in s.pushing ==> OnlyPushing(s, n)
    ensures n in s.entered ==> OnlyEntered(s, n)
    ensures n in s.device ==> OnlyDevice(s, n)
    ensures Holding(s.pc, n) ==> OnlyHeld(s, n)
  {
    assert Places(s, n) == One(n in s.heap);
  }

  lemma AllApart(s: State)
    requires Placed(s)
    ensures forall n :: n in s.spares ==> OnlySpare(s, n)
    ensures forall n :: n in s.done ==> OnlyDone(s, n)
    ensures forall n :: n in s.pushing ==> OnlyPushing(s, n)
  {
    forall n | n in s.spares ensures OnlySpare(s, n) { Apart(s, n); }
    forall n | n in s.done ensures OnlyDone(s, n) { Apart(s, n); }
    forall n | n in s.pushing ensures OnlyPushing(s, n) { Apart(s, n); }
  }

  // Steps that relink at most a node in the main thread's hand or on the spare list.
  lemma SharedKept(s: State, r: State, x: NodeId)
    requires Placed(s) && DoneLinked(s) && PushesLinked(s)
    requires r.done == s.done && r.doneHead == s.doneHead && r.pushing == s.pushing
    requires x in s.heap ==> Holding(s.pc, x) || x in s.spares
    requires forall n :: n != x ==> SameNext(s.heap, r.heap, n)
    ensures DoneLinked(r) && PushesLinked(r)
  {
    AllApart(s);
    hide Placed, Places, Holding;
    ChainFrame(s.heap, r.heap, s.doneHead, s.done);
    forall n | n in s.pushing ensures SameNext(s.heap, r.heap, n) {
      assert n != x;
    }
  }

  lemma SparesKept(s: State, r: State, x: NodeId)
    requires SparesLinked(s) && r.spares == s.spares && SpareHead(r.pc) == SpareHead(s.pc) && !r.pc.Draining?
    requires x !in s.spares && forall n :: n != x ==> SameNext(s.heap, r.heap, n)
    ensures SparesLinked(r)
  {
    ChainFrame(s.heap, r.heap, SpareHead(s.pc), s.spares);
  }

  lemma ChainTail(heap: map<NodeId, Node>, head: Option<NodeId>, l: seq<NodeId>)
    requires Chain(heap, head, l) && l != []
    ensures l[0] in heap && Chain(heap, heap[l[0]].next, l[1..])
  {
  }

  lemma ChainCons(heap: map<NodeId, Node>, head: Option<NodeId>, l: seq<NodeId>, n: NodeId)
    requires Chain(heap, head, l) && n in heap && heap[n].next == head
    ensures Chain(heap, Some(n), [n] + l)
  {
  }

  // The spare list without its first node, whatever becomes of that.
  lemma TailKept(s: State, r: State)
    requires Distinct(s.spares) && SparesLinked(s) && s.spares != []
    requires r.spares == s.spares[1..] && !r.pc.Draining? && SpareHead(r.pc) == Deref(s.heap, s.spares[0]).next
    requires forall n :: n != s.spares[0] ==> SameNext(s.heap, r.heap, n)
    ensures SparesLinked(r)
  {
    ChainTail(s.heap, SpareHead(s.pc), s.spares);
    ChainFrame(s.heap, r.heap, s.heap[s.spares[0]].next, s.spares[1..]);
  }

  lemma LinkedKeepsDrain(s: State, now: nat)
    requires Valid(s) && Placed(s) && Linked(s) && s.pc.Draining?
    ensures Linked(Drain(s, now))
  {
    hide Placed, Reclaim, Delay, Chain;
    var r := Drain(s, now);
    if s.pc.buf.Some? {
      var n := s.pc.buf.value;
      assert n in s.heap && s.heap[n].next == At(s.spares, s.pc.at + 1) by {
        ChainAt(s.heap, SpareHead(s.pc), s.spares, s.pc.at);
      }
      assert forall m :: SameNext(s.heap, r.heap, m);
      ChainFrame(s.heap, r.heap, s.doneHead, s.done);
      ChainFrame(s.heap, r.heap, SpareHead(s.pc), s.spares);
    }
  }

  lemma ChainAt(heap: map<NodeId, Node>, head: Option<NodeId>, l: seq<NodeId>, i: nat)
    requires Chain(heap, head, l) && i < |l|
    ensures l[i] in heap && heap[l[i]].next == At(l, i + 1)
  {
    if i + 1 < |l| { assert l[i + 1] == l[i + 1]; }
  }

  lemma LinkedKeepsTake(s: State, block: Option<NodeId>)
    requires Valid(s) && Placed(s) && Linked(s) && s.pc.Writing?
    ensures Linked(Take(s, block))
  {
    var r := Take(s, block);
    hide Chain, Placed;
    if s.ring.pend > 0 && s.pc.spare.Some? {
      assert s.spares != [] && s.spares[0] == s.pc.spare.value by { HeadFirst(s); }
      SharedKept(s, r, s.spares[0]);
      TailKept(s, r) by { SparesDistinct(s); }
    } else if s.ring.pend > 0 && block.Some? && block.value !in s.heap {
      SharedKept(s, r, block.value);
      NewNotSpare(s, block.value);
      SparesKept(s, r, block.value);
    }
  }

  lemma HeadFirst(s: State)
    requires SparesLinked(s)
    ensures SpareHead(s.pc) == At(s.spares, 0)
  {
  }

  lemma SparesDistinct(s: State)
    requires Placed(s)
    ensures Distinct(s.spares)
  {
  }

  lemma NewNotSpare(s: State, n: NodeId)
    requires Placed(s) && n !in s.heap
    ensures n !in s.spares
  {
    assert Places(s, n) == One(n in s.heap);
  }

  lemma LinkedKeepsGiveBack(s: State, n: NodeId)
    requires Valid(s) && Placed(s) && Linked(s) && Holding(s.pc, n)
    ensures Linked(GiveBack(s, n, s.pc.spare))
  {
    var r := GiveBack(s, n, s.pc.spare);
    Apart(s, n);
    hide Placed, Chain;
    SharedKept(s, r, n);
    ChainFrame(s.heap, r.heap, SpareHead(s.pc), s.spares);
    ChainCons(r.heap, s.pc.spare, s.spares, n);
  }

  lemma LinkedKeepsHandOver(s: State)
    requires Valid(s) && Placed(s) && Linked(s) && s.pc.Counted?
    ensures Linked(HandOver(s))
  {
    var r := HandOver(s);
    Apart(s, s.pc.node);
    hide Placed, Chain, Submit;
    SharedKept(s, r, s.pc.node);
    SparesKept(s, r, s.pc.node);
  }

  lemma LinkedKeepsFree(s: State)
    requires Valid(s) && Placed(s) && Linked(s) && s.pc.Freeing?
    ensures Linked(MainStep(s, 0, None, true))
  {
    hide Chain, Placed, Fill, Drain, Take, GiveBack, HandOver;
    var r := MainStep(s, 0, None, true);
    HeadFirst(s);
    if s.pc.spare.Some? {
      SharedKept(s, r, s.spares[0]);
      TailKept(s, r) by { SparesDistinct(s); }
    }
  }

  lemma LinkedKeepsMain(s: State, now: nat, block: Option<NodeId>, ok: bool)
    requires Valid(s) && Placed(s) && Linked(s)
    ensures Linked(MainStep(s, now, block, ok))
  {
    hide Placed, Chain, Take, GiveBack, HandOver, Drain, Post, Put;
    match s.pc
    case Draining(_, _, _) => LinkedKeepsDrain(s, now);
    case Writing(_) => LinkedKeepsTake(s, block);
    case Got(n, _, _) => if !ok { LinkedKeepsGiveBack(s, n); }
    case Counted(_, _, _) => if ok { LinkedKeepsHandOver(s); }
    case Refused(n, _) =>
      var t := s.(inFlight := s.inFlight - 1);
      PlacedKeepsOther(s, t);
      LinkedKeepsGiveBack(t, n);
    case Freeing(_) => LinkedKeepsFree(s);
    case Exchange =>
      ChainNone(s.heap);
      ChainHead(s.heap, s.doneHead, s.done);
    case _ =>
  }

  lemma ChainHead(heap: map<NodeId, Node>, head: Option<NodeId>, l: seq<NodeId>)
    requires Chain(heap, head, l)
    ensures head == At(l, 0)
  {
  }

  lemma ChainNone(heap: map<NodeId, Node>)
    ensures Chain(heap, None, [])
  {
  }

  // A callback relinks only its own node, which is in neither list.
  lemma CallbackKeepsLists(s: State, c: NodeId, now: nat)
    requires Valid(s) && Placed(s) && DoneLinked(s) && SparesLinked(s) && PushesLinked(s)
    ensures DoneLinked(CallbackStep(s, c, now)) && SparesLinked(CallbackStep(s, c, now))
  {
    if c in s.entered || c in s.pushing {
      Apart(s, c);
      hide Placed, Chain;
      var r := CallbackStep(s, c, now);
      CallbackFrame(s, c, now);
      hide CallbackStep;
      ChainFrame(s.heap, r.heap, SpareHead(s.pc), s.spares);
      ChainFrame(s.heap, r.heap, s.doneHead, s.done);
      if r.done != s.done { ChainCons(r.heap, s.doneHead, s.done, c); }
    }
  }

  lemma CallbackFrame(s: State, c: NodeId, now: nat)
    requires Valid(s) && PushesLinked(s) && (c in s.entered || c in s.pushing) && c in s.heap
    ensures var r := CallbackStep(s, c, now);
      && r.pc == s.pc && r.spares == s.spares
      && (forall n :: n != c ==> SameNext(s.heap, r.heap, n))
      && (if r.done == s.done then r.doneHead == s.doneHead
          else r.done == [c] + s.done && r.doneHead == Some(c) && c in r.heap && r.heap[c].next == s.doneHead)
  {
  }

  lemma CallbackKeepsPushes(s: State, c: NodeId, now: nat)
    requires Valid(s) && PushesLinked(s) && (c in s.entered || c in s.pushing ==> c in s.heap)
    requires c in s.entered ==> c !in s.pushing
    ensures PushesLinked(CallbackStep(s, c, now))
  {
  }

  lemma LinkedKeepsCallback(s: State, c: NodeId, now: nat)
    requires Valid(s) && Placed(s) && Linked(s)
    ensures Linked(CallbackStep(s, c, now))
  {
    Apart(s, c);
    hide Placed, CallbackStep, DoneLinked, SparesLinked, PushesLinked;
    CallbackKeepsLists(s, c, now);
    CallbackKeepsPushes(s, c, now);
  }

  // ----- Holders of ring space ------------------------------------------------

  // The same nodes hold the same ring space.
  ghost predicate SameHolding(heap: map<NodeId, Node>, heap': map<NodeId, Node>) {
    && (forall n :: n in heap && heap[n].serial >= 0 ==> n in heap' && heap'[n].serial >= 0)
    && (forall n :: n in heap' && heap'[n].serial >= 0 ==>
          n in heap && heap[n].serial == heap'[n].serial && heap[n].len == heap'[n].len && heap[n].off == heap'[n].off)
  }

  ghost predicate SameLive(s: State, r: State) {
    forall n :: Live(r, n) <==> Live(s, n)
  }

  // Steps that change neither who is live nor any submission or holding.
  lemma HoldersFrame(s: State, r: State)
    requires Placed(s) && Holders(s) && Kept(s)
    requires |r.ring.mem| == |s.ring.mem| && r.ring.subs == s.ring.subs
    requires SameHolding(s.heap, r.heap) && SameLive(s, r)
    ensures Holders(r) && Kept(r)
  {
    forall n | Live(s, n)
      ensures n in s.heap
    {
      assert Places(s, n) == One(n in s.heap);
    }
    hide Placed, Live;
    forall k | 0 <= k < |r.ring.subs| && !r.ring.subs[k].drained
      ensures HasHolder(r.heap, k)
    {
      assert HasHolder(s.heap, k);
    }
  }

  lemma QueueFrame(s: State, r: State)
    requires Queue(s)
    requires r.ring.subs == s.ring.subs && r.device == s.device && r.ring.finished == s.ring.finished
    requires SameHolding(s.heap, r.heap)
    ensures Queue(r)
  {
    forall i | 0 <= i < |r.device|
      ensures r.device[i] in r.heap && r.heap[r.device[i]].serial == r.ring.finished + i
    {
      assert s.heap[s.device[i]].serial == s.ring.finished + i;
    }
  }

  lemma LiveAfterDrain(s: State, now: nat)
    requires Valid(s) && Placed(s) && s.pc.Draining? && s.pc.buf.Some?
    requires s.pc.at < |s.spares| && s.pc.buf.value == s.spares[s.pc.at]
    ensures forall m :: Live(Drain(s, now), m) <==> Live(s, m) && m != s.pc.buf.value
  {
    var n := s.pc.buf.value;
    Apart(s, n);
    assert s.spares[s.pc.at..] == [n] + s.spares[s.pc.at + 1..];
    assert n !in s.spares[s.pc.at + 1..];
    hide Placed, Places, Reclaim, Delay;
  }

  // One holder less, and its submission drained.
  lemma HoldersWithout(s: State, r: State, n: NodeId)
    requires Holders(s) && n in s.heap && s.heap[n].serial >= 0
    requires |r.ring.mem| == |s.ring.mem| && |r.ring.subs| == |s.ring.subs|
    requires forall k {:trigger r.ring.subs[k]} :: 0 <= k < |s.ring.subs| && k != s.heap[n].serial ==>
      r.ring.subs[k] == s.ring.subs[k]
    requires r.heap.Keys == s.heap.Keys && r.heap[n].serial == -1
    requires forall m {:trigger r.heap[m]} :: m in s.heap && m != n ==> r.heap[m] == s.heap[m]
    requires forall m :: Live(r, m) <==> Live(s, m) && m != n
    ensures Holders(r)
  {
    hide Live, Matches;
  }

  lemma QueueWithout(s: State, r: State, n: NodeId)
    requires Queue(s) && n in s.heap && s.heap[n].serial < s.ring.finished
    requires |r.ring.subs| == |s.ring.subs| && r.ring.finished == s.ring.finished && r.device == s.device
    requires r.heap.Keys == s.heap.Keys
    requires forall m {:trigger r.heap[m]} :: m in s.heap && m != n ==> r.heap[m] == s.heap[m]
    ensures Queue(r)
  {
  }

  lemma HoldersKeepsDrain(s: State, now: nat)
    requires Valid(s) && Placed(s) && Linked(s) && Holders(s) && Queue(s) && s.pc.Draining? && s.pc.buf.Some?
    ensures Holders(Drain(s, now)) && Queue(Drain(s, now))
  {
    var n, r := s.pc.buf.value, Drain(s, now);
    DrainedNode(s);
    LiveAfterDrain(s, now);
    DrainMarks(s, now);
    hide Placed, Linked, Live, Drain, Holders, Queue, Valid;
    assert r.heap.Keys == s.heap.Keys;
    HoldersWithout(s, r, n);
    QueueWithout(s, r, n);
  }

  // What draining a node does to holders and submissions.
  lemma DrainMarks(s: State, now: nat)
    requires Valid(s) && s.pc.Draining? && s.pc.buf.Some?
    ensures var n, r := s.pc.buf.value, Drain(s, now);
      && |r.ring.mem| == |s.ring.mem| && r.ring.finished == s.ring.finished && r.device == s.device
      && |r.ring.subs| == |s.ring.subs|
      && (forall k {:trigger r.ring.subs[k]} :: 0 <= k < |s.ring.subs| && k != Deref(s.heap, n).serial ==>
            r.ring.subs[k] == s.ring.subs[k])
      && r.heap.Keys == s.heap.Keys + {n} && r.heap[n].serial == -1
      && (forall m {:trigger r.heap[m]} :: m in s.heap && m != n ==> r.heap[m] == s.heap[m])
  {
    hide Delay, Valid;
  }

  lemma KeptKeepsDrain(s: State, now: nat)
    requires Valid(s) && Placed(s) && Linked(s) && Holders(s) && Queue(s) && Kept(s) && s.pc.Draining? && s.pc.buf.Some?
    ensures Kept(Drain(s, now))
  {
    DrainedNode(s);
    var n, r := s.pc.buf.value, Drain(s, now);
    forall k | 0 <= k < |r.ring.subs| && !r.ring.subs[k].drained
      ensures HasHolder(r.heap, k)
    {
      assert HasHolder(s.heap, k);
      var m :| m in s.heap && s.heap[m].serial == k;
      assert m in r.heap && r.heap[m].serial == k;
    }
  }

  lemma HoldersKeepsHandOver(s: State)
    requires Valid(s) && Placed(s) && Holders(s) && Queue(s) && PcInv(s) && Heads(s.ring) && s.pc.Counted?
    ensures Holders(HandOver(s)) && Queue(HandOver(s))
  {
    var r := HandOver(s);
    Apart(s, s.pc.node);
    assert forall m :: Live(r, m) <==> Live(s, m) || m == s.pc.node;
    hide Placed, Places, Stream, Live;
  }

  lemma KeptKeepsHandOver(s: State)
    requires Valid(s) && Placed(s) && Holders(s) && Kept(s) && s.pc.Counted?
    ensures Kept(HandOver(s))
  {
    var r := HandOver(s);
    Apart(s, s.pc.node);
    assert s.heap[s.pc.node].serial < 0;
    hide Placed, Places, Live, Holders;
    assert r.heap[s.pc.node].serial == |s.ring.subs|;
    forall k | 0 <= k < |r.ring.subs| && !r.ring.subs[k].drained
      ensures HasHolder(r.heap, k)
    {
      if k < |s.ring.subs| {
        assert HasHolder(s.heap, k);
        var m :| m in s.heap && s.heap[m].serial == k;
        assert m in r.heap && r.heap[m].serial == k;
      }
    }
  }

  lemma HoldersKeepsComplete(s: State)
    requires Valid(s) && Placed(s) && Holders(s) && Queue(s) && Kept(s)
    ensures var r := CompleteStep(s); Holders(r) && Queue(r) && Kept(r)
  {
    if s.device != [] {
      HoldersFrame(s, CompleteStep(s));
    }
  }

  lemma CallbackLive(s: State, c: NodeId, now: nat)
    requires Valid(s)
    ensures SameLive(s, CallbackStep(s, c, now))
  {
    hide Valid, SetNext;
  }

  lemma CallbackHolding(s: State, c: NodeId, now: nat)
    requires Valid(s) && (c in s.entered || c in s.pushing ==> c in s.heap)
    ensures SameHolding(s.heap, CallbackStep(s, c, now).heap)
  {
    hide Valid;
  }

  lemma HoldingKeepsCallback(s: State, c: NodeId, now: nat)
    requires Valid(s) && Placed(s)
    ensures SameLive(s, CallbackStep(s, c, now)) && SameHolding(s.heap, CallbackStep(s, c, now).heap)
  {
    hide Placed, SameLive, SameHolding, CallbackStep;
    Apart(s, c);
    CallbackLive(s, c, now);
    CallbackHolding(s, c, now);
  }

  lemma CallbackRing(s: State, c: NodeId, now: nat)
    requires Valid(s)
    ensures CallbackStep(s, c, now).ring == s.ring && CallbackStep(s, c, now).device == s.device
  {
    hide Valid;
  }

  lemma HoldersKeepsCallback(s: State, c: NodeId, now: nat)
    requires Valid(s) && Placed(s) && Holders(s) && Queue(s) && Kept(s)
    ensures var r := CallbackStep(s, c, now); Holders(r) && Queue(r) && Kept(r)
  {
    assert |s.ring.mem| > 0;
    hide Placed, Holders, Queue, Kept, SameLive, SameHolding, CallbackStep;
    CallbackRing(s, c, now);
    HoldingKeepsCallback(s, c, now);
    HoldersFrame(s, CallbackStep(s, c, now));
    QueueFrame(s, CallbackStep(s, c, now));
  }

  lemma TakeLive(s: State, block: Option<NodeId>)
    requires Valid(s) && s.pc.Writing?
    ensures SameLive(s, Take(s, block))
  {
    hide Valid;
  }

  // A node that holds nothing may change.
  lemma SameHoldingBut(heap: map<NodeId, Node>, n: NodeId, node: Node)
    requires (n in heap ==> heap[n].serial < 0) && node.serial < 0
    ensures SameHolding(heap, heap[n := node])
  {
  }

  lemma HoldingKeepsTake(s: State, block: Option<NodeId>)
    requires Valid(s) && Placed(s) && Linked(s) && Holders(s) && s.pc.Writing?
    ensures SameLive(s, Take(s, block)) && SameHolding(s.heap, Take(s, block).heap)
  {
    TakeLive(s, block);
    HeadFirst(s);
    var r := Take(s, block);
    if s.pc.spare.Some? {
      var n := s.spares[0];
      assert n in s.heap && s.heap[n].serial < 0 by {
        Apart(s, n);
        assert !Live(s, n);
      }
      hide Placed, Linked, Holders, Live, SameLive, SameHolding;
      if s.ring.pend > 0 { SameHoldingBut(s.heap, n, r.heap[n]); }
    } else {
      hide Placed, Linked, Holders, Live, SameLive, SameHolding;
      if s.ring.pend > 0 && block.Some? && block.value !in s.heap {
        SameHoldingBut(s.heap, block.value, r.heap[block.value]);
      }
    }
    SameHoldingSelf(s.heap);
  }

  lemma SameHoldingSelf(heap: map<NodeId, Node>)
    ensures SameHolding(heap, heap)
  {
  }

  lemma HoldingKeepsGiveBack(s: State, n: NodeId)
    requires Valid(s) && Placed(s) && Holding(s.pc, n)
    ensures SameLive(s, GiveBack(s, n, s.pc.spare)) && SameHolding(s.heap, GiveBack(s, n, s.pc.spare).heap)
  {
    Apart(s, n);
    hide Placed, Places;
  }

  lemma HoldingKeepsFree(s: State)
    requires Valid(s) && Placed(s) && Linked(s) && Holders(s) && s.pc.Freeing?
    ensures SameLive(s, MainStep(s, 0, None, true)) && SameHolding(s.heap, MainStep(s, 0, None, true).heap)
  {
    if s.pc.spare.Some? {
      Apart(s, s.spares[0]);
      assert !Live(s, s.spares[0]);
    }
    hide Placed, Places, Fill, Drain, Take, GiveBack, HandOver;
  }

  lemma HoldingKeepsOther(s: State, r: State)
    requires Linked(s)
    requires r.heap == s.heap && r.device == s.device && r.entered == s.entered && r.pushing == s.pushing
    requires if s.pc.Exchange? then r.done == [] && r.spares == s.done && r.pc == Draining(s.doneHead, 0, s.doneHead)
             else r.done == s.done && r.spares == s.spares && !r.pc.Draining?
    requires s.pc.Draining? ==> s.pc.buf.None?
    ensures SameLive(s, r) && SameHolding(s.heap, r.heap)
  {
    if s.pc.Exchange? { assert r.spares[0..] == s.done; }
  }

  lemma HoldingKeepsRefused(s: State)
    requires Valid(s) && Placed(s) && s.pc.Refused?
    ensures SameLive(s, MainStep(s, 0, None, true)) && SameHolding(s.heap, MainStep(s, 0, None, true).heap)
  {
    Apart(s, s.pc.node);
    hide Placed, Places, Fill, Drain, Take, HandOver;
  }

  // The main thread's steps that only move nodes holding nothing.
  lemma HoldingKeepsMain(s: State, now: nat, block: Option<NodeId>, ok: bool)
    requires Valid(s) && Placed(s) && Linked(s) && Holders(s)
    requires !(s.pc.Draining? && s.pc.buf.Some?) && !(s.pc.Counted? && ok)
    ensures var r := MainStep(s, now, block, ok); SameLive(s, r) && SameHolding(s.heap, r.heap)
  {
    hide Placed, Linked, Holders, Put, Post, SameHolding, SameLive, Take, GiveBack, HandOver;
    var r := MainStep(s, now, block, ok);
    match s.pc
    case Writing(_) => HoldingKeepsTake(s, block);
    case Got(n, _, _) => if ok { HoldingKeepsOther(s, r); } else { HoldingKeepsGiveBack(s, n); }
    case Refused(n, _) => HoldingKeepsRefused(s);
    case Freeing(_) => HoldingKeepsFree(s);
    case _ => HoldingKeepsOther(s, r);
  }

  lemma SubsKept(s: State, now: nat, block: Option<NodeId>, ok: bool)
    requires Valid(s) && !(s.pc.Draining? && s.pc.buf.Some?) && !(s.pc.Counted? && ok)
    ensures var r := MainStep(s, now, block, ok);
      && r.ring.subs == s.ring.subs && |r.ring.mem| == |s.ring.mem|
      && r.device == s.device && r.ring.finished == s.ring.finished
  {
  }

  lemma HoldersKeepsIdleNodes(s: State, now: nat, block: Option<NodeId>, ok: bool)
    requires Valid(s) && Placed(s) && Linked(s) && Holders(s) && Queue(s) && Kept(s)
    requires !(s.pc.Draining? && s.pc.buf.Some?) && !(s.pc.Counted? && ok)
    ensures var r := MainStep(s, now, block, ok); Holders(r) && Queue(r) && Kept(r)
  {
    var r := MainStep(s, now, block, ok);
    HoldingKeepsMain(s, now, block, ok);
    SubsKept(s, now, block, ok);
    hide Placed, Linked, Holders, Queue, Kept, SameHolding, SameLive, MainStep;
    HoldersFrame(s, r);
    QueueFrame(s, r);
  }

  lemma HoldersKeepsMain(s: State, now: nat, block: Option<NodeId>, ok: bool)
    requires Valid(s) && Placed(s) && Linked(s) && Holders(s) && Queue(s) && Kept(s) && PcInv(s) && Heads(s.ring)
    ensures var r := MainStep(s, now, block, ok); Holders(r) && Queue(r) && Kept(r)
  {
    hide Placed, Holders, Queue, Kept, Linked, Heads, PcInv, HandOver, Drain;
    if s.pc.Draining? && s.pc.buf.Some? {
      HoldersKeepsDrain(s, now);
      KeptKeepsDrain(s, now);
    } else if s.pc.Counted? && ok {
      HoldersKeepsHandOver(s);
      KeptKeepsHandOver(s);
    } else {
      HoldersKeepsIdleNodes(s, now, block, ok);
    }
  }

  // ----- The program counter ----------------------------------------------------

  lemma PcKeepsFill(s: State)
    requires Valid(s) && PcInv(s) && s.pc.Filling?
    ensures PcInv(Fill(s))
  {
    hide Overwrite, Slot, End;
  }

  lemma PcKeepsDrain(s: State, now: nat)
    requires Valid(s) && PcInv(s) && s.pc.Draining?
    ensures PcInv(Drain(s, now))
  {
    if s.pc.buf.Some? {
      MarkKeepsEnd(s.ring.subs, Deref(s.heap, s.pc.buf.value).serial);
    }
    hide MarkDrained, End;
  }

  lemma PcKeepsTake(s: State, block: Option<NodeId>)
    requires Valid(s) && PcInv(s) && s.pc.Writing?
    ensures PcInv(Take(s, block))
  {
    hide End;
  }

  lemma PcKeepsMain(s: State, now: nat, block: Option<NodeId>, ok: bool)
    requires Valid(s) && PcInv(s)
    ensures PcInv(MainStep(s, now, block, ok))
  {
    hide Fill, Drain, Take;
    match s.pc
    case Filling(_) => PcKeepsFill(s);
    case Draining(_, _, _) => PcKeepsDrain(s, now);
    case Writing(_) => PcKeepsTake(s, block);
    case _ => hide Slot;
  }

  lemma PcKeepsComplete(s: State)
    requires Valid(s) && PcInv(s)
    ensures PcInv(CompleteStep(s)) && (Linked(s) ==> Linked(CompleteStep(s)))
  {
  }

  // start() and play() enter the fill loop and touch nothing else.
  lemma Enters(s: State, e: Event)
    requires Valid(s) && (e.Start? || e.Play?)
    ensures Apply(s, e) == s ||
      (s.pc.Idle? && exists stream: nat, rest :: Apply(s, e) == s.(stream := stream, pc := Filling(rest)))
  {
    hide Valid;
  }

  lemma EnteredKeeps(s: State, stream: nat, rest: seq<Byte>)
    requires Inv(s) && s.pc.Idle?
    ensures Inv(s.(stream := stream, pc := Filling(rest)))
  {
    var r := s.(stream := stream, pc := Filling(rest));
    EnteredSmall(s, stream, rest);
    assert Linked(s) && Placed(s) && Holders(s) && Kept(s) && Queue(s);
    hide RingInv, Placed, Holders, Queue, Kept, SameHolding, SameLive, CountInv, PcInv, Valid;
    hide DoneLinked, PushesLinked, SparesLinked;
    PlacedKeepsOther(s, r);
    HoldingKeepsOther(s, r);
    HoldersFrame(s, r);
    QueueFrame(s, r);
  }

  lemma EnteredSmall(s: State, stream: nat, rest: seq<Byte>)
    requires Valid(s) && Linked(s) && CountInv(s) && PcInv(s) && s.pc.Idle?
    ensures var r := s.(stream := stream, pc := Filling(rest)); Valid(r) && Linked(r) && CountInv(r) && PcInv(r)
  {
    hide Chain, End;
  }

  lemma FrameKeeps(s: State, e: Event)
    requires Inv(s) && (e.Start? || e.Play?)
    ensures Inv(Apply(s, e))
  {
    Enters(s, e);
    assert Valid(s);
    hide Inv, Apply;
    if Apply(s, e) != s {
      var stream: nat, rest :| Apply(s, e) == s.(stream := stream, pc := Filling(rest));
      EnteredKeeps(s, stream, rest);
    }
  }

  lemma PcKeepsCallback(s: State, c: NodeId, now: nat)
    requires Valid(s) && PcInv(s) && Placed(s)
    ensures PcInv(CallbackStep(s, c, now))
  {
    Apart(s, c);
    if s.pc.Got? || s.pc.Counted? { Apart(s, s.pc.node); }
  }

  // ----- Every run ---------------------------------------------------------------

  lemma InvKeeps(s: State, e: Event)
    requires Inv(s)
    ensures Inv(Apply(s, e))
  {
    RingKeeps(s, e);
    hide Placed, Linked, Holders, Queue, Kept, PcInv, CountInv, Valid, RingInv, MainStep, CompleteStep, CallbackStep;
    match e
    case Start => FrameKeeps(s, e);
    case Play(_) => FrameKeeps(s, e);
    case Main(now, block, ok) =>
      PlacedKeepsMain(s, now, block, ok);
      LinkedKeepsMain(s, now, block, ok);
      CountKeepsMain(s, now, block, ok);
      HoldersKeepsMain(s, now, block, ok);
      PcKeepsMain(s, now, block, ok);
    case Complete =>
      PlacedKeepsComplete(s);
      CountKeepsComplete(s);
      HoldersKeepsComplete(s);
      PcKeepsComplete(s);
    case Callback(c, now) =>
      PlacedKeepsCallback(s, c, now);
      LinkedKeepsCallback(s, c, now);
      CountKeepsCallback(s, c, now);
      HoldersKeepsCallback(s, c, now);
      PcKeepsCallback(s, c, now);
  }

  lemma {:induction false} RunKeeps(k: nat, es: seq<Event>)
    ensures Inv(Run(Init(k), es))
    decreases |es|
  {
    if es == [] {
      InitInv(k);
    } else {
      RunKeeps(k, es[..|es| - 1]);
      InvKeeps(Run(Init(k), es[..|es| - 1]), es[|es| - 1]);
    }
  }
}
