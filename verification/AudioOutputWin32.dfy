// The Windows audio output: one byte ring shared with a device that gives its
// buffers back on threads of its own, through a list pushed with compare-and-swap
// and taken with one exchange. Every access to shared memory is a step of its own,
// so a sequence of events is an arbitrary interleaving of the main thread, the
// device and any number of callbacks.
module AudioOutputWin32 {
  import opened Optional
  import opened Bits
  import opened AudioOutput
  import opened AudioRing

  type NodeId = nat

  // One asynchronous write. `serial` is history: which submission the node still
  // holds ring space for, or -1.
  datatype Node = Node(off: nat, len: nat, stream: nat,
                       starved: bool, starvedAt: nat, next: Option<NodeId>,
                       serial: int)

  const ZEROED := Node(0, 0, 0, false, 0, None, -1)

  // Where one callback is in its push loop, after the decrement.
  datatype Push =
    | Load                          // about to read the head
    | Link(head: Option<NodeId>)    // about to store the head in its own next
    | Swap(head: Option<NodeId>)    // about to compare and swap

  // Where the main thread is in start(), play() or submit().
  datatype MainPc =
    | Idle
    | Filling(rest: seq<Byte>)
    | Exchange
    | Draining(buf: Option<NodeId>, at: nat, spare: Option<NodeId>)
    | Writing(spare: Option<NodeId>)
    | Got(node: NodeId, len: nat, spare: Option<NodeId>)
    | Counted(node: NodeId, len: nat, spare: Option<NodeId>)
    | Refused(node: NodeId, spare: Option<NodeId>)
    | Written(len: nat, spare: Option<NodeId>)
    | Freeing(spare: Option<NodeId>)

  datatype State = State(
    // the main thread's own
    ring: Ring, stream: nat, extraDelay: nat, pc: MainPc,
    // shared between threads
    heap: map<NodeId, Node>, doneHead: Option<NodeId>, inFlight: int,
    // the device: headers in the order given, then callbacks before and after
    // their decrement
    device: seq<NodeId>, entered: set<NodeId>, pushing: map<NodeId, Push>,
    // history: the contents of the two linked lists
    done: seq<NodeId>, spares: seq<NodeId>)

  // `now`, `block` and `ok` are what the clock, malloc() and a system call answer.
  datatype Event =
    | Start
    | Play(data: seq<Byte>)
    | Main(now: nat, block: Option<NodeId>, ok: bool)
    | Complete
    | Callback(node: NodeId, now: nat)

  // open(), for a buffer of 2^k bytes.
  function Init(k: nat): (s: State)
    ensures Valid(s)
  {
    assert IsPow2(Pow2(k));
    State(Ring(seq(Pow2(k), _ => SILENCE), Pow2(k), 0, 0, 0, [], 0, [], 0, []), 0, 0, Idle,
          map[], None, 0, [], {}, map[], [], [])
  }

  ghost predicate Valid(s: State) {
    && AudioRing.Wf(s.ring) && IsPow2(|s.ring.mem|)
    && (s.pc.Got? || s.pc.Counted? || s.pc.Written? ==> s.pc.len <= s.ring.pend)
  }

  function Deref(heap: map<NodeId, Node>, n: NodeId): Node {
    if n in heap then heap[n] else ZEROED
  }

  function SetNext(heap: map<NodeId, Node>, n: NodeId, to: Option<NodeId>): map<NodeId, Node> {
    heap[n := Deref(heap, n).(next := to)]
  }

  function Tail<T>(s: seq<T>): seq<T> { if s == [] then [] else s[1..] }

  // How much further ahead to buffer, once a starved buffer comes back.
  function Delay(s: State, node: Node, now: nat): (d: nat)
    ensures s.extraDelay <= d
    ensures d <= MAX_JITTER_MS || d == s.extraDelay
  {
    if node.starved && node.stream == s.stream && now > node.starvedAt then
      var ms := Min((now - node.starvedAt + 9999) / 10000, MAX_JITTER_MS);
      if s.extraDelay < ms then ms else s.extraDelay
    else s.extraDelay
  }

  // One iteration of the loop of addSamples() or addSilence().
  function Fill(s: State): (r: State)
    requires Valid(s) && s.pc.Filling?
    ensures Valid(r)
  {
    var rest := s.pc.rest;
    var chunk := Room(s.ring, |rest|);
    if chunk == 0 then s.(pc := Exchange)
    else s.(ring := Put(s.ring, rest[..chunk]), pc := Filling(rest[chunk..]))
  }

  // One iteration of the loop over the list taken from the callbacks.
  function Drain(s: State, now: nat): (r: State)
    requires Valid(s) && s.pc.Draining?
    ensures Valid(r)
  {
    if s.pc.buf.None? then s.(pc := Writing(s.pc.spare))
    else
      var n := s.pc.buf.value;
      var node := Deref(s.heap, n);
      s.(ring := Reclaim(s.ring, node.serial, node.len),
         extraDelay := Delay(s, node, now),
         heap := s.heap[n := node.(serial := -1)],
         pc := Draining(node.next, s.pc.at + 1, s.pc.spare))
  }

  // The top of the write loop: a node from the spare list, or a new one.
  function Take(s: State, block: Option<NodeId>): (r: State)
    requires Valid(s) && s.pc.Writing?
    ensures Valid(r)
  {
    var len := Min(s.ring.pend, |s.ring.mem| - s.ring.writtenHead);
    var node := ZEROED.(off := s.ring.writtenHead, len := len, stream := s.stream);
    if s.ring.pend == 0 then s.(pc := Freeing(s.pc.spare))
    else if s.pc.spare.Some? then
      var n := s.pc.spare.value;
      s.(heap := s.heap[n := node], spares := Tail(s.spares),
         pc := Got(n, len, Deref(s.heap, n).next))
    else if block.Some? && block.value !in s.heap then
      s.(heap := s.heap[block.value := node], pc := Got(block.value, len, None))
    else s.(pc := Freeing(s.pc.spare))
  }

  // A node that could not be written goes back to the head of the spare list.
  function GiveBack(s: State, n: NodeId, spare: Option<NodeId>): (r: State)
    requires Valid(s)
    ensures Valid(r)
  {
    s.(heap := SetNext(s.heap, n, spare), spares := [n] + s.spares, pc := Freeing(Some(n)))
  }

  // waveOutWrite() succeeded: from here on the device owns the node.
  function HandOver(s: State): (r: State)
    requires Valid(s) && s.pc.Counted?
    ensures Valid(r)
  {
    var n := s.pc.node;
    s.(ring := Submit(s.ring, s.pc.len),
       device := s.device + [n],
       heap := s.heap[n := Deref(s.heap, n).(serial := |s.ring.subs|)],
       pc := Written(s.pc.len, s.pc.spare))
  }

  function MainStep(s: State, now: nat, block: Option<NodeId>, ok: bool): (r: State)
    requires Valid(s)
    ensures Valid(r)
  {
    match s.pc
    case Idle => s
    case Filling(_) => Fill(s)
    case Exchange =>
      s.(doneHead := None, done := [], spares := s.done, pc := Draining(s.doneHead, 0, s.doneHead))
    case Draining(_, _, _) => Drain(s, now)
    case Writing(_) => Take(s, block)
    case Got(n, len, spare) =>
      if ok then s.(inFlight := s.inFlight + 1, pc := Counted(n, len, spare))
      else GiveBack(s, n, spare)
    case Counted(n, len, spare) =>
      if ok then HandOver(s) else s.(pc := Refused(n, spare))
    case Refused(n, spare) => GiveBack(s.(inFlight := s.inFlight - 1), n, spare)
    case Written(len, spare) => s.(ring := Post(s.ring, len), pc := Writing(spare))
    case Freeing(spare) =>
      if spare.None? then s.(pc := Idle)
      else s.(heap := s.heap - {spare.value}, spares := Tail(s.spares),
              pc := Freeing(Deref(s.heap, spare.value).next))
  }

  // The device has read the oldest buffer it holds to the end, and calls back.
  function CompleteStep(s: State): (r: State)
    requires Valid(s)
    ensures Valid(r)
  {
    if s.device == [] then s
    else
      var node := Deref(s.heap, s.device[0]);
      s.(ring := Read(s.ring, node.off, node.len),
         device := s.device[1..], entered := s.entered + {s.device[0]})
  }

  // The next step of the callback for node n.
  function CallbackStep(s: State, n: NodeId, now: nat): (r: State)
    requires Valid(s)
    ensures Valid(r)
  {
    if n in s.entered then
      var left := s.inFlight - 1;
      var node := Deref(s.heap, n);
      s.(inFlight := left, entered := s.entered - {n}, pushing := s.pushing[n := Load],
         heap := s.heap[n := if left == 0 then node.(starved := true, starvedAt := now) else node])
    else if n in s.pushing then
      match s.pushing[n]
      case Load => s.(pushing := s.pushing[n := Link(s.doneHead)])
      case Link(head) => s.(heap := SetNext(s.heap, n, head), pushing := s.pushing[n := Swap(head)])
      case Swap(head) =>
        if s.doneHead == head then
          s.(doneHead := Some(n), done := [n] + s.done, pushing := s.pushing - {n})
        else s.(pushing := s.pushing[n := Link(s.doneHead)])
    else s
  }

  // (audioMinStreamDelayMs + extraDelayMs) * audioFrequency / 1000 samples
  function SilenceBytes(extraDelay: nat): nat {
    (MIN_STREAM_DELAY_MS + extraDelay) * FREQUENCY / 1000 * SAMPLE_SIZE
  }

  function Apply(s: State, e: Event): (r: State)
    requires Valid(s)
    ensures Valid(r)
  {
    match e
    case Start =>
      if s.pc != Idle then s
      else s.(stream := s.stream + 1, pc := Filling(seq(SilenceBytes(s.extraDelay), _ => SILENCE)))
    case Play(data) =>
      if s.pc != Idle then s
      else s.(pc := Filling(data[..|data| - |data| % SAMPLE_SIZE]))
    case Main(now, block, ok) => MainStep(s, now, block, ok)
    case Complete => CompleteStep(s)
    case Callback(n, now) => CallbackStep(s, n, now)
  }

  // An interleaving; an event that is not possible in a state leaves it alone.
  function Run(s: State, es: seq<Event>): (r: State)
    requires Valid(s)
    ensures Valid(r)
    decreases |es|
  {
    if es == [] then s else Apply(Run(s, es[..|es| - 1]), es[|es| - 1])
  }
}
