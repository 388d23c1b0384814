// The PulseAudio output: the same kind of ring, but the server copies samples out as
// they are written, so the ring is a byte queue. Every method here runs with the
// mainloop lock held, so methods are the steps of the two threads.
module AudioOutputPulse {
  import opened Optional
  import opened AudioOutput
  import opened Bits

  const USEC_PER_MSEC: nat := 1000

  // What the server answers in one iteration of submit(): pa_stream_writable_size(),
  // with None for its error value, and whether pa_stream_write() then succeeds.
  datatype Answer = Answer(writable: Option<nat>, written: bool)

  predicate IsWhole(n: nat) { n % SAMPLE_SIZE == 0 }

  function Whole(length: nat): (w: nat)
    ensures w <= length < w + SAMPLE_SIZE && IsWhole(w)
  {
    length - length % SAMPLE_SIZE
  }

  function Flatten(chunks: seq<seq<Byte>>): seq<Byte> {
    if chunks == [] then [] else Flatten(chunks[..|chunks| - 1]) + chunks[|chunks| - 1]
  }

  // An answer that ends submit().
  predicate Refuses(a: Answer) {
    a.writable.None? || a.writable.value < SAMPLE_SIZE || !a.written
  }

  // Every write is of whole samples, and no more than the server had asked for.
  ghost predicate Accepted(writes: seq<seq<Byte>>, server: nat -> Answer) {
    forall i :: 0 <= i < |writes| ==>
      !Refuses(server(i)) && 0 < |writes[i]| <= server(i).writable.value && IsWhole(|writes[i]|)
  }

  lemma NoneAccepted(server: nat -> Answer)
    ensures Accepted([], server)
  {
  }

  lemma OneMoreAccepted(writes: seq<seq<Byte>>, server: nat -> Answer, chunk: seq<Byte>)
    requires Accepted(writes, server) && !Refuses(server(|writes|))
    requires server(|writes|).writable.Some? && 0 < |chunk| <= server(|writes|).writable.value && IsWhole(|chunk|)
    ensures Accepted(writes + [chunk], server)
  {
  }

  lemma FlattenMore(writes: seq<seq<Byte>>, chunk: seq<Byte>)
    ensures Flatten(writes + [chunk]) == Flatten(writes) + chunk
  {
    assert (writes + [chunk])[..|writes|] == writes;
  }

  // What memset() writes.
  function Silence(n: nat): (r: seq<Byte>)
    ensures |r| == n && forall i :: 0 <= i < n ==> r[i] == SILENCE
  {
    seq(n, _ => SILENCE)
  }

  // Rounding the sample count of open() up to a power of two.
  method RoundUp(target: nat) returns (samples: nat)
    ensures IsPow2(samples)
    ensures target <= samples
    ensures samples == 1 || samples < 2 * target
  {
    samples := 1;
    assert samples == Pow2(0);
    ghost var k: nat := 0;
    while samples < target
      invariant samples == Pow2(k)
      invariant samples == 1 || samples < 2 * target
      decreases target - samples
    {
      samples, k := 2 * samples, k + 1;
    }
  }

  lemma {:induction false} Pow2Times4(k: nat)
    ensures Pow2(k + 2) == 4 * Pow2(k)
  {
    assert Pow2(k + 2) == 2 * Pow2(k + 1);
  }

  class AudioOutputPulse {
    var buffer: array<Byte>
    var bufferFree: nat
    var pendingSize: nat
    var writtenHead: nat
    var pendingHead: nat
    var streamId: nat
    var extraDelayMs: nat
    var starved: bool
    var starvedAt: nat
    var starvedStreamId: nat

    // All bytes ever taken in, and all bytes ever written to the server.
    ghost var accepted: seq<Byte>
    ghost var sent: seq<Byte>

    ghost predicate Valid()
      reads this, buffer
    {
      && IsPow2(buffer.Length) && buffer.Length > 0 && IsWhole(buffer.Length)
      && bufferFree + pendingSize == buffer.Length
      && IsWhole(bufferFree) && IsWhole(pendingSize)
      && |sent| + pendingSize == |accepted|
      && IsWhole(|sent|) && IsWhole(|accepted|)
      && writtenHead == Slot(|sent|, buffer.Length)
      && pendingHead == Slot(|accepted|, buffer.Length)
      && sent <= accepted
      && Backed(buffer[..], accepted, |sent|)
      && extraDelayMs <= MAX_JITTER_MS
    }

    // The byte queue the ring stands for.
    ghost function Queue(): seq<Byte>
      requires Valid()
      reads this, buffer
    {
      accepted[|sent|..]
    }

    // open(), once the server has agreed.
    constructor Open()
      ensures Valid() && fresh(buffer)
      ensures accepted == [] && sent == []
      ensures 4 * MAX_JITTER_MS * FREQUENCY / 1000 * SAMPLE_SIZE <= buffer.Length
      ensures buffer.Length < 8 * MAX_JITTER_MS * FREQUENCY / 1000 * SAMPLE_SIZE
    {
      var samples := RoundUp(4 * MAX_JITTER_MS * FREQUENCY / 1000);
      buffer := new Byte[samples * SAMPLE_SIZE](_ => 0);
      bufferFree, pendingSize, writtenHead, pendingHead := samples * SAMPLE_SIZE, 0, 0, 0;
      streamId, extraDelayMs, starved, starvedAt, starvedStreamId := 0, 0, false, 0, 0;
      accepted, sent := [], [];
      new;
      var k: nat :| samples == Pow2(k);
      Pow2Times4(k);
    }

    // memcpy(buffer + at, data, |data|)
    method CopyIn(at: nat, data: seq<Byte>)
      requires at + |data| <= buffer.Length
      modifies buffer
      ensures buffer[..] == Overwrite(old(buffer[..]), at, data)
    {
      forall i | at <= i < at + |data| {
        buffer[i] := data[i - at];
      }
    }

    // One pass of either fill loop: data goes in at the pending head.
    method Fill(data: seq<Byte>)
      requires Valid()
      requires 0 < |data| <= bufferFree && |data| <= buffer.Length - pendingHead && IsWhole(|data|)
      modifies this`pendingHead, this`bufferFree, this`pendingSize, this`accepted, buffer
      ensures Valid()
      ensures accepted == old(accepted) + data && bufferFree == old(bufferFree) - |data|
    {
      hide And, Slot, Backed, IsWhole;
      BackedFill(buffer[..], accepted, |sent|, data);
      MaskIsSlot(pendingHead + |data|, buffer.Length);
      SlotStep(|accepted|, |data|, buffer.Length);
      WholeSum(|accepted|, |data|);
      WholeSum(bufferFree, |data|);
      WholeSum(pendingSize, |data|);
      CopyIn(pendingHead, data);
      pendingHead := And(pendingHead + |data|, buffer.Length - 1);
      bufferFree := bufferFree - |data|;
      pendingSize := pendingSize + |data|;
      accepted := accepted + data;
    }

    // How much of `length` one pass takes: up to the free space and the ring's end.
    method Room(length: nat) returns (chunk: nat)
      requires Valid() && IsWhole(length)
      ensures chunk <= length && chunk <= bufferFree && chunk <= buffer.Length - pendingHead
      ensures IsWhole(chunk)
      ensures chunk == 0 <==> length == 0 || bufferFree == 0
    {
      hide And, Slot, Backed, IsPow2, IsWhole;
      SlotWhole(|accepted|, buffer.Length);
      WholeSum(buffer.Length, pendingHead);
      chunk := Min(Min(length, bufferFree), buffer.Length - pendingHead);
    }

    // Takes in whole samples, as many as there is room for.
    method AddSamples(samples: seq<Byte>)
      requires Valid()
      modifies this`pendingHead, this`bufferFree, this`pendingSize, this`accepted, buffer
      ensures Valid()
      ensures accepted == old(accepted) + samples[..Min(Whole(|samples|), old(bufferFree))]
    {
      hide And, Slot, Backed, IsPow2, IsWhole, Whole;
      var at: nat, length: nat := 0, Whole(|samples|);
      while length > 0
        invariant Valid() && at + length == Whole(|samples|) && IsWhole(length)
        invariant accepted == old(accepted) + samples[..at] && bufferFree + at == old(bufferFree)
      {
        var chunk := Room(length);
        if chunk == 0 {
          break;
        }
        WholeSum(length, chunk);
        assert samples[..at] + samples[at..at + chunk] == samples[..at + chunk];
        Fill(samples[at..at + chunk]);
        at, length := at + chunk, length - chunk;
      }
    }

    method AddSilence(samples: nat)
      requires Valid()
      modifies this`pendingHead, this`bufferFree, this`pendingSize, this`accepted, buffer
      ensures Valid()
      ensures accepted == old(accepted) + Silence(Min(samples * SAMPLE_SIZE, old(bufferFree)))
    {
      assert IsWhole(samples * SAMPLE_SIZE);
      hide And, Slot, Backed, IsPow2, IsWhole;
      ghost var at: nat := 0;
      var left: nat := samples * SAMPLE_SIZE;
      while left > 0
        invariant Valid() && at + left == samples * SAMPLE_SIZE && IsWhole(left)
        invariant accepted == old(accepted) + Silence(at) && bufferFree + at == old(bufferFree)
      {
        var chunk := Room(left);
        if chunk == 0 {
          break;
        }
        WholeSum(left, chunk);
        assert Silence(at) + Silence(chunk) == Silence(at + chunk);
        Fill(Silence(chunk));
        left := left - chunk;
        at := at + chunk;
      }
    }

    // A write of `length` bytes that the server accepted.
    method Post(length: nat) returns (ghost chunk: seq<Byte>)
      requires Valid()
      requires 0 < length <= pendingSize && length <= buffer.Length - writtenHead && IsWhole(length)
      modifies this`writtenHead, this`pendingSize, this`bufferFree, this`sent
      ensures Valid()
      ensures chunk == buffer[..][old(writtenHead)..old(writtenHead) + length]
      ensures sent == old(sent) + chunk && |chunk| == length && pendingSize == old(pendingSize) - length
    {
      hide And, Slot, Backed, IsWhole;
      chunk := accepted[|sent|..|sent| + length];
      BackedSlice(buffer[..], accepted, |sent|, length);
      MaskIsSlot(writtenHead + length, buffer.Length);
      SlotStep(|sent|, length, buffer.Length);
      WholeSum(|sent|, length);
      WholeSum(bufferFree, length);
      WholeSum(pendingSize, length);
      BackedLater(buffer[..], accepted, |sent|, |sent| + length);
      assert sent + chunk == accepted[..|sent| + length];
      writtenHead := And(writtenHead + length, buffer.Length - 1);
      pendingSize := pendingSize - length;
      bufferFree := bufferFree + length;
      sent := sent + chunk;
    }

    // One pass of the write loop; nothing written means the loop ends.
    method Pass(answer: Answer) returns (chunk: seq<Byte>)
      requires Valid() && pendingSize > 0
      modifies this`writtenHead, this`pendingSize, this`bufferFree, this`sent
      ensures Valid()
      ensures chunk == [] <==> Refuses(answer)
      ensures chunk != [] ==> answer.writable.Some? && |chunk| <= answer.writable.value && IsWhole(|chunk|)
      ensures sent == old(sent) + chunk && pendingSize == old(pendingSize) - |chunk|
    {
      hide And, Slot, Backed, IsPow2, IsWhole, Whole;
      chunk := [];
      if answer.writable.None? {
        return;
      }
      SlotWhole(|sent|, buffer.Length);
      WholeSum(buffer.Length, writtenHead);
      // Whole samples only.
      WholeWrite(Min(pendingSize, buffer.Length - writtenHead), answer.writable.value);
      var length := Whole(Min(Min(pendingSize, buffer.Length - writtenHead), answer.writable.value));
      if length == 0 || !answer.written {
        return;
      }
      chunk := buffer[..][writtenHead..writtenHead + length];
      ghost var posted := Post(length);
    }

    // The write loop. `writes` is what each successful pa_stream_write() was given; the
    // i-th pass gets answer i.
    method WriteOut(server: nat -> Answer) returns (writes: seq<seq<Byte>>)
      requires Valid()
      modifies this`writtenHead, this`pendingSize, this`bufferFree, this`sent
      ensures Valid()
      ensures sent == old(sent) + Flatten(writes)
      ensures Accepted(writes, server)
      ensures pendingSize == 0 || Refuses(server(|writes|))
    {
      hide And, Slot, Backed, IsPow2, IsWhole, Whole, Refuses, Accepted;
      writes := [];
      NoneAccepted(server);
      while pendingSize > 0
        invariant Valid() && sent == old(sent) + Flatten(writes)
        invariant Accepted(writes, server)
        decreases pendingSize
      {
        var chunk := Pass(server(|writes|));
        if chunk == [] {
          break;
        }
        OneMoreAccepted(writes, server, chunk);
        FlattenMore(writes, chunk);
        writes := writes + [chunk];
      }
    }

    // Hands the server as much as it wants.
    method Submit(ready: bool, now: nat, server: nat -> Answer) returns (writes: seq<seq<Byte>>)
      requires Valid()
      modifies this`writtenHead, this`pendingSize, this`bufferFree, this`sent, this`starved, this`extraDelayMs
      ensures Valid()
      ensures sent == old(sent) + Flatten(writes)
      ensures Accepted(writes, server)
      ensures if !ready then writes == [] else Queue() == [] || Refuses(server(|writes|))
      ensures extraDelayMs == if ready && old(pendingSize) > 0 && old(starved)
        then NewDelay(old(extraDelayMs), starvedStreamId == streamId, starvedAt, now) else old(extraDelayMs)
      ensures starved == (old(starved) && !(ready && old(pendingSize) > 0))
    {
      hide And, Slot, Backed, IsPow2, IsWhole, NewDelay, Whole, Refuses, Accepted;
      writes := [];
      NoneAccepted(server);
      if !ready || pendingSize == 0 {
        return;
      }
      if starved {
        starved := false;
        extraDelayMs := NewDelay(extraDelayMs, starvedStreamId == streamId, starvedAt, now);
      }
      writes := WriteOut(server);
    }

    // The server ran dry.
    method Underflow(now: nat)
      requires Valid()
      modifies this`starved, this`starvedAt, this`starvedStreamId
      ensures Valid()
      ensures starved && (!old(starved) ==> starvedAt == now && starvedStreamId == streamId)
      ensures old(starved) ==> starvedAt == old(starvedAt) && starvedStreamId == old(starvedStreamId)
    {
      if !starved {
        starved, starvedAt, starvedStreamId := true, now, streamId;
      }
    }

    method Start(ready: bool, now: nat, server: nat -> Answer) returns (writes: seq<seq<Byte>>)
      requires Valid()
      modifies this, buffer
      ensures Valid() && buffer == old(buffer)
      ensures accepted == old(accepted)
        + Silence(Min((MIN_STREAM_DELAY_MS + old(extraDelayMs)) * FREQUENCY / 1000 * SAMPLE_SIZE, old(bufferFree)))
      ensures sent == old(sent) + Flatten(writes) && Accepted(writes, server)
      ensures if !ready then writes == [] else Queue() == [] || Refuses(server(|writes|))
      ensures streamId == old(streamId) + 1
      ensures extraDelayMs == if ready && |accepted| > |old(sent)| && old(starved)
        then NewDelay(old(extraDelayMs), starvedStreamId == streamId, starvedAt, now) else old(extraDelayMs)
    {
      streamId := streamId + 1;
      AddSilence((MIN_STREAM_DELAY_MS + extraDelayMs) * FREQUENCY / 1000);
      writes := Submit(ready, now, server);
    }

    // What goes to the server, followed by what is still queued, is what was sent
    // and queued before followed by the new samples that fitted.
    method Play(samples: seq<Byte>, ready: bool, now: nat, server: nat -> Answer) returns (writes: seq<seq<Byte>>)
      requires Valid()
      modifies this, buffer
      ensures Valid() && buffer == old(buffer)
      ensures sent == old(sent) + Flatten(writes) && Accepted(writes, server)
      ensures if !ready then writes == [] else Queue() == [] || Refuses(server(|writes|))
      ensures extraDelayMs == if ready && |accepted| > |old(sent)| && old(starved)
        then NewDelay(old(extraDelayMs), starvedStreamId == streamId, starvedAt, now) else old(extraDelayMs)
      ensures Flatten(writes) + Queue() == old(Queue()) + samples[..Min(Whole(|samples|), old(bufferFree))]
    {
      ghost var oldSent, oldAccepted := sent, accepted;
      AddSamples(samples);
      writes := Submit(ready, now, server);
      QueueMoves(oldSent, oldAccepted, samples[..Min(Whole(|samples|), old(bufferFree))], Flatten(writes), accepted);
    }
  }

  lemma QueueMoves(sent: seq<Byte>, accepted: seq<Byte>, more: seq<Byte>, out: seq<Byte>, now: seq<Byte>)
    requires sent <= accepted && now == accepted + more && sent + out <= now
    ensures out + now[|sent + out|..] == accepted[|sent|..] + more
  {
    assert now[|sent|..] == accepted[|sent|..] + more;
    assert now[|sent|..] == out + now[|sent + out|..] by {
      assert now == (sent + out) + now[|sent + out|..];
    }
  }

  // How much further ahead to buffer, having been dry since starvedAt.
  function NewDelay(delay: nat, sameStream: bool, starvedAt: nat, now: nat): (d: nat)
    ensures delay <= d && (delay <= MAX_JITTER_MS ==> d <= MAX_JITTER_MS)
  {
    if sameStream && now > starvedAt then
      var ms := Min((now - starvedAt + USEC_PER_MSEC - 1) / USEC_PER_MSEC, MAX_JITTER_MS);
      if delay < ms then ms else delay
    else delay
  }

  // Another stream's underflow teaches nothing.
  lemma OtherStreamTeachesNothing(delay: nat, starvedAt: nat, now: nat)
    ensures NewDelay(delay, false, starvedAt, now) == delay
  {
  }

  // The delay covers the time the server was dry, up to the limit, and no more than a
  // millisecond beyond it unless it was longer already.
  lemma DelayCoversGap(delay: nat, starvedAt: nat, now: nat)
    requires now > starvedAt
    ensures var d, gap := NewDelay(delay, true, starvedAt, now), now - starvedAt;
      && (USEC_PER_MSEC * d >= gap || d >= MAX_JITTER_MS)
      && (d == delay || USEC_PER_MSEC * (d - 1) < gap)
  {
    var gap := now - starvedAt;
    assert USEC_PER_MSEC * ((gap + USEC_PER_MSEC - 1) / USEC_PER_MSEC) >= gap;
  }

  lemma {:induction false} SlotWhole(a: nat, n: nat)
    requires n > 0 && IsWhole(n) && IsWhole(a)
    ensures IsWhole(Slot(a, n))
    decreases a
  {
    if a >= n {
      SlotWhole(a - n, n);
    }
  }

  lemma WholeSum(a: nat, b: nat)
    requires IsWhole(a) && IsWhole(b)
    ensures IsWhole(a + b) && (b <= a ==> IsWhole(a - b))
  {
  }

  // Nothing is written exactly when the server wants less than a sample.
  lemma WholeWrite(available: nat, writable: nat)
    requires available > 0 && IsWhole(available)
    ensures Whole(Min(available, writable)) == 0 <==> writable < SAMPLE_SIZE
  {
  }

  lemma BackedSlice(mem: seq<Byte>, stream: seq<Byte>, from: nat, n: nat)
    requires Backed(mem, stream, from) && from + n <= |stream| && Slot(from, |mem|) + n <= |mem|
    ensures mem[Slot(from, |mem|)..Slot(from, |mem|) + n] == stream[from..from + n]
  {
    hide Slot;
    var slice := mem[Slot(from, |mem|)..Slot(from, |mem|) + n];
    forall i | 0 <= i < n
      ensures slice[i] == stream[from..from + n][i]
    {
      SlotStep(from, i, |mem|);
      assert mem[Slot(from + i, |mem|)] == stream[from + i];
    }
  }

  lemma BackedLater(mem: seq<Byte>, stream: seq<Byte>, from: nat, later: nat)
    requires Backed(mem, stream, from) && from <= later
    ensures Backed(mem, stream, later)
  {
  }

  // The ring holds the stream from position `from` on.
  ghost predicate Backed(mem: seq<Byte>, stream: seq<Byte>, from: nat) {
    |mem| > 0 && forall a :: from <= a < |stream| ==> mem[Slot(a, |mem|)] == stream[a]
  }

  lemma BackedFillAt(mem: seq<Byte>, stream: seq<Byte>, from: nat, data: seq<Byte>, a: nat)
    requires Backed(mem, stream, from) && from <= |stream|
    requires |stream| + |data| <= from + |mem| && Slot(|stream|, |mem|) + |data| <= |mem|
    requires from <= a < |stream| + |data|
    ensures Overwrite(mem, Slot(|stream|, |mem|), data)[Slot(a, |mem|)] == (stream + data)[a]
  {
    hide Slot;
    FillSlot(from, |stream|, |data|, |mem|, a);
  }

  lemma BackedFill(mem: seq<Byte>, stream: seq<Byte>, from: nat, data: seq<Byte>)
    requires Backed(mem, stream, from) && from <= |stream|
    requires |stream| + |data| <= from + |mem| && Slot(|stream|, |mem|) + |data| <= |mem|
    ensures Backed(Overwrite(mem, Slot(|stream|, |mem|), data), stream + data, from)
  {
    hide Slot, Overwrite;
    forall a | from <= a < |stream| + |data|
      ensures Overwrite(mem, Slot(|stream|, |mem|), data)[Slot(a, |mem|)] == (stream + data)[a]
    {
      BackedFillAt(mem, stream, from, data, a);
    }
  }

  // Where position a of the stream is, once n bytes have gone in at `end`.
  lemma FillSlot(from: nat, end: nat, n: nat, size: nat, a: nat)
    requires size > 0 && from <= end && end + n <= from + size && Slot(end, size) + n <= size
    requires from <= a < end + n
    ensures a < end ==> !(Slot(end, size) <= Slot(a, size) < Slot(end, size) + n)
    ensures a >= end ==> Slot(a, size) == Slot(end, size) + (a - end)
  {
    hide Slot;
    if a >= end {
      SlotStep(end, a - end, size);
    } else if Slot(end, size) <= Slot(a, size) < Slot(end, size) + n {
      SlotStep(end, Slot(a, size) - Slot(end, size), size);
      SlotsDistinct(a, end + (Slot(a, size) - Slot(end, size)), size);
    }
  }
}
