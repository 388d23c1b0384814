// What both audio outputs share: the stream format and copying into a ring.
module AudioOutput {
  type Byte = b: int | 0 <= b < 256

  const SAMPLE_SIZE: nat := 4         // two channels of signed 16-bit samples
  const FREQUENCY: nat := 48000
  const MAX_JITTER_MS: nat := 1000
  const MIN_STREAM_DELAY_MS: nat := 20
  const SILENCE: Byte := 0

  function Min(a: nat, b: nat): nat { if a <= b then a else b }

  // memcpy(mem + at, data, |data|)
  function Overwrite(mem: seq<Byte>, at: nat, data: seq<Byte>): (r: seq<Byte>)
    requires at + |data| <= |mem|
    ensures |r| == |mem|
    ensures forall j :: 0 <= j < |mem| ==> r[j] == if at <= j < at + |data| then data[j - at] else mem[j]
  {
    mem[..at] + data + mem[at + |data|..]
  }
}
