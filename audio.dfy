/**
 * Captured audio: the byte chunks the input stream hands back, and the one
 * payload that is written into the WAV container once capture has ended.
 */
module Audio {

  newtype byte = x: int | 0 <= x < 256

  /** One `stream.read(CHUNK)` result. */
  type Chunk = seq<byte>

  /** The stream settings of `VoiceRecorder.__init__`: 1024 frames per read,
      one channel, 16-bit samples (`paInt16`), so one full read returns
      2048 bytes. */
  const ChunkFrames: nat := 1024
  const Channels: nat := 1
  const SampleWidth: nat := 2
  const ChunkBytes: nat := ChunkFrames * Channels * SampleWidth

  /** `b''.join(frames)`. */
  function Concat(frames: seq<Chunk>): (payload: seq<byte>)
  {
    if frames == [] then [] else Concat(frames[..|frames| - 1]) + frames[|frames| - 1]
  }

  /** The sum of the chunk lengths. */
  function TotalLength(frames: seq<Chunk>): (n: nat)
  {
    if frames == [] then 0 else TotalLength(frames[..|frames| - 1]) + |frames[|frames| - 1]|
  }

  /** Joining puts the chunks end to end in capture order: the payload of a
      longer recording extends the payload of any earlier part of it. */
  lemma {:induction false} ConcatAppend(a: seq<Chunk>, b: seq<Chunk>)
    ensures Concat(a + b) == Concat(a) + Concat(b)
    decreases |b|
  {
    if b == [] {
      assert a + b == a;
    } else {
      var b' := b[..|b| - 1];
      assert (a + b)[..|a + b| - 1] == a + b';
      ConcatAppend(a, b');
    }
  }

  /** The payload is as long as all chunks together. */
  lemma {:induction false} ConcatLength(frames: seq<Chunk>)
    ensures |Concat(frames)| == TotalLength(frames)
    decreases |frames|
  {
    if frames != [] {
      ConcatLength(frames[..|frames| - 1]);
    }
  }

  /** Byte `k` of chunk `n` sits in the payload right after all bytes of the
      chunks before it. */
  lemma {:induction false} ConcatPlacesChunk(frames: seq<Chunk>, n: nat, k: nat)
    requires n < |frames| && k < |frames[n]|
    ensures TotalLength(frames[..n]) + k < |Concat(frames)|
    ensures Concat(frames)[TotalLength(frames[..n]) + k] == frames[n][k]
  {
    assert frames == frames[..n] + [frames[n]] + frames[n + 1..];
    ConcatAppend(frames[..n] + [frames[n]], frames[n + 1..]);
    ConcatAppend(frames[..n], [frames[n]]);
    assert Concat([frames[n]]) == frames[n] by {
      assert [frames[n]][..0] == [];
    }
    ConcatLength(frames[..n]);
  }

  /** A recording of `n` full reads is `n * 2048` bytes of payload: every
      chunk contributes the same number of bytes. */
  lemma {:induction false} FullChunksLength(frames: seq<Chunk>)
    requires forall i :: 0 <= i < |frames| ==> |frames[i]| == ChunkBytes
    ensures |Concat(frames)| == |frames| * ChunkBytes == |frames| * 2048
    decreases |frames|
  {
    if frames != [] {
      FullChunksLength(frames[..|frames| - 1]);
    }
  }
}
