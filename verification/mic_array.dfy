// The PDM microphone array as the pipeline input adapters see it: a queue
// of captured blocks, each holding MIC_CHANNELS channels of frameSize
// samples in channel-major order. Some of the queued blocks are already
// captured (`ready`); the rest are still to come, and a blocking read of
// one of those waits for its capture.
module MicArrays {
  import opened Ints

  /** Microphones on the board, and the slots of an I2S sample frame. */
  const MIC_CHANNELS: nat := 2

  class MicArray {
    /** Samples per channel in one block. */
    const frameSize: nat
    /** Every block the array will deliver, oldest first. */
    var blocks: seq<seq<i32>>
    /** How many of `blocks` are captured already and can be read without waiting. */
    var ready: nat

    ghost predicate Valid()
      reads this
    {
      frameSize > 0 && ready <= |blocks| &&
      forall k :: 0 <= k < |blocks| ==> |blocks[k]| == MIC_CHANNELS * frameSize
    }

    constructor (size: nat, captured: seq<seq<i32>>, upcoming: seq<seq<i32>>)
      requires size > 0
      requires forall k :: 0 <= k < |captured| ==> |captured[k]| == MIC_CHANNELS * size
      requires forall k :: 0 <= k < |upcoming| ==> |upcoming[k]| == MIC_CHANNELS * size
      ensures Valid() && frameSize == size && blocks == captured + upcoming && ready == |captured|
    {
      frameSize := size;
      blocks := captured + upcoming;
      ready := |captured|;
    }

    /** `rtos_mic_array_rx` with a zero timeout: a captured block when there is one, otherwise nothing. */
    method RxNow() returns (block: seq<i32>, received: nat)
      requires Valid()
      modifies this
      ensures Valid()
      ensures old(ready) == 0 ==> received == 0 && block == [] && blocks == old(blocks) && ready == 0
      ensures old(ready) > 0 ==> received == frameSize && block == old(blocks)[0] &&
                                 blocks == old(blocks)[1..] && ready == old(ready) - 1
    {
      if ready == 0 {
        return [], 0;
      }
      block := blocks[0];
      blocks := blocks[1..];
      ready := ready - 1;
      received := frameSize;
    }

    /** `rtos_mic_array_rx` with `portMAX_DELAY`: the next block, waiting for its capture when none is ready. */
    method RxWait() returns (block: seq<i32>)
      requires Valid() && blocks != []
      modifies this
      ensures Valid() && |block| == MIC_CHANNELS * frameSize
      ensures block == old(blocks)[0] && blocks == old(blocks)[1..]
      ensures ready == if old(ready) == 0 then 0 else old(ready) - 1
    {
      block := blocks[0];
      blocks := blocks[1..];
      if ready > 0 {
        ready := ready - 1;
      }
    }
  }

  /**
   * Blocks one input call takes from the array: before the flush latch is
   * set, every captured block, the one after them, and then the frame's
   * own block; once it is set, only the frame's own block.
   */
  function BlocksTaken(flushed: bool, ready: nat): nat
  {
    if flushed then 1 else ready + 2
  }

  /** The samples of `frames` with `block` written from `offset` on. */
  function WithBlockAt(f: seq<i32>, offset: nat, block: seq<i32>): (r: seq<i32>)
    requires offset + |block| <= |f|
    ensures |r| == |f|
    ensures forall k :: 0 <= k < |f| ==> r[k] == if offset <= k < offset + |block| then block[k - offset] else f[k]
  {
    f[..offset] + block + f[offset + |block|..]
  }

  /** Writes a block received from the array into the frame at `offset`. */
  method StoreBlock(frames: array<i32>, offset: nat, block: seq<i32>)
    requires offset + |block| <= frames.Length
    modifies frames
    ensures frames[..] == WithBlockAt(old(frames[..]), offset, block)
  {
    forall k | offset <= k < offset + |block| {
      frames[k] := block[k - offset];
    }
  }

  /**
   * The mic read of both input adapters. While the `flushed` latch is
   * clear, non-blocking reads drain the captured blocks until one returns
   * nothing; one blocking read follows and the latch is set, never to be
   * cleared. Every call then ends with one blocking read, whose block is
   * what the frame holds at `offset`.
   */
  method LatchedRead(mic: MicArray, frames: array<i32>, offset: nat, flushed: bool) returns (latched: bool)
    requires mic.Valid() && offset + MIC_CHANNELS * mic.frameSize <= frames.Length
    requires |mic.blocks| >= BlocksTaken(flushed, mic.ready)
    modifies mic, frames
    ensures mic.Valid() && latched
    ensures var n := BlocksTaken(flushed, old(mic.ready));
            mic.blocks == old(mic.blocks)[n..] &&
            frames[..] == WithBlockAt(old(frames[..]), offset, old(mic.blocks)[n - 1])
    ensures mic.ready == if flushed && old(mic.ready) > 0 then old(mic.ready) - 1 else 0
  {
    var size := MIC_CHANNELS * mic.frameSize;
    ghost var b0 := mic.blocks;
    ghost var r0 := mic.ready;
    ghost var f0 := frames[..];
    latched := flushed;
    while !latched
      invariant mic.Valid() && offset + size <= frames.Length
      invariant frames[..offset] == f0[..offset] && frames[offset + size..] == f0[offset + size..]
      invariant !latched ==> !flushed && mic.ready <= r0 && mic.blocks == b0[r0 - mic.ready..]
      invariant latched && !flushed ==> mic.ready == 0 && mic.blocks == b0[r0 + 1..]
      invariant latched && flushed ==> mic.ready == r0 && mic.blocks == b0
      decreases if latched then 0 else 1, mic.ready
    {
      var block, received := mic.RxNow();
      if received == 0 {
        block := mic.RxWait();
        StoreBlock(frames, offset, block);
        latched := true;
      } else {
        StoreBlock(frames, offset, block);
      }
    }
    var block := mic.RxWait();
    StoreBlock(frames, offset, block);
  }
}
