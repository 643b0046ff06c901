// The sample path into the intent engine of the ffd application: processed
// channel 0 of every pipeline frame, as 32-bit samples, goes into a stream
// buffer the engine reads from. When the engine runs on the other tile the
// samples cross the inter-tile link first and a relay task buffers them.
module IntentEngineSupport {
  import opened Ints
  import opened Bytes
  import opened Frames
  import opened Intertile
  import opened StreamBuffers

  /** `appconfINTENT_FRAME_BUFFER_MULT` */
  const INTENT_FRAME_BUFFER_MULT: nat := 16
  /** `appconfINTENT_SAMPLE_BLOCK_LENGTH` */
  const INTENT_SAMPLE_BLOCK_LENGTH: nat := 240

  /** Capacity in bytes the sample buffer is created with: room for four frames of 32-bit samples. */
  const SAMPLE_BUFFER_BYTES: nat := INTENT_FRAME_BUFFER_MULT * FRAME_ADVANCE

  /** `sizeof(int32_t) * FRAME_ADVANCE`: one frame of channel-0 samples. */
  const FRAME_SAMPLE_BYTES: nat := 4 * FRAME_ADVANCE

  /** The bytes of a run of 32-bit samples, as copied by the C code. */
  function SampleBytes(samples: seq<i32>): (b: seq<byte>)
    ensures |b| == 4 * |samples|
  {
    forall i | 0 <= i < |samples| ensures FitsSigned(samples[i], 4) {
      FitsI32(samples[i]);
    }
    EncodeInts(samples, 4)
  }

  /** The samples come back out of their bytes unchanged. */
  lemma {:induction false} SampleBytesRoundTrip(samples: seq<i32>)
    ensures DecodeInts(SampleBytes(samples), 4) == samples
  {
    forall i | 0 <= i < |samples| ensures FitsSigned(samples[i], 4) {
      FitsI32(samples[i]);
    }
    DecodeEncodeInts(samples, 4);
  }

  class IntentSink {
    /** `samples_to_engine_stream_buf`: absent until the engine task is created. */
    var buffer: StreamBuffer?
    /** Inter-tile port carrying samples to the engine's tile. */
    const link: Port
    /** Frames whose samples did not all fit ("lost output samples"). */
    var lostLogs: nat
    /** Local sends made before the buffer existed ("streambuffer not ready"). */
    var notReadyLogs: nat

    ghost predicate Valid()
      reads this, buffer
    {
      buffer != null ==>
        buffer.Valid() && buffer.capacity == SAMPLE_BUFFER_BYTES && buffer.triggerLevel == INTENT_SAMPLE_BLOCK_LENGTH
    }

    constructor (port: Port)
      ensures Valid() && buffer == null && link == port && lostLogs == 0 && notReadyLogs == 0
    {
      buffer := null;
      link := port;
      lostLogs := 0;
      notReadyLogs := 0;
    }

    /** The buffer creation of `intent_engine_task_create` and `intent_engine_intertile_task_create`. */
    method CreateBuffer()
      modifies this
      ensures Valid() && buffer != null && fresh(buffer) && buffer.contents == []
      ensures lostLogs == old(lostLogs) && notReadyLogs == old(notReadyLogs)
    {
      buffer := new StreamBuffer(SAMPLE_BUFFER_BYTES, INTENT_SAMPLE_BLOCK_LENGTH);
    }

    /**
     * `intent_engine_stream_buf_reset`: nothing when no buffer exists,
     * otherwise the reset is retried until it succeeds. A reset fails while
     * a task is blocked on the buffer; `blockedAttempts` is how many
     * attempts find one blocked.
     */
    method Reset(blockedAttempts: nat) returns (attempts: nat)
      requires Valid()
      modifies buffer
      ensures Valid()
      ensures old(buffer) == null ==> attempts == 0
      ensures old(buffer) != null ==> attempts == blockedAttempts + 1 && buffer.contents == []
    {
      attempts := 0;
      if buffer != null {
        var ok := false;
        while !ok
          invariant buffer.Valid() && attempts <= blockedAttempts + 1
          invariant ok <==> attempts == blockedAttempts + 1
          invariant ok ==> buffer.contents == []
          decreases blockedAttempts + 1 - attempts
        {
          ok := buffer.Reset(attempts < blockedAttempts);
          attempts := attempts + 1;
        }
      }
    }

    /** `intent_engine_samples_send_remote`: one frame of channel-0 samples to the engine's tile. */
    method SendRemote(frameCount: nat, frame: seq<i32>)
      requires frameCount == FRAME_ADVANCE && frameCount <= |frame|
      modifies link
      ensures link.messages == old(link.messages) + [SampleBytes(frame[..frameCount])]
      ensures |link.messages[|link.messages| - 1]| == 4 * frameCount
    {
      link.Tx(SampleBytes(frame[..frameCount]));
    }

    /**
     * `intent_engine_intertile_samples_in_task`, one message: anything but
     * one frame of samples is fatal; the samples are offered to the buffer
     * without waiting, and a short write is only logged.
     */
    method RelayStep() returns (fatal: bool)
      requires Valid() && buffer != null && link.messages != []
      modifies this, buffer, link
      ensures Valid() && buffer == old(buffer) && notReadyLogs == old(notReadyLogs)
      ensures link.messages == old(link.messages)[1..]
      ensures var msg := old(link.messages)[0];
              var fits := Min(|msg|, old(buffer.SpacesAvailable()));
              fatal == (|msg| != FRAME_SAMPLE_BYTES) &&
              (fatal ==> buffer.contents == old(buffer.contents) && lostLogs == old(lostLogs)) &&
              (!fatal ==> buffer.contents == old(buffer.contents) + msg[..fits] &&
                          lostLogs == old(lostLogs) + (if fits == |msg| then 0 else 1))
    {
      var msg := link.Rx();
      if |msg| != FRAME_SAMPLE_BYTES {
        return true;
      }
      fatal := false;
      var sent := buffer.Send(msg);
      if sent != |msg| {
        lostLogs := lostLogs + 1;
      }
    }

    /**
     * `intent_engine_samples_send_local`: with no buffer yet the frame is
     * dropped and logged; otherwise its samples are offered to the buffer
     * without waiting, and a short write is only logged.
     */
    method SendLocal(frameCount: nat, frame: seq<i32>)
      requires Valid() && frameCount == FRAME_ADVANCE && frameCount <= |frame|
      modifies this, buffer
      ensures Valid() && buffer == old(buffer)
      ensures old(buffer) == null ==> notReadyLogs == old(notReadyLogs) + 1 && lostLogs == old(lostLogs)
      ensures old(buffer) != null ==>
                var b := SampleBytes(frame[..frameCount]);
                var fits := Min(|b|, old(buffer.SpacesAvailable()));
                buffer.contents == old(buffer.contents) + b[..fits] && notReadyLogs == old(notReadyLogs) &&
                lostLogs == old(lostLogs) + (if fits == |b| then 0 else 1)
    {
      if buffer != null {
        var bytes := SampleBytes(frame[..frameCount]);
        var sent := buffer.Send(bytes);
        if sent != |bytes| {
          lostLogs := lostLogs + 1;
        }
      } else {
        notReadyLogs := notReadyLogs + 1;
      }
    }
  }
}
