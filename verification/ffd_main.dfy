// The ffd application's pipeline adapters and start-up order. The input
// adapter fills the frame with the microphones from channel 0 on; the
// output adapter pushes processed audio to the intent engine.
module FfdAdapters {
  import opened Ints
  import opened MicArrays

  /** What the output adapter tells the pipeline to do with the frame. */
  datatype OutputStatus = FreeFrame | KeepFrame

  /** The tiles the start-up task places its work on. */
  datatype TileMap = TileMap(fsTile: nat, asrTile: nat, pipelineTile: nat)

  /** The calls `startup_task` makes, in the order it makes them. */
  datatype StartupCall =
    | PlatformStart
    | LedTaskCreate
    | GpiInit
    | FatfsInit
    | IntentCreate
    | IntentReadySync
    | PipelineInit

  /** The calls the start-up task makes on `tile`, before it suspends itself. */
  function StartupCalls(tile: nat, m: TileMap, intentEnabled: bool): (calls: seq<StartupCall>)
    ensures |calls| > 0 && calls[0] == PlatformStart
    ensures PipelineInit in calls <==> tile == m.pipelineTile
    ensures IntentCreate in calls <==> intentEnabled && tile == m.asrTile
  {
    [PlatformStart] +
    (if tile == 0 then [LedTaskCreate] else []) +
    (if tile == 1 then [GpiInit] else []) +
    (if tile == m.fsTile then [FatfsInit] else []) +
    (if intentEnabled && tile == m.asrTile then [IntentCreate] else []) +
    (if tile == m.pipelineTile then (if intentEnabled then [IntentReadySync] else []) + [PipelineInit] else [])
  }

  /**
   * With the intent engine built in, the pipeline is started only once the
   * engine has reported ready: the call just before PipelineInit is the
   * ready synchronisation, and PipelineInit is the last call.
   */
  lemma {:induction false} PipelineAfterReadySync(tile: nat, m: TileMap, intentEnabled: bool)
    requires tile == m.pipelineTile
    ensures var calls := StartupCalls(tile, m, intentEnabled);
            |calls| >= 2 && calls[|calls| - 1] == PipelineInit &&
            (intentEnabled ==> calls[|calls| - 2] == IntentReadySync) &&
            (forall i :: 0 <= i < |calls| - 1 ==> calls[i] != PipelineInit)
  {
    var calls := StartupCalls(tile, m, intentEnabled);
    var prefix := [PlatformStart] +
      (if tile == 0 then [LedTaskCreate] else []) +
      (if tile == 1 then [GpiInit] else []) +
      (if tile == m.fsTile then [FatfsInit] else []) +
      (if intentEnabled && tile == m.asrTile then [IntentCreate] else []) +
      (if intentEnabled then [IntentReadySync] else []);
    assert calls == prefix + [PipelineInit];
    assert PipelineInit !in prefix;
  }

  class Ffd {
    const mic: MicArray
    const intentEnabled: bool
    const onPipelineTile: bool
    /** The input adapter's static `flushed` latch. */
    var flushed: bool
    /** Every block of samples handed to `intent_engine_sample_push`, oldest first. */
    var pushed: seq<seq<i32>>

    ghost predicate Valid()
      reads this, mic
    {
      mic.Valid()
    }

    constructor (m: MicArray, intent: bool, pipelineTile: bool)
      requires m.Valid()
      ensures Valid() && mic == m && intentEnabled == intent && onPipelineTile == pipelineTile
      ensures !flushed && pushed == []
    {
      mic := m;
      intentEnabled := intent;
      onPipelineTile := pipelineTile;
      flushed := false;
      pushed := [];
    }

    /** `audio_pipeline_input`: the latched flush, then the frame's own mic block from channel 0 on. */
    method Input(frames: array<i32>, chCount: nat, frameCount: nat)
      requires Valid() && frameCount == mic.frameSize && MIC_CHANNELS * frameCount <= frames.Length
      requires |mic.blocks| >= BlocksTaken(flushed, mic.ready)
      modifies this, mic, frames
      ensures Valid() && flushed && pushed == old(pushed)
      ensures var n := BlocksTaken(old(flushed), old(mic.ready));
              mic.blocks == old(mic.blocks)[n..] &&
              frames[..] == WithBlockAt(old(frames[..]), 0, old(mic.blocks)[n - 1])
      ensures mic.ready == if old(flushed) && old(mic.ready) > 0 then old(mic.ready) - 1 else 0
    {
      flushed := LatchedRead(mic, frames, 0, flushed);
    }

    /** `audio_pipeline_output`: on the pipeline tile with the intent engine built in, processed channel 0 goes to the engine. */
    method Output(frames: array<i32>, chCount: nat, frameCount: nat) returns (status: OutputStatus)
      requires frameCount <= frames.Length
      modifies this
      ensures status == FreeFrame && flushed == old(flushed)
      ensures pushed == old(pushed) + (if onPipelineTile && intentEnabled then [frames[..frameCount]] else [])
    {
      if onPipelineTile && intentEnabled {
        pushed := pushed + [frames[..frameCount]];
      }
      status := FreeFrame;
    }
  }
}
