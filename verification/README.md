# XMOS voice kit firmware: per-frame audio logic, in Dafny

This project models the sequential core of the XMOS voice-kit firmware:

- the fixed-delay tile-0 audio pipeline;
- the pipeline input and output adapters of the ffva and ffd applications;
- USB audio buffering at equal USB and pipeline rates;
- the intent-engine sample sink;
- the two configuration register servicers;
- the flash configuration zones;
- the LED indicator task.

RTOS primitives are modelled as small classes:

- A FreeRTOS stream buffer is a bounded byte FIFO (`StreamBuffers.StreamBuffer`). Every access the firmware makes is non-blocking.
- An inter-tile port is an ordered message queue (`Intertile.Port`).
- The PDM microphone array is a queue of captured and upcoming blocks (`MicArrays.MicArray`).

The DSP library (interference canceller, VNR estimator, noise suppressor, AGC and the float helpers) is a `PipelineT0.Dsp` value. It holds function-valued fields, so each DSP call is a function of its block state and inputs, and its numerics are left open.

A frame (`frame_data_t`) has six channels of 240 `int32` samples in channel-major order, plus two `float_s32_t` metadata fields and the VNR flag. Its byte image on the inter-tile link is little-endian: the 1440 samples, then the mantissa and exponent of `max_ref_energy` and of `aec_corr_factor`, then `vnr_pred_flag`. The firmware's own struct layout is not part of this model. The image has the same size and round-trips exactly (`Frames.DecodeEncodeFrame`).

`xassert`/`configASSERT` are modelled in two ways. A check on a caller-supplied argument, such as `frame_count == FRAME_ADVANCE`, is a precondition. A check on data received from elsewhere, such as a received length, is a `fatal` result that the method's contract states exactly.

Modules, one per core file plus the shared helpers:

| module | file | models |
|---|---|---|
| `Ints`, `Bytes` | ints.dfy, bytes.dfy | C integer widths, arithmetic shift, LSB tagging, 32-bit wrap; little-endian sample codecs |
| `StreamBuffers`, `Intertile`, `MicArrays` | stream_buffer.dfy, intertile.dfy, mic_array.dfy | stream buffer, inter-tile port, mic array and the latched flush read |
| `Frames` | frame.dfy | `frame_data_t`, its byte image, in-place channel-0 overwrite |
| `PipelineT0` | audio_pipeline_t0.dfy | modules/audio_pipelines/reference/fixed_delay/audio_pipeline_t0.c |
| `FfvaAdapters` | ffva_main.dfy | examples/ffva/src/main.c |
| `FfdAdapters` | ffd_main.dfy | examples/ffd/src/main.c |
| `UsbAudio` | usb_audio.dfy | examples/ffva/src/usb/usb_audio.c |
| `IntentEngineSupport` | intent_engine_support.dfy | examples/ffd/src/intent_engine/intent_engine_support.c |
| `ConfigServicer` | configuration_servicer.dfy | src/ffva/src/configuration/configuration_servicer.c |
| `ExampleConfigServicer` | configuration_servicer_example.dfy | examples/ffva/src/configuration/configuration_servicer.c |
| `ConfigFlash` | configuration_common.dfy | examples/ffva/src/configuration/configuration_common.c |
| `Leds` | leds.dfy | examples/ffd/src/gpio_ctrl/leds.c |

Notes on the LED model:

- After an end-of-evaluation event the heartbeat timer keeps the 100 ms flicker period for good. A later "waiting" event restarts the timer but does not restore 500 ms (`Leds.FlickerPersists`).
- The task's loop as written has this behaviour, and the model keeps it.

## Model

| member | source | states |
|---|---|---|
| `Ints.ClearLsb` | examples/ffva/src/main.c:192-195 | `x & ~0x1` yields an even value equal to `x` or `x - 1`, and an even `x` is unchanged |
| `Ints.SetLsb` | examples/ffva/src/main.c:196-197 | `x \| 0x1` yields an odd value equal to `x` or `x + 1`, and an odd `x` is unchanged |
| `Ints.Wrap32` | examples/ffva/src/configuration/configuration_common.c:38 | unsigned 32-bit arithmetic: the result is congruent to `x` modulo 2^32 and equals `x` when `x` is already in range |
| `Ints.AsrThenShl` | examples/ffva/src/usb/usb_audio.c:148 | shifting a 32-bit sample down by 16 and back up clears exactly its low 16 bits |
| `Bytes.DecodeEncodeInts` | modules/audio_pipelines/reference/fixed_delay/audio_pipeline_t0.c:60-63 | words that fit the sample width come back unchanged from their little-endian bytes |
| `Bytes.DecodeEncodeRows` | examples/ffva/src/usb/usb_audio.c:184-193 | an interleaved sample frame survives encoding to bytes and decoding back, row by row |
| `Frames.DecodeEncodeFrame` | modules/audio_pipelines/reference/fixed_delay/audio_pipeline_t0.c:60-63 | a frame sent across the inter-tile link is received unchanged |
| `Frames.WithChannel0` | modules/audio_pipelines/reference/fixed_delay/audio_pipeline_t0.c:100 | replacing channel 0 leaves channels 1-5, both float fields and the VNR flag unchanged |
| `Frames.FrameData.Zeroed` | modules/audio_pipelines/reference/fixed_delay/audio_pipeline_t0.c:49-50 | a fresh frame buffer is all zero |
| `Frames.FrameData.SetChannel0` | modules/audio_pipelines/reference/fixed_delay/audio_pipeline_t0.c:114 | the in-place `memcpy` of a stage output changes the frame exactly as `WithChannel0` says |
| `StreamBuffers.StreamBuffer.Send` | examples/ffva/src/usb/usb_audio.c:549-551 | a zero-wait send appends the leading `min(len, free space)` bytes and keeps the capacity bound |
| `StreamBuffers.StreamBuffer.Receive` | examples/ffva/src/usb/usb_audio.c:221 | a zero-wait receive takes the oldest `min(max, available)` bytes, and they are followed by what remains |
| `Intertile.Port.TryRx` | examples/ffva/src/usb/usb_audio.c:179-193 | a receive with a timeout takes the oldest message, or yields an empty message when none is queued |
| `PipelineT0.IcVnrStage` | modules/audio_pipelines/reference/fixed_delay/audio_pipeline_t0.c:77-102 | when skipped, the identity with nothing pushed; otherwise channel 0 becomes the IC filter output, the VNR flag is 1 exactly when the output estimate is above the threshold, exactly one VNR percentage is pushed, and only channel 0 and the flag change |
| `PipelineT0.NsStage` | modules/audio_pipelines/reference/fixed_delay/audio_pipeline_t0.c:104-116 | when skipped, the identity; otherwise channel 0 becomes the NS output and every other channel, both float fields and the flag are unchanged |
| `PipelineT0.AgcStage` | modules/audio_pipelines/reference/fixed_delay/audio_pipeline_t0.c:118-136 | when skipped, the identity; otherwise the AGC metadata is first set to the frame's flag and float fields, then only channel 0 is rewritten |
| `PipelineT0.Descriptor` | modules/audio_pipelines/reference/fixed_delay/audio_pipeline_t0.c:149-177 | exactly three stages, in the order IC+VNR, NS, AGC; three stack sizes, each covering the minimal stack plus the stage's need; the first also covers the input adapter and the last the output adapter |
| `PipelineT0.DescriptorRunsProcessFrame` | modules/audio_pipelines/reference/fixed_delay/audio_pipeline_t0.c:155-159 | running the descriptor's stage list in order is the three-stage composition |
| `PipelineT0.ProcessFrameEffects` | modules/audio_pipelines/reference/fixed_delay/audio_pipeline_t0.c:77-136 | after a whole frame only channel 0 and the flag have changed; one VNR value is pushed exactly when IC runs; when AGC runs, its metadata equals the frame's final flag and its original float fields, so the NO_AEC start values do not survive |
| `PipelineT0.SkipsAsWritten` | modules/audio_pipelines/reference/fixed_delay/audio_pipeline_t0.c:79 | as compiled, the IC stage is never skipped, while NS and AGC follow their switches |
| `PipelineT0.BypassStillRunsIc` | modules/audio_pipelines/reference/fixed_delay/audio_pipeline_t0.c:79 | in the bypass build as written, a frame is changed by IC and a VNR value is pushed |
| `PipelineT0.StageSkips` | examples/ffva/src/app_conf.h:53-59 | each configured skip switch turns off its own stage |
| `PipelineT0.BypassIsIdentity` | modules/audio_pipelines/reference/fixed_delay/audio_pipeline_t0.c:104-136 | with the configured bypass, the frame reaching the output adapter is the received frame bit for bit, and no stage state changes |
| `PipelineT0.AudioPipeline.constructor` | modules/audio_pipelines/reference/fixed_delay/audio_pipeline_t0.c:138-147 | every block is at its initial state, and the AGC metadata holds the NO_AEC values for both float fields |
| `PipelineT0.AudioPipeline.InputI` | modules/audio_pipelines/reference/fixed_delay/audio_pipeline_t0.c:45-66 | yields a fresh frame, zero-filled and then overwritten by the received message; a message of any length other than `sizeof(frame_data_t)` is fatal |
| `PipelineT0.AudioPipeline.StageVnrAndIc` | modules/audio_pipelines/reference/fixed_delay/audio_pipeline_t0.c:77-102 | the in-place stage does what `IcVnrStage` says, and the pushed value reaches the servicer clamped to [0, 100] |
| `PipelineT0.AudioPipeline.StageNs` | modules/audio_pipelines/reference/fixed_delay/audio_pipeline_t0.c:104-116 | the in-place stage does what `NsStage` says |
| `PipelineT0.AudioPipeline.StageAgc` | modules/audio_pipelines/reference/fixed_delay/audio_pipeline_t0.c:118-136 | the in-place stage does what `AgcStage` says |
| `PipelineT0.AudioPipeline.RunFrame` | modules/audio_pipelines/reference/fixed_delay/audio_pipeline_t0.c:155-176 | a received frame leaves the three stages as the composition `ProcessFrame` says, and the servicer's VNR register holds the clamped value the IC stage pushed (unchanged when nothing is pushed or the frame is refused) |
| `PipelineT0.AudioPipeline.OutputI` | modules/audio_pipelines/reference/fixed_delay/audio_pipeline_t0.c:68-75 | all six channels of FRAME_ADVANCE samples go to the application's output adapter, and its status (free the frame) is returned: I2S frames or the slave message in the built mode, the converted frame appended to the USB buffer when USB is built, the mic interface is open and it fits, and the frame handed to the wake-word engine when that is built; the adapter's latch, phases and source selections are unchanged |
| `MicArrays.MicArray.RxNow` | examples/ffva/src/main.c:76-79 | a zero-timeout read yields a captured block, or 0 samples when none is captured |
| `MicArrays.MicArray.RxWait` | examples/ffva/src/main.c:95-98 | a blocking read yields the next block |
| `MicArrays.LatchedRead` | examples/ffva/src/main.c:73-98 | before the latch is set, the captured blocks are drained by non-blocking reads until one returns 0, one blocking read follows, and the latch is set; every call ends with one blocking read, which is what the frame holds at the given offset; nothing else in the frame changes |
| `FfdAdapters.Ffd.Input` | examples/ffd/src/main.c:35-62 | the latched flush, then one blocking read into the frame from channel 0 on; the latch stays set, and the count of captured blocks drops by one after the flush and is 0 right after it |
| `FfdAdapters.Ffd.Output` | examples/ffd/src/main.c:64-74 | the frame is pushed to the intent engine only on the pipeline tile with intent enabled, and the frame is always freed |
| `FfdAdapters.StartupCalls` | examples/ffd/src/main.c:93-135 | the platform starts first; the pipeline is initialised exactly on the pipeline tile; the intent engine is created exactly on the ASR tile when enabled |
| `FfdAdapters.PipelineAfterReadySync` | examples/ffd/src/main.c:120-127 | on the pipeline tile the pipeline init is the last call, made once, and with intent enabled it comes right after the ready synchronisation |
| `FfvaAdapters.WithI2sRefs` | examples/ffva/src/main.c:138-142 | I2S word `tmp[i][0]` lands at index `i`, `tmp[i][1]` at `i + n`, and the rest of the frame is unchanged |
| `FfvaAdapters.StoreI2sRefs` | examples/ffva/src/main.c:138-142 | the in-place copy loop leaves the frame as `WithI2sRefs` says |
| `FfvaAdapters.InterleaveWithI2sRefs` | examples/ffva/src/main.c:138-142 | interleaving the deinterleaved references gives back the received I2S frames |
| `FfvaAdapters.WithI2sRefsInterleave` | examples/ffva/src/main.c:205-213 | deinterleaving the interleaved first two channels gives back the frame |
| `FfvaAdapters.MasterFrames` | examples/ffva/src/main.c:157-176 | non-TDM master output: both words of sample frame `j` carry processed channel 0 |
| `FfvaAdapters.TdmFrame` | examples/ffva/src/main.c:183-203 | TDM slots are mic 0, mic 1, ref 0, ref 1 with bit 0 cleared, then processed 0 and 1 with bit 0 set; each slot is within one of its source sample |
| `FfvaAdapters.SlaveRoundTrip` | examples/ffva/src/main.c:37-62 | the I2S tile decodes exactly the pairs `[proc0[j], proc1[j]]` the pipeline tile sent |
| `FfvaAdapters.NextPhase` | examples/ffva/src/main.c:249-268 | the phase counter cycles 0, 1, 2, 0: it moves to `(p + 1) mod 3`, stays below 3 and changes on every call |
| `FfvaAdapters.PhaseRunRate` | examples/ffva/src/main.c:278-312 | over 3m callbacks, 2m words are moved, so each conversion side runs at one third of the I2S frame rate |
| `FfvaAdapters.Ffva.constructor` | examples/ffva/src/main.c:33-34 | mics and I2S references by default, the flush latch clear, no output sent yet, both phases 0 |
| `FfvaAdapters.Ffva.Input` | examples/ffva/src/main.c:65-145 | the latched mic read at offset `2*frame_count`; on the USB path the frame is passed only when the reference comes from USB, with 2 channels plus 2 when the mics come from USB; on the I2S path the references are deinterleaved into channels 0 and 1; a bad USB length or a short I2S read is fatal; the count of captured blocks drops by one after the flush and is 0 right after it |
| `FfvaAdapters.BuildMasterFrames` | examples/ffva/src/main.c:161-176 | the non-TDM master loop builds exactly `MasterFrames`: both words of sample frame `j` carry processed channel 0 |
| `FfvaAdapters.BuildTdmFrames` | examples/ffva/src/main.c:184-203 | the TDM loop builds exactly `TdmFrames`: mics and references with bit 0 cleared, processed channels with bit 0 set |
| `FfvaAdapters.BuildSlavePairs` | examples/ffva/src/main.c:209-213 | the slave loop builds the interleaving of the two processed channels |
| `FfvaAdapters.Ffva.Output` | examples/ffva/src/main.c:147-236 | I2S output in the built mode (master, TDM or slave), then USB, then the wake-word engine when built; the frame is always freed |
| `FfvaAdapters.Ffva.SlaveRelayStep` | examples/ffva/src/main.c:37-62 | a received message of one frame of pairs goes to I2S, and any other length is fatal |
| `FfvaAdapters.Ffva.UpsampleCb` | examples/ffva/src/main.c:239-275 | `send_buf[0..1]` is copied on every call; 2 are consumed only in phase 0 and only when 2 are available; the phase advances |
| `FfvaAdapters.Ffva.DownsampleCb` | examples/ffva/src/main.c:278-312 | a pair is written and 2 reported only in phase 2 and only when 2 spaces are free; otherwise the buffer is unchanged; the phase advances |
| `UsbAudio.ToHostRows` | examples/ffva/src/usb/usb_audio.c:133-151 | in every sample frame, channels below `num_chans` carry `proc0[i] >> shift` (16 for 2-byte samples, 0 for 4-byte), the other channels are zero, and every value fits the sample width |
| `UsbAudio.FromHostFrame` | examples/ffva/src/usb/usb_audio.c:195-203 | sample `i` of each channel below `num_chans` becomes `interleaved[i][ch] << shift`, and every other word is unchanged |
| `UsbAudio.StoreHostFrame` | examples/ffva/src/usb/usb_audio.c:195-203 | the nested in-place copy loops leave the frame equal to `FromHostFrame` of its old contents |
| `UsbAudio.NextChannel` | examples/ffva/src/usb/usb_audio.c:196-201 | taking one more channel from the host is storing that channel's `FRAME_ADVANCE` words over the frame built so far |
| `UsbAudio.SampleRoundTrip` | examples/ffva/src/usb/usb_audio.c:148-199 | a sample sent to the host and taken back loses exactly its low 16 bits with 2-byte samples, and nothing with 4-byte samples |
| `UsbAudio.ReceivedRows` | examples/ffva/src/usb/usb_audio.c:184-193 | a received message of one frame decodes to a full interleaved frame, and none yields zeros |
| `UsbAudio.TxSizeBytes` | examples/ffva/src/usb/usb_audio.c:651-658 | while the host streams out and a previous size exists, that size rescaled from RX to TX channels (never more than the exact ratio); otherwise the nominal USB-frame size |
| `UsbAudio.TxSizeEchoesSamples` | examples/ffva/src/usb/usb_audio.c:643-654 | a host transaction of k samples on each RX channel is answered with exactly k samples on each TX channel |
| `UsbAudio.NominalTxSize` | examples/ffva/src/usb/usb_audio.c:643-658 | a host transaction of nominal size is answered with one of nominal size |
| `UsbAudio.UsbAudioFunction.constructor` | examples/ffva/src/usb/usb_audio.c:803-833 | the buffers are sized two endpoint buffers (rx), two frames from the host and three frames to the host; all are empty and every flag is clear |
| `UsbAudio.UsbAudioFunction.ConvertToHost` | examples/ffva/src/usb/usb_audio.c:133-151 | the nested fill loops build exactly `ToHostRows` |
| `UsbAudio.UsbAudioFunction.Send` | examples/ffva/src/usb/usb_audio.c:119-161 | the converted frame is queued whole when the mic interface is open and it fits, and otherwise nothing is queued |
| `UsbAudio.UsbAudioFunction.Recv` | examples/ffva/src/usb/usb_audio.c:163-204 | a received length other than 0 or one frame is fatal; otherwise the frame is updated as `FromHostFrame` says (zeros when nothing arrived), and left alone when no frame buffer is given |
| `UsbAudio.UsbAudioFunction.RxPostRead` | examples/ffva/src/usb/usb_audio.c:509-617 | streaming flag, previous size and speaker-open are updated first; a transaction larger than the endpoint buffer or the free space is refused unbuffered; otherwise it is buffered and one `RxStep` follows |
| `UsbAudio.UsbAudioFunction.RxStep` | examples/ffva/src/usb/usb_audio.c:559-614 | with less than one USB frame buffered nothing moves; otherwise exactly one USB frame leaves the rx buffer, is forwarded whole if it fits and dropped otherwise, and the out task is notified exactly when the fill reaches one pipeline frame plus one USB frame |
| `UsbAudio.UsbAudioFunction.ForwardUsbFrame` | examples/ffva/src/usb/usb_audio.c:559-614 | the in-place forwarding does what `RxStep` says |
| `UsbAudio.UsbAudioFunction.TxPreLoad` | examples/ffva/src/usb/usb_audio.c:619-733 | opening the mic interface clears the ready latch; a full buffer is emptied, the latch cleared and nothing written; otherwise the latch is set once two frames are buffered, and exactly `tx_size_bytes` are written: zeros while not ready, else `min(available, size)` buffered bytes then zero padding |
| `UsbAudio.ToHostThresholdReachable` | examples/ffva/src/usb/usb_audio.c:829-830 | in a valid USB function with fewer than two frames buffered to the host, the space test of `Send` passes and a whole frame fits, so the ready latch's two-frame threshold is reached |
| `UsbAudio.UsbAudioFunction.SetItf` | examples/ffva/src/usb/usb_audio.c:750-778 | opening the speaker interface closes it and empties both buffers from the host; opening the mic interface closes it and empties the buffer to the host; nothing else changes |
| `UsbAudio.UsbAudioFunction.CloseEp` | examples/ffva/src/usb/usb_audio.c:780-801 | closing an interface clears its open flag only |
| `UsbAudio.UsbAudioFunction.OutTaskStep` | examples/ffva/src/usb/usb_audio.c:206-237 | up to one frame leaves the host buffer; a non-empty read of any other size is fatal, and a whole frame is sent to the pipeline tile |
| `IntentEngineSupport.SampleBytesRoundTrip` | examples/ffd/src/intent_engine/intent_engine_support.c:42-45 | the samples sent are the samples received |
| `IntentEngineSupport.IntentSink.CreateBuffer` | examples/ffd/src/intent_engine/intent_engine_support.c:78-80 | the buffer is created empty, with capacity `FRAME_BUFFER_MULT * FRAME_ADVANCE` bytes and trigger level `SAMPLE_BLOCK_LENGTH` |
| `IntentEngineSupport.IntentSink.Reset` | examples/ffd/src/intent_engine/intent_engine_support.c:23-28 | no attempt when no buffer exists; otherwise retried until a reset succeeds, one attempt more than the failing ones, leaving the buffer empty |
| `IntentEngineSupport.IntentSink.SendRemote` | examples/ffd/src/intent_engine/intent_engine_support.c:35-46 | exactly one message of `4*frame_count` bytes, carrying the frame's samples, is sent |
| `IntentEngineSupport.IntentSink.RelayStep` | examples/ffd/src/intent_engine/intent_engine_support.c:50-74 | a message of any other length than one frame of samples is fatal; otherwise the bytes that fit are appended with no wait, and a short write is only logged |
| `IntentEngineSupport.IntentSink.SendLocal` | examples/ffd/src/intent_engine/intent_engine_support.c:102-116 | with no buffer, a log and nothing sent; otherwise the bytes that fit are appended, and a short write is only logged |
| `ConfigServicer.ClampPercent` | src/ffva/src/configuration/configuration_servicer.c:150-155 | the stored VNR value lies in [0, 100], and an in-range value is stored exactly |
| `ConfigServicer.ServicerInit` | src/ffva/src/configuration/configuration_servicer.c:22-37 | servicer id 241, start_io 0, one resource 241 carrying 3 commands |
| `ConfigServicer.ReadSpec` | src/ffva/src/configuration/configuration_servicer.c:67-111 | a known register gives `[0, value, 0...]` and SUCCESS; an unknown command gives `[BAD_COMMAND, 0...]` and BAD_COMMAND |
| `ConfigServicer.WriteSpec` | src/ffva/src/configuration/configuration_servicer.c:113-148 | a channel-stage write of exactly one byte stores it unvalidated, other lengths are ignored, and both return SUCCESS; the VNR register and unknown commands return BAD_COMMAND and change nothing |
| `ConfigServicer.CommandMapMatchesDispatch` | src/ffva/src/configuration/configuration_servicer.h:15-20 | exactly the commands in the map can be read, and exactly the read-write ones can be written |
| `ConfigServicer.WriteThenRead` | src/ffva/src/configuration/configuration_servicer.c:113-148 | after a write of `b` to a channel stage, a read of it returns `b` |
| `ConfigServicer.Servicer.constructor` | src/ffva/src/configuration/configuration_servicer.c:17-20 | VNR 0, channel 0 from AGC (4), channel 1 from AEC (1) |
| `ConfigServicer.Servicer.ReadCmd` | src/ffva/src/configuration/configuration_servicer.c:67-111 | the payload is zeroed and filled in place as `ReadSpec` says |
| `ConfigServicer.Servicer.WriteCmd` | src/ffva/src/configuration/configuration_servicer.c:113-148 | the registers change as `WriteSpec` says |
| `ConfigServicer.Servicer.PushVnrValue` | src/ffva/src/configuration/configuration_servicer.c:150-155 | the VNR register becomes the clamped value, and the stage registers are unchanged |
| `ConfigServicer.Servicer.GetChannel0Stage` | src/ffva/src/configuration/configuration_servicer.c:157-160 | yields the channel 0 stage register |
| `ConfigServicer.Servicer.GetChannel1Stage` | src/ffva/src/configuration/configuration_servicer.c:162-165 | yields the channel 1 stage register |
| `ExampleConfigServicer.ServicerInit` | examples/ffva/src/configuration/configuration_servicer.c:19-34 | servicer id 241, one resource 241 carrying 3 commands, two of them read-write |
| `ExampleConfigServicer.ReadSpec` | examples/ffva/src/configuration/configuration_servicer.c:64-93 | the raw command byte is compared; the VNR register gives `[0, vnr, 0...]` and SUCCESS; anything else gives BAD_COMMAND with the payload left all zero |
| `ExampleConfigServicer.ReadBitNotCleared` | examples/ffva/src/configuration/configuration_servicer.c:68 | a read request carrying the read bit is refused here, whereas the other servicer answers it |
| `ExampleConfigServicer.Servicer.constructor` | examples/ffva/src/configuration/configuration_servicer.c:17 | the VNR register starts at 0 |
| `ExampleConfigServicer.Servicer.ReadCmd` | examples/ffva/src/configuration/configuration_servicer.c:64-93 | the payload is zeroed and filled in place as `ReadSpec` says |
| `ExampleConfigServicer.Servicer.WriteCmd` | examples/ffva/src/configuration/configuration_servicer.c:95-112 | every write returns BAD_COMMAND and changes nothing, even for the listed read-write commands |
| `ExampleConfigServicer.Servicer.SetVnrValue` | examples/ffva/src/configuration/configuration_servicer.c:114-119 | the VNR register becomes the value clamped to [0, 100] |
| `ConfigFlash.CheckFlash` | examples/ffva/src/configuration/configuration_common.c:17-22 | 1 exactly when the sector size is 0 or the base equals the flash size, and so also for the all-zero geometry before init |
| `ConfigFlash.ZoneAddressAsWritten` | examples/ffva/src/configuration/configuration_common.c:38 | `flash_size - (zone+1)*sector_size`, which is exact when no wrap occurs |
| `ConfigFlash.ZoneAddressWrapAccepted` | examples/ffva/src/configuration/configuration_common.c:37-39 | on a 512 KiB device with 4 KiB sectors and the base at 256 KiB, zone 200 passes every check at 0xFFFB7000, beyond the device |
| `ConfigFlash.ZoneAddress` | examples/ffva/src/configuration/configuration_common.c:38 | an address exists exactly when the zone's sectors fit below the end of the device, and it is that many sectors below the end |
| `ConfigFlash.Accepted` | examples/ffva/src/configuration/configuration_common.c:37-39 | an accepted address has good geometry, is at or above the base, and its sector lies inside the device |
| `ConfigFlash.AcceptedAgreesWithoutWrap` | examples/ffva/src/configuration/configuration_common.c:37-39 | where no wrap is possible, the corrected check agrees with the code as written |
| `ConfigFlash.WriteStatusAsWritten` | examples/ffva/src/configuration/configuration_common.c:32-87 | the statuses the code returns on its wrapping address check: 1 bad geometry or address, 2 factory zone, 3 length over a sector, 4 unknown zone, 0 written |
| `ConfigFlash.ReadStatusAsWritten` | examples/ffva/src/configuration/configuration_common.c:104-119 | the statuses the code returns on its wrapping address check: 1 bad geometry or address, 3 length over a sector, otherwise 0 |
| `ConfigFlash.StatusAgreesWithoutWrap` | examples/ffva/src/configuration/configuration_common.c:37-39 | where no wrap is possible, the corrected write and read statuses are the ones the code returns |
| `ConfigFlash.WrapStatuses` | examples/ffva/src/configuration/configuration_common.c:79-83 | at the wrapping zone 200 the code answers a write with 4 and a read with 0, where the corrected check gives 1 for both |
| `ConfigFlash.WriteStatus` | examples/ffva/src/configuration/configuration_common.c:32-87 | on the corrected address check, the checks run in order: 1 bad geometry or address, 2 factory zone, 3 length over a sector, 4 unknown zone, 0 written |
| `ConfigFlash.ReadStatus` | examples/ffva/src/configuration/configuration_common.c:104-119 | on the corrected address check: 1 bad geometry or address, 3 length over a sector, otherwise 0 for any zone |
| `ConfigFlash.WriteThenRead` | examples/ffva/src/configuration/configuration_common.c:48-119 | after a successful customer write, a customer read of the same length succeeds and returns the data written |
| `ConfigFlash.ConfigurationFlash.constructor` | examples/ffva/src/configuration/configuration_common.c:13-15 | before init every geometry field is zero |
| `ConfigFlash.ConfigurationFlash.Init` | examples/ffva/src/configuration/configuration_common.c:24-30 | the geometry becomes the partition base, the device size and the sector size, and the result is 0 |
| `ConfigFlash.ConfigurationFlash.WriteToFlash` | examples/ffva/src/configuration/configuration_common.c:32-87 | returns `WriteStatus`; on success the sector holds `data[0..length)` then its old bytes, and the flash outside the sector is unchanged; on failure nothing changes |
| `ConfigFlash.ConfigurationFlash.ReadFromFlash` | examples/ffva/src/configuration/configuration_common.c:104-119 | returns `ReadStatus`; on success `data` starts with the sector's first `length` bytes, and on failure `data` is unchanged |
| `ConfigFlash.ConfigurationFlash.RewriteSector` | examples/ffva/src/configuration/configuration_common.c:53-74 | reading the sector, overlaying its first bytes, erasing and programming it back replaces exactly those bytes |
| `ConfigFlash.ConfigurationFlash.Flush` | examples/ffva/src/configuration/configuration_common.c:89-102 | returns 0 and changes neither flash nor geometry |
| `Leds.GreenXOn` | examples/ffd/src/gpio_ctrl/leds.c:64-68 | green lit, red dark, every other port bit kept |
| `Leds.GreenOn` | examples/ffd/src/gpio_ctrl/leds.c:69-72 | green lit, red as it was, every other bit kept |
| `Leds.GreenOff` | examples/ffd/src/gpio_ctrl/leds.c:73-76 | green dark, red as it was, every other bit kept |
| `Leds.GreenToggle` | examples/ffd/src/gpio_ctrl/leds.c:77-80 | green flipped, red as it was, every other bit kept |
| `Leds.GreenXToggle` | examples/ffd/src/gpio_ctrl/leds.c:83-87 | green flipped, red dark, every other bit kept |
| `Leds.RedXOn` | examples/ffd/src/gpio_ctrl/leds.c:90-94 | red lit, green dark, every other bit kept |
| `Leds.RedOn` | examples/ffd/src/gpio_ctrl/leds.c:95-98 | red lit, green as it was, every other bit kept |
| `Leds.RedOff` | examples/ffd/src/gpio_ctrl/leds.c:99-102 | red dark, green as it was, every other bit kept |
| `Leds.RedToggle` | examples/ffd/src/gpio_ctrl/leds.c:103-106 | red flipped, green as it was, every other bit kept |
| `Leds.RedXToggle` | examples/ffd/src/gpio_ctrl/leds.c:109-113 | red flipped, green dark, every other bit kept |
| `Leds.YellowOn` | examples/ffd/src/gpio_ctrl/leds.c:115-118 | both lit, every other bit kept |
| `Leds.YellowOff` | examples/ffd/src/gpio_ctrl/leds.c:119-122 | both dark, every other bit kept |
| `Leds.YellowToggle` | examples/ffd/src/gpio_ctrl/leds.c:123-127 | both dark when both were lit, otherwise both lit; every other bit kept |
| `Leds.GreenToggleTwice` | examples/ffd/src/gpio_ctrl/leds.c:77-80 | toggling green twice restores the port |
| `Leds.GreenXToggleTwice` | examples/ffd/src/gpio_ctrl/leds.c:83-87 | two heartbeat ticks restore green, with red dark |
| `Leds.RedXToggleTwice` | examples/ffd/src/gpio_ctrl/leds.c:109-113 | two flicker ticks restore red, with green dark |
| `Leds.YellowToggleTwice` | examples/ffd/src/gpio_ctrl/leds.c:123-127 | yellow-toggle is its own inverse exactly when both LEDs agree; otherwise two toggles leave both dark |
| `Leds.EventOf` | examples/ffd/src/gpio_ctrl/leds.c:158-173 | WAITING wins over LISTEN, which wins over END_OF_EVAL; a value with none of those bits is no event |
| `Leds.NextIndication` | examples/ffd/src/gpio_ctrl/leds.c:158-173 | no event keeps (color, state); any event selects a reachable pair |
| `Leds.AlwaysReachable` | examples/ffd/src/gpio_ctrl/leds.c:141-173 | from a reachable pair, every run of events ends in (green, toggle), (yellow, on) or (red, toggle) |
| `Leds.TimerAfter` | examples/ffd/src/gpio_ctrl/leds.c:158-173 | WAITING starts the timer with its current period, LISTEN stops it, END_OF_EVAL sets the flicker period and starts it |
| `Leds.FlickerPersists` | examples/ffd/src/gpio_ctrl/leds.c:158-173 | once the flicker period is set, no later event restores the blink period |
| `Leds.Indicate` | examples/ffd/src/gpio_ctrl/leds.c:178-217 | the port update keeps every bit outside the LED mask |
| `Leds.IndicateReachable` | examples/ffd/src/gpio_ctrl/leds.c:178-217 | in (green, toggle) green flips with red dark; in (yellow, on) both are lit; in (red, toggle) red flips with green dark |
| `Leds.LedTask.constructor` | examples/ffd/src/gpio_ctrl/leds.c:136-149 | (green, toggle), with the timer started at the 500 ms blink period |
| `Leds.LedTask.HbeatTimerCallback` | examples/ffd/src/gpio_ctrl/leds.c:131-134 | the heartbeat bit is or-ed into the task's notification value |
| `Leds.LedTask.IndicateWaiting` | examples/ffd/src/gpio_ctrl/leds.c:231-234 | the WAITING bit is or-ed into the notification value |
| `Leds.LedTask.IndicateListening` | examples/ffd/src/gpio_ctrl/leds.c:236-239 | the LISTEN bit is or-ed into the notification value |
| `Leds.LedTask.IndicateEndOfEval` | examples/ffd/src/gpio_ctrl/leds.c:241-244 | the END_OF_EVAL bit is or-ed into the notification value |
| `Leds.LedTask.Step` | examples/ffd/src/gpio_ctrl/leds.c:151-217 | every notification bit is cleared; the highest-priority event sets (color, state) and the timer; the port is driven for the current indication; reachability and the two periods are preserved |

## Left out

- The pipeline scheduler (`generic_pipeline_init`), FreeRTOS tasks, queues and timers: this is concurrency, and the scheduler's source is not part of this model. The pipeline is a sequential per-frame composition. Each task loop is modelled as one step method (`RelayStep`, `SlaveRelayStep`, `OutTaskStep`, `LedTask.Step`).
- Blocking waits: a receive with `portMAX_DELAY` requires a queued message or block instead of waiting. Microphone capture running concurrently with the flush is modelled as a fixed split of the queued blocks into captured and upcoming ones.
- DSP numerics (`ic_filter`, `ic_calc_vnr_pred`, `ic_adapt`, `ns_process_frame`, `agc_process_frame`, the `float_s32_t` conversions, the VNR `(int)(x * 100)` and the 0.5 threshold comparison): these are foreign floating-point code, given as the function fields of a `Dsp` value.
- The sample-rate conversion FIR filters (`src_us3_*`, `src_ds3_*`) and every `RATE_MULTIPLIER == 3` branch of the USB code. Only the phase counters of the I2S callbacks are modelled; the decimated pair the downsampler writes is a parameter.
- USB class-specific control requests (mute and volume get/set), mount and suspend callbacks, `tud_audio_tx_done_post_load_cb`, logging, `mem_analysis` and the idle hooks: these are I/O only.
- The TinyUSB configuration (channel counts, sample width, endpoint buffer sizes) is not part of this model; it is the `UsbConfig` parameter. The interleaved 2-D sample arrays become rows of integers.
- `UsbAudio.UsbAudioFunction.TxPreLoad`: requires the transaction size to be at most twice the nominal size, the size of the callback's local buffers. The code does not check this.
- The drain loops that index a 2-D array with a byte count are each modelled as one receive. Availability is checked first, so that receive returns everything.
- `MIC_ARRAY_CONFIG_MIC_COUNT` is not part of this model: two microphones are assumed (`MicArrays.MIC_CHANNELS`), matching the two mic channels of the six-channel frame.
- `CONTROL_BAD_COMMAND` comes from the device-control library, which is not part of this model; the value 2 is assumed.
- `ConfigServicer.ReadSpec`: requires a payload of at least 2 bytes. The C code writes `payload[1]` unchecked for a known register; for an unknown command only byte 0 would be needed.
- `ConfigServicer.Servicer.ReadCmd`: requires a payload of at least 2 bytes. The C code writes `payload[1]` unchecked for a known register; for an unknown command only byte 0 would be needed.
- `ExampleConfigServicer.ReadSpec`: requires a payload of at least 2 bytes. The C code writes `payload[1]` unchecked for a known register; for an unknown command only byte 0 would be needed.
- `ExampleConfigServicer.Servicer.ReadCmd`: requires a payload of at least 2 bytes. The C code writes `payload[1]` unchecked for a known register; for an unknown command only byte 0 would be needed.
- `ExampleConfigServicer.CMD_RESID_VNR`: the read handler tests `CONFIGURATION_SERVICER_RESID_VNR`, which the header does not define (it defines `..._RESID_VNR_VALUE`). The VNR register's identifier 0x00 is assumed.
- The device-control servicer task loops and their registration: these are foreign RPC glue.
- The QSPI flash driver, the DFU image queries, flash locking and `malloc` are replaced by an in-memory byte array whose size is the device size. Erase sets bytes to 0xFF; programming an erased range writes the bytes.
- `ConfigFlash.ConfigurationFlash.ReadFromFlash`: the firmware reads the zone through the driver, and the model copies it from the array.
- `PipelineT0.AudioPipeline.constructor`: installs the corrected stage switches `StageSkips(flags)` (see Findings), not the compiled `SkipsAsWritten(flags)`; with the IC switch set (`icAndVnr = 1`, as in the bypass build) the model skips IC, where the code runs it.
- `PipelineT0.AudioPipeline.StageVnrAndIc`: applies the corrected IC switch, so at `icAndVnr = 1` it leaves the frame alone and pushes no VNR value, where the code filters channel 0, pushes a VNR value and adapts. `PipelineT0.BypassStillRunsIc` exhibits what the code does.
- `PipelineT0.AudioPipeline.RunFrame`: composes the stages under the corrected switches, so in the bypass build the frame passes through unchanged (`PipelineT0.BypassIsIdentity`), where the code still runs IC on channel 0.
- `ConfigFlash.WriteStatus`: implements the corrected address check (see Findings), not the wrapping one; at a zone whose sectors reach below address 0 it returns 1 where the code returns 4. `WriteStatusAsWritten` is the code's status, and `StatusAgreesWithoutWrap` shows the two agree whenever no wrap occurs.
- `ConfigFlash.ReadStatus`: implements the corrected address check; at a wrapping zone it returns 1 where the code returns 0. `ReadStatusAsWritten` is the code's status.
- `ConfigFlash.ConfigurationFlash.WriteToFlash`: implements the corrected address check, so at a wrapping zone it refuses with 1 and writes nothing, where the code returns 4.
- `ConfigFlash.ConfigurationFlash.ReadFromFlash`: implements the corrected address check, so at a wrapping zone it refuses with 1, where the code reads `length` bytes from the wrapped address past the end of the device and returns 0.
- `FfvaAdapters.TdmFrames`: one six-word TDM sample frame per pipeline sample, which assumes `appconfI2S_AUDIO_SAMPLE_RATE / appconfAUDIO_PIPELINE_SAMPLE_RATE` is 1, as in the shipped configuration (examples/ffva/src/app_conf.h:105-106). With another ratio the code would send that many I2S frames per `tdm_output`, and the model does not cover it.
- `FfvaAdapters.Ffva.Output`: the wake-word engine (`ww_audio_send`) is not part of this model; the frame handed to it is recorded in `wwSent`, and what the engine does with it is not modelled.
- `PipelineT0.Descriptor`: the stack sizes are symbolic (`RTOS_THREAD_STACK_SIZE` is a build-time value) and are given as a function of the pipeline function.
- `Frames.EncodeFrame`: the byte layout of `frame_data_t` is a chosen one (see above), not the compiler's. Only its size and the round trip matter to the model.
- `Leds.BLINK_TICKS`: the heartbeat periods assume a 1 ms RTOS tick; the FreeRTOS configuration is not part of this model.
- The LED masks of the XCORE-AI Explorer board and `gpo_setup`: the model uses the XK_VOICE_L71 masks only. Port access is a value written back, not a driver call.
- `led_task_create` and the task handle: start-up plumbing.
- The intent engine itself (`intent_engine_task`, `intent_engine_sample_push`, `intent_engine_ready_sync`) is not part of this model. The ffd output adapter records the blocks it pushes.
- Driver and platform bring-up, configuration headers and declaration-only headers: these are constants and I/O plumbing, used only for the values they define.

## Findings

| source | as written | input that shows it | evidently intended | confidence | as-written member | corrected member |
|---|---|---|---|---|---|---|
| examples/ffva/src/configuration/configuration_common.c:38-39 | `cur_addr = flash_size - (zone + 1) * sector_size` in `uint32_t` wraps when the zone's sectors reach below address 0, and the wrapped address passes the base check | flash size 0x80000, sector size 0x1000, base 0x40000, zone 200: the address is 0xFFFB7000, which is accepted and lies past the end of the device | a zone that does not fit below the end of the device is refused with status 1 | not executed | `ConfigFlash.ZoneAddressWrapAccepted` | `ConfigFlash.Accepted` |
| modules/audio_pipelines/reference/fixed_delay/audio_pipeline_t0.c:79 | the IC stage is guarded by `appconfAUDIO_PIPELINE_SKIP_IC_AND_VAD`, which no configuration defines; the preprocessor reads it as 0, so IC always runs, while the configuration sets `appconfAUDIO_PIPELINE_SKIP_IC_AND_VNR` (examples/ffva/src/app_conf.h:56) | the bypass build (every skip switch 1) with an IC filter that outputs silence and a frame of ones: channel 0 comes out zero and a VNR value is pushed | the bypass build passes every frame through unchanged | not executed | `PipelineT0.BypassStillRunsIc` | `PipelineT0.StageSkips` |
