// The ffva application's pipeline adapters: the input adapter fills a
// frame with two reference channels followed by the microphones, the
// output adapter hands the processed frame to I2S (master, TDM or via the
// other tile in slave mode) and to USB, and the two I2S filter callbacks
// keep the phase of a 1:3 sample-rate conversion.
//
// Flat frame layout: channel c occupies words [c*frameCount, (c+1)*frameCount).
// On input channels 0 and 1 are the references and 2 and 3 the mics; on
// output channels 0 and 1 are processed audio, 2 and 3 the references and
// 4 and 5 the mics.
module FfvaAdapters {
  import opened Ints
  import opened Bytes
  import opened Frames
  import opened Intertile
  import opened MicArrays
  import opened UsbAudio

  datatype I2sMode = I2sMaster | I2sSlave

  /** Where the acoustic echo reference comes from (`aec_ref_source`). */
  datatype AecRef = AecRefUsb | AecRefI2s

  /** What the output adapter tells the pipeline to do with the frame. */
  datatype OutputStatus = FreeFrame | KeepFrame

  /** The build switches of the application configuration that the adapters test. */
  datatype Build = Build(usbEnabled: bool, i2sEnabled: bool, i2sMode: I2sMode, tdmEnabled: bool, wwEnabled: bool)

  /** The configuration as shipped: I2S master without TDM, USB and the wake-word engine off. */
  const FfvaBuild: Build := Build(false, true, I2sMaster, false, false)

  /** One frame of stereo 32-bit sample pairs, as sent to the I2S tile in slave mode. */
  const SLAVE_MESSAGE_BYTES: nat := FRAME_ADVANCE * (MIC_CHANNELS * 4)

  /** The I2S receiver supplies the references: I2S is built in and USB is either absent or not the reference source. */
  predicate I2sRefPath(b: Build, aec: AecRef)
  {
    b.i2sEnabled && (!b.usbEnabled || aec == AecRefI2s)
  }

  /** Channels asked of the USB receiver: the two references, and the two mics when they come from the host. */
  function UsbChannels(micFromUsb: bool): nat
  {
    if micFromUsb then 4 else 2
  }

  /** The message a non-blocking receive takes off a queue: the oldest, or nothing. */
  function NextMessage(q: seq<seq<byte>>): seq<byte>
  {
    if q == [] then [] else q[0]
  }

  /** Sample frames of two words each. */
  predicate IsPairs(rx: seq<seq<i32>>)
  {
    forall i :: 0 <= i < |rx| ==> |rx[i]| == MIC_CHANNELS
  }

  /** Deinterleave: the left word of I2S frame i becomes sample i of channel 0, the right word sample i of channel 1. */
  function WithI2sRefs(f: seq<i32>, rx: seq<seq<i32>>): (r: seq<i32>)
    requires IsPairs(rx) && 2 * |rx| <= |f|
    ensures |r| == |f|
    ensures forall i :: 0 <= i < |rx| ==> r[i] == rx[i][0] && r[i + |rx|] == rx[i][1]
    ensures forall k :: 2 * |rx| <= k < |f| ==> r[k] == f[k]
  {
    seq(|f|, k requires 0 <= k < |f| =>
      if k < |rx| then rx[k][0] else if k < 2 * |rx| then rx[k - |rx|][1] else f[k])
  }

  /** The copy loop of the I2S reference path: sample pair i lands at i and i + |rx|. */
  method StoreI2sRefs(frames: array<i32>, rx: seq<seq<i32>>)
    requires IsPairs(rx) && 2 * |rx| <= frames.Length
    modifies frames
    ensures frames[..] == WithI2sRefs(old(frames[..]), rx)
  {
    ghost var f0 := frames[..];
    var n := |rx|;
    for i := 0 to n
      invariant forall k :: 0 <= k < i ==> frames[k] == rx[k][0] && frames[k + n] == rx[k][1]
      invariant forall k :: (i <= k < n || n + i <= k < frames.Length) ==> frames[k] == f0[k]
    {
      frames[i] := rx[i][0];
      frames[i + n] := rx[i][1];
    }
    forall k | 0 <= k < frames.Length ensures frames[k] == WithI2sRefs(f0, rx)[k] {
      if n <= k < 2 * n {
        assert frames[(k - n) + n] == rx[k - n][1];
      }
    }
    assert frames[..] == WithI2sRefs(f0, rx);
  }

  /** Interleave: sample frame j carries sample j of channel 0 and sample j of channel 1. */
  function Interleave(f: seq<i32>, n: nat): (rows: seq<seq<i32>>)
    requires 2 * n <= |f|
    ensures |rows| == n && IsPairs(rows)
  {
    seq(n, j requires 0 <= j < n => [f[j], f[j + n]])
  }

  /** Interleaving the deinterleaved references gives back the I2S frames received. */
  lemma {:induction false} InterleaveWithI2sRefs(f: seq<i32>, rx: seq<seq<i32>>)
    requires IsPairs(rx) && 2 * |rx| <= |f|
    ensures Interleave(WithI2sRefs(f, rx), |rx|) == rx
  {
    var g := Interleave(WithI2sRefs(f, rx), |rx|);
    forall j | 0 <= j < |rx| ensures g[j] == rx[j] {
      assert g[j] == [rx[j][0], rx[j][1]];
    }
  }

  /** Deinterleaving the first two channels of a frame leaves the frame as it was. */
  lemma {:induction false} WithI2sRefsInterleave(f: seq<i32>, n: nat)
    requires 2 * n <= |f|
    ensures WithI2sRefs(f, Interleave(f, n)) == f
  {
    var g := WithI2sRefs(f, Interleave(f, n));
    forall k | 0 <= k < |f| ensures g[k] == f[k] {
      if k >= n && k < 2 * n {
        assert g[(k - n) + n] == Interleave(f, n)[k - n][1];
      }
    }
  }

  /** Words of 32-bit samples fit the 4-byte encoding. */
  lemma {:induction false} PairsFit(rows: seq<seq<i32>>)
    requires IsPairs(rows)
    ensures IsRows(rows, MIC_CHANNELS, 4)
  {
    forall k | 0 <= k < |rows| ensures AllFit(rows[k], 4) {
      forall i | 0 <= i < |rows[k]| ensures FitsSigned(rows[k][i], 4) {
        FitsI32(rows[k][i]);
      }
    }
  }

  /** Non-TDM master output: both words of sample frame j carry processed channel 0. */
  function MasterFrames(f: seq<i32>, n: nat): (rows: seq<seq<int>>)
    requires n <= |f|
    ensures |rows| == n
    ensures forall j :: 0 <= j < n ==> |rows[j]| == 2 && rows[j][0] == rows[j][1] == f[j]
  {
    seq(n, j requires 0 <= j < n => [f[j], f[j]])
  }

  /**
   * The TDM frame of sample i: mic 0, mic 1, ref 0, ref 1 with bit 0
   * cleared, then processed 0 and 1 with bit 0 set, so that a receiver
   * can tell processed slots from the rest.
   */
  function TdmFrame(f: seq<i32>, n: nat, i: nat): (w: seq<int>)
    requires i < n && CHANNELS * n <= |f|
    ensures |w| == 6
    ensures forall s :: 0 <= s < 4 ==> w[s] % 2 == 0
    ensures w[4] % 2 == 1 && w[5] % 2 == 1
    ensures 0 <= f[i + 4 * n] - w[0] <= 1 && 0 <= f[i + 5 * n] - w[1] <= 1 && 0 <= f[i + 2 * n] - w[2] <= 1 && 0 <= f[i + 3 * n] - w[3] <= 1
    ensures 0 <= w[4] - f[i] <= 1 && 0 <= w[5] - f[i + n] <= 1
  {
    [ClearLsb(f[i + 4 * n]), ClearLsb(f[i + 5 * n]), ClearLsb(f[i + 2 * n]), ClearLsb(f[i + 3 * n]),
     SetLsb(f[i]), SetLsb(f[i + n])]
  }

  function TdmFrames(f: seq<i32>, n: nat): (rows: seq<seq<int>>)
    requires CHANNELS * n <= |f|
    ensures |rows| == n && forall i :: 0 <= i < n ==> rows[i] == TdmFrame(f, n, i)
  {
    seq(n, i requires 0 <= i < n => TdmFrame(f, n, i))
  }

  /** The I2S sample frames one output call hands to the local I2S peripheral. */
  function I2sOutput(b: Build, f: seq<i32>, n: nat): seq<seq<int>>
    requires CHANNELS * n <= |f|
  {
    if !b.i2sEnabled || b.i2sMode == I2sSlave then []
    else if !b.tdmEnabled then MasterFrames(f, n)
    else TdmFrames(f, n)
  }

  /** The message the slave-mode output sends to the I2S tile: processed channels 0 and 1, interleaved. */
  function SlaveMessage(f: seq<i32>): (m: seq<byte>)
    requires 2 * FRAME_ADVANCE <= |f|
    ensures |m| == SLAVE_MESSAGE_BYTES
  {
    var rows := Interleave(f, FRAME_ADVANCE);
    PairsFit(rows);
    EncodeRows(rows, MIC_CHANNELS, 4)
  }

  /** The I2S tile plays exactly the pairs [processed 0, processed 1] of every sample. */
  lemma {:induction false} SlaveRoundTrip(f: seq<i32>)
    requires 2 * FRAME_ADVANCE <= |f|
    ensures DecodeRows(SlaveMessage(f), MIC_CHANNELS, 4) == Interleave(f, FRAME_ADVANCE)
  {
    var rows := Interleave(f, FRAME_ADVANCE);
    PairsFit(rows);
    DecodeEncodeRows(rows, MIC_CHANNELS, 4);
  }

  /** The phase counters of the rate-conversion callbacks cycle 0, 1, 2. */
  function NextPhase(p: nat): (q: nat)
    requires p < 3
    ensures q < 3 && q != p
    ensures q == (p + 1) % 3
  {
    if p == 2 then 0 else p + 1
  }

  /**
   * Words moved by n successive callbacks from phase p when the buffer
   * side never runs short: 2 on each call made in the active phase.
   */
  function PhaseRun(active: nat, p: nat, n: nat): nat
    requires p < 3
    decreases n
  {
    if n == 0 then 0 else (if p == active then 2 else 0) + PhaseRun(active, NextPhase(p), n - 1)
  }

  /**
   * Over 3m callbacks from the initial phase, 2m words are moved: the
   * conversion runs at one third of the I2S frame rate on either side.
   */
  lemma {:induction false} PhaseRunRate(active: nat, m: nat)
    requires active < 3
    ensures PhaseRun(active, 0, 3 * m) == 2 * m
  {
    if m > 0 {
      PhaseRunRate(active, m - 1);
      assert PhaseRun(active, 0, 3 * m) == (if active == 0 then 2 else 0) + PhaseRun(active, 1, 3 * m - 1);
      assert PhaseRun(active, 1, 3 * m - 1) == (if active == 1 then 2 else 0) + PhaseRun(active, 2, 3 * m - 2);
      assert PhaseRun(active, 2, 3 * m - 2) == (if active == 2 then 2 else 0) + PhaseRun(active, 0, 3 * (m - 1));
    }
  }

  /** The non-TDM master loop: sample frame j is [proc0[j], proc0[j]]. */
  method BuildMasterFrames(frames: array<i32>, n: nat) returns (sent: seq<seq<int>>)
    requires n <= frames.Length
    ensures sent == MasterFrames(frames[..], n)
  {
    sent := [];
    for j := 0 to n
      invariant sent == MasterFrames(frames[..], n)[..j]
    {
      sent := sent + [[frames[j], frames[j]]];
    }
  }

  /** The TDM loop: one six-slot frame per sample, tagged in bit 0. */
  method BuildTdmFrames(frames: array<i32>, n: nat) returns (sent: seq<seq<int>>)
    requires CHANNELS * n <= frames.Length
    ensures sent == TdmFrames(frames[..], n)
  {
    sent := [];
    for i := 0 to n
      invariant sent == TdmFrames(frames[..], n)[..i]
    {
      var tdm := [ClearLsb(frames[i + 4 * n]), ClearLsb(frames[i + 5 * n]),
                  ClearLsb(frames[i + 2 * n]), ClearLsb(frames[i + 3 * n]),
                  SetLsb(frames[i]), SetLsb(frames[i + n])];
      sent := sent + [tdm];
    }
  }

  /** The slave-mode loop: pair j is [proc0[j], proc1[j]]. */
  method BuildSlavePairs(frames: array<i32>) returns (pairs: seq<seq<i32>>)
    requires 2 * FRAME_ADVANCE <= frames.Length
    ensures pairs == Interleave(frames[..], FRAME_ADVANCE)
  {
    pairs := [];
    for j := 0 to FRAME_ADVANCE
      invariant pairs == Interleave(frames[..], FRAME_ADVANCE)[..j]
    {
      pairs := pairs + [[frames[j], frames[j + FRAME_ADVANCE]]];
    }
  }

  class Ffva {
    const build: Build
    const mic: MicArray
    const usb: UsbAudioFunction
    /** The inter-tile port to the I2S tile in slave mode. */
    const slaveLink: Port

    /** `mic_from_usb` */
    var micFromUsb: bool
    /** `aec_ref_source` */
    var aecRefSource: AecRef
    /** The input adapter's static `flushed` latch. */
    var flushed: bool
    /** Every I2S sample frame given to the I2S transmitter, oldest first. */
    var i2sOut: seq<seq<int>>
    /** Every frame handed to the wake-word engine (`ww_audio_send`), oldest first. */
    var wwSent: seq<seq<i32>>
    /** The static phase counters of the upsampling and downsampling callbacks. */
    var upPhase: nat
    var downPhase: nat

    ghost predicate Valid()
      reads this, mic, usb, usb.toHost, usb.fromHost, usb.rxBuffer
    {
      mic.Valid() && usb.Valid() && upPhase < 3 && downPhase < 3
    }

    /** Start-up state: mics and I2S references by default, latch clear, both phases 0. */
    constructor (b: Build, m: MicArray, u: UsbAudioFunction, link: Port)
      requires m.Valid() && u.Valid()
      ensures Valid() && build == b && mic == m && usb == u && slaveLink == link
      ensures !micFromUsb && aecRefSource == AecRefI2s && !flushed
      ensures i2sOut == [] && wwSent == [] && upPhase == 0 && downPhase == 0
    {
      build := b;
      mic := m;
      usb := u;
      slaveLink := link;
      micFromUsb := false;
      aecRefSource := AecRefI2s;
      flushed := false;
      i2sOut := [];
      wwSent := [];
      upPhase := 0;
      downPhase := 0;
    }

    /**
     * `audio_pipeline_input`: the mics at offset 2*frameCount (after a
     * flush on the first call), then the references from USB or I2S.
     * `i2sRx` is what the I2S receiver delivers.
     */
    method Input(frames: array<i32>, chCount: nat, frameCount: nat, i2sRx: seq<seq<i32>>) returns (fatal: bool)
      requires Valid() && frameCount == mic.frameSize && 4 * frameCount <= frames.Length
      requires |mic.blocks| >= BlocksTaken(flushed, mic.ready)
      requires build.usbEnabled ==> frameCount == FRAME_ADVANCE
      requires I2sRefPath(build, aecRefSource) ==> frameCount == FRAME_ADVANCE && |i2sRx| <= frameCount && IsPairs(i2sRx)
      modifies this, mic, frames, usb.port
      ensures Valid() && flushed
      ensures micFromUsb == old(micFromUsb) && aecRefSource == old(aecRefSource)
      ensures i2sOut == old(i2sOut) && wwSent == old(wwSent) && upPhase == old(upPhase) && downPhase == old(downPhase)
      ensures mic.blocks == old(mic.blocks)[BlocksTaken(old(flushed), old(mic.ready))..]
      ensures mic.ready == if old(flushed) && old(mic.ready) > 0 then old(mic.ready) - 1 else 0
      ensures usb.port.messages == if build.usbEnabled && old(usb.port.messages) != [] then old(usb.port.messages)[1..] else old(usb.port.messages)
      ensures var m := NextMessage(old(usb.port.messages));
              fatal == ((build.usbEnabled && |m| != 0 && |m| != FromHostFrameBytes(usb.cfg)) ||
                        (I2sRefPath(build, aecRefSource) && |i2sRx| != frameCount))
      ensures var f1 := WithBlockAt(old(frames[..]), 2 * frameCount, old(mic.blocks)[BlocksTaken(old(flushed), old(mic.ready)) - 1]);
              !fatal && build.usbEnabled && aecRefSource == AecRefUsb ==>
                frames[..] == FromHostFrame(usb.cfg, f1, ReceivedRows(usb.cfg, NextMessage(old(usb.port.messages))), UsbChannels(micFromUsb))
      ensures var f1 := WithBlockAt(old(frames[..]), 2 * frameCount, old(mic.blocks)[BlocksTaken(old(flushed), old(mic.ready)) - 1]);
              !fatal && I2sRefPath(build, aecRefSource) ==> frames[..] == WithI2sRefs(f1, i2sRx)
      ensures var f1 := WithBlockAt(old(frames[..]), 2 * frameCount, old(mic.blocks)[BlocksTaken(old(flushed), old(mic.ready)) - 1]);
              !fatal && !(build.usbEnabled && aecRefSource == AecRefUsb) && !I2sRefPath(build, aecRefSource) ==> frames[..] == f1
    {
      var n := frameCount;
      var latched := LatchedRead(mic, frames, 2 * n, flushed);
      flushed := latched;
      ghost var f1 := frames[..];
      fatal := false;
      if build.usbEnabled {
        var usbFrames: array?<i32> := null;
        if aecRefSource == AecRefUsb {
          usbFrames := frames;
        }
        var chCnt := 2;
        if micFromUsb {
          chCnt := chCnt + 2;
        }
        fatal := usb.Recv(n, usbFrames, chCnt);
        if fatal {
          return;
        }
      }
      if I2sRefPath(build, aecRefSource) {
        if |i2sRx| != n {
          return true;
        }
        StoreI2sRefs(frames, i2sRx);
      }
    }

    /**
     * `audio_pipeline_output`: I2S in the built mode, then USB; the frame
     * is always handed back to be freed.
     */
    method Output(frames: array<i32>, chCount: nat, frameCount: nat) returns (status: OutputStatus)
      requires Valid() && CHANNELS * frameCount <= frames.Length
      requires build.i2sEnabled && build.i2sMode == I2sSlave ==> 2 * FRAME_ADVANCE <= frames.Length
      requires (build.i2sEnabled && build.i2sMode == I2sMaster && !build.tdmEnabled) || build.usbEnabled ==> frameCount == FRAME_ADVANCE
      modifies this, slaveLink, usb.toHost
      ensures Valid() && status == FreeFrame
      ensures flushed == old(flushed) && micFromUsb == old(micFromUsb) && aecRefSource == old(aecRefSource)
      ensures upPhase == old(upPhase) && downPhase == old(downPhase)
      ensures i2sOut == old(i2sOut) + I2sOutput(build, frames[..], frameCount)
      ensures slaveLink.messages == old(slaveLink.messages) +
                (if build.i2sEnabled && build.i2sMode == I2sSlave then [SlaveMessage(frames[..])] else [])
      ensures build.usbEnabled ==>
                usb.toHost.contents ==
                  if usb.micInterfaceOpen && old(usb.toHost.SpacesAvailable()) >= ToHostFrameBytes(usb.cfg)
                  then old(usb.toHost.contents) + EncodeRows(ToHostRows(usb.cfg, frames[..FRAME_ADVANCE], CHANNELS), usb.cfg.nTx, usb.cfg.bytesPerSample)
                  else old(usb.toHost.contents)
      ensures !build.usbEnabled ==> usb.toHost.contents == old(usb.toHost.contents)
      ensures wwSent == old(wwSent) + (if build.wwEnabled then [frames[..]] else [])
    {
      var n := frameCount;
      if build.i2sEnabled {
        if build.i2sMode == I2sMaster {
          var sent: seq<seq<int>>;
          if !build.tdmEnabled {
            sent := BuildMasterFrames(frames, n);
          } else {
            sent := BuildTdmFrames(frames, n);
          }
          i2sOut := i2sOut + sent;
        } else {
          var pairs := BuildSlavePairs(frames);
          PairsFit(pairs);
          slaveLink.Tx(EncodeRows(pairs, MIC_CHANNELS, 4));
        }
      }
      if build.usbEnabled {
        usb.Send(n, frames, CHANNELS);
      }
      if build.wwEnabled {
        wwSent := wwSent + [frames[..]];
      }
      status := FreeFrame;
    }

    /**
     * `i2s_slave_intertile`, one message: a frame of sample pairs from the
     * pipeline tile goes to the I2S transmitter; any other length is fatal.
     */
    method SlaveRelayStep() returns (fatal: bool)
      requires slaveLink.messages != []
      modifies this, slaveLink
      ensures slaveLink.messages == old(slaveLink.messages)[1..]
      ensures fatal == (|old(slaveLink.messages)[0]| != SLAVE_MESSAGE_BYTES)
      ensures i2sOut == if fatal then old(i2sOut) else old(i2sOut) + DecodeRows(old(slaveLink.messages)[0], MIC_CHANNELS, 4)
      ensures flushed == old(flushed) && micFromUsb == old(micFromUsb) && aecRefSource == old(aecRefSource)
      ensures wwSent == old(wwSent) && upPhase == old(upPhase) && downPhase == old(downPhase)
    {
      var msg := slaveLink.Rx();
      if |msg| != SLAVE_MESSAGE_BYTES {
        return true;
      }
      i2sOut := i2sOut + DecodeRows(msg, MIC_CHANNELS, 4);
      fatal := false;
    }

    /**
     * `i2s_send_upsample_cb`: the two words waiting to be sent go out in
     * every I2S frame; two of them are consumed only in phase 0, and only
     * when two are available.
     */
    method UpsampleCb(i2sFrame: array<i32>, i2sFrameSize: nat, sendBuf: seq<i32>, samplesAvailable: nat) returns (consumed: nat)
      requires Valid() && i2sFrameSize == 2 && i2sFrame.Length >= 2 && |sendBuf| >= 2
      modifies this, i2sFrame
      ensures Valid() && upPhase == NextPhase(old(upPhase)) && downPhase == old(downPhase)
      ensures consumed == if old(upPhase) == 0 && samplesAvailable >= 2 then 2 else 0
      ensures i2sFrame[..] == sendBuf[..2] + old(i2sFrame[2..])
      ensures flushed == old(flushed) && i2sOut == old(i2sOut) && wwSent == old(wwSent)
      ensures micFromUsb == old(micFromUsb) && aecRefSource == old(aecRefSource)
    {
      i2sFrame[0] := sendBuf[0];
      i2sFrame[1] := sendBuf[1];
      if upPhase == 0 {
        upPhase := 1;
        consumed := if samplesAvailable >= 2 then 2 else 0;
      } else if upPhase == 1 {
        upPhase := 2;
        consumed := 0;
      } else {
        upPhase := 0;
        consumed := 0;
      }
    }

    /**
     * `i2s_send_downsample_cb`: a word pair is produced only in phase 2,
     * and only when there is room for it. `filtered` stands for the two
     * outputs of the decimation filter, which is not modelled.
     */
    method DownsampleCb(i2sFrameSize: nat, receiveBuf: array<i32>, spacesFree: nat, filtered: seq<i32>) returns (produced: nat)
      requires Valid() && i2sFrameSize == 2 && receiveBuf.Length >= 2 && |filtered| == 2
      modifies this, receiveBuf
      ensures Valid() && downPhase == NextPhase(old(downPhase)) && upPhase == old(upPhase)
      ensures produced == if old(downPhase) == 2 && spacesFree >= 2 then 2 else 0
      ensures receiveBuf[..] == if produced == 2 then filtered + old(receiveBuf[2..]) else old(receiveBuf[..])
      ensures flushed == old(flushed) && i2sOut == old(i2sOut) && wwSent == old(wwSent)
      ensures micFromUsb == old(micFromUsb) && aecRefSource == old(aecRefSource)
    {
      if downPhase == 0 {
        downPhase := 1;
        produced := 0;
      } else if downPhase == 1 {
        downPhase := 2;
        produced := 0;
      } else {
        downPhase := 0;
        if spacesFree >= 2 {
          receiveBuf[0] := filtered[0];
          receiveBuf[1] := filtered[1];
          produced := 2;
        } else {
          produced := 0;
        }
      }
    }
  }
}
