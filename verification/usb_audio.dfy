// USB audio buffering of the ffva application at equal USB and pipeline
// sample rates. Pipeline output is converted to interleaved USB samples and
// queued for the host (`samples_to_host`); audio from the host is gathered
// one USB frame at a time (`rx_buffer`), queued (`samples_from_host`) and
// relayed across tiles to the pipeline input, one pipeline frame at a time.
module UsbAudio {
  import opened Ints
  import opened Bytes
  import opened Frames
  import opened StreamBuffers
  import opened Intertile

  /** Pipeline sample rate in samples per millisecond. */
  const SAMPLES_PER_MS: nat := 16

  /** `USB_FRAMES_PER_VFE_FRAME`: 1 ms USB frames per 240-sample pipeline frame. */
  const USB_FRAMES_PER_VFE_FRAME: nat := FRAME_ADVANCE / SAMPLES_PER_MS

  /**
   * The TinyUSB audio class configuration: channels to and from the host,
   * bytes per sample (2 or 4, the same both ways), samples per channel in
   * one USB frame, the OUT endpoint software buffer size, and which of the
   * two streaming interfaces the descriptors enable.
   */
  datatype UsbConfig = UsbConfig(
    nTx: nat, nRx: nat, bytesPerSample: nat, framesPerUsbFrame: nat, epOutSwBufSz: nat,
    outputEnabled: bool, inputEnabled: bool)

  predicate ValidConfig(c: UsbConfig)
  {
    c.nTx > 0 && c.nRx > 0 && (c.bytesPerSample == 2 || c.bytesPerSample == 4) && c.framesPerUsbFrame > 0
  }

  /** `src_32_shift`: the sample width conversion between int32 and samp_t. */
  function Shift(c: UsbConfig): nat
  {
    if c.bytesPerSample == 2 then 16 else 0
  }

  /** `sizeof(usb_audio_in_frame)`: one pipeline frame towards the host. */
  function ToHostFrameBytes(c: UsbConfig): nat
  {
    FRAME_ADVANCE * (c.nTx * c.bytesPerSample)
  }

  /** `sizeof(usb_audio_out_frame)`: one pipeline frame from the host. */
  function FromHostFrameBytes(c: UsbConfig): nat
  {
    FRAME_ADVANCE * (c.nRx * c.bytesPerSample)
  }

  /** `sizeof(usb_audio_frames)` in the OUT callback: one nominal USB frame from the host. */
  function UsbFrameBytesRx(c: UsbConfig): nat
  {
    c.framesPerUsbFrame * (c.nRx * c.bytesPerSample)
  }

  /** The nominal IN transaction: one USB frame towards the host. */
  function NominalTxBytes(c: UsbConfig): nat
  {
    c.framesPerUsbFrame * (c.nTx * c.bytesPerSample)
  }

  // ---- Sample format conversion ----

  /**
   * `usb_audio_send`'s interleaved frame: every TX channel below num_chans
   * carries processed channel 0 shifted down to the USB sample width; the
   * remaining channels stay zero.
   */
  function ToHostRows(c: UsbConfig, proc0: seq<i32>, numChans: nat): (rows: seq<seq<int>>)
    requires ValidConfig(c) && |proc0| == FRAME_ADVANCE
    ensures |rows| == FRAME_ADVANCE && IsRows(rows, c.nTx, c.bytesPerSample)
    ensures forall i, ch :: 0 <= i < FRAME_ADVANCE && 0 <= ch < c.nTx ==>
              rows[i][ch] == if ch < numChans then Asr(proc0[i], Shift(c)) else 0
  {
    var rows := seq(FRAME_ADVANCE, i requires 0 <= i < FRAME_ADVANCE =>
                  seq(c.nTx, ch => if ch < numChans then Asr(proc0[i], Shift(c)) else 0));
    forall k | 0 <= k < |rows| ensures AllFit(rows[k], c.bytesPerSample) {
      forall ch | 0 <= ch < c.nTx ensures FitsSigned(rows[k][ch], c.bytesPerSample) {
        assert rows[k][ch] == if ch < numChans then Asr(proc0[k], Shift(c)) else 0;
        if c.bytesPerSample == 2 {
          AsrSixteenFitsI16(proc0[k]);
          FitsI16(rows[k][ch]);
        } else {
          FitsI32(rows[k][ch]);
        }
      }
    }
    rows
  }

  /** A 32-bit pipeline sample made from a host sample: `v << src_32_shift`. */
  function FromHostSample(c: UsbConfig, v: int): (r: int)
    requires ValidConfig(c) && FitsSigned(v, c.bytesPerSample)
    ensures INT32_MIN <= r <= INT32_MAX
  {
    Pow2Of16();
    if c.bytesPerSample == 2 then
      FitsI16(v);
      ShlSixteenFitsI32(v);
      v * Pow2(16)
    else
      FitsI32(v);
      v
  }

  /**
   * `usb_audio_recv`'s effect on the pipeline frame: sample i of every
   * channel ch below both num_chans and the RX channel count becomes
   * `rows[i][ch] << shift`; every other word is left as it was.
   */
  function FromHostFrame(c: UsbConfig, old_: seq<i32>, rows: seq<seq<int>>, numChans: nat): (f: seq<i32>)
    requires ValidConfig(c) && |rows| == FRAME_ADVANCE && IsRows(rows, c.nRx, c.bytesPerSample)
    ensures |f| == |old_|
    ensures forall ch, i :: 0 <= ch < Min(numChans, c.nRx) && 0 <= i < FRAME_ADVANCE && i + FRAME_ADVANCE * ch < |old_| ==>
              f[i + FRAME_ADVANCE * ch] == FromHostSample(c, rows[i][ch])
    ensures forall k :: FRAME_ADVANCE * Min(numChans, c.nRx) <= k < |old_| ==> f[k] == old_[k]
  {
    var m := Min(numChans, c.nRx);
    var f := seq(|old_|, k requires 0 <= k < |old_| =>
      if k / FRAME_ADVANCE < m then HostWord(c, rows, k % FRAME_ADVANCE, k / FRAME_ADVANCE) else old_[k]);
    forall ch, i | 0 <= ch < m && 0 <= i < FRAME_ADVANCE && i + FRAME_ADVANCE * ch < |old_|
      ensures f[i + FRAME_ADVANCE * ch] == FromHostSample(c, rows[i][ch])
    {
      ChannelIndex(ch, i);
    }
    forall k | FRAME_ADVANCE * m <= k < |old_| ensures f[k] == old_[k] {
      ChannelOfIndex(k, m);
    }
    f
  }

  /** Sample i of channel ch of a frame from the host, widened to 32 bits. */
  function HostWord(c: UsbConfig, rows: seq<seq<int>>, i: nat, ch: nat): i32
    requires ValidConfig(c) && IsRows(rows, c.nRx, c.bytesPerSample) && i < |rows| && ch < c.nRx
  {
    assert AllFit(rows[i], c.bytesPerSample);
    FromHostSample(c, rows[i][ch])
  }

  /**
   * The copy loops of `usb_audio_recv`: channel by channel, sample i of
   * every channel below both num_chans and the RX channel count is written
   * in place from the interleaved frame.
   */
  method StoreHostFrame(c: UsbConfig, frames: array<i32>, rows: seq<seq<int>>, numChans: nat)
    requires ValidConfig(c) && |rows| == FRAME_ADVANCE && IsRows(rows, c.nRx, c.bytesPerSample)
    requires frames.Length >= FRAME_ADVANCE * Min(numChans, c.nRx)
    modifies frames
    ensures frames[..] == FromHostFrame(c, old(frames[..]), rows, numChans)
  {
    ghost var before := frames[..];
    NoChannels(c, before, rows);
    for ch := 0 to c.nRx
      invariant frames[..] == FromHostFrame(c, before, rows, Min(ch, numChans))
    {
      if ch < numChans {
        StoreHostChannel(c, frames, rows, ch);
        NextChannel(c, before, rows, ch);
      }
    }
  }

  /** The inner copy loop of `usb_audio_recv`: channel ch of the frame, sample by sample. */
  method StoreHostChannel(c: UsbConfig, frames: array<i32>, rows: seq<seq<int>>, ch: nat)
    requires ValidConfig(c) && |rows| == FRAME_ADVANCE && IsRows(rows, c.nRx, c.bytesPerSample)
    requires ch < c.nRx && FRAME_ADVANCE * (ch + 1) <= frames.Length
    modifies frames
    ensures frames[..] == StoreChannel(c, old(frames[..]), rows, ch, FRAME_ADVANCE)
  {
    for i := 0 to FRAME_ADVANCE
      invariant frames[..] == StoreChannel(c, old(frames[..]), rows, ch, i)
    {
      frames[i + FRAME_ADVANCE * ch] := HostWord(c, rows, i, ch);
    }
  }

  /** Frame f with its first n samples of channel ch replaced by the host's words. */
  ghost function StoreChannel(c: UsbConfig, f: seq<i32>, rows: seq<seq<int>>, ch: nat, n: nat): (g: seq<i32>)
    requires ValidConfig(c) && |rows| == FRAME_ADVANCE && IsRows(rows, c.nRx, c.bytesPerSample)
    requires ch < c.nRx && n <= FRAME_ADVANCE
    ensures |g| == |f|
  {
    var g := seq(|f|, k requires 0 <= k < |f| =>
      if FRAME_ADVANCE * ch <= k < FRAME_ADVANCE * ch + n then HostWord(c, rows, k - FRAME_ADVANCE * ch, ch) else f[k]);
    forall k | 0 <= k < |g| ensures INT32_MIN <= g[k] <= INT32_MAX {
      if FRAME_ADVANCE * ch <= k < FRAME_ADVANCE * ch + n {
        var w := HostWord(c, rows, k - FRAME_ADVANCE * ch, ch);
        assert g[k] == w;
      } else {
        assert g[k] == f[k];
      }
    }
    g
  }

  /** With no channel taken from the host the frame is unchanged. */
  lemma {:induction false} NoChannels(c: UsbConfig, f: seq<i32>, rows: seq<seq<int>>)
    requires ValidConfig(c) && |rows| == FRAME_ADVANCE && IsRows(rows, c.nRx, c.bytesPerSample)
    ensures FromHostFrame(c, f, rows, 0) == f
  {
  }

  /** Taking one more channel from the host stores that channel over the frame so far. */
  lemma {:induction false} NextChannel(c: UsbConfig, f: seq<i32>, rows: seq<seq<int>>, ch: nat)
    requires ValidConfig(c) && |rows| == FRAME_ADVANCE && IsRows(rows, c.nRx, c.bytesPerSample)
    requires ch < c.nRx && FRAME_ADVANCE * (ch + 1) <= |f|
    ensures FromHostFrame(c, f, rows, ch + 1) == StoreChannel(c, FromHostFrame(c, f, rows, ch), rows, ch, FRAME_ADVANCE)
  {
    var prev := FromHostFrame(c, f, rows, ch);
    var g := FromHostFrame(c, f, rows, ch + 1);
    var h := StoreChannel(c, prev, rows, ch, FRAME_ADVANCE);
    forall k | 0 <= k < |f| ensures g[k] == h[k] {
      if k < FRAME_ADVANCE * (ch + 1) {
        var q, i := k / FRAME_ADVANCE, k % FRAME_ADVANCE;
        ChannelIndex(q, i);
        assert k == i + FRAME_ADVANCE * q;
        assert g[i + FRAME_ADVANCE * q] == FromHostSample(c, rows[i][q]);
        if q < ch {
          assert prev[i + FRAME_ADVANCE * q] == FromHostSample(c, rows[i][q]);
        }
      } else {
        assert g[k] == f[k] && prev[k] == f[k];
      }
    }
  }

  /** Word i of channel ch sits at flat index i + FRAME_ADVANCE * ch. */
  lemma {:induction false} ChannelIndex(ch: nat, i: nat)
    requires i < FRAME_ADVANCE
    ensures (i + FRAME_ADVANCE * ch) / FRAME_ADVANCE == ch && (i + FRAME_ADVANCE * ch) % FRAME_ADVANCE == i
  {
    var k := i + FRAME_ADVANCE * ch;
    var q, r := k / FRAME_ADVANCE, k % FRAME_ADVANCE;
    assert q * FRAME_ADVANCE + r == ch * FRAME_ADVANCE + i;
    assert (q - ch) * FRAME_ADVANCE == i - r;
  }

  /** A flat index at or past channel m belongs to channel m or later. */
  lemma {:induction false} ChannelOfIndex(k: nat, m: nat)
    requires FRAME_ADVANCE * m <= k
    ensures k / FRAME_ADVANCE >= m
  {
    var q, r := k / FRAME_ADVANCE, k % FRAME_ADVANCE;
    assert q * FRAME_ADVANCE + r == k;
    assert (m - q) * FRAME_ADVANCE <= r < FRAME_ADVANCE;
  }

  /**
   * Sending a sample to the host and taking it back from the host loses
   * exactly its low 16 bits with 2-byte samples and nothing with 4-byte
   * samples.
   */
  lemma {:induction false} SampleRoundTrip(c: UsbConfig, x: i32)
    requires ValidConfig(c)
    ensures FitsSigned(Asr(x, Shift(c)), c.bytesPerSample)
    ensures FromHostSample(c, Asr(x, Shift(c))) == if c.bytesPerSample == 2 then x - x % 0x1_0000 else x
  {
    if c.bytesPerSample == 2 {
      AsrSixteenFitsI16(x);
      FitsI16(Asr(x, 16));
      AsrThenShl(x);
    } else {
      FitsI32(x);
    }
  }

  /** All-zero interleaved frame from the host, used when no frame arrived in time. */
  function ZeroRows(c: UsbConfig): (rows: seq<seq<int>>)
    requires ValidConfig(c)
    ensures |rows| == FRAME_ADVANCE && IsRows(rows, c.nRx, c.bytesPerSample)
  {
    var rows := seq(FRAME_ADVANCE, _ => seq(c.nRx, _ => 0));
    assert forall k :: 0 <= k < |rows| ==> AllFit(rows[k], c.bytesPerSample);
    rows
  }

  /** The interleaved frame a received link message carries: zeros when none arrived. */
  function ReceivedRows(c: UsbConfig, msg: seq<byte>): (rows: seq<seq<int>>)
    requires ValidConfig(c) && (|msg| == 0 || |msg| == FromHostFrameBytes(c))
    ensures |rows| == FRAME_ADVANCE && IsRows(rows, c.nRx, c.bytesPerSample)
  {
    if |msg| == 0 then ZeroRows(c)
    else
      DecodeRowsLength(msg, c.nRx, c.bytesPerSample, FRAME_ADVANCE);
      DecodeRows(msg, c.nRx, c.bytesPerSample)
  }

  // ---- IN (to host) transaction size ----

  /**
   * `tx_size_bytes`: while the host streams audio out, echo the size of
   * its last transaction rescaled from RX to TX channels; otherwise send
   * one nominal USB frame.
   */
  function TxSizeBytes(c: UsbConfig, hostStreamingOut: bool, prevBytes: nat): (n: nat)
    requires ValidConfig(c)
    ensures !(hostStreamingOut && prevBytes != 0) ==> n == NominalTxBytes(c)
    ensures hostStreamingOut && prevBytes != 0 ==> n * c.nRx <= prevBytes * c.nTx
  {
    if hostStreamingOut && prevBytes != 0 then
      DivMulBound(prevBytes, c.nRx, c.nTx);
      (prevBytes / c.nRx) * c.nTx
    else NominalTxBytes(c)
  }

  lemma {:induction false} DivMulBound(a: nat, d: nat, m: nat)
    requires d > 0
    ensures (a / d) * m * d <= a * m
  {
    assert (a / d) * d <= a;
    calc {
      (a / d) * m * d;
      == ((a / d) * d) * m;
      <= a * m;
    }
  }

  lemma MulRegroup(a: nat, b: nat, c: nat)
    ensures a * (b * c) == (a * c) * b
  {
  }

  lemma {:induction false} MulDivCancel(k: nat, n: nat)
    requires n > 0
    ensures (k * n) / n == k
  {
    var q, r := (k * n) / n, (k * n) % n;
    assert q * n + r == k * n;
    var d := k - q;
    assert d * n == r;
    if d > 0 {
      MulAtLeast(d, n);
    } else if d < 0 {
      MulAtLeast(-d, n);
    }
  }

  lemma MulAtLeast(d: int, n: nat)
    requires d >= 1
    ensures d * n >= n
  {
  }

  /**
   * The device sends back as many samples per channel as it last received:
   * a host transaction of k samples on each RX channel is answered with k
   * samples on each TX channel.
   */
  lemma {:induction false} TxSizeEchoesSamples(c: UsbConfig, k: nat)
    requires ValidConfig(c) && k >= 1
    ensures TxSizeBytes(c, true, k * (c.nRx * c.bytesPerSample)) == k * (c.nTx * c.bytesPerSample)
  {
    var m := k * c.bytesPerSample;
    MulRegroup(k, c.nRx, c.bytesPerSample);
    MulRegroup(k, c.nTx, c.bytesPerSample);
    MulDivCancel(m, c.nRx);
  }

  /** When the host sends nominal-size transactions, the device answers with nominal-size ones. */
  lemma {:induction false} NominalTxSize(c: UsbConfig)
    requires ValidConfig(c)
    ensures TxSizeBytes(c, true, UsbFrameBytesRx(c)) == NominalTxBytes(c)
  {
    TxSizeEchoesSamples(c, c.framesPerUsbFrame);
  }

  /**
   * The buffer to the host holds three pipeline frames and `TxPreLoad`'s
   * ready latch opens at two: while fewer than two are buffered, the space
   * test of `Send` passes, so with the mic interface open a whole new
   * frame is appended and the latch's threshold is reached.
   */
  lemma ToHostThresholdReachable(u: UsbAudioFunction)
    requires u.Valid() && |u.toHost.contents| < 2 * ToHostFrameBytes(u.cfg)
    ensures u.toHost.SpacesAvailable() >= ToHostFrameBytes(u.cfg)
    ensures |u.toHost.contents| + ToHostFrameBytes(u.cfg) <= u.toHost.capacity
  {
  }

  datatype Interface = StreamingSpk | StreamingMic | OtherInterface

  /** The USB audio function's static state. */
  class UsbAudioFunction {
    const cfg: UsbConfig
    const toHost: StreamBuffer
    const fromHost: StreamBuffer
    const rxBuffer: StreamBuffer
    /** Inter-tile port carrying pipeline frames from the host to the pipeline input. */
    const port: Port

    var micInterfaceOpen: bool
    var spkrInterfaceOpen: bool
    var prevNBytesReceived: nat
    var hostStreamingOut: bool
    /** The static `ready` latch of the IN pre-load callback. */
    var ready: bool
    /** Task notifications given to the out task and not yet taken. */
    var outTaskNotifications: nat

    ghost predicate Valid()
      reads this, toHost, fromHost, rxBuffer
    {
      ValidConfig(cfg) &&
      toHost != fromHost && toHost != rxBuffer && fromHost != rxBuffer &&
      toHost.Valid() && fromHost.Valid() && rxBuffer.Valid() &&
      toHost.capacity == 3 * ToHostFrameBytes(cfg) &&
      fromHost.capacity == 2 * FromHostFrameBytes(cfg) &&
      rxBuffer.capacity == 2 * cfg.epOutSwBufSz
    }

    /** `usb_audio_init`: creates the three stream buffers, sized in pipeline frames and endpoint buffers. */
    constructor (c: UsbConfig, link: Port)
      requires ValidConfig(c)
      ensures Valid() && cfg == c && port == link
      ensures fresh(toHost) && fresh(fromHost) && fresh(rxBuffer)
      ensures toHost.contents == [] && fromHost.contents == [] && rxBuffer.contents == []
      ensures !micInterfaceOpen && !spkrInterfaceOpen && !hostStreamingOut && !ready
      ensures prevNBytesReceived == 0 && outTaskNotifications == 0
    {
      cfg := c;
      port := link;
      rxBuffer := new StreamBuffer(2 * c.epOutSwBufSz, 0);
      fromHost := new StreamBuffer(2 * FromHostFrameBytes(c), 0);
      toHost := new StreamBuffer(3 * ToHostFrameBytes(c), 0);
      micInterfaceOpen := false;
      spkrInterfaceOpen := false;
      prevNBytesReceived := 0;
      hostStreamingOut := false;
      ready := false;
      outTaskNotifications := 0;
    }

    /** The converted frame, built in a zeroed interleaved buffer channel by channel. */
    method ConvertToHost(frames: array<i32>, numChans: nat) returns (rows: seq<seq<int>>)
      requires ValidConfig(cfg) && frames.Length >= FRAME_ADVANCE
      ensures rows == ToHostRows(cfg, frames[..FRAME_ADVANCE], numChans)
    {
      var shift := Shift(cfg);
      var buf := new int[FRAME_ADVANCE, cfg.nTx]((i, ch) => 0);
      for ch := 0 to cfg.nTx
        invariant forall i, c :: 0 <= i < FRAME_ADVANCE && 0 <= c < cfg.nTx ==>
                    buf[i, c] == if c < ch && c < numChans then Asr(frames[i], shift) else 0
      {
        for i := 0 to FRAME_ADVANCE
          invariant forall i', c :: 0 <= i' < FRAME_ADVANCE && 0 <= c < cfg.nTx ==>
                      buf[i', c] == if (c < ch || (c == ch && i' < i)) && c < numChans then Asr(frames[i'], shift) else 0
        {
          if ch < numChans {
            buf[i, ch] := Asr(frames[i], shift);
          }
        }
      }
      rows := seq(FRAME_ADVANCE, i requires 0 <= i < FRAME_ADVANCE reads buf =>
                seq(cfg.nTx, c requires 0 <= c < cfg.nTx reads buf => buf[i, c]));
      ghost var spec := ToHostRows(cfg, frames[..FRAME_ADVANCE], numChans);
      assert forall i :: 0 <= i < FRAME_ADVANCE ==> rows[i] == spec[i];
    }

    /**
     * `usb_audio_send`: converts processed channel 0 and queues the frame
     * whole when the mic interface is open and the host buffer has room
     * for all of it; otherwise nothing is queued.
     */
    method Send(frameCount: nat, frames: array<i32>, numChans: nat)
      requires Valid() && frameCount == FRAME_ADVANCE && frames.Length >= FRAME_ADVANCE
      modifies toHost
      ensures Valid()
      ensures var b := EncodeRows(ToHostRows(cfg, frames[..FRAME_ADVANCE], numChans), cfg.nTx, cfg.bytesPerSample);
              toHost.contents ==
                if micInterfaceOpen && old(toHost.SpacesAvailable()) >= ToHostFrameBytes(cfg)
                then old(toHost.contents) + b else old(toHost.contents)
    {
      var rows := ConvertToHost(frames, numChans);
      var b := EncodeRows(rows, cfg.nTx, cfg.bytesPerSample);
      if micInterfaceOpen {
        if toHost.SpacesAvailable() >= ToHostFrameBytes(cfg) {
          var sent := toHost.Send(b);
        }
      }
    }

    /**
     * `usb_audio_recv`: takes the next frame from the host off the link
     * without waiting (zeros when none is there); a message of any other
     * size than one frame is fatal. With a frame buffer, the first
     * num_chans channels are overwritten with the host audio.
     */
    method Recv(frameCount: nat, frames: array?<i32>, numChans: nat) returns (fatal: bool)
      requires Valid() && frameCount == FRAME_ADVANCE
      requires frames != null ==> frames.Length >= FRAME_ADVANCE * Min(numChans, cfg.nRx)
      modifies port, frames
      ensures Valid()
      ensures var msg := if old(port.messages) == [] then [] else old(port.messages)[0];
              fatal == (|msg| != 0 && |msg| != FromHostFrameBytes(cfg)) &&
              port.messages == (if old(port.messages) == [] then [] else old(port.messages)[1..]) &&
              (!fatal && frames != null ==>
                 frames[..] == FromHostFrame(cfg, old(frames[..]), ReceivedRows(cfg, msg), numChans))
    {
      var msg := port.TryRx();
      if |msg| != 0 && |msg| != FromHostFrameBytes(cfg) {
        return true;
      }
      fatal := false;
      var rows := ReceivedRows(cfg, msg);
      if frames != null {
        StoreHostFrame(cfg, frames, rows, numChans);
      }
    }

    /**
     * `tud_audio_rx_done_post_read_cb` with equal rates: `hostData` is the
     * transaction of n bytes the host sent.
     */
    method RxPostRead(n: u16, hostData: seq<byte>) returns (ok: bool)
      requires Valid() && |hostData| == n
      modifies this, rxBuffer, fromHost
      ensures Valid() && unchanged(toHost)
      ensures hostStreamingOut && prevNBytesReceived == n && spkrInterfaceOpen
      ensures micInterfaceOpen == old(micInterfaceOpen) && ready == old(ready)
      // A transaction larger than the endpoint buffer or than the free space of rx_buffer is refused unbuffered.
      ensures (n > cfg.epOutSwBufSz || n > old(rxBuffer.SpacesAvailable())) ==>
                !ok && rxBuffer.contents == old(rxBuffer.contents) && unchanged(fromHost) &&
                outTaskNotifications == old(outTaskNotifications)
      ensures !(n > cfg.epOutSwBufSz || n > old(rxBuffer.SpacesAvailable())) ==>
                ok && RxStep(old(rxBuffer.contents) + hostData, old(fromHost.contents), old(outTaskNotifications))
                      == (rxBuffer.contents, fromHost.contents, outTaskNotifications)
    {
      hostStreamingOut := true;
      prevNBytesReceived := n;
      if !spkrInterfaceOpen {
        spkrInterfaceOpen := true;
      }
      if cfg.epOutSwBufSz < n {
        return false;
      }
      if rxBuffer.SpacesAvailable() >= n {
        var sent := rxBuffer.Send(hostData);
      } else {
        return false;
      }
      ok := true;
      assert rxBuffer.contents == old(rxBuffer.contents) + hostData;
      ForwardUsbFrame();
    }

    /** The OUT callback once the transaction is buffered: move at most one USB frame on, as RxStep says. */
    method ForwardUsbFrame()
      requires Valid()
      modifies this, rxBuffer, fromHost
      ensures Valid() && unchanged(toHost)
      ensures micInterfaceOpen == old(micInterfaceOpen) && spkrInterfaceOpen == old(spkrInterfaceOpen) && ready == old(ready)
      ensures hostStreamingOut == old(hostStreamingOut) && prevNBytesReceived == old(prevNBytesReceived)
      ensures RxStep(old(rxBuffer.contents), old(fromHost.contents), old(outTaskNotifications))
              == (rxBuffer.contents, fromHost.contents, outTaskNotifications)
    {
      var usbFrame := UsbFrameBytesRx(cfg);
      if rxBuffer.BytesAvailable() >= usbFrame {
        var frame := rxBuffer.Receive(usbFrame);
        assert frame == old(rxBuffer.contents)[..usbFrame];
        assert rxBuffer.contents == old(rxBuffer.contents)[usbFrame..];
        if fromHost.SpacesAvailable() >= usbFrame {
          var sent := fromHost.Send(frame);
          assert fromHost.contents == old(fromHost.contents) + frame;
          if fromHost.BytesAvailable() == usbFrame * (1 + USB_FRAMES_PER_VFE_FRAME) {
            outTaskNotifications := outTaskNotifications + 1;
          }
          assert outTaskNotifications == old(outTaskNotifications) + (if |fromHost.contents| == usbFrame * (1 + USB_FRAMES_PER_VFE_FRAME) then 1 else 0);
        }
      }
    }

    /**
     * The part of the OUT callback after a transaction was buffered: given
     * the rx_buffer and samples_from_host contents and the pending
     * notifications, their new values. Less than one USB frame buffered:
     * nothing moves. Otherwise exactly one USB frame leaves rx_buffer; it is
     * queued whole if it fits and dropped if not, and the out task is
     * notified when the fill reaches one pipeline frame plus one USB frame.
     */
    function RxStep(rx: seq<byte>, from: seq<byte>, notes: nat): (r: (seq<byte>, seq<byte>, nat))
      requires ValidConfig(cfg)
      ensures |rx| < UsbFrameBytesRx(cfg) ==> r == (rx, from, notes)
      ensures |rx| >= UsbFrameBytesRx(cfg) ==> rx == rx[..UsbFrameBytesRx(cfg)] + r.0
      ensures |rx| >= UsbFrameBytesRx(cfg) && |from| + UsbFrameBytesRx(cfg) <= fromHost.capacity ==>
                r.1 == from + rx[..UsbFrameBytesRx(cfg)] &&
                r.2 == notes + (if |r.1| == UsbFrameBytesRx(cfg) * (1 + USB_FRAMES_PER_VFE_FRAME) then 1 else 0)
      ensures |rx| >= UsbFrameBytesRx(cfg) && |from| + UsbFrameBytesRx(cfg) > fromHost.capacity ==>
                r.1 == from && r.2 == notes
    {
      var u := UsbFrameBytesRx(cfg);
      if |rx| < u then (rx, from, notes)
      else if |from| + u <= fromHost.capacity then
        var from' := from + rx[..u];
        (rx[u..], from', notes + (if |from'| == u * (1 + USB_FRAMES_PER_VFE_FRAME) then 1 else 0))
      else (rx[u..], from, notes)
    }

    /**
     * `tud_audio_tx_done_pre_load_cb` with equal rates: returns the bytes
     * handed to `tud_audio_write`, or nothing when the host buffer was full
     * and has been reset. The transaction may not exceed twice the nominal
     * size, the size of the callback's local buffers.
     */
    method TxPreLoad() returns (written: seq<byte>)
      requires Valid()
      requires TxSizeBytes(cfg, hostStreamingOut, prevNBytesReceived) <= 2 * NominalTxBytes(cfg)
      modifies this, toHost
      ensures Valid() && micInterfaceOpen
      ensures spkrInterfaceOpen == old(spkrInterfaceOpen) && hostStreamingOut == old(hostStreamingOut)
      ensures prevNBytesReceived == old(prevNBytesReceived) && outTaskNotifications == old(outTaskNotifications)
      ensures var tx := TxSizeBytes(cfg, hostStreamingOut, prevNBytesReceived);
              var avail := |old(toHost.contents)|;
              var wasReady := old(ready) && old(micInterfaceOpen);
              if old(toHost.IsFull()) then
                // Full: the buffer is emptied, the latch cleared, and nothing is written.
                toHost.contents == [] && !ready && written == []
              else
                ready == (wasReady || avail >= 2 * ToHostFrameBytes(cfg)) &&
                |written| == tx &&
                (!ready ==> written == Zeros(tx) && toHost.contents == old(toHost.contents)) &&
                (ready ==> var m := Min(avail, tx);
                           written == old(toHost.contents)[..m] + Zeros(tx - m) &&
                           toHost.contents == old(toHost.contents)[m..])
    {
      var txSize := TxSizeBytes(cfg, hostStreamingOut, prevNBytesReceived);
      if !micInterfaceOpen {
        ready := false;
        micInterfaceOpen := true;
      }
      if toHost.IsFull() {
        var ok := toHost.Reset(false);
        ready := false;
        return [];
      }
      var available := toHost.BytesAvailable();
      if available >= 2 * ToHostFrameBytes(cfg) {
        ready := true;
      }
      if !ready {
        return Zeros(txSize);
      }
      var readyBytes: nat;
      if available >= txSize {
        readyBytes := txSize;
      } else {
        readyBytes := available;
      }
      var data := toHost.Receive(readyBytes);
      written := data + Zeros(txSize - readyBytes);
    }

    /** `tud_audio_set_itf_cb`: (re)opening an interface closes it and empties its buffers. */
    method SetItf(itf: Interface)
      requires Valid()
      modifies this, toHost, fromHost, rxBuffer
      ensures Valid()
      ensures prevNBytesReceived == old(prevNBytesReceived) && hostStreamingOut == old(hostStreamingOut)
      ensures ready == old(ready) && outTaskNotifications == old(outTaskNotifications)
      ensures if itf == StreamingSpk && cfg.outputEnabled
              then !spkrInterfaceOpen && fromHost.contents == [] && rxBuffer.contents == []
              else spkrInterfaceOpen == old(spkrInterfaceOpen) && fromHost.contents == old(fromHost.contents) &&
                   rxBuffer.contents == old(rxBuffer.contents)
      ensures if itf == StreamingMic && cfg.inputEnabled
              then !micInterfaceOpen && toHost.contents == []
              else micInterfaceOpen == old(micInterfaceOpen) && toHost.contents == old(toHost.contents)
    {
      if cfg.outputEnabled && itf == StreamingSpk {
        spkrInterfaceOpen := false;
        var ok1 := fromHost.Reset(false);
        var ok2 := rxBuffer.Reset(false);
      }
      if cfg.inputEnabled && itf == StreamingMic {
        micInterfaceOpen := false;
        var ok := toHost.Reset(false);
      }
    }

    /** `tud_audio_set_itf_close_EP_cb`: closing an interface clears its open flag only. */
    method CloseEp(itf: Interface)
      modifies this
      ensures prevNBytesReceived == old(prevNBytesReceived) && hostStreamingOut == old(hostStreamingOut)
      ensures ready == old(ready) && outTaskNotifications == old(outTaskNotifications)
      ensures spkrInterfaceOpen == (old(spkrInterfaceOpen) && !(itf == StreamingSpk && cfg.outputEnabled))
      ensures micInterfaceOpen == (old(micInterfaceOpen) && !(itf == StreamingMic && cfg.inputEnabled))
    {
      if cfg.outputEnabled && itf == StreamingSpk {
        spkrInterfaceOpen := false;
      }
      if cfg.inputEnabled && itf == StreamingMic {
        micInterfaceOpen := false;
      }
    }

    /**
     * One iteration of `usb_audio_out_task` after its notification is taken:
     * up to one pipeline frame leaves samples_from_host; a non-empty read of
     * any other size is fatal, a whole frame goes to the pipeline tile.
     */
    method OutTaskStep() returns (fatal: bool)
      requires Valid() && outTaskNotifications > 0
      modifies this, fromHost, port
      ensures Valid() && outTaskNotifications == old(outTaskNotifications) - 1
      ensures micInterfaceOpen == old(micInterfaceOpen) && spkrInterfaceOpen == old(spkrInterfaceOpen)
      ensures ready == old(ready) && hostStreamingOut == old(hostStreamingOut) && prevNBytesReceived == old(prevNBytesReceived)
      ensures var m := Min(FromHostFrameBytes(cfg), |old(fromHost.contents)|);
              var data := old(fromHost.contents)[..m];
              fromHost.contents == old(fromHost.contents)[m..] &&
              fatal == (m != 0 && m != FromHostFrameBytes(cfg)) &&
              port.messages == if m == FromHostFrameBytes(cfg) && m != 0 then old(port.messages) + [data] else old(port.messages)
    {
      outTaskNotifications := outTaskNotifications - 1;
      var data := fromHost.Receive(FromHostFrameBytes(cfg));
      fatal := false;
      if |data| > 0 {
        if |data| != FromHostFrameBytes(cfg) {
          return true;
        }
        port.Tx(data);
      }
    }
  }

  function Zeros(n: nat): (z: seq<byte>)
    ensures |z| == n && forall i :: 0 <= i < n ==> z[i] == 0
  {
    seq(n, _ => 0)
  }
}
