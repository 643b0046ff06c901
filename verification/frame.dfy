// `frame_data_t`: one pipeline frame of six channels of FRAME_ADVANCE
// 32-bit samples (channel-major, `samples[ch][i]` at flat index
// ch*FRAME_ADVANCE + i) plus the metadata the stages read and write.
module Frames {
  import opened Ints
  import opened Bytes

  const FRAME_ADVANCE: nat := 240
  const CHANNELS: nat := 6
  const FRAME_SAMPLES: nat := CHANNELS * FRAME_ADVANCE

  /** Words in the byte image: the samples, two float_s32_t values and the VNR flag. */
  const FRAME_WORDS: nat := FRAME_SAMPLES + 5

  /** `sizeof(frame_data_t)` */
  const FRAME_BYTES: nat := 4 * FRAME_WORDS

  /** One channel of one frame. */
  type Channel = s: seq<i32> | |s| == FRAME_ADVANCE witness seq(FRAME_ADVANCE, _ => 0)

  /** `float_s32_t`: mantissa and exponent. */
  datatype FloatS32 = FloatS32(mant: i32, exp: i32)

  /** The contents of a frame_data_t. */
  datatype FrameImage = FrameImage(samples: seq<i32>, maxRefEnergy: FloatS32, aecCorrFactor: FloatS32, vnrPredFlag: i32)

  predicate WellFormed(f: FrameImage)
  {
    |f.samples| == FRAME_SAMPLES
  }

  /** `samples[ch]` */
  function ChannelOf(f: FrameImage, ch: nat): (c: Channel)
    requires WellFormed(f) && ch < CHANNELS
  {
    f.samples[ch * FRAME_ADVANCE..(ch + 1) * FRAME_ADVANCE]
  }

  const ZeroFloat: FloatS32 := FloatS32(0, 0)

  /** An all-zero frame, as left by `memset(frame, 0, sizeof(frame_data_t))`. */
  const ZeroFrame: FrameImage := FrameImage(seq(FRAME_SAMPLES, _ => 0), ZeroFloat, ZeroFloat, 0)

  /**
   * g differs from f at most in channel 0 and in the VNR flag: channels 1..5
   * and both float metadata fields are equal.
   */
  predicate OnlyChannel0AndFlag(f: FrameImage, g: FrameImage)
    requires WellFormed(f) && WellFormed(g)
  {
    f.samples[FRAME_ADVANCE..] == g.samples[FRAME_ADVANCE..] &&
    f.maxRefEnergy == g.maxRefEnergy && f.aecCorrFactor == g.aecCorrFactor
  }

  /** f with channel 0 replaced by c. */
  function WithChannel0(f: FrameImage, c: Channel): (g: FrameImage)
    requires WellFormed(f)
    ensures WellFormed(g) && ChannelOf(g, 0) == c
    ensures OnlyChannel0AndFlag(f, g) && g.vnrPredFlag == f.vnrPredFlag
  {
    f.(samples := c + f.samples[FRAME_ADVANCE..])
  }

  // ---- Byte image, as carried by the inter-tile link ----

  function FrameWords(f: FrameImage): (w: seq<int>)
    requires WellFormed(f)
    ensures |w| == FRAME_WORDS && AllFit(w, 4)
  {
    forall i | 0 <= i < |f.samples| ensures FitsSigned(f.samples[i], 4) {
      FitsI32(f.samples[i]);
    }
    var tail := [f.maxRefEnergy.mant, f.maxRefEnergy.exp, f.aecCorrFactor.mant, f.aecCorrFactor.exp, f.vnrPredFlag];
    forall i | 0 <= i < 5 ensures FitsSigned(tail[i], 4) {
      FitsI32(tail[i]);
    }
    f.samples + tail
  }

  /** The bytes of a frame_data_t, little-endian field by field. */
  function EncodeFrame(f: FrameImage): (b: seq<byte>)
    requires WellFormed(f)
    ensures |b| == FRAME_BYTES
  {
    EncodeInts(FrameWords(f), 4)
  }

  /** The frame_data_t whose bytes are b. */
  function DecodeFrame(b: seq<byte>): (f: FrameImage)
    requires |b| == FRAME_BYTES
    ensures WellFormed(f)
  {
    DecodeIntsLength(b, 4, FRAME_WORDS);
    var w := DecodeInts(b, 4);
    var n := FRAME_SAMPLES;
    forall i | 0 <= i < |w| ensures INT32_MIN <= w[i] <= INT32_MAX {
      FitsI32(w[i]);
    }
    FrameImage(w[..n], FloatS32(w[n], w[n + 1]), FloatS32(w[n + 2], w[n + 3]), w[n + 4])
  }

  /** A frame survives the trip across the inter-tile link unchanged. */
  lemma {:induction false} DecodeEncodeFrame(f: FrameImage)
    requires WellFormed(f)
    ensures DecodeFrame(EncodeFrame(f)) == f
  {
    DecodeEncodeInts(FrameWords(f), 4);
    var g := DecodeFrame(EncodeFrame(f));
    assert g.samples == FrameWords(f)[..FRAME_SAMPLES] == f.samples;
  }

  /** A frame buffer: the sample words in place plus the metadata fields. */
  class FrameData {
    const samples: array<i32>
    var maxRefEnergy: FloatS32
    var aecCorrFactor: FloatS32
    var vnrPredFlag: i32

    ghost predicate Valid()
      reads this
    {
      samples.Length == FRAME_SAMPLES
    }

    function Image(): FrameImage
      reads this, samples
    {
      FrameImage(samples[..], maxRefEnergy, aecCorrFactor, vnrPredFlag)
    }

    /** `pvPortMalloc` followed by `memset(.., 0x00, sizeof(frame_data_t))`. */
    constructor Zeroed()
      ensures Valid() && fresh(samples) && Image() == ZeroFrame
    {
      samples := new i32[FRAME_SAMPLES](_ => 0);
      maxRefEnergy := ZeroFloat;
      aecCorrFactor := ZeroFloat;
      vnrPredFlag := 0;
      new;
      assert samples[..] == seq(FRAME_SAMPLES, _ => 0);
    }

    /** Copies a whole frame image into the buffer. */
    method Store(f: FrameImage)
      requires Valid() && WellFormed(f)
      modifies this, samples
      ensures Valid() && Image() == f
    {
      forall i | 0 <= i < FRAME_SAMPLES {
        samples[i] := f.samples[i];
      }
      maxRefEnergy := f.maxRefEnergy;
      aecCorrFactor := f.aecCorrFactor;
      vnrPredFlag := f.vnrPredFlag;
    }

    /** `memcpy(frame_data->samples, out, FRAME_ADVANCE * sizeof(int32_t))`: overwrites channel 0 only. */
    method SetChannel0(c: Channel)
      requires Valid()
      modifies samples
      ensures Valid() && Image() == WithChannel0(old(Image()), c)
    {
      forall i | 0 <= i < FRAME_ADVANCE {
        samples[i] := c[i];
      }
      assert samples[..] == c + old(samples[FRAME_ADVANCE..]);
    }
  }
}
