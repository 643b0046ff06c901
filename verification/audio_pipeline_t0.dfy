// The tile-0 audio pipeline of the fixed-delay reference design: frames
// arrive whole from the other tile, pass through three stages in order
// (interference cancellation with voice-to-noise estimation, noise
// suppression, automatic gain control) and leave through the application's
// output adapter. Every stage rewrites channel 0 only; the DSP blocks are
// functions of their inputs whose numerics are not modelled.
module PipelineT0 {
  import opened Ints
  import opened Bytes
  import opened Frames
  import opened Intertile
  import CS = ConfigServicer
  import Ffva = FfvaAdapters
  import UsbAudio

  /** The opaque state of one DSP block. */
  type DspState = seq<int>

  /** `vnr_pred_state_t`: the voice-to-noise estimates of the IC input and output. */
  datatype VnrEstimate = VnrEstimate(input: FloatS32, output: FloatS32)

  /** `agc_meta_data_t` */
  datatype AgcMetaData = AgcMetaData(vnrFlag: i32, aecRefPower: FloatS32, aecCorrFactor: FloatS32)

  /**
   * The DSP library. Each call is a function of the block state and its
   * inputs; `vnrPercent` is the float conversion `(int)(x * 100)` and
   * `aboveThreshold` the comparison with the 0.5 AGC threshold.
   */
  datatype Dsp = Dsp(
    icInit: DspState,
    icFilter: (DspState, Channel, Channel) -> (DspState, Channel),
    icCalcVnrPred: DspState -> (DspState, VnrEstimate),
    icAdapt: (DspState, FloatS32) -> DspState,
    nsInit: DspState,
    nsProcess: (DspState, Channel) -> (DspState, Channel),
    agcInit: DspState,
    agcProcess: (DspState, Channel, AgcMetaData) -> (DspState, Channel),
    agcMetaDataNoAec: FloatS32,
    vnrPercent: FloatS32 -> i32,
    aboveThreshold: FloatS32 -> bool)

  /** The static state of the three stages. */
  datatype StageState = StageState(ic: DspState, vnr: VnrEstimate, ns: DspState, agc: DspState, md: AgcMetaData)

  /** What a stage leaves behind: the stage state, the frame, and the VNR values pushed to the configuration servicer. */
  datatype StageOut = StageOut(st: StageState, frame: FrameImage, pushes: seq<i32>)

  /** Whether each stage is compiled out. */
  datatype Skips = Skips(ic: bool, ns: bool, agc: bool)

  /** The skip switches the application configuration defines. */
  datatype AppSkipFlags = AppSkipFlags(icAndVnr: bool, ns: bool, agc: bool)

  /** The pipeline-bypass build: every stage switched off. */
  const Bypass: AppSkipFlags := AppSkipFlags(true, true, true)

  /** The VNR flag the IC stage stores: 1 when the output estimate exceeds the threshold. */
  function VnrFlag(d: Dsp, e: VnrEstimate): (flag: i32)
    ensures flag == 0 || flag == 1
  {
    if d.aboveThreshold(e.output) then 1 else 0
  }

  /** The metadata AGC reads off a frame. */
  function MetaOf(f: FrameImage): AgcMetaData
  {
    AgcMetaData(f.vnrPredFlag, f.maxRefEnergy, f.aecCorrFactor)
  }

  /**
   * `stage_vnr_and_ic`: IC filters channel 0 against channel 1 into a new
   * channel 0, the VNR estimate sets the frame's flag and one percentage
   * is pushed to the servicer, and IC adapts on the input estimate.
   */
  function IcVnrStage(d: Dsp, skip: bool, s: StageState, f: FrameImage): (o: StageOut)
    requires WellFormed(f)
    ensures WellFormed(o.frame)
    ensures skip ==> o == StageOut(s, f, [])
    ensures !skip ==> OnlyChannel0AndFlag(f, o.frame) &&
                      ChannelOf(o.frame, 0) == d.icFilter(s.ic, ChannelOf(f, 0), ChannelOf(f, 1)).1 &&
                      o.frame.vnrPredFlag == VnrFlag(d, o.st.vnr) &&
                      o.pushes == [d.vnrPercent(o.st.vnr.output)]
    ensures o.st.ns == s.ns && o.st.agc == s.agc && o.st.md == s.md
  {
    if skip then StageOut(s, f, [])
    else
      var (ic1, out) := d.icFilter(s.ic, ChannelOf(f, 0), ChannelOf(f, 1));
      var (ic2, est) := d.icCalcVnrPred(ic1);
      var ic3 := d.icAdapt(ic2, est.input);
      StageOut(s.(ic := ic3, vnr := est), WithChannel0(f, out).(vnrPredFlag := VnrFlag(d, est)), [d.vnrPercent(est.output)])
  }

  /** `stage_ns`: noise suppression rewrites channel 0 and nothing else. */
  function NsStage(d: Dsp, skip: bool, s: StageState, f: FrameImage): (o: StageOut)
    requires WellFormed(f)
    ensures WellFormed(o.frame) && o.pushes == []
    ensures skip ==> o == StageOut(s, f, [])
    ensures !skip ==> OnlyChannel0AndFlag(f, o.frame) && o.frame.vnrPredFlag == f.vnrPredFlag &&
                      ChannelOf(o.frame, 0) == d.nsProcess(s.ns, ChannelOf(f, 0)).1
    ensures o.st.ic == s.ic && o.st.vnr == s.vnr && o.st.agc == s.agc && o.st.md == s.md
  {
    if skip then StageOut(s, f, [])
    else
      var (ns1, out) := d.nsProcess(s.ns, ChannelOf(f, 0));
      StageOut(s.(ns := ns1), WithChannel0(f, out), [])
  }

  /**
   * `stage_agc`: the metadata is first taken from the frame, then AGC
   * rewrites channel 0 and nothing else.
   */
  function AgcStage(d: Dsp, skip: bool, s: StageState, f: FrameImage): (o: StageOut)
    requires WellFormed(f)
    ensures WellFormed(o.frame) && o.pushes == []
    ensures skip ==> o == StageOut(s, f, [])
    ensures !skip ==> o.st.md == MetaOf(f) &&
                      OnlyChannel0AndFlag(f, o.frame) && o.frame.vnrPredFlag == f.vnrPredFlag &&
                      ChannelOf(o.frame, 0) == d.agcProcess(s.agc, ChannelOf(f, 0), MetaOf(f)).1
    ensures o.st.ic == s.ic && o.st.vnr == s.vnr && o.st.ns == s.ns
  {
    if skip then StageOut(s, f, [])
    else
      var md := MetaOf(f);
      var (agc1, out) := d.agcProcess(s.agc, ChannelOf(f, 0), md);
      StageOut(s.(agc := agc1, md := md), WithChannel0(f, out), [])
  }

  /** The pipeline's stages, as the scheduler knows them. */
  datatype StageId = IcAndVnr | Ns | Agc

  /** The functions the scheduler runs, each with its own stack need. */
  datatype PipelineFn = InputI | OutputI | StageFn(id: StageId)

  /** What `audio_pipeline_init` hands to the scheduler. */
  datatype PipelineDescriptor = PipelineDescriptor(stageCount: nat, stages: seq<StageId>, stackSizes: seq<nat>)

  /**
   * The descriptor built by `audio_pipeline_init`. `minimal` is the
   * minimal task stack and `stackOf` the stack each function needs.
   */
  function Descriptor(minimal: nat, stackOf: PipelineFn -> nat): (p: PipelineDescriptor)
    ensures p.stageCount == |p.stages| == |p.stackSizes| == 3
    ensures p.stages == [IcAndVnr, Ns, Agc]
    ensures forall k :: 0 <= k < 3 ==> p.stackSizes[k] >= minimal + stackOf(StageFn(p.stages[k]))
    ensures p.stackSizes[0] >= stackOf(InputI) && p.stackSizes[2] >= stackOf(OutputI)
  {
    PipelineDescriptor(3, [IcAndVnr, Ns, Agc],
      [minimal + stackOf(StageFn(IcAndVnr)) + stackOf(InputI),
       minimal + stackOf(StageFn(Ns)),
       minimal + stackOf(StageFn(Agc)) + stackOf(OutputI)])
  }

  function RunStage(d: Dsp, sk: Skips, id: StageId, s: StageState, f: FrameImage): (o: StageOut)
    requires WellFormed(f)
    ensures WellFormed(o.frame)
  {
    match id
    case IcAndVnr => IcVnrStage(d, sk.ic, s, f)
    case Ns => NsStage(d, sk.ns, s, f)
    case Agc => AgcStage(d, sk.agc, s, f)
  }

  /** The scheduler's view: each stage of the list in turn, pushes collected in order. */
  function RunStages(d: Dsp, sk: Skips, ids: seq<StageId>, s: StageState, f: FrameImage): (o: StageOut)
    requires WellFormed(f)
    ensures WellFormed(o.frame)
    decreases |ids|
  {
    if ids == [] then StageOut(s, f, [])
    else
      var o1 := RunStage(d, sk, ids[0], s, f);
      var o2 := RunStages(d, sk, ids[1..], o1.st, o1.frame);
      StageOut(o2.st, o2.frame, o1.pushes + o2.pushes)
  }

  /** One frame through IC+VNR, then NS, then AGC. */
  function ProcessFrame(d: Dsp, sk: Skips, s: StageState, f: FrameImage): (o: StageOut)
    requires WellFormed(f)
    ensures WellFormed(o.frame)
  {
    var o1 := IcVnrStage(d, sk.ic, s, f);
    var o2 := NsStage(d, sk.ns, o1.st, o1.frame);
    var o3 := AgcStage(d, sk.agc, o2.st, o2.frame);
    StageOut(o3.st, o3.frame, o1.pushes)
  }

  /** Running the descriptor's stage list is processing the frame through the three stages in order. */
  lemma {:induction false} DescriptorRunsProcessFrame(d: Dsp, sk: Skips, s: StageState, f: FrameImage, minimal: nat, stackOf: PipelineFn -> nat)
    requires WellFormed(f)
    ensures RunStages(d, sk, Descriptor(minimal, stackOf).stages, s, f) == ProcessFrame(d, sk, s, f)
  {
    var ids := Descriptor(minimal, stackOf).stages;
    var o1 := IcVnrStage(d, sk.ic, s, f);
    var o2 := NsStage(d, sk.ns, o1.st, o1.frame);
    var o3 := AgcStage(d, sk.agc, o2.st, o2.frame);
    assert ids[1..][1..][1..] == [];
    assert RunStages(d, sk, ids[1..][1..], o2.st, o2.frame) == StageOut(o3.st, o3.frame, [] + []);
    assert RunStages(d, sk, ids[1..], o1.st, o1.frame) == StageOut(o3.st, o3.frame, [] + ([] + []));
  }

  /**
   * Across the whole pipeline only channel 0 and the VNR flag change, one
   * VNR value is pushed exactly when IC runs, and when AGC runs its
   * metadata is the frame's own: the flag the frame leaves with and the
   * two float fields it arrived with.
   */
  lemma {:induction false} ProcessFrameEffects(d: Dsp, sk: Skips, s: StageState, f: FrameImage)
    requires WellFormed(f)
    ensures var o := ProcessFrame(d, sk, s, f);
            OnlyChannel0AndFlag(f, o.frame) &&
            |o.pushes| == (if sk.ic then 0 else 1) &&
            (sk.ic ==> o.frame.vnrPredFlag == f.vnrPredFlag) &&
            (!sk.agc ==> o.st.md == AgcMetaData(o.frame.vnrPredFlag, f.maxRefEnergy, f.aecCorrFactor)) &&
            (sk.agc ==> o.st.md == s.md)
  {
    var o1 := IcVnrStage(d, sk.ic, s, f);
    var o2 := NsStage(d, sk.ns, o1.st, o1.frame);
    var o3 := AgcStage(d, sk.agc, o2.st, o2.frame);
    assert OnlyChannel0AndFlag(f, o1.frame);
    assert OnlyChannel0AndFlag(o1.frame, o2.frame) && o2.frame.vnrPredFlag == o1.frame.vnrPredFlag;
    assert OnlyChannel0AndFlag(o2.frame, o3.frame) && o3.frame.vnrPredFlag == o2.frame.vnrPredFlag;
  }

  /** With every stage skipped, the frame leaves exactly as it arrived and no state changes. */
  lemma AllSkippedIsIdentity(d: Dsp, s: StageState, f: FrameImage)
    requires WellFormed(f)
    ensures ProcessFrame(d, Skips(true, true, true), s, f) == StageOut(s, f, [])
  {
  }

  /**
   * The stage skips as the stage code tests them: the IC stage is guarded
   * by a `_SKIP_IC_AND_VAD` switch that no configuration defines, which
   * the preprocessor reads as 0, so the configured IC switch has no effect.
   */
  function SkipsAsWritten(a: AppSkipFlags): (sk: Skips)
    ensures !sk.ic && sk.ns == a.ns && sk.agc == a.agc
  {
    Skips(false, a.ns, a.agc)
  }

  /** The stage skips as the configuration means them: each switch turns its own stage off. */
  function StageSkips(a: AppSkipFlags): (sk: Skips)
    ensures sk.ic == a.icAndVnr && sk.ns == a.ns && sk.agc == a.agc
  {
    Skips(a.icAndVnr, a.ns, a.agc)
  }

  /** An IC filter that outputs silence, to exhibit the bypass build at work. */
  const SilentIc: Dsp := Dsp(
    [],
    (st: DspState, a: Channel, b: Channel) => (st, seq(FRAME_ADVANCE, _ => 0)),
    (st: DspState) => (st, VnrEstimate(ZeroFloat, ZeroFloat)),
    (st: DspState, x: FloatS32) => st,
    [],
    (st: DspState, a: Channel) => (st, a),
    [],
    (st: DspState, a: Channel, m: AgcMetaData) => (st, a),
    ZeroFloat,
    (x: FloatS32) => 0,
    (x: FloatS32) => false)

  /**
   * In the bypass build as written, IC still runs: a frame whose channel 0
   * is not silent comes out changed, and a VNR value is pushed.
   */
  lemma BypassStillRunsIc()
    ensures var s := StageState([], VnrEstimate(ZeroFloat, ZeroFloat), [], [], AgcMetaData(0, ZeroFloat, ZeroFloat));
            var f := FrameImage(seq(FRAME_SAMPLES, _ => 1), ZeroFloat, ZeroFloat, 0);
            var o := ProcessFrame(SilentIc, SkipsAsWritten(Bypass), s, f);
            o.frame.samples[0] == 0 != f.samples[0] && |o.pushes| == 1
  {
    var s := StageState([], VnrEstimate(ZeroFloat, ZeroFloat), [], [], AgcMetaData(0, ZeroFloat, ZeroFloat));
    var f := FrameImage(seq(FRAME_SAMPLES, _ => 1), ZeroFloat, ZeroFloat, 0);
    var o1 := IcVnrStage(SilentIc, false, s, f);
    assert ChannelOf(o1.frame, 0) == seq(FRAME_ADVANCE, _ => 0);
    assert o1.frame.samples[0] == ChannelOf(o1.frame, 0)[0];
  }

  /** In the bypass build as configured, the frame passes through bit for bit. */
  lemma BypassIsIdentity(d: Dsp, s: StageState, f: FrameImage)
    requires WellFormed(f)
    ensures ProcessFrame(d, StageSkips(Bypass), s, f) == StageOut(s, f, [])
  {
    AllSkippedIsIdentity(d, s, f);
  }

  /** The tile-0 pipeline: the stages' static state, the inbound port and the servicer the VNR goes to. */
  class AudioPipeline {
    const dsp: Dsp
    const skips: Skips
    /** The inter-tile port frames arrive on. */
    const link: Port
    const servicer: CS.Servicer

    var ic: DspState
    var vnr: VnrEstimate
    var ns: DspState
    var agc: DspState
    var md: AgcMetaData

    function State(): StageState
      reads this
    {
      StageState(ic, vnr, ns, agc, md)
    }

    /**
     * `audio_pipeline_init` up to the hand-over to the scheduler
     * (`initialize_pipeline_stages`): every block initialised, AGC
     * metadata marked as having no echo canceller.
     */
    constructor (d: Dsp, flags: AppSkipFlags, port: Port, cfg: CS.Servicer)
      ensures dsp == d && skips == StageSkips(flags) && link == port && servicer == cfg
      ensures State() == StageState(d.icInit, VnrEstimate(ZeroFloat, ZeroFloat), d.nsInit, d.agcInit,
                                    AgcMetaData(0, d.agcMetaDataNoAec, d.agcMetaDataNoAec))
    {
      dsp := d;
      skips := StageSkips(flags);
      link := port;
      servicer := cfg;
      ic := d.icInit;
      vnr := VnrEstimate(ZeroFloat, ZeroFloat);
      ns := d.nsInit;
      agc := d.agcInit;
      md := AgcMetaData(0, d.agcMetaDataNoAec, d.agcMetaDataNoAec);
    }

    /**
     * `audio_pipeline_input_i`: a fresh zeroed frame, filled with the next
     * message from the other tile; a message of any other size than a
     * whole frame is fatal.
     */
    method InputI() returns (frame: FrameData, fatal: bool)
      requires link.messages != []
      modifies link
      ensures fresh(frame) && fresh(frame.samples) && frame.Valid()
      ensures link.messages == old(link.messages)[1..]
      ensures var msg := old(link.messages)[0];
              fatal == (|msg| != FRAME_BYTES) &&
              (fatal ==> frame.Image() == ZeroFrame) &&
              (!fatal ==> frame.Image() == DecodeFrame(msg))
    {
      frame := new FrameData.Zeroed();
      var msg := link.Rx();
      if |msg| != FRAME_BYTES {
        return frame, true;
      }
      frame.Store(DecodeFrame(msg));
      fatal := false;
    }

    method StageVnrAndIc(frame: FrameData)
      requires frame.Valid()
      modifies this, frame, frame.samples, servicer
      ensures frame.Valid()
      ensures var o := IcVnrStage(dsp, skips.ic, old(State()), old(frame.Image()));
              State() == o.st && frame.Image() == o.frame &&
              servicer.Regs() == if o.pushes == [] then old(servicer.Regs())
                                 else old(servicer.Regs()).(vnrValue := CS.ClampPercent(o.pushes[0]))
    {
      if !skips.ic {
        var (ic1, out) := dsp.icFilter(ic, frame.samples[..FRAME_ADVANCE], frame.samples[FRAME_ADVANCE..2 * FRAME_ADVANCE]);
        ic := ic1;
        var (ic2, est) := dsp.icCalcVnrPred(ic);
        ic := ic2;
        vnr := est;
        servicer.PushVnrValue(dsp.vnrPercent(vnr.output));
        frame.vnrPredFlag := if dsp.aboveThreshold(vnr.output) then 1 else 0;
        ic := dsp.icAdapt(ic, vnr.input);
        frame.SetChannel0(out);
      }
    }

    method StageNs(frame: FrameData)
      requires frame.Valid()
      modifies this, frame.samples
      ensures frame.Valid()
      ensures var o := NsStage(dsp, skips.ns, old(State()), old(frame.Image()));
              State() == o.st && frame.Image() == o.frame
    {
      if !skips.ns {
        var (ns1, out) := dsp.nsProcess(ns, frame.samples[..FRAME_ADVANCE]);
        ns := ns1;
        frame.SetChannel0(out);
      }
    }

    method StageAgc(frame: FrameData)
      requires frame.Valid()
      modifies this, frame.samples
      ensures frame.Valid()
      ensures var o := AgcStage(dsp, skips.agc, old(State()), old(frame.Image()));
              State() == o.st && frame.Image() == o.frame
    {
      if !skips.agc {
        md := md.(vnrFlag := frame.vnrPredFlag);
        md := md.(aecRefPower := frame.maxRefEnergy);
        md := md.(aecCorrFactor := frame.aecCorrFactor);
        var (agc1, out) := dsp.agcProcess(agc, frame.samples[..FRAME_ADVANCE], md);
        agc := agc1;
        frame.SetChannel0(out);
      }
    }

    /**
     * One frame from the link through the three stages, in the order of
     * the descriptor; the frame is then ready for the output adapter.
     */
    method RunFrame() returns (frame: FrameData, fatal: bool)
      requires link.messages != []
      modifies this, link, servicer
      ensures fresh(frame) && frame.Valid()
      ensures link.messages == old(link.messages)[1..]
      ensures fatal == (|old(link.messages)[0]| != FRAME_BYTES)
      ensures !fatal ==> var o := ProcessFrame(dsp, skips, old(State()), DecodeFrame(old(link.messages)[0]));
                         State() == o.st && frame.Image() == o.frame &&
                         servicer.Regs() == if o.pushes == [] then old(servicer.Regs())
                                            else old(servicer.Regs()).(vnrValue := CS.ClampPercent(o.pushes[0]))
      ensures fatal ==> servicer.Regs() == old(servicer.Regs())
    {
      frame, fatal := InputI();
      if fatal {
        return;
      }
      StageVnrAndIc(frame);
      StageNs(frame);
      StageAgc(frame);
    }

    /** `audio_pipeline_output_i`: all six channels of FRAME_ADVANCE samples go to the application's output adapter, whose status is returned. */
    method OutputI(frame: FrameData, out: Ffva.Ffva) returns (status: Ffva.OutputStatus)
      requires frame.Valid() && out.Valid()
      modifies out, out.slaveLink, out.usb.toHost
      ensures out.Valid() && status == Ffva.FreeFrame
      ensures out.i2sOut == old(out.i2sOut) + Ffva.I2sOutput(out.build, frame.samples[..], FRAME_ADVANCE)
      ensures out.slaveLink.messages == old(out.slaveLink.messages) +
                (if out.build.i2sEnabled && out.build.i2sMode == Ffva.I2sSlave then [Ffva.SlaveMessage(frame.samples[..])] else [])
      ensures out.build.usbEnabled ==>
                out.usb.toHost.contents ==
                  if out.usb.micInterfaceOpen && old(out.usb.toHost.SpacesAvailable()) >= UsbAudio.ToHostFrameBytes(out.usb.cfg)
                  then old(out.usb.toHost.contents) +
                       Bytes.EncodeRows(UsbAudio.ToHostRows(out.usb.cfg, frame.samples[..FRAME_ADVANCE], CHANNELS), out.usb.cfg.nTx, out.usb.cfg.bytesPerSample)
                  else old(out.usb.toHost.contents)
      ensures !out.build.usbEnabled ==> out.usb.toHost.contents == old(out.usb.toHost.contents)
      ensures out.build.wwEnabled ==> out.wwSent == old(out.wwSent) + [frame.samples[..]]
      ensures !out.build.wwEnabled ==> out.wwSent == old(out.wwSent)
      ensures out.flushed == old(out.flushed) && out.micFromUsb == old(out.micFromUsb) && out.aecRefSource == old(out.aecRefSource)
      ensures out.upPhase == old(out.upPhase) && out.downPhase == old(out.downPhase)
    {
      status := out.Output(frame.samples, CHANNELS, FRAME_ADVANCE);
    }
  }
}
