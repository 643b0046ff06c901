// The device-control configuration servicer of the ffva application
// (resource 241): three one-byte registers -- the VNR estimate pushed by the
// audio pipeline and the processing stage routed to each output channel --
// read and written through the device-control command dispatch.
module ConfigServicer {
  import opened Ints

  // Status codes of the device-control library (`control_ret_t`).
  const CONTROL_SUCCESS: u8 := 0
  const CONTROL_BAD_COMMAND: u8 := 2

  /** Bit 7 of a command byte marks a read request. */
  const CONTROL_CMD_READ_BIT: u8 := 0x80

  const CONFIGURATION_SERVICER_RESID: u8 := 241
  const NUM_RESOURCES_CONFIGURATION_SERVICER: nat := 1
  const CMD_VNR_VALUE: u8 := 0x00
  const CMD_CHANNEL_0_STAGE: u8 := 0x30
  const CMD_CHANNEL_1_STAGE: u8 := 0x40
  const NUM_CONFIGURATION_SERVICER_RESID_CMDS: nat := 3

  // Values of `enum e_pipeline_processing_stages`.
  const PIPELINE_STAGE_NONE: u8 := 0
  const PIPELINE_STAGE_AEC: u8 := 1
  const PIPELINE_STAGE_IC: u8 := 2
  const PIPELINE_STAGE_NS: u8 := 3
  const PIPELINE_STAGE_AGC: u8 := 4

  /** `CONTROL_CMD_CLEAR_READ`: the command identifier without the read bit. */
  function ClearRead(cmd: u8): (id: u8)
    ensures id < CONTROL_CMD_READ_BIT
    ensures id == cmd || id + CONTROL_CMD_READ_BIT == cmd
  {
    cmd % 0x80
  }

  /** The VNR estimate as stored: an int clamped to the percentage range [0, 100]. */
  function ClampPercent(value: int): (r: u8)
    ensures 0 <= r <= 100
    ensures 0 <= value <= 100 ==> r == value
    ensures value > 100 ==> r == 100
    ensures value < 0 ==> r == 0
  {
    if value > 100 then 100 else if value < 0 then 0 else value
  }

  // ---- The servicer record handed to the device-control library ----

  datatype Access = ReadOnly | ReadWrite

  /** One entry of a command map: identifier, number of values, value size in bytes, access. */
  datatype CmdInfo = CmdInfo(id: u8, numValues: nat, valueSize: nat, access: Access)

  datatype ResourceInfo = ResourceInfo(resource: u8, numCommands: nat, commands: seq<CmdInfo>)

  datatype ServicerRecord = ServicerRecord(id: u8, startIo: nat, numResources: nat, resInfo: seq<ResourceInfo>)

  /** `configuration_servicer_resid_cmd_map` */
  const CommandMap: seq<CmdInfo> := [
    CmdInfo(CMD_VNR_VALUE, 1, 1, ReadOnly),
    CmdInfo(CMD_CHANNEL_0_STAGE, 1, 1, ReadWrite),
    CmdInfo(CMD_CHANNEL_1_STAGE, 1, 1, ReadWrite)
  ]

  /** `configuration_servicer_init`: the record is cleared, then describes one resource and its command map. */
  function ServicerInit(): (s: ServicerRecord)
    ensures s.id == CONFIGURATION_SERVICER_RESID && s.startIo == 0
    ensures s.numResources == NUM_RESOURCES_CONFIGURATION_SERVICER == |s.resInfo|
    ensures s.resInfo[0].resource == CONFIGURATION_SERVICER_RESID
    ensures s.resInfo[0].numCommands == NUM_CONFIGURATION_SERVICER_RESID_CMDS == |s.resInfo[0].commands|
  {
    ServicerRecord(CONFIGURATION_SERVICER_RESID, 0, NUM_RESOURCES_CONFIGURATION_SERVICER,
                   [ResourceInfo(CONFIGURATION_SERVICER_RESID, NUM_CONFIGURATION_SERVICER_RESID_CMDS, CommandMap)])
  }

  predicate InMap(id: u8, access: Access)
  {
    exists k :: 0 <= k < |CommandMap| && CommandMap[k].id == id && CommandMap[k].access == access
  }

  // ---- The register file and its command semantics ----

  /** The three static registers. */
  datatype Registers = Registers(vnrValue: u8, channel0Stage: u8, channel1Stage: u8)

  /** The register a command identifier reads, if it names one. */
  function Lookup(r: Registers, id: u8): (v: Option<u8>)
    ensures v.Some? <==> id in {CMD_VNR_VALUE, CMD_CHANNEL_0_STAGE, CMD_CHANNEL_1_STAGE}
  {
    if id == CMD_VNR_VALUE then Some(r.vnrValue)
    else if id == CMD_CHANNEL_0_STAGE then Some(r.channel0Stage)
    else if id == CMD_CHANNEL_1_STAGE then Some(r.channel1Stage)
    else None
  }

  datatype Option<T> = None | Some(value: T)

  datatype ReadReply = ReadReply(status: u8, payload: seq<u8>)

  /**
   * Reply to a read of `cmd` into a payload of `len` bytes. Byte 0 is the
   * status byte: a known register gives [0, value, 0, ...] and SUCCESS; any
   * other command gives [BAD_COMMAND, 0, ...] and BAD_COMMAND.
   */
  function ReadSpec(r: Registers, cmd: u8, len: nat): (rep: ReadReply)
    requires len >= 2
    ensures |rep.payload| == len
    ensures Lookup(r, ClearRead(cmd)).Some? ==>
              rep.status == CONTROL_SUCCESS && rep.payload[0] == 0 && rep.payload[1] == Lookup(r, ClearRead(cmd)).value
    ensures Lookup(r, ClearRead(cmd)).None? ==>
              rep.status == CONTROL_BAD_COMMAND && rep.payload[0] == CONTROL_BAD_COMMAND && rep.payload[1] == 0
    ensures forall i :: 2 <= i < len ==> rep.payload[i] == 0
  {
    match Lookup(r, ClearRead(cmd))
    case Some(v) => ReadReply(CONTROL_SUCCESS, [0, v] + seq(len - 2, _ => 0))
    case None => ReadReply(CONTROL_BAD_COMMAND, [CONTROL_BAD_COMMAND, 0] + seq(len - 2, _ => 0))
  }

  datatype WriteReply = WriteReply(status: u8, regs: Registers)

  /**
   * Effect of a write of `cmd` with `payload`: a channel-stage command stores
   * payload[0], unvalidated, when exactly one byte is sent, and otherwise is
   * ignored; both return SUCCESS. The read-only VNR register and unknown
   * commands return BAD_COMMAND and change nothing.
   */
  function WriteSpec(r: Registers, cmd: u8, payload: seq<u8>): (w: WriteReply)
    ensures ClearRead(cmd) == CMD_CHANNEL_0_STAGE ==>
              w.status == CONTROL_SUCCESS &&
              w.regs == (if |payload| == 1 then r.(channel0Stage := payload[0]) else r)
    ensures ClearRead(cmd) == CMD_CHANNEL_1_STAGE ==>
              w.status == CONTROL_SUCCESS &&
              w.regs == (if |payload| == 1 then r.(channel1Stage := payload[0]) else r)
    ensures ClearRead(cmd) !in {CMD_CHANNEL_0_STAGE, CMD_CHANNEL_1_STAGE} ==>
              w.status == CONTROL_BAD_COMMAND && w.regs == r
    ensures w.regs.vnrValue == r.vnrValue
  {
    var id := ClearRead(cmd);
    if id == CMD_CHANNEL_0_STAGE then
      WriteReply(CONTROL_SUCCESS, if |payload| == 1 then r.(channel0Stage := payload[0]) else r)
    else if id == CMD_CHANNEL_1_STAGE then
      WriteReply(CONTROL_SUCCESS, if |payload| == 1 then r.(channel1Stage := payload[0]) else r)
    else
      WriteReply(CONTROL_BAD_COMMAND, r)
  }

  /** The dispatch agrees with the command map: exactly the listed commands read, exactly the read-write ones write. */
  lemma CommandMapMatchesDispatch(r: Registers, id: u8, b: u8)
    requires id < CONTROL_CMD_READ_BIT
    ensures Lookup(r, id).Some? <==> (InMap(id, ReadOnly) || InMap(id, ReadWrite))
    ensures WriteSpec(r, id, [b]).status == CONTROL_SUCCESS <==> InMap(id, ReadWrite)
  {
    if InMap(id, ReadOnly) || InMap(id, ReadWrite) {
      var k :| 0 <= k < |CommandMap| && CommandMap[k].id == id;
    }
    if id == CMD_VNR_VALUE { assert CommandMap[0].id == id; }
    if id == CMD_CHANNEL_0_STAGE { assert CommandMap[1].id == id; }
    if id == CMD_CHANNEL_1_STAGE { assert CommandMap[2].id == id; }
  }

  /** A write to a channel-stage register, then a read of it (with the read bit set), returns the byte written. */
  lemma WriteThenRead(r: Registers, id: u8, b: u8, len: nat)
    requires id in {CMD_CHANNEL_0_STAGE, CMD_CHANNEL_1_STAGE} && len >= 2
    ensures var w := WriteSpec(r, id, [b]);
            w.status == CONTROL_SUCCESS &&
            ReadSpec(w.regs, id + CONTROL_CMD_READ_BIT, len) == ReadReply(CONTROL_SUCCESS, [0, b] + seq(len - 2, _ => 0)) &&
            (if id == CMD_CHANNEL_0_STAGE then w.regs.channel0Stage else w.regs.channel1Stage) == b
  {
    var w := WriteSpec(r, id, [b]);
    var rep := ReadSpec(w.regs, id + CONTROL_CMD_READ_BIT, len);
    assert ClearRead(id + CONTROL_CMD_READ_BIT) == id;
    assert rep.payload == [0, b] + seq(len - 2, _ => 0);
  }

  /** The servicer's static registers. */
  class Servicer {
    var vnrValue: u8
    var channel0Stage: u8
    var channel1Stage: u8

    function Regs(): Registers
      reads this
    {
      Registers(vnrValue, channel0Stage, channel1Stage)
    }

    /** Power-on values: VNR 0, channel 0 routed from AGC, channel 1 from AEC. */
    constructor ()
      ensures Regs() == Registers(0, PIPELINE_STAGE_AGC, PIPELINE_STAGE_AEC)
    {
      vnrValue := 0;
      channel0Stage := PIPELINE_STAGE_AGC;
      channel1Stage := PIPELINE_STAGE_AEC;
    }

    /**
     * `configuration_servicer_read_cmd`: clears the whole payload buffer in
     * place, then writes the status byte and the register value.
     */
    method ReadCmd(cmd: u8, payload: array<u8>) returns (ret: u8)
      requires payload.Length >= 2
      modifies payload
      ensures ReadReply(ret, payload[..]) == ReadSpec(Regs(), cmd, payload.Length)
    {
      ret := CONTROL_SUCCESS;
      var id := ClearRead(cmd);
      forall i | 0 <= i < payload.Length {
        payload[i] := 0;
      }
      if id == CMD_VNR_VALUE {
        payload[0] := 0;
        payload[1] := vnrValue;
      } else if id == CMD_CHANNEL_0_STAGE {
        payload[0] := 0;
        payload[1] := channel0Stage;
      } else if id == CMD_CHANNEL_1_STAGE {
        payload[0] := 0;
        payload[1] := channel1Stage;
      } else {
        ret := CONTROL_BAD_COMMAND;
        payload[0] := ret;
      }
      assert payload[..] == ReadSpec(Regs(), cmd, payload.Length).payload;
    }

    /** `configuration_servicer_write_cmd` */
    method WriteCmd(cmd: u8, payload: seq<u8>) returns (ret: u8)
      modifies this
      ensures WriteReply(ret, Regs()) == WriteSpec(old(Regs()), cmd, payload)
    {
      ret := CONTROL_SUCCESS;
      var id := ClearRead(cmd);
      if id == CMD_CHANNEL_0_STAGE {
        if |payload| == 1 {
          channel0Stage := payload[0];
        }
      } else if id == CMD_CHANNEL_1_STAGE {
        if |payload| == 1 {
          channel1Stage := payload[0];
        }
      } else {
        ret := CONTROL_BAD_COMMAND;
      }
    }

    /** `configuration_push_vnr_value`: the pipeline's VNR percentage, clamped to [0, 100]. */
    method PushVnrValue(value: i32)
      modifies this
      ensures Regs() == old(Regs()).(vnrValue := ClampPercent(value))
    {
      var v: int := value;
      if v > 100 {
        v := 100;
      }
      if v < 0 {
        v := 0;
      }
      vnrValue := v;
    }

    /** `configuration_get_channel_0_stage` */
    method GetChannel0Stage() returns (stage: u8)
      ensures stage == Regs().channel0Stage
    {
      stage := channel0Stage;
    }

    /** `configuration_get_channel_1_stage` */
    method GetChannel1Stage() returns (stage: u8)
      ensures stage == Regs().channel1Stage
    {
      stage := channel1Stage;
    }
  }
}
