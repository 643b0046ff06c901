// The configuration servicer of the ffva example application: one readable
// register, the VNR estimate, and a command map that also lists two
// read-write volume commands which the write handler does not implement.
module ExampleConfigServicer {
  import opened Ints
  import CS = ConfigServicer

  const CMD_VNR_VALUE: u8 := 0x00
  const CMD_LINEOUT_VOLUME: u8 := 0x10
  const CMD_HEADPHONE_VOLUME: u8 := 0x11

  /**
   * The identifier the read handler's single case tests. It is spelt
   * `CONFIGURATION_SERVICER_RESID_VNR`, which the command header does not
   * define; it is taken to be the VNR register's identifier.
   */
  const CMD_RESID_VNR: u8 := CMD_VNR_VALUE

  /** `configuration_servicer_resid_cmd_map` of this variant */
  const CommandMap: seq<CS.CmdInfo> := [
    CS.CmdInfo(CMD_VNR_VALUE, 1, 1, CS.ReadOnly),
    CS.CmdInfo(CMD_LINEOUT_VOLUME, 1, 1, CS.ReadWrite),
    CS.CmdInfo(CMD_HEADPHONE_VOLUME, 1, 1, CS.ReadWrite)
  ]

  /** `configuration_servicer_init`: one resource (241) carrying this variant's three-command map. */
  function ServicerInit(): (s: CS.ServicerRecord)
    ensures s.id == CS.CONFIGURATION_SERVICER_RESID && s.startIo == 0
    ensures s.numResources == 1 == |s.resInfo|
    ensures s.resInfo[0].resource == CS.CONFIGURATION_SERVICER_RESID
    ensures s.resInfo[0].numCommands == 3 == |s.resInfo[0].commands|
    ensures s.resInfo[0].commands[1].access == CS.ReadWrite && s.resInfo[0].commands[2].access == CS.ReadWrite
  {
    CS.ServicerRecord(CS.CONFIGURATION_SERVICER_RESID, 0, 1,
                      [CS.ResourceInfo(CS.CONFIGURATION_SERVICER_RESID, 3, CommandMap)])
  }

  /**
   * Reply to a read: the command byte is compared as received, read bit
   * included. The VNR register gives [0, vnr, 0, ...] and SUCCESS; anything
   * else gives BAD_COMMAND and a payload left all zero.
   */
  function ReadSpec(vnr: u8, cmd: u8, len: nat): (rep: CS.ReadReply)
    requires len >= 2
    ensures |rep.payload| == len
    ensures cmd == CMD_RESID_VNR ==> rep.status == CS.CONTROL_SUCCESS && rep.payload[1] == vnr
    ensures cmd != CMD_RESID_VNR ==> rep.status == CS.CONTROL_BAD_COMMAND && rep.payload[1] == 0
    ensures rep.payload[0] == 0
    ensures forall i :: 2 <= i < len ==> rep.payload[i] == 0
  {
    if cmd == CMD_RESID_VNR then CS.ReadReply(CS.CONTROL_SUCCESS, [0, vnr] + seq(len - 2, _ => 0))
    else CS.ReadReply(CS.CONTROL_BAD_COMMAND, seq(len, _ => 0))
  }

  /**
   * A read request that carries the read bit is rejected by this variant,
   * whereas the other servicer clears the bit and answers it.
   */
  lemma ReadBitNotCleared(vnr: u8, len: nat)
    requires len >= 2
    ensures ReadSpec(vnr, CMD_VNR_VALUE + CS.CONTROL_CMD_READ_BIT, len).status == CS.CONTROL_BAD_COMMAND
    ensures CS.ReadSpec(CS.Registers(vnr, 0, 0), CMD_VNR_VALUE + CS.CONTROL_CMD_READ_BIT, len).status == CS.CONTROL_SUCCESS
  {
    assert CS.ClearRead(CMD_VNR_VALUE + CS.CONTROL_CMD_READ_BIT) == CMD_VNR_VALUE;
  }

  /** The vnr_value register of this variant. */
  class Servicer {
    var vnrValue: u8

    constructor ()
      ensures vnrValue == 0
    {
      vnrValue := 0;
    }

    /** `configuration_servicer_read_cmd`: zeroes the payload in place, then fills it for the one known register. */
    method ReadCmd(cmd: u8, payload: array<u8>) returns (ret: u8)
      requires payload.Length >= 2
      modifies payload
      ensures CS.ReadReply(ret, payload[..]) == ReadSpec(vnrValue, cmd, payload.Length)
    {
      ret := CS.CONTROL_SUCCESS;
      forall i | 0 <= i < payload.Length {
        payload[i] := 0;
      }
      if cmd == CMD_RESID_VNR {
        payload[0] := 0;
        payload[1] := vnrValue;
      } else {
        ret := CS.CONTROL_BAD_COMMAND;
      }
      assert payload[..] == ReadSpec(vnrValue, cmd, payload.Length).payload;
    }

    /** `configuration_servicer_write_cmd`: every command, the listed read-write ones included, is refused. */
    method WriteCmd(cmd: u8, payload: seq<u8>) returns (ret: u8)
      ensures ret == CS.CONTROL_BAD_COMMAND
    {
      ret := CS.CONTROL_BAD_COMMAND;
    }

    /** `configuration_set_vnr_value`: stores the value clamped to [0, 100]. */
    method SetVnrValue(value: i32)
      modifies this
      ensures vnrValue == CS.ClampPercent(value)
    {
      var v: int := value;
      if v > 100 {
        v := 100;
      }
      if v < 0 {
        v := 0;
      }
      vnrValue := v;
    }
  }
}
