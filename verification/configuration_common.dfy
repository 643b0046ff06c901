// Configuration zones at the top of the QSPI flash. Zone k occupies the
// (k+1)-th sector counted down from the end of the device; zone 0 holds
// factory data and may not be rewritten, zone 1 is the customer zone.
module ConfigFlash {
  import opened Ints
  import opened Bytes

  const CONFIGURATION_FACTORY_ZONE: u8 := 0
  const CONFIGURATION_CUSTOMER_ZONE: u8 := 1

  /** Value of an erased NOR flash byte. */
  const ERASED: byte := 0xFF

  /** The static flash geometry: data-partition base address, device size, sector size. */
  datatype Geometry = Geometry(base: u32, flashSize: u32, sectorSize: u32)

  datatype Option<T> = None | Some(value: T)

  /** `conriguration_check_flash`: 1 when the geometry is unusable, 0 otherwise. */
  function CheckFlash(g: Geometry): (r: u32)
    ensures r == 0 || r == 1
    ensures r == 1 <==> g.sectorSize == 0 || g.base == g.flashSize
    ensures g == Geometry(0, 0, 0) ==> r == 1
  {
    if g.sectorSize == 0 then 1
    else if g.base == g.flashSize then 1
    else 0
  }

  /**
   * The zone address exactly as computed: `flash_size - (zone + 1) *
   * sector_size` in unsigned 32-bit arithmetic, where both the product and
   * the difference wrap.
   */
  function ZoneAddressAsWritten(g: Geometry, zone: u8): (a: u32)
    ensures (zone + 1) * g.sectorSize <= g.flashSize ==> a == g.flashSize - (zone + 1) * g.sectorSize
  {
    Wrap32(g.flashSize - Wrap32((zone + 1) * g.sectorSize))
  }

  /** The address the read and write paths accept as written: geometry check, then the base check on the wrapped address. */
  function AcceptedAsWritten(g: Geometry, zone: u8): Option<u32>
  {
    if CheckFlash(g) != 0 then None
    else
      var a := ZoneAddressAsWritten(g, zone);
      if a < g.base then None else Some(a)
  }

  /**
   * A zone whose sectors reach below address 0 wraps to a huge address
   * that passes the base check: on a 512 KiB device with 4 KiB sectors and
   * the data partition at 256 KiB, zone 200 is accepted at 0xFFFB7000, far
   * beyond the end of the device.
   */
  lemma ZoneAddressWrapAccepted()
    ensures var g := Geometry(0x4_0000, 0x8_0000, 0x1000);
            AcceptedAsWritten(g, 200) == Some(0xFFFB_7000) &&
            0xFFFB_7000 + g.sectorSize > g.flashSize
  {
  }

  /**
   * The zone address with the wrap ruled out: a zone whose sectors do not
   * fit below the end of the device has no address.
   */
  function ZoneAddress(g: Geometry, zone: u8): (a: Option<u32>)
    ensures a.Some? <==> (zone + 1) * g.sectorSize <= g.flashSize
    ensures a.Some? ==> a.value + (zone + 1) * g.sectorSize == g.flashSize
  {
    if (zone + 1) * g.sectorSize <= g.flashSize then Some(g.flashSize - (zone + 1) * g.sectorSize) else None
  }

  /** The address the corrected read and write paths accept: geometry check, no wrap, at or above the base. */
  function Accepted(g: Geometry, zone: u8): (a: Option<u32>)
    ensures a.Some? ==> CheckFlash(g) == 0 && g.base <= a.value && a.value + g.sectorSize <= g.flashSize
  {
    if CheckFlash(g) != 0 then None
    else
      match ZoneAddress(g, zone)
      case None => None
      case Some(a) => if a < g.base then None else Some(a)
  }

  /** Where no wrap can occur, the corrected address check agrees with the code as written. */
  lemma {:induction false} AcceptedAgreesWithoutWrap(g: Geometry, zone: u8)
    requires (zone + 1) * g.sectorSize <= g.flashSize
    ensures Accepted(g, zone) == AcceptedAsWritten(g, zone)
  {
    assert Wrap32((zone + 1) * g.sectorSize) == (zone + 1) * g.sectorSize;
  }

  /**
   * `configuration_write_to_flash` status, in the order the checks run:
   * 1 bad geometry or address, 2 factory zone, 3 length over one sector,
   * 4 unknown zone, 0 written.
   */
  function WriteStatus(g: Geometry, zone: u8, length: u16): (r: u32)
    ensures Accepted(g, zone).None? <==> r == 1
    ensures zone == CONFIGURATION_FACTORY_ZONE ==> r == 1 || r == 2
    ensures zone == CONFIGURATION_CUSTOMER_ZONE && Accepted(g, zone).Some? ==> r == (if length > g.sectorSize then 3 else 0)
    ensures zone > CONFIGURATION_CUSTOMER_ZONE ==> r == 1 || r == 4
  {
    if Accepted(g, zone).None? then 1
    else if zone == CONFIGURATION_FACTORY_ZONE then 2
    else if zone == CONFIGURATION_CUSTOMER_ZONE then (if length > g.sectorSize then 3 else 0)
    else 4
  }

  /** `configuration_read_from_flash` status: 1 bad geometry or address, 3 length over one sector, 0 read (any zone). */
  function ReadStatus(g: Geometry, zone: u8, length: u16): (r: u16)
    ensures Accepted(g, zone).None? <==> r == 1
    ensures Accepted(g, zone).Some? ==> r == (if length > g.sectorSize then 3 else 0)
  {
    if Accepted(g, zone).None? then 1
    else if length > g.sectorSize then 3
    else 0
  }

  /** `configuration_write_to_flash` status exactly as written, on the wrapping address check. */
  function WriteStatusAsWritten(g: Geometry, zone: u8, length: u16): (r: u32)
    ensures AcceptedAsWritten(g, zone).None? <==> r == 1
    ensures zone == CONFIGURATION_FACTORY_ZONE ==> r == 1 || r == 2
    ensures zone == CONFIGURATION_CUSTOMER_ZONE && AcceptedAsWritten(g, zone).Some? ==> r == (if length > g.sectorSize then 3 else 0)
    ensures zone > CONFIGURATION_CUSTOMER_ZONE ==> r == 1 || r == 4
  {
    if AcceptedAsWritten(g, zone).None? then 1
    else if zone == CONFIGURATION_FACTORY_ZONE then 2
    else if zone == CONFIGURATION_CUSTOMER_ZONE then (if length > g.sectorSize then 3 else 0)
    else 4
  }

  /** `configuration_read_from_flash` status exactly as written, on the wrapping address check. */
  function ReadStatusAsWritten(g: Geometry, zone: u8, length: u16): (r: u16)
    ensures AcceptedAsWritten(g, zone).None? <==> r == 1
    ensures AcceptedAsWritten(g, zone).Some? ==> r == (if length > g.sectorSize then 3 else 0)
  {
    if AcceptedAsWritten(g, zone).None? then 1
    else if length > g.sectorSize then 3
    else 0
  }

  /** Where no wrap can occur, the corrected statuses are the ones the code returns. */
  lemma {:induction false} StatusAgreesWithoutWrap(g: Geometry, zone: u8, length: u16)
    requires (zone + 1) * g.sectorSize <= g.flashSize
    ensures WriteStatus(g, zone, length) == WriteStatusAsWritten(g, zone, length)
    ensures ReadStatus(g, zone, length) == ReadStatusAsWritten(g, zone, length)
  {
    AcceptedAgreesWithoutWrap(g, zone);
  }

  /**
   * At the wrapping zone 200 the code answers a write with "unknown zone"
   * and reads 0xFFFB7000 successfully, where the corrected check refuses
   * both with status 1.
   */
  lemma WrapStatuses()
    ensures var g := Geometry(0x4_0000, 0x8_0000, 0x1000);
            WriteStatusAsWritten(g, 200, 10) == 4 && ReadStatusAsWritten(g, 200, 10) == 0 &&
            WriteStatus(g, 200, 10) == 1 && ReadStatus(g, 200, 10) == 1
  {
    ZoneAddressWrapAccepted();
  }

  /** f with the bytes starting at addr replaced by `bytes`. */
  function Splice(f: seq<byte>, addr: nat, bytes: seq<byte>): (r: seq<byte>)
    requires addr + |bytes| <= |f|
    ensures |r| == |f|
    ensures forall i :: 0 <= i < |f| ==> r[i] == if addr <= i < addr + |bytes| then bytes[i - addr] else f[i]
  {
    f[..addr] + bytes + f[addr + |bytes|..]
  }

  /** A successful customer-zone write followed by a read of the same length returns the data written. */
  lemma {:induction false} WriteThenRead(g: Geometry, f: seq<byte>, data: seq<byte>)
    requires g.flashSize as int <= |f| && |data| < 0x1_0000
    requires WriteStatus(g, CONFIGURATION_CUSTOMER_ZONE, |data|) == 0
    ensures ReadStatus(g, CONFIGURATION_CUSTOMER_ZONE, |data|) == 0
    ensures var a := Accepted(g, CONFIGURATION_CUSTOMER_ZONE).value;
            Splice(f, a, data)[a..a + |data|] == data
  {
    var a := Accepted(g, CONFIGURATION_CUSTOMER_ZONE).value;
    var r := Splice(f, a, data);
    assert r[a..a + |data|] == data;
  }

  /** The flash device and the static geometry read at start-up. */
  class ConfigurationFlash {
    const flash: array<byte>
    var base: u32
    var flashSize: u32
    var sectorSize: u32

    ghost predicate Valid()
      reads this
    {
      flashSize as int <= flash.Length
    }

    function Geom(): Geometry
      reads this
    {
      Geometry(base, flashSize, sectorSize)
    }

    /** Before `configuration_init` every geometry field is zero. */
    constructor (device: array<byte>)
      ensures Valid() && flash == device && Geom() == Geometry(0, 0, 0)
    {
      flash := device;
      base := 0;
      flashSize := 0;
      sectorSize := 0;
    }

    /** `configuration_init`: reads the geometry from the DFU image and flash drivers. */
    method Init(partitionBase: u32, deviceSectorSize: u32) returns (r: u32)
      requires flash.Length < TWO_32
      modifies this
      ensures Valid() && r == 0
      ensures Geom() == Geometry(partitionBase, flash.Length, deviceSectorSize)
    {
      base := partitionBase;
      flashSize := flash.Length;
      sectorSize := deviceSectorSize;
      r := 0;
    }

    /** NOR erase: every byte of [addr, addr+len) becomes ERASED. */
    method Erase(addr: nat, len: nat)
      requires addr + len <= flash.Length
      modifies flash
      ensures flash[..] == Splice(old(flash[..]), addr, seq(len, _ => ERASED))
    {
      forall i | addr <= i < addr + len {
        flash[i] := ERASED;
      }
    }

    /** Page program of an erased range: [addr, addr+|bytes|) becomes `bytes`. */
    method Program(addr: nat, bytes: seq<byte>)
      requires addr + |bytes| <= flash.Length
      modifies flash
      ensures flash[..] == Splice(old(flash[..]), addr, bytes)
    {
      forall i | addr <= i < addr + |bytes| {
        flash[i] := bytes[i - addr];
      }
    }

    /**
     * `configuration_write_to_flash`: a customer-zone write reads the whole
     * sector, overlays the first `length` bytes with data, erases the sector
     * and writes it back.
     */
    method WriteToFlash(zone: u8, data: seq<byte>, length: u16) returns (r: u32)
      requires Valid() && length as int <= |data|
      modifies flash
      ensures r == WriteStatus(Geom(), zone, length)
      ensures r == 0 ==> flash[..] == Splice(old(flash[..]), Accepted(Geom(), zone).value, data[..length])
      ensures r != 0 ==> flash[..] == old(flash[..])
    {
      if CheckFlash(Geom()) != 0 {
        return 1;
      }
      var acc := Accepted(Geom(), zone);
      if acc.None? {
        return 1;
      }
      var addr := acc.value;
      if zone == CONFIGURATION_FACTORY_ZONE {
        return 2;
      } else if zone == CONFIGURATION_CUSTOMER_ZONE {
        if length > sectorSize {
          return 3;
        }
        RewriteSector(addr, sectorSize, data[..length]);
        return 0;
      } else {
        return 4;
      }
    }

    /**
     * The customer-zone rewrite: read the whole sector, overlay its first
     * bytes with the data, erase the sector and program it back.
     */
    method RewriteSector(addr: nat, size: nat, bytes: seq<byte>)
      requires addr + size <= flash.Length && |bytes| <= size
      modifies flash
      ensures flash[..] == Splice(old(flash[..]), addr, bytes)
    {
      ghost var before := flash[..];
      var tmp := flash[addr..addr + size];
      tmp := bytes + tmp[|bytes|..];
      Erase(addr, size);
      Program(addr, tmp);
      assert flash[..] == Splice(before, addr, bytes);
    }

    /** `configuration_read_from_flash`: copies `length` bytes of the zone's sector into data. */
    method ReadFromFlash(zone: u8, data: array<byte>, length: u16) returns (r: u16)
      requires Valid() && length as int <= data.Length && data != flash
      modifies data
      ensures r == ReadStatus(Geom(), zone, length)
      ensures r == 0 ==> var a := Accepted(Geom(), zone).value;
                         data[..] == flash[a..a + length] + old(data[length..])
      ensures r != 0 ==> data[..] == old(data[..])
    {
      var acc := Accepted(Geom(), zone);
      if acc.None? {
        return 1;
      }
      var addr := acc.value;
      if length > sectorSize {
        return 3;
      }
      forall i | 0 <= i < length {
        data[i] := flash[addr + i];
      }
      assert data[..] == flash[addr..addr + length] + old(data[length..]);
      return 0;
    }

    /** `configuration_flush`: a dummy read that changes no flash or geometry state. */
    method Flush() returns (r: u32)
      ensures r == 0
    {
      r := 0;
    }
  }
}
