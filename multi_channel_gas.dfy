/** The Grove multichannel gas sensor: one command byte selects a channel and
    the sensor answers with a 32-bit ADC reading, least significant byte first. */
module MultiChannelGas {
  import opened I2cBus

  type uint32 = v: int | 0 <= v < 0x1_0000_0000

  const DefaultI2cAddress: byte := 0x08
  const CmdNo2: byte := 0x01
  const CmdEthanol: byte := 0x03
  const CmdVoc: byte := 0x05
  const CmdCo: byte := 0x07
  const CmdChangeAddress: byte := 0x55
  const CmdWarmingUp: byte := 0xFE
  const CmdWarmingDown: byte := 0xFF

  /** The four bytes of a reading, LSB first, as one unsigned value:
      `b0 | b1 << 8 | b2 << 16 | b3 << 24`, the shifted bytes never overlap,
      and the cast to uint keeps the bit pattern a negative int has after
      `b3 << 24` sets the sign bit. */
  function DecodeUInt32LE(b: seq<byte>): (v: uint32)
    requires |b| == 4
    ensures v % 256 == b[0]
    ensures v / 0x100_0000 == b[3]
  {
    b[0] as int + 0x100 * b[1] as int + 0x1_0000 * b[2] as int + 0x100_0000 * b[3] as int
  }

  /** The bytes a sensor sends for the reading v. */
  function EncodeUInt32LE(v: uint32): (b: seq<byte>)
    ensures |b| == 4
  {
    [v % 0x100, (v / 0x100) % 0x100, (v / 0x1_0000) % 0x100, v / 0x100_0000]
  }

  lemma DecodeEncode(v: uint32)
    ensures DecodeUInt32LE(EncodeUInt32LE(v)) == v
  {
    var b := EncodeUInt32LE(v);
    var b0, b1, b2, b3: int := b[0], b[1], b[2], b[3];
    var q1 := v / 0x100;
    var q2 := q1 / 0x100;
    assert v == b0 + 0x100 * q1;
    assert q1 == b1 + 0x100 * q2;
    assert q2 / 0x100 == b3;
    assert q2 == b2 + 0x100 * b3;
  }

  lemma EncodeDecode(b: seq<byte>)
    requires |b| == 4
    ensures EncodeUInt32LE(DecodeUInt32LE(b)) == b
  {
    var b0, b1, b2, b3: int := b[0], b[1], b[2], b[3];
    var v := DecodeUInt32LE(b);
    var q2 := b2 + 0x100 * b3;
    var q1 := b1 + 0x100 * q2;
    assert v == b0 + 0x100 * q1;
    assert v / 0x100 == q1;
    assert q1 / 0x100 == q2;
    assert v / 0x1_0000 == q2;
  }

  /** The byte ChangeAddress sends: 0 and anything above 127 become the
      default address, and what is left is cast to a byte, keeping its low
      eight bits. */
  function AddressByte(newAddress: int): (b: byte)
    ensures 1 <= newAddress <= 127 ==> b == newAddress
    ensures newAddress == 0 || newAddress > 127 ==> b == DefaultI2cAddress
    ensures newAddress < 0 ==> b == newAddress % 256
  {
    var a := if newAddress == 0 || newAddress > 127 then DefaultI2cAddress as int else newAddress;
    a % 256
  }

  /** The guard lets negative addresses through: -1 is sent as 0xFF. */
  lemma NegativeAddressExample()
    ensures AddressByte(-1) == 0xFF && AddressByte(-128) == 0x80
  {
  }

  /** One channel read: the reading and the trace after it. */
  datatype Reading = Reading(trace: seq<Event>, value: uint32)

  function ReadChannel(respond: Oracle, h: seq<Event>, cmd: byte): Reading
  {
    var data := Response(respond, h, cmd, 4);
    Reading(h + [Read(cmd, data)], DecodeUInt32LE(data))
  }

  /** MeasureAll: the four channel reads, one after the other. */
  datatype Measurement = Measurement(trace: seq<Event>, no2: uint32, ethanol: uint32, voc: uint32, co: uint32)

  function Measure(respond: Oracle, h: seq<Event>): Measurement
  {
    var r1 := ReadChannel(respond, h, CmdNo2);
    var r2 := ReadChannel(respond, r1.trace, CmdEthanol);
    var r3 := ReadChannel(respond, r2.trace, CmdVoc);
    var r4 := ReadChannel(respond, r3.trace, CmdCo);
    Measurement(r4.trace, r1.value, r2.value, r3.value, r4.value)
  }

  /** The registers read by `events`, in order. */
  function ReadRegs(events: seq<Event>): seq<byte>
  {
    if events == [] then []
    else (if events[0].Read? then [events[0].reg] else []) + ReadRegs(events[1..])
  }

  /** MeasureAll sends exactly four 4-byte reads, NO2, ethanol, VOC and CO in
      that order, and each value is the decoding of its own read. */
  lemma MeasureOrder(respond: Oracle, h: seq<Event>)
    ensures var m := Measure(respond, h);
      |m.trace| == |h| + 4 && m.trace[..|h|] == h &&
      var t := m.trace[|h|..];
      ReadRegs(t) == [CmdNo2, CmdEthanol, CmdVoc, CmdCo] &&
      (forall k :: 0 <= k < 4 ==> t[k].Read? && |t[k].data| == 4) &&
      m.no2 == DecodeUInt32LE(t[0].data) && m.ethanol == DecodeUInt32LE(t[1].data) &&
      m.voc == DecodeUInt32LE(t[2].data) && m.co == DecodeUInt32LE(t[3].data)
  {
    var r1 := ReadChannel(respond, h, CmdNo2);
    var r2 := ReadChannel(respond, r1.trace, CmdEthanol);
    var r3 := ReadChannel(respond, r2.trace, CmdVoc);
    var r4 := ReadChannel(respond, r3.trace, CmdCo);
    var e1, e2, e3, e4 := r1.trace[|h|], r2.trace[|h| + 1], r3.trace[|h| + 2], r4.trace[|h| + 3];
    var t := r4.trace[|h|..];
    assert t == [e1, e2, e3, e4];
    assert t[1..] == [e2, e3, e4] && t[1..][1..] == [e3, e4] && t[1..][1..][1..] == [e4];
    assert t[1..][1..][1..][1..] == [];
    assert ReadRegs(t[1..][1..][1..]) == [CmdCo];
    assert ReadRegs(t[1..][1..]) == [CmdVoc, CmdCo];
    assert ReadRegs(t[1..]) == [CmdEthanol, CmdVoc, CmdCo];
  }

  class MultichannelGasSensor {
    /** The bus connection, created once for the address given at construction. */
    const device: Device

    constructor (respond: Oracle, address: byte := DefaultI2cAddress)
      ensures fresh(device) && device.address == address && device.respond == respond
      ensures device.trace == []
    {
      device := new Device(address, respond);
    }

    method Preheat()
      modifies device
      ensures device.trace == old(device.trace) + [Write(CmdWarmingUp, [])]
    {
      device.WriteRegister(CmdWarmingUp, []);
    }

    method StopPreheat()
      modifies device
      ensures device.trace == old(device.trace) + [Write(CmdWarmingDown, [])]
    {
      device.WriteRegister(CmdWarmingDown, []);
    }

    /** Send `command` and read the 4-byte answer. */
    method ReadUInt32LE(command: byte) returns (v: uint32)
      modifies device
      ensures ReadChannel(device.respond, old(device.trace), command) == Reading(device.trace, v)
    {
      var buffer := device.ReadRegister(command, 4);
      v := buffer[0] as int + 0x100 * buffer[1] as int + 0x1_0000 * buffer[2] as int + 0x100_0000 * buffer[3] as int;
    }

    method GetNO2() returns (v: uint32)
      modifies device
      ensures ReadChannel(device.respond, old(device.trace), CmdNo2) == Reading(device.trace, v)
    {
      v := ReadUInt32LE(CmdNo2);
    }

    method GetEthanol() returns (v: uint32)
      modifies device
      ensures ReadChannel(device.respond, old(device.trace), CmdEthanol) == Reading(device.trace, v)
    {
      v := ReadUInt32LE(CmdEthanol);
    }

    method GetVOC() returns (v: uint32)
      modifies device
      ensures ReadChannel(device.respond, old(device.trace), CmdVoc) == Reading(device.trace, v)
    {
      v := ReadUInt32LE(CmdVoc);
    }

    method GetCO() returns (v: uint32)
      modifies device
      ensures ReadChannel(device.respond, old(device.trace), CmdCo) == Reading(device.trace, v)
    {
      v := ReadUInt32LE(CmdCo);
    }

    method MeasureAll() returns (no2: uint32, ethanol: uint32, voc: uint32, co: uint32)
      modifies device
      ensures Measure(device.respond, old(device.trace)) == Measurement(device.trace, no2, ethanol, voc, co)
    {
      no2 := GetNO2();
      ethanol := GetEthanol();
      voc := GetVOC();
      co := GetCO();
    }

    /** Tell the sensor its new address; this handle keeps talking to the old one. */
    method ChangeAddress(newAddress: int)
      modifies device
      ensures device.trace == old(device.trace) + [Write(CmdChangeAddress, [AddressByte(newAddress)])]
    {
      var address := newAddress;
      if address == 0 || address > 127 {
        address := DefaultI2cAddress as int;
      }
      device.WriteRegister(CmdChangeAddress, [address % 256]);
    }
  }
}
