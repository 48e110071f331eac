/** Driver for the AK09918 three-axis magnetometer on its fixed bus address.
    The driver keeps one piece of state, the operating mode it last selected;
    a sample is taken by (in single-shot mode) re-arming the sensor and polling
    its control register, then reading one 8-byte block of axis data and
    status. */
module Ak09918 {
  import opened I2cBus

  type int16 = v: int | -32768 <= v < 32768

  // ---------------------------------------------------------------- registers

  const I2cAddress: byte := 0x0C
  /** Company ID; the device ID follows at 0x01. */
  const Wia1: byte := 0x00
  /** X-axis low byte: the first of the 8-byte sample block 0x11..0x18. */
  const Hxl: byte := 0x11
  /** Mode select. */
  const Cntl2: byte := 0x31
  /** Soft reset. */
  const Cntl3: byte := 0x32
  const SoftResetBit: byte := 0x01
  /** Sensor overflow bit of status byte 2, the last byte of the sample block. */
  const OverflowBit: bv8 := 0x08
  /** Number of the last poll read (counting from 0) after which the driver gives up. */
  const PollBudget: nat := 15

  // ------------------------------------------------------------ modes, errors

  datatype Mode =
    | PowerDown | Normal
    | Continuous10Hz | Continuous20Hz | Continuous50Hz | Continuous100Hz
    | SelfTest

  /** The byte written to the mode register for each mode. */
  function ModeCode(m: Mode): (c: byte)
    ensures m == SelfTest <==> c == 0x10
    ensures m == PowerDown <==> c == 0x00
  {
    match m
    case PowerDown => 0x00
    case Normal => 0x01
    case Continuous10Hz => 0x02
    case Continuous20Hz => 0x04
    case Continuous50Hz => 0x06
    case Continuous100Hz => 0x08
    case SelfTest => 0x10
  }

  lemma ModeCodeInjective(m1: Mode, m2: Mode)
    ensures ModeCode(m1) == ModeCode(m2) ==> m1 == m2
  {
  }

  datatype ErrorKind =
    | Ok | DataOverrun | NotReady | Timeout | SelfTestFailed | Overflow | WriteFailed | ReadFailed

  /** The integer value of each error kind. */
  function ErrorCode(e: ErrorKind): (c: int)
    ensures 0 <= c < 8
  {
    match e
    case Ok => 0
    case DataOverrun => 1
    case NotReady => 2
    case Timeout => 3
    case SelfTestFailed => 4
    case Overflow => 5
    case WriteFailed => 6
    case ReadFailed => 7
  }

  /** Diagnostic text for an error value. The argument is the integer an error
      value holds, which may lie outside the declared kinds. */
  function StrError(code: int): (s: string)
    ensures s == "Unknown Error" <==> !(0 <= code < 8)
  {
    match code
    case 0 => "AK09918_ERR_OK: OK"
    case 1 => "AK09918_ERR_DOR: Data skipped"
    case 2 => "AK09918_ERR_NOT_RDY: Not ready"
    case 3 => "AK09918_ERR_TIMEOUT: Timeout"
    case 4 => "AK09918_ERR_SELFTEST_FAILED: Self test failed"
    case 5 => "AK09918_ERR_OVERFLOW: Sensor overflow"
    case 6 => "AK09918_ERR_WRITE_FAILED: Fail to write"
    case 7 => "AK09918_ERR_READ_FAILED: Fail to read"
    case _ => "Unknown Error"
  }

  /** Every declared kind has its own text, and none of them is the generic one. */
  lemma StrErrorDistinct(e1: ErrorKind, e2: ErrorKind)
    ensures StrError(ErrorCode(e1)) != "Unknown Error"
    ensures e1 != e2 ==> StrError(ErrorCode(e1)) != StrError(ErrorCode(e2))
  {
  }

  // ------------------------------------------------------------------ decoding

  /** The C# `(short)` cast: keep the low 16 bits, read as two's complement. */
  function ToInt16(u: int): (r: int16)
    ensures (r - u) % 65536 == 0
    ensures -32768 <= u < 32768 ==> r == u
  {
    var w := u % 65536;
    if w < 32768 then w else w - 65536
  }

  /** The low byte of the two's-complement form of v. */
  function LowByte(v: int): byte { v % 256 }

  /** The second byte of the two's-complement form of v. */
  function HighByte(v: int): byte { (v / 256) % 256 }

  /** `(short)(hi << 8 | lo)`: `lo` fills the low 8 bits and `hi` the next 8,
      so the or of the two is their weighted sum. */
  function Int16LE(lo: byte, hi: byte): int16
  {
    ToInt16(hi * 256 + lo)
  }

  lemma SplitJoin(v: int16)
    ensures HighByte(v) * 256 + LowByte(v) == (if v < 0 then v + 65536 else v)
  {
    var q := v / 256;
    assert v == q * 256 + v % 256;
    if v >= 0 {
      assert 0 <= q < 128;
    } else {
      assert -128 <= q < 0;
      assert HighByte(v) == q + 256;
    }
  }

  /** The other direction: any two bytes decode to a value whose bytes they
      are, negative exactly when the high byte has its top bit set. */
  lemma Int16Split(lo: byte, hi: byte)
    ensures LowByte(Int16LE(lo, hi)) == lo && HighByte(Int16LE(lo, hi)) == hi
    ensures Int16LE(lo, hi) < 0 <==> hi >= 128
  {
    var u := hi * 256 + lo;
    var r := Int16LE(lo, hi);
    if u >= 32768 {
      assert r == (hi - 256) * 256 + lo;
    }
  }

  /** Splitting an int16 into its bytes and decoding them little-endian gives it back. */
  lemma Int16RoundTrip(v: int16)
    ensures Int16LE(LowByte(v), HighByte(v)) == v
  {
    SplitJoin(v);
  }

  /** Status byte 2 says the field exceeded the measurable range. */
  predicate Overflowed(st2: byte)
  {
    (st2 as bv8) & OverflowBit != 0
  }

  datatype Sample = Sample(err: ErrorKind, x: int16, y: int16, z: int16)

  /** The three axes and the overflow classification of an 8-byte sample
      block (X, Y, Z low/high pairs, a dummy byte, status byte 2). */
  function DecodeSample(block: seq<byte>): (s: Sample)
    requires |block| == 8
    ensures s.err == Ok || s.err == Overflow
  {
    Sample(if Overflowed(block[7]) then Overflow else Ok,
           Int16LE(block[0], block[1]),
           Int16LE(block[2], block[3]),
           Int16LE(block[4], block[5]))
  }

  /** The block a sensor holding (x, y, z) sends, with dummy byte `tmps`
      and status byte `st2`. */
  function EncodeSample(x: int16, y: int16, z: int16, tmps: byte, st2: byte): (b: seq<byte>)
    ensures |b| == 8
  {
    [LowByte(x), HighByte(x), LowByte(y), HighByte(y), LowByte(z), HighByte(z), tmps, st2]
  }

  /** Decoding recovers every axis, and classifies exactly by the overflow bit;
      an overflowed sample still carries its axes. */
  lemma DecodeEncode(x: int16, y: int16, z: int16, tmps: byte, st2: byte)
    ensures DecodeSample(EncodeSample(x, y, z, tmps, st2))
            == Sample(if Overflowed(st2) then Overflow else Ok, x, y, z)
  {
    Int16RoundTrip(x);
    Int16RoundTrip(y);
    Int16RoundTrip(z);
  }

  /** GetDeviceID's `(short)(b0 << 8 | b1)`: company ID high, device ID low. */
  function DeviceId(b0: byte, b1: byte): int16
  {
    ToInt16(b0 * 256 + b1)
  }

  /** The identification pair is big-endian: splitting a value high byte
      first and decoding gives it back. */
  lemma DeviceIdRoundTrip(v: int16)
    ensures DeviceId(HighByte(v), LowByte(v)) == v
  {
    SplitJoin(v);
  }

  /** Any identification pair is the bytes of the value it decodes to, high
      byte first. */
  lemma DeviceIdSplit(b0: byte, b1: byte)
    ensures HighByte(DeviceId(b0, b1)) == b0 && LowByte(DeviceId(b0, b1)) == b1
    ensures DeviceId(b0, b1) < 0 <==> b0 >= 128
  {
    Int16Split(b1, b0);
  }

  lemma DeviceIdExample()
    ensures DeviceId(0x48, 0x0C) == 0x480C
  {
  }

  // ------------------------------------------------------------------- scaling

  /** C#'s integer `/`: the quotient rounded toward zero. */
  function TruncDiv(a: int, d: int): int
    requires d > 0
  {
    if a >= 0 then a / d else -((-a) / d)
  }

  /** `(short)(v * 15 / 100)`: raw units to microtesla, truncated toward zero. */
  function Scale(v: int16): (r: int16)
    ensures -4915 <= r <= 4915
    ensures v >= 0 ==> 0 <= 100 * r <= 15 * v < 100 * r + 100
    ensures v < 0 ==> 100 * r - 100 < 15 * v <= 100 * r <= 0
  {
    ToInt16(TruncDiv(v * 15, 100))
  }

  /** Truncation, not flooring: a negative reading scales toward zero. */
  lemma ScaleExamples()
    ensures Scale(16) == 2 && Scale(32) == 4 && Scale(48) == 7
    ensures Scale(-16) == -2
    ensures Scale(32767) == 4915 && Scale(-32768) == -4915
  {
  }

  // ---------------------------------------------------------------- protocol

  /** The poll loop from its read number `count` on, after `h`: each read of
      the mode register is followed by a 1 ms wait, except the read numbered
      15, after which the driver gives up whatever that read returned. The
      second component says whether it gave up. */
  function Poll(respond: Oracle, h: seq<Event>, count: nat): (seq<Event>, bool)
    requires count <= PollBudget
    decreases PollBudget - count
  {
    var b := respond(h, Cntl2, 0);
    var h' := h + [Read(Cntl2, [b])];
    if count >= PollBudget then (h', true)
    else if b == 0 then (h' + [Delay(1)], false)
    else Poll(respond, h' + [Delay(1)], count + 1)
  }

  /** What one acquisition produces: its error kind, the whole trace after
      it, and the three axis values it leaves in the caller's variables. */
  datatype Acquisition = Acquisition(err: ErrorKind, trace: seq<Event>, x: int16, y: int16, z: int16)

  /** Read the sample block after `h` and decode it. */
  function ReadSample(respond: Oracle, h: seq<Event>): Acquisition
  {
    var block := Response(respond, h, Hxl, 8);
    var s := DecodeSample(block);
    Acquisition(s.err, h + [Read(Hxl, block)], s.x, s.y, s.z)
  }

  /** GetRawData of a driver in `mode` after trace `h`, with (x, y, z) the
      values the caller's variables held. */
  function AcquireRaw(respond: Oracle, mode: Mode, h: seq<Event>, x: int16, y: int16, z: int16): Acquisition
  {
    if mode == Normal then
      var armed := h + [Write(Cntl2, [ModeCode(Normal)])];
      var polled := Poll(respond, armed, 0);
      if polled.1 then Acquisition(Timeout, polled.0, x, y, z)
      else ReadSample(respond, polled.0)
    else ReadSample(respond, h)
  }

  /** GetData: the raw acquisition with every axis scaled to microtesla. On a
      timeout the caller's own values are the ones scaled. */
  function AcquireScaled(respond: Oracle, mode: Mode, h: seq<Event>, x: int16, y: int16, z: int16): Acquisition
  {
    var a := AcquireRaw(respond, mode, h, x, y, z);
    Acquisition(a.err, a.trace, Scale(a.x), Scale(a.y), Scale(a.z))
  }

  /** The shape of the poll loop's trace `p` after `h`, from read number
      `count` on: between one and 16 - count reads of the mode register, no
      sample read, every read but the last non-zero; it gives up exactly when
      it made all 16 - count reads, and otherwise stopped on a zero. */
  predicate PollShaped(h: seq<Event>, p: (seq<Event>, bool), count: nat)
  {
    |h| <= |p.0| && p.0[..|h|] == h &&
    var polls := ReadsOf(p.0[|h|..], Cntl2);
    1 <= |polls| <= 16 - count &&
    ReadsOf(p.0[|h|..], Hxl) == [] &&
    (forall k :: 0 <= k < |polls| - 1 ==> polls[k] != [0]) &&
    (p.1 <==> |polls| == 16 - count) &&
    (!p.1 ==> polls[|polls| - 1] == [0])
  }

  /** A poll read and its wait, in front of more events. */
  lemma ReadsOfPollStep(b: byte, rest: seq<Event>)
    ensures ReadsOf([Read(Cntl2, [b]), Delay(1)] + rest, Cntl2) == [[b]] + ReadsOf(rest, Cntl2)
    ensures ReadsOf([Read(Cntl2, [b]), Delay(1)] + rest, Hxl) == ReadsOf(rest, Hxl)
  {
    var t := [Read(Cntl2, [b]), Delay(1)] + rest;
    assert t[1..][1..] == rest;
  }

  /** A non-zero read that is not the last one extends the shape of the rest. */
  lemma PollStep(h: seq<Event>, b: byte, p: (seq<Event>, bool), count: nat)
    requires count < PollBudget && b != 0
    requires PollShaped(h + [Read(Cntl2, [b])] + [Delay(1)], p, count + 1)
    ensures PollShaped(h, p, count)
  {
    var h2 := h + [Read(Cntl2, [b])] + [Delay(1)];
    var mid := p.0[|h2|..];
    assert p.0 == h + ([Read(Cntl2, [b]), Delay(1)] + mid);
    assert p.0[|h|..] == [Read(Cntl2, [b]), Delay(1)] + mid;
    ReadsOfPollStep(b, mid);
    var polls := ReadsOf(p.0[|h|..], Cntl2);
    var later := ReadsOf(mid, Cntl2);
    assert polls == [[b]] + later;
    forall k | 0 <= k < |polls| - 1 ensures polls[k] != [0] {
      if k > 0 {
        assert polls[k] == later[k - 1];
      }
    }
  }

  lemma {:induction false} PollShape(respond: Oracle, h: seq<Event>, count: nat)
    requires count <= PollBudget
    decreases PollBudget - count
    ensures PollShaped(h, Poll(respond, h, count), count)
  {
    var b := respond(h, Cntl2, 0);
    var p := Poll(respond, h, count);
    if count >= PollBudget {
      assert p.0[|h|..] == [Read(Cntl2, [b])];
    } else if b == 0 {
      assert p.0[|h|..] == [Read(Cntl2, [b]), Delay(1)] + [];
      ReadsOfPollStep(b, []);
    } else {
      var h2 := h + [Read(Cntl2, [b])] + [Delay(1)];
      PollShape(respond, h2, count + 1);
      PollStep(h, b, p, count);
    }
  }

  /** The poll reads and sample reads of an acquisition, taken from the part of
      the trace after `h`. */
  function PollsAfter(a: Acquisition, h: seq<Event>): seq<seq<byte>>
    requires |h| <= |a.trace|
  {
    ReadsOf(a.trace[|h|..], Cntl2)
  }

  function SampleReadsAfter(a: Acquisition, h: seq<Event>): seq<seq<byte>>
    requires |h| <= |a.trace|
  {
    ReadsOf(a.trace[|h|..], Hxl)
  }

  /** A write adds no read to any register. */
  lemma ReadsOfSkipWrite(w: Event, rest: seq<Event>, reg: byte)
    requires w.Write?
    ensures ReadsOf([w] + rest, reg) == ReadsOf(rest, reg)
  {
    assert ([w] + rest)[1..] == rest;
  }

  /** The trace of a single-shot acquisition after `h`: the re-arm write, the
      poll events `mid`, then `tail` (nothing, or the sample read). */
  lemma ArmedSplit(h: seq<Event>, w: Event, mid: seq<Event>, tail: seq<Event>, reg: byte)
    requires w.Write?
    ensures var t := h + [w] + mid + tail;
      |h| < |t| && t[..|h|] == h && t[|h|] == w &&
      ReadsOf(t[|h|..], reg) == ReadsOf(mid, reg) + ReadsOf(tail, reg)
  {
    var t := h + [w] + mid + tail;
    assert t[|h|..] == [w] + (mid + tail);
    ReadsOfSkipWrite(w, mid + tail, reg);
    ReadsOfAppend(mid, tail, reg);
  }

  /** The events a single-shot acquisition sends after the re-arm write. */
  function SampleTail(respond: Oracle, p: (seq<Event>, bool)): seq<Event>
  {
    if p.1 then [] else [Read(Hxl, Response(respond, p.0, Hxl, 8))]
  }

  /** Single-shot acquisition unfolded: the re-arm write, the poll events, and
      the sample read unless it gave up. */
  lemma {:induction false} NormalTrace(respond: Oracle, h: seq<Event>, x: int16, y: int16, z: int16)
    ensures var a := AcquireRaw(respond, Normal, h, x, y, z);
      var w := Write(Cntl2, [ModeCode(Normal)]);
      var p := Poll(respond, h + [w], 0);
      PollShaped(h + [w], p, 0) &&
      a.trace == h + [w] + p.0[|h| + 1..] + SampleTail(respond, p) &&
      (a.err == Timeout <==> p.1) &&
      (p.1 ==> a.x == x && a.y == y && a.z == z)
  {
    var w := Write(Cntl2, [ModeCode(Normal)]);
    PollShape(respond, h + [w], 0);
    var p := Poll(respond, h + [w], 0);
    assert p.0 == (h + [w]) + p.0[|h| + 1..];
  }

  /** Single-shot acquisition, split at the end of polling: the re-arm write,
      then the poll events, then (unless it gave up) the sample read. */
  lemma NormalSplit(respond: Oracle, h: seq<Event>, x: int16, y: int16, z: int16)
    ensures var a := AcquireRaw(respond, Normal, h, x, y, z);
      var w := Write(Cntl2, [ModeCode(Normal)]);
      var p := Poll(respond, h + [w], 0);
      PollShaped(h + [w], p, 0) &&
      |h| < |a.trace| && a.trace[..|h|] == h && a.trace[|h|] == w &&
      PollsAfter(a, h) == ReadsOf(p.0[|h| + 1..], Cntl2) &&
      (a.err == Timeout <==> p.1) &&
      (p.1 ==> SampleReadsAfter(a, h) == [] && a.x == x && a.y == y && a.z == z) &&
      (!p.1 ==> a.trace == p.0 + [Read(Hxl, Response(respond, p.0, Hxl, 8))] &&
                SampleReadsAfter(a, h) == [Response(respond, p.0, Hxl, 8)])
  {
    var w := Write(Cntl2, [ModeCode(Normal)]);
    var p := Poll(respond, h + [w], 0);
    NormalTrace(respond, h, x, y, z);
    var mid := p.0[|h| + 1..];
    var tail := SampleTail(respond, p);
    ArmedSplit(h, w, mid, tail, Cntl2);
    ArmedSplit(h, w, mid, tail, Hxl);
    if !p.1 {
      assert tail[1..] == [];
    }
  }

  /** In single-shot mode the sensor is first re-armed, and the acquisition
      times out exactly when none of the first 15 poll reads returned 0x00. */
  lemma TimeoutIffNoIdlePoll(respond: Oracle, h: seq<Event>, x: int16, y: int16, z: int16)
    ensures var a := AcquireRaw(respond, Normal, h, x, y, z);
      |h| < |a.trace| && a.trace[..|h|] == h && a.trace[|h|] == Write(Cntl2, [0x01]) &&
      var polls := PollsAfter(a, h);
      (a.err == Timeout <==> forall k :: 0 <= k < |polls| && k < 15 ==> polls[k] != [0])
  {
    NormalSplit(respond, h, x, y, z);
  }

  /** A timeout made exactly 16 poll reads, read no sample block, and left the
      caller's variables as they were. */
  lemma TimeoutAborts(respond: Oracle, h: seq<Event>, x: int16, y: int16, z: int16)
    ensures var a := AcquireRaw(respond, Normal, h, x, y, z);
      |h| <= |a.trace| &&
      (a.err == Timeout ==>
         |PollsAfter(a, h)| == 16 && SampleReadsAfter(a, h) == [] && a.x == x && a.y == y && a.z == z)
  {
    NormalSplit(respond, h, x, y, z);
  }

  /** Without a timeout, polling stopped at its first 0x00, within 15 reads,
      and then exactly one sample block was read, last, and decoded into the
      result. */
  lemma SampleAfterIdle(respond: Oracle, h: seq<Event>, x: int16, y: int16, z: int16)
    ensures var a := AcquireRaw(respond, Normal, h, x, y, z);
      |h| < |a.trace| &&
      var polls := PollsAfter(a, h);
      var last := a.trace[|a.trace| - 1];
      (a.err != Timeout ==>
         1 <= |polls| <= 15 && polls[|polls| - 1] == [0] &&
         (forall k :: 0 <= k < |polls| - 1 ==> polls[k] != [0]) &&
         last.Read? && last.reg == Hxl && |last.data| == 8 &&
         SampleReadsAfter(a, h) == [last.data] &&
         DecodeSample(last.data) == Sample(a.err, a.x, a.y, a.z))
  {
    NormalSplit(respond, h, x, y, z);
  }

  /** In every other mode: no write, no poll, one 8-byte read at 0x11, decoded. */
  lemma ContinuousReadsOnce(respond: Oracle, mode: Mode, h: seq<Event>, x: int16, y: int16, z: int16)
    requires mode != Normal
    ensures var a := AcquireRaw(respond, mode, h, x, y, z);
      var block := Response(respond, h, Hxl, 8);
      a.trace == h + [Read(Hxl, block)] && DecodeSample(block) == Sample(a.err, a.x, a.y, a.z)
  {
  }

  /** GetData reports GetRawData's error and scales whatever axes it left. */
  lemma ScaledKeepsError(respond: Oracle, mode: Mode, h: seq<Event>, x: int16, y: int16, z: int16)
    ensures var r := AcquireRaw(respond, mode, h, x, y, z);
      var s := AcquireScaled(respond, mode, h, x, y, z);
      s.err == r.err && s.trace == r.trace &&
      s.x == Scale(r.x) && s.y == Scale(r.y) && s.z == Scale(r.z)
  {
  }

  /** A continuous-mode sensor answering [0x10,0x00, 0x20,0x00, 0x30,0x00,
      0x00, 0x08]: raw (16, 32, 48) with Overflow, and (2, 4, 7) in microtesla. */
  lemma OverflowExample(h: seq<Event>, x: int16, y: int16, z: int16)
    ensures var blk: seq<byte> := [0x10, 0x00, 0x20, 0x00, 0x30, 0x00, 0x00, 0x08];
      var respond: Oracle := (_, _, k) => if 0 <= k < 8 then [0x10, 0x00, 0x20, 0x00, 0x30, 0x00, 0x00, 0x08][k] else 0;
      var r := AcquireRaw(respond, Continuous10Hz, h, x, y, z);
      var s := AcquireScaled(respond, Continuous10Hz, h, x, y, z);
      (r.err, r.x, r.y, r.z) == (Overflow, 16, 32, 48) &&
      (s.err, s.x, s.y, s.z) == (Overflow, 2, 4, 7)
  {
    var blk: seq<byte> := [0x10, 0x00, 0x20, 0x00, 0x30, 0x00, 0x00, 0x08];
    var respond: Oracle := (_, _, k) => if 0 <= k < 8 then [0x10, 0x00, 0x20, 0x00, 0x30, 0x00, 0x00, 0x08][k] else 0;
    assert Response(respond, h, Hxl, 8) == blk;
  }

  // -------------------------------------------------------------------- driver

  /** The mode Initialize settles on: self-test is never entered this way. */
  function InitialMode(m: Mode): (e: Mode)
    ensures e != SelfTest
    ensures m == SelfTest ==> e == PowerDown
    ensures m != SelfTest ==> e == m
  {
    if m == SelfTest then PowerDown else m
  }

  /** The events Initialize(m) sends: single-shot mode is recorded but not
      written; any other mode it settles on is written once. */
  function InitialWrites(m: Mode): (ws: seq<Event>)
    ensures |ws| <= 1
    ensures ws == [] <==> InitialMode(m) == Normal
    ensures ws != [] ==> ws == [Write(Cntl2, [ModeCode(InitialMode(m))])]
  {
    if InitialMode(m) == Normal then [] else [Write(Cntl2, [ModeCode(InitialMode(m))])]
  }

  /** Asking Initialize for self-test is asking it for power-down: the same
      recorded mode and the same single write of 0x00. */
  lemma SelfTestInitializesAsPowerDown()
    ensures InitialMode(SelfTest) == InitialMode(PowerDown) == PowerDown
    ensures InitialWrites(SelfTest) == InitialWrites(PowerDown) == [Write(Cntl2, [0x00])]
  {
  }

  class AK09918 {
    /** The bus connection, created for the fixed address and owned by the driver. */
    const device: Device
    /** The mode the driver last selected. */
    var mode: Mode

    /** Self-test is never a mode the driver stays in. */
    predicate Valid()
      reads this
    {
      mode != SelfTest
    }

    /** The mode field starts as the enum's zero value, power-down. */
    constructor (respond: Oracle)
      ensures Valid()
      ensures fresh(device) && device.address == I2cAddress && device.respond == respond
      ensures device.trace == [] && mode == PowerDown
    {
      device := new Device(I2cAddress, respond);
      mode := PowerDown;
    }

    /** The recorded mode; a driver in its invariant never reports self-test. */
    function GetMode(): (m: Mode)
      reads this
      ensures Valid() ==> m != SelfTest
    {
      mode
    }

    /** Select a mode: self-test is refused with no effect; any other mode is
        recorded and written once to the mode register. */
    method SwitchMode(m: Mode) returns (err: ErrorKind)
      requires Valid()
      modifies this, device
      ensures Valid()
      ensures m == SelfTest ==>
        err == WriteFailed && mode == old(mode) && device.trace == old(device.trace)
      ensures m != SelfTest ==>
        err == Ok && GetMode() == m &&
        device.trace == old(device.trace) + [Write(Cntl2, [ModeCode(m)])]
    {
      if m == SelfTest {
        return WriteFailed;
      }
      mode := m;
      device.WriteByteRegister(Cntl2, ModeCode(m));
      return Ok;
    }

    /** Initialize (default single-shot mode): self-test becomes power-down;
        single-shot mode is recorded without a write, as the sensor is re-armed
        before every sample; any other mode is selected as by SwitchMode. */
    method Initialize(m: Mode := Normal) returns (err: ErrorKind)
      requires Valid()
      modifies this, device
      ensures Valid()
      ensures err == Ok && GetMode() == InitialMode(m)
      ensures device.trace == old(device.trace) + InitialWrites(m)
    {
      var effective := m;
      if effective == SelfTest {
        effective := PowerDown;
      }
      mode := effective;
      if effective == Normal {
        return Ok;
      } else {
        err := SwitchMode(mode);
      }
    }

    /** Soft reset: one write of the reset bit; the recorded mode is kept. */
    method Reset()
      requires Valid()
      modifies device
      ensures device.trace == old(device.trace) + [Write(Cntl3, [SoftResetBit])]
    {
      device.WriteByteRegister(Cntl3, SoftResetBit);
    }

    /** One read of the mode register. */
    method GetRawMode() returns (b: byte)
      modifies device
      ensures b == device.respond(old(device.trace), Cntl2, 0)
      ensures device.trace == old(device.trace) + [Read(Cntl2, [b])]
    {
      b := device.ReadByteRegister(Cntl2);
    }

    /** Take one raw sample; (x, y, z) are the caller's variables, returned
        updated (or, on a timeout, as they came). */
    method GetRawData(x: int16, y: int16, z: int16) returns (err: ErrorKind, x': int16, y': int16, z': int16)
      requires Valid()
      modifies this, device
      ensures Valid() && mode == old(mode)
      ensures Acquisition(err, device.trace, x', y', z')
              == AcquireRaw(device.respond, old(mode), old(device.trace), x, y, z)
    {
      x', y', z' := x, y, z;
      if mode == Normal {
        var _ := SwitchMode(Normal);
        ghost var armed := device.trace;
        var isEnd := false;
        var count := 0;
        while !isEnd
          invariant 0 <= count <= PollBudget
          invariant mode == Normal
          invariant !isEnd ==> Poll(device.respond, device.trace, count) == Poll(device.respond, armed, 0)
          invariant isEnd ==> Poll(device.respond, armed, 0) == (device.trace, false)
          decreases PollBudget - count
        {
          var b := GetRawMode();
          if b == 0 {
            isEnd := true;
          }
          if count >= PollBudget {
            return Timeout, x, y, z;
          }
          count := count + 1;
          device.Wait(1);
        }
      }
      var block := device.ReadRegister(Hxl, 8);
      x' := Int16LE(block[0], block[1]);
      y' := Int16LE(block[2], block[3]);
      z' := Int16LE(block[4], block[5]);
      if (block[7] as bv8) & OverflowBit != 0 {
        return Overflow, x', y', z';
      }
      return Ok, x', y', z';
    }

    /** Take one sample in microtesla: GetRawData, then every axis scaled. */
    method GetData(x: int16, y: int16, z: int16) returns (err: ErrorKind, x': int16, y': int16, z': int16)
      requires Valid()
      modifies this, device
      ensures Valid() && mode == old(mode)
      ensures Acquisition(err, device.trace, x', y', z')
              == AcquireScaled(device.respond, old(mode), old(device.trace), x, y, z)
    {
      var rx, ry, rz;
      err, rx, ry, rz := GetRawData(x, y, z);
      x' := ToInt16(TruncDiv(rx as int * 15, 100));
      y' := ToInt16(TruncDiv(ry as int * 15, 100));
      z' := ToInt16(TruncDiv(rz as int * 15, 100));
    }

    /** Company ID (high byte) and device ID (low byte) from one 2-byte read. */
    method GetDeviceID() returns (id: int16)
      modifies device
      ensures var d := Response(device.respond, old(device.trace), Wia1, 2);
        device.trace == old(device.trace) + [Read(Wia1, d)] && id == DeviceId(d[0], d[1])
    {
      var buffer := device.ReadRegister(Wia1, 2);
      id := ToInt16(buffer[0] as int * 256 + buffer[1] as int);
    }
  }
}
