/** The register bus a driver talks to, seen from the driver's side: every
    transaction the driver issues is appended to a trace, and the bytes a read
    returns come from an oracle that may depend on everything issued before.
    Pauses the driver makes between transactions are logged on the same trace,
    so that a device whose answers depend on elapsed time can be described. */
module I2cBus {

  type byte = b: int | 0 <= b < 256

  datatype Event =
    /** A write transaction: register (or command) byte, then `data`. */
    | Write(reg: byte, data: seq<byte>)
    /** A read transaction of |data| bytes starting at register `reg`. */
    | Read(reg: byte, data: seq<byte>)
    /** A pause of `ms` milliseconds by the host. */
    | Delay(ms: int)

  /** respond(history, reg, k) is byte k of a read at `reg` issued after `history`. */
  type Oracle = (seq<Event>, byte, nat) -> byte

  /** The n bytes a read of `reg` returns after `history`. */
  function Response(respond: Oracle, history: seq<Event>, reg: byte, n: nat): seq<byte>
  {
    seq(n, k requires 0 <= k < n => respond(history, reg, k))
  }

  /** The data of every read of `reg` in `events`, in order. */
  function ReadsOf(events: seq<Event>, reg: byte): seq<seq<byte>>
  {
    if events == [] then []
    else (if events[0].Read? && events[0].reg == reg then [events[0].data] else [])
         + ReadsOf(events[1..], reg)
  }

  /** The data of every write to `reg` in `events`, in order. */
  function WritesOf(events: seq<Event>, reg: byte): seq<seq<byte>>
  {
    if events == [] then []
    else (if events[0].Write? && events[0].reg == reg then [events[0].data] else [])
         + WritesOf(events[1..], reg)
  }

  lemma {:induction false} ReadsOfAppend(a: seq<Event>, b: seq<Event>, reg: byte)
    ensures ReadsOf(a + b, reg) == ReadsOf(a, reg) + ReadsOf(b, reg)
  {
    if a == [] {
      assert a + b == b;
    } else {
      assert (a + b)[1..] == a[1..] + b;
      ReadsOfAppend(a[1..], b, reg);
    }
  }

  lemma {:induction false} WritesOfAppend(a: seq<Event>, b: seq<Event>, reg: byte)
    ensures WritesOf(a + b, reg) == WritesOf(a, reg) + WritesOf(b, reg)
  {
    if a == [] {
      assert a + b == b;
    } else {
      assert (a + b)[1..] == a[1..] + b;
      WritesOfAppend(a[1..], b, reg);
    }
  }

  /** Regrouping a trace that grew by two pieces. */
  lemma AppendAssoc<T>(a: seq<T>, b: seq<T>, c: seq<T>)
    ensures a + (b + c) == (a + b) + c
  {
  }

  /** One device on the bus, as created by the robot for a fixed address. */
  class Device {
    const address: byte
    const respond: Oracle
    var trace: seq<Event>

    constructor (address: byte, respond: Oracle)
      ensures this.address == address && this.respond == respond
      ensures trace == []
    {
      this.address := address;
      this.respond := respond;
      trace := [];
    }

    /** Write one byte to a register. */
    method WriteByteRegister(reg: byte, value: byte)
      modifies this
      ensures trace == old(trace) + [Write(reg, [value])]
    {
      trace := trace + [Write(reg, [value])];
    }

    /** Write a command byte followed by `data`. */
    method WriteRegister(reg: byte, data: seq<byte>)
      modifies this
      ensures trace == old(trace) + [Write(reg, data)]
    {
      trace := trace + [Write(reg, data)];
    }

    /** Read `n` consecutive bytes starting at `reg`. */
    method ReadRegister(reg: byte, n: nat) returns (data: seq<byte>)
      modifies this
      ensures data == Response(respond, old(trace), reg, n)
      ensures trace == old(trace) + [Read(reg, data)]
    {
      data := Response(respond, trace, reg, n);
      trace := trace + [Read(reg, data)];
    }

    /** Read the single byte at `reg`. */
    method ReadByteRegister(reg: byte) returns (b: byte)
      modifies this
      ensures b == respond(old(trace), reg, 0)
      ensures trace == old(trace) + [Read(reg, [b])]
    {
      b := respond(trace, reg, 0);
      trace := trace + [Read(reg, [b])];
    }

    /** The host pauses for `ms` milliseconds. */
    method Wait(ms: int)
      modifies this
      ensures trace == old(trace) + [Delay(ms)]
    {
      trace := trace + [Delay(ms)];
    }
  }
}
