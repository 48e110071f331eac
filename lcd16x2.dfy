/** The 2-line, 16-character display on the bus: commands go to register 0x80,
    characters to register 0x40, one byte per write. */
module Lcd16x2 {
  import opened Wrappers
  import opened I2cBus
  import opened AbstractLcd

  const ClearDisplay: byte := 0x01
  const ReturnHome: byte := 0x02
  const CursorOff: byte := 0x04
  const DisplayOn: byte := 0x08
  const TwoLine: byte := 0x28
  const WriteData: byte := 0x40
  const SetDdramAddr: byte := 0x80
  /** DisplayOn | CursorOff. */
  const DisplayOnCursorOff: byte := ((DisplayOn as bv8) | (CursorOff as bv8)) as int

  function Min(a: int, b: int): int { if a <= b then a else b }

  /** `(byte)c`: the low 8 bits of the character's code. */
  function CharByte(c: char): (b: byte)
    ensures (b - c as int) % 256 == 0
    ensures c as int < 256 ==> b == c as int
  {
    (c as int) % 256
  }

  /** A command byte sent to the command register. */
  function Command(cmd: byte): Event { Write(SetDdramAddr, [cmd]) }

  /** One character written to the display memory. */
  function CharWrite(c: char): Event { Write(WriteData, [CharByte(c)]) }

  function CharWrites(s: string): (es: seq<Event>)
  {
    seq(|s|, i requires 0 <= i < |s| => CharWrite(s[i]))
  }

  /** The DDRAM-address command that puts the cursor at (line, position):
      `(byte)(0x40 * line + position % 0x10 + 0x80)`. */
  function CursorAddress(line: int, position: int): (b: byte)
    ensures 0 <= line <= 1 && 0 <= position <= 15 ==> b == 0x80 + 0x40 * line + position
  {
    (0x40 * line + position % 0x10 + 0x80) % 256
  }

  /** `text.PadRight(n)`: spaces appended up to length n. */
  function PadRight(text: string, n: nat): (p: string)
    ensures |p| == if |text| < n then n else |text|
    ensures p[..|text|] == text
    ensures forall i :: |text| <= i < |p| ==> p[i] == ' '
  {
    if |text| < n then text + seq(n - |text|, _ => ' ') else text
  }

  // ------------------------------------------------------------ wrapped text

  /** The writes of the wrapping loop of SetText, from a point where `count`
      characters are on display line `line`. A newline, or a seventeenth
      character, moves to the next line; moving to a third line stops. */
  function Wrap(s: string, count: nat, line: nat): seq<Event>
    requires count <= 16 && line <= 1
    decreases |s|
  {
    if s == [] then []
    else
      var c := s[0];
      if c == '\n' || count == 16 then
        if line + 1 == 2 then []
        else
          [Command(CursorAddress(line + 1, 0))] +
          (if c == '\n' then Wrap(s[1..], 0, line + 1)
           else [CharWrite(c)] + Wrap(s[1..], 1, line + 1))
      else [CharWrite(c)] + Wrap(s[1..], count + 1, line)
  }

  /** At most one write per character, plus the one move to the second line. */
  lemma {:induction false} WrapLength(s: string, count: nat, line: nat)
    requires count <= 16 && line <= 1
    ensures |Wrap(s, count, line)| <= |s| + 1 - line
    decreases |s|
  {
    if s != [] {
      var c := s[0];
      if c == '\n' || count == 16 {
        if line == 0 {
          WrapLength(s[1..], if c == '\n' then 0 else 1, 1);
        }
      } else {
        WrapLength(s[1..], count + 1, line);
      }
    }
  }

  /** The number of leading characters of s before its first newline, at most cap. */
  function RowLen(s: string, cap: nat): (k: nat)
    ensures k <= |s| && k <= cap
    ensures forall i :: 0 <= i < k ==> s[i] != '\n'
    ensures k < |s| && k < cap ==> s[k] == '\n'
  {
    if s == [] || cap == 0 || s[0] == '\n' then 0 else 1 + RowLen(s[1..], cap - 1)
  }

  /** The characters shown on one display row: up to 16, up to a newline. */
  function Row(s: string): string
  {
    s[..RowLen(s, 16)]
  }

  /** The text left after the first row; a newline that ended the row is consumed. */
  function AfterRow(s: string): string
  {
    var k := RowLen(s, 16);
    if k < |s| && s[k] == '\n' then s[k + 1..] else s[k..]
  }

  /** The display as the text lays it out: the first row, and, if any text is
      left after it (even a lone newline), the cursor on line 1 and the second
      row; anything after that is dropped. */
  function Rendered(s: string): seq<Event>
  {
    CharWrites(Row(s)) +
    if |Row(s)| < |s| then [Command(CursorAddress(1, 0))] + CharWrites(Row(AfterRow(s))) else []
  }

  /** Wrap first writes the characters of the current row, up to the break. */
  predicate WrapsRow(s: string, count: nat, line: nat)
    requires count <= 16 && line <= 1
  {
    var k := RowLen(s, 16 - count);
    Wrap(s, count, line) == CharWrites(s[..k]) + Wrap(s[k..], count + k, line)
  }

  lemma CharWritesCons(s: string, k: nat)
    requires 0 < k <= |s|
    ensures CharWrites(s[..k]) == [CharWrite(s[0])] + CharWrites(s[1..k])
  {
  }

  /** One character of the row, and the rest of the row by hypothesis. */
  lemma WrapRowStep(s: string, count: nat, line: nat)
    requires count < 16 && line <= 1 && s != [] && s[0] != '\n'
    requires WrapsRow(s[1..], count + 1, line)
    ensures WrapsRow(s, count, line)
  {
    var k := RowLen(s, 16 - count);
    var t := s[1..];
    assert Wrap(s, count, line) == [CharWrite(s[0])] + Wrap(t, count + 1, line);
    assert k - 1 == RowLen(t, 16 - (count + 1));
    assert t[..k - 1] == s[1..k];
    assert t[k - 1..] == s[k..];
    var rest := Wrap(s[k..], count + k, line);
    assert Wrap(t, count + 1, line) == CharWrites(s[1..k]) + rest;
    CharWritesCons(s, k);
    AppendAssoc([CharWrite(s[0])], CharWrites(s[1..k]), rest);
  }

  lemma {:induction false} WrapRow(s: string, count: nat, line: nat)
    requires count <= 16 && line <= 1
    ensures WrapsRow(s, count, line)
    decreases |s|
  {
    if RowLen(s, 16 - count) > 0 {
      WrapRow(s[1..], count + 1, line);
      WrapRowStep(s, count, line);
    } else {
      assert s[..0] == [];
      assert s[0..] == s;
    }
  }

  /** Where a row ends inside the text: the next line starts (or the loop stops). */
  lemma RowBreak(s: string, count: nat, line: nat, k: nat)
    requires count <= 16 && line <= 1 && k == RowLen(s, 16 - count) && k < |s|
    ensures var t := if s[k] == '\n' then s[k + 1..] else s[k..];
      Wrap(s[k..], count + k, line) ==
      if line == 1 then [] else [Command(CursorAddress(1, 0))] + Wrap(t, 0, 1)
  {
    var u := s[k..];
    assert u[1..] == s[k + 1..];
  }

  /** After the second row nothing more is written. */
  lemma SecondRowLast(s: string)
    ensures Wrap(s, 0, 1) == CharWrites(Row(s))
  {
    WrapRow(s, 0, 1);
    var k := RowLen(s, 16);
    if k < |s| {
      RowBreak(s, 0, 1, k);
    }
  }

  /** The wrapping loop produces exactly the two-row layout. */
  lemma WrapIsRendered(s: string)
    ensures Wrap(s, 0, 0) == Rendered(s)
  {
    WrapRow(s, 0, 0);
    var k := RowLen(s, 16);
    if k < |s| {
      RowBreak(s, 0, 0, k);
      SecondRowLast(AfterRow(s));
    } else {
      assert s[k..] == [];
    }
  }

  /** SetText's layout never writes a newline, puts at most 16 characters on
      each of the two rows, and so writes at most 32 characters. */
  lemma RenderedRows(s: string)
    ensures var r0 := Row(s);
      var r1 := Row(AfterRow(s));
      '\n' !in r0 && '\n' !in r1 && |r0| <= 16 && |r1| <= 16 &&
      Wrap(s, 0, 0) == CharWrites(r0) +
                       (if |r0| < |s| then [Command(0xC0)] + CharWrites(r1) else [])
  {
    WrapIsRendered(s);
  }

  /** For newline-free text: the first min(|s|, 32) characters, with the
      cursor moved to the second line just before the 17th. */
  lemma {:induction false} WrapNewlineFree(s: string)
    requires '\n' !in s
    ensures Wrap(s, 0, 0) ==
      CharWrites(s[..Min(|s|, 16)]) +
      (if |s| > 16 then [Command(0xC0)] + CharWrites(s[16..Min(|s|, 32)]) else [])
  {
    WrapIsRendered(s);
    var k := RowLen(s, 16);
    assert k == Min(|s|, 16);
    if |s| > 16 {
      var t := AfterRow(s);
      assert t == s[16..];
      var k1 := RowLen(t, 16);
      assert k1 == Min(|t|, 16);
      assert t[..k1] == s[16..Min(|s|, 32)];
    }
  }

  /** SetTextNoRefresh pads to 32 characters, so newline-free text always
      fills both rows: 16 characters, the cursor to line 1, 16 characters. */
  lemma PaddedFillsDisplay(s: string)
    requires '\n' !in s
    ensures var p := PadRight(s, 32);
      |p| >= 32 &&
      Wrap(p, 0, 0) == CharWrites(p[..16]) + [Command(0xC0)] + CharWrites(p[16..32])
  {
    var p := PadRight(s, 32);
    assert '\n' !in p by {
      forall i | 0 <= i < |p| ensures p[i] != '\n' {
        if i < |s| { assert p[i] == p[..|s|][i] == s[i]; assert s[i] in s; }
      }
    }
    WrapNewlineFree(p);
  }

  // ------------------------------------------------------------------ display

  class LCD16x2 {
    const Lines: int := 2
    const CharsPerLine: int := 16
    const device: Device

    /** Create the display at `address` and initialise it: clear, display on
        with the cursor off, two-line mode. */
    constructor (address: byte, respond: Oracle)
      ensures fresh(device) && device.address == address && device.respond == respond
      ensures device.trace ==
        [Command(ClearDisplay), Delay(1), Command(0x0C), Command(0x28)]
    {
      device := new Device(address, respond);
      new;
      TextCommand(ClearDisplay);
      device.Wait(1);
      TextCommand(DisplayOnCursorOff);
      TextCommand(TwoLine);
    }

    method TextCommand(cmd: byte, action: byte := SetDdramAddr)
      modifies device
      ensures device.trace == old(device.trace) + [Write(action, [cmd])]
    {
      device.WriteByteRegister(action, cmd);
    }

    method WriteChar(c: char)
      modifies device
      ensures device.trace == old(device.trace) + [CharWrite(c)]
    {
      TextCommand(CharByte(c), WriteData);
    }

    /** Move the cursor: a bad line or position throws before any write. */
    method SetCursor(line: int, position: int) returns (r: Outcome<BoundsError>)
      modifies device
      ensures r == CheckBounds(Lines, CharsPerLine, Some(line), Some(position))
      ensures r.Fail? ==> device.trace == old(device.trace)
      ensures r.Pass? ==> device.trace == old(device.trace) + [Command(0x80 + 0x40 * line + position)]
    {
      r := CheckBounds(Lines, CharsPerLine, Some(line), Some(position));
      if r.Fail? {
        return;
      }
      TextCommand(CursorAddress(line, position));
    }

    /** Write text from (line, position), cut at the end of the line. */
    method SetTextAt(line: int, position: int, text: string) returns (r: Outcome<BoundsError>)
      modifies device
      ensures r == CheckBounds(Lines, CharsPerLine, Some(line), Some(position))
      ensures r.Fail? ==> device.trace == old(device.trace)
      ensures r.Pass? ==>
                device.trace == old(device.trace) + [Command(0x80 + 0x40 * line + position)]
                                + CharWrites(text[..Min(|text|, CharsPerLine - position)])
    {
      r := CheckBounds(Lines, CharsPerLine, Some(line), Some(position));
      if r.Fail? {
        return;
      }
      var t := text;
      if |t| > CharsPerLine - position {
        t := t[..CharsPerLine - position];
      }
      var _ := SetCursor(line, position);
      ghost var start := device.trace;
      for i := 0 to |t|
        invariant device.trace == start + CharWrites(t[..i])
      {
        WriteChar(t[i]);
        assert t[..i + 1] == t[..i] + [t[i]];
      }
      assert t[..|t|] == t;
    }

    /** The wrapping loop shared by SetText and SetTextNoRefresh. */
    method WriteWrapped(text: string)
      modifies device
      ensures device.trace == old(device.trace) + Wrap(text, 0, 0)
    {
      var count, line, i := 0, 0, 0;
      while i < |text|
        invariant 0 <= i <= |text|
        invariant 0 <= count <= 16 && 0 <= line <= 1
        invariant device.trace + Wrap(text[i..], count, line) == old(device.trace) + Wrap(text, 0, 0)
      {
        var c := text[i];
        assert text[i..][1..] == text[i + 1..];
        ghost var before := device.trace;
        if c == '\n' || count == CharsPerLine {
          ghost var full := count;
          count := 0;
          line := line + 1;
          if line == 2 {
            assert Wrap(text[i..], full, 1) == [];
            break;
          }
          var _ := SetCursor(line, 0);
          if c == '\n' {
            AppendAssoc(before, [Command(CursorAddress(1, 0))], Wrap(text[i + 1..], 0, 1));
            i := i + 1;
            continue;
          }
          AppendAssoc(before, [Command(CursorAddress(1, 0))], [CharWrite(c)] + Wrap(text[i + 1..], 1, 1));
          AppendAssoc(before + [Command(CursorAddress(1, 0))], [CharWrite(c)], Wrap(text[i + 1..], 1, 1));
        } else {
          AppendAssoc(before, [CharWrite(c)], Wrap(text[i + 1..], count + 1, line));
        }
        count := count + 1;
        WriteChar(c);
        i := i + 1;
      }
    }

    /** Clear the display and write text, wrapping at newlines and at the end
        of a line, over at most two lines. */
    method SetText(text: string)
      modifies device
      ensures device.trace == old(device.trace) + [Command(ClearDisplay), Delay(50)] + Wrap(text, 0, 0)
    {
      TextCommand(ClearDisplay);
      device.Wait(50);
      WriteWrapped(text);
    }

    /** Return home without clearing and write the text padded to 32
        characters, overwriting what was shown. */
    method SetTextNoRefresh(text: string)
      modifies device
      ensures device.trace == old(device.trace) + [Command(ReturnHome), Delay(50)] + Wrap(PadRight(text, 32), 0, 0)
    {
      TextCommand(ReturnHome);
      device.Wait(50);
      WriteWrapped(PadRight(text, 32));
    }

    method Clear()
      modifies device
      ensures device.trace == old(device.trace) + [Command(ClearDisplay), Delay(50)]
    {
      TextCommand(ClearDisplay);
      device.Wait(50);
    }
  }
}
