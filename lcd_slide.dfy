/** A scrolling slide show on one display line: each text slides across the
    line, one 16-character window per frame, and the texts are shown in
    order. Also the display operations that create one (SlideText and
    SlideShow), which check the line first. */
module LcdSlide {
  import opened Wrappers
  import opened I2cBus
  import opened AbstractLcd
  import opened Lcd16x2

  datatype Direction = L2R | R2L

  const DefaultFrameDelayMs: int := 300
  const DefaultPauseBetweenLinesMs: int := 800

  function Spaces(n: nat): (s: string)
    ensures |s| == n && forall i :: 0 <= i < n ==> s[i] == ' '
  {
    seq(n, _ => ' ')
  }

  /** The text with a full line of spaces on each side, so that it slides in
      from one edge and out at the other. */
  function Padded(s: string, width: nat): string
  {
    Spaces(width) + s + Spaces(width)
  }

  /** Where frame k starts in the padded text: the start indices run from 0
      up to |s| + width left to right, and the same indices down right to left. */
  function StartIndex(s: string, width: nat, dir: Direction, k: nat): nat
    requires k <= |s| + width
  {
    if dir == L2R then k else |s| + width - k
  }

  /** The frames of one text, in the order they are shown. */
  function Frames(s: string, width: nat, dir: Direction): (fs: seq<string>)
    ensures |fs| == |s| + width + 1
  {
    seq(|s| + width + 1, k requires 0 <= k < |s| + width + 1 =>
      Padded(s, width)[StartIndex(s, width, dir, k) .. StartIndex(s, width, dir, k) + width])
  }

  function Reverse<T>(xs: seq<T>): (r: seq<T>)
    ensures |r| == |xs|
  {
    seq(|xs|, i requires 0 <= i < |xs| => xs[|xs| - 1 - i])
  }

  /** Every frame is a window of `width` characters of the padded text, and
      left to right the k-th frame starts at k. */
  lemma FramesAreWindows(s: string, width: nat, k: nat)
    requires k <= |s| + width
    ensures |Frames(s, width, L2R)[k]| == width
    ensures Frames(s, width, L2R)[k] == Padded(s, width)[k .. k + width]
    ensures Frames(s, width, R2L)[k] == Padded(s, width)[|s| + width - k .. |s| + 2 * width - k]
  {
  }

  /** Right to left, the frame that starts at i of the padded text comes at
      position |s| + width - i. */
  lemma BackwardWindow(s: string, width: nat, i: nat)
    requires i <= |s| + width
    ensures Frames(s, width, R2L)[|s| + width - i] == Padded(s, width)[i .. i + width]
  {
    assert StartIndex(s, width, R2L, |s| + width - i) == i;
  }

  /** Right to left shows the left-to-right frames in reverse. */
  lemma RightToLeftIsReversed(s: string, width: nat)
    ensures Frames(s, width, R2L) == Reverse(Frames(s, width, L2R))
  {
    var a := Frames(s, width, R2L);
    var b := Reverse(Frames(s, width, L2R));
    forall k | 0 <= k < |a| ensures a[k] == b[k] {
      assert b[k] == Frames(s, width, L2R)[|s| + width - k];
    }
  }

  /** Left to right, the first and the last frame are blank. */
  lemma BlankEnds(s: string, width: nat)
    ensures Frames(s, width, L2R)[0] == Spaces(width)
    ensures Frames(s, width, L2R)[|s| + width] == Spaces(width)
  {
    var p := Padded(s, width);
    assert Frames(s, width, L2R)[0] == p[0..width];
    assert Frames(s, width, L2R)[|s| + width] == p[|s| + width..|s| + 2 * width];
    assert p[0..width] == Spaces(width);
    assert p[|s| + width..|s| + 2 * width] == Spaces(width);
  }

  /** One frame on the display: the cursor to the start of `line`, the
      frame's characters, then the frame delay. */
  function FrameEvents(line: int, frame: string, delay: int): seq<Event>
  {
    [Command(CursorAddress(line, 0))] + CharWrites(frame) + [Delay(delay)]
  }

  function ShowFrames(line: int, frames: seq<string>, delay: int): seq<Event>
  {
    if frames == [] then []
    else ShowFrames(line, frames[..|frames| - 1], delay) + FrameEvents(line, frames[|frames| - 1], delay)
  }

  lemma ShowFramesSnoc(line: int, frames: seq<string>, i: nat, delay: int)
    requires i < |frames|
    ensures ShowFrames(line, frames[..i + 1], delay)
            == ShowFrames(line, frames[..i], delay) + FrameEvents(line, frames[i], delay)
  {
    assert frames[..i + 1][..i] == frames[..i];
  }

  /** One text sliding across the line: all its frames, in order. */
  function TextEvents(line: int, s: string, width: nat, dir: Direction, delay: int): seq<Event>
  {
    ShowFrames(line, Frames(s, width, dir), delay)
  }

  /** The whole show: for each text in order, its frames, then the pause. */
  function ShowEvents(line: int, texts: seq<string>, width: nat, dir: Direction, delay: int, pause: int): seq<Event>
  {
    if texts == [] then []
    else ShowEvents(line, texts[..|texts| - 1], width, dir, delay, pause)
         + TextEvents(line, texts[|texts| - 1], width, dir, delay) + [Delay(pause)]
  }

  lemma ShowEventsSnoc(line: int, texts: seq<string>, t: nat, width: nat, dir: Direction, delay: int, pause: int)
    requires t < |texts|
    ensures ShowEvents(line, texts[..t + 1], width, dir, delay, pause)
            == ShowEvents(line, texts[..t], width, dir, delay, pause)
               + (TextEvents(line, texts[t], width, dir, delay) + [Delay(pause)])
  {
    assert texts[..t + 1][..t] == texts[..t];
  }

  /** The only commands a show sends put the cursor at the start of `line`. */
  predicate CommandsAtLine(events: seq<Event>, line: int)
  {
    forall k :: 0 <= k < |events| && events[k].Write? && events[k].reg == SetDdramAddr ==>
      events[k].data == [0x80 + 0x40 * line]
  }

  lemma {:induction false} FramesAtLine(line: int, frames: seq<string>, delay: int)
    requires 0 <= line <= 1
    ensures CommandsAtLine(ShowFrames(line, frames, delay), line)
    decreases |frames|
  {
    if frames != [] {
      FramesAtLine(line, frames[..|frames| - 1], delay);
    }
  }

  /** Every frame of every text is written at (line, 0). */
  lemma {:induction false} ShowAtLine(line: int, texts: seq<string>, width: nat, dir: Direction, delay: int, pause: int)
    requires 0 <= line <= 1
    ensures CommandsAtLine(ShowEvents(line, texts, width, dir, delay, pause), line)
    decreases |texts|
  {
    if texts != [] {
      ShowAtLine(line, texts[..|texts| - 1], width, dir, delay, pause);
      FramesAtLine(line, Frames(texts[|texts| - 1], width, dir), delay);
      assert TextEvents(line, texts[|texts| - 1], width, dir, delay)
             == ShowFrames(line, Frames(texts[|texts| - 1], width, dir), delay);
    }
  }

  class LCDSlide {
    const lcd: LCD16x2
    const line: int
    const texts: seq<string>
    var direction: Direction
    var frameDelayMs: int
    var pauseBetweenLinesMs: int

    /** The line was checked when the slide was made. */
    predicate Valid()
    {
      0 <= line <= lcd.Lines - 1
    }

    constructor (lcd: LCD16x2, line: int, texts: seq<string>)
      requires 0 <= line <= lcd.Lines - 1
      ensures Valid()
      ensures this.lcd == lcd && this.line == line && this.texts == texts
      ensures direction == L2R && frameDelayMs == DefaultFrameDelayMs
      ensures pauseBetweenLinesMs == DefaultPauseBetweenLinesMs
    {
      this.lcd := lcd;
      this.line := line;
      this.texts := texts;
      direction := L2R;
      frameDelayMs := DefaultFrameDelayMs;
      pauseBetweenLinesMs := DefaultPauseBetweenLinesMs;
    }

    method LeftToRight() returns (self: LCDSlide)
      modifies this
      ensures self == this && direction == L2R
      ensures frameDelayMs == old(frameDelayMs) && pauseBetweenLinesMs == old(pauseBetweenLinesMs)
    {
      direction := L2R;
      return this;
    }

    method RightToLeft() returns (self: LCDSlide)
      modifies this
      ensures self == this && direction == R2L
      ensures frameDelayMs == old(frameDelayMs) && pauseBetweenLinesMs == old(pauseBetweenLinesMs)
    {
      direction := R2L;
      return this;
    }

    method SetDirection(dir: Direction) returns (self: LCDSlide)
      modifies this
      ensures self == this && direction == dir
      ensures frameDelayMs == old(frameDelayMs) && pauseBetweenLinesMs == old(pauseBetweenLinesMs)
    {
      direction := dir;
      return this;
    }

    method SetFrameDelay(milliseconds: int) returns (self: LCDSlide)
      modifies this
      ensures self == this && frameDelayMs == milliseconds
      ensures direction == old(direction) && pauseBetweenLinesMs == old(pauseBetweenLinesMs)
    {
      frameDelayMs := milliseconds;
      return this;
    }

    method SetPauseBetweenLines(milliseconds: int) returns (self: LCDSlide)
      modifies this
      ensures self == this && pauseBetweenLinesMs == milliseconds
      ensures direction == old(direction) && frameDelayMs == old(frameDelayMs)
    {
      pauseBetweenLinesMs := milliseconds;
      return this;
    }

    /** Show one frame at the start of the line, then wait. */
    method ShowFrame(frame: string, delay: int)
      requires Valid() && |frame| == lcd.CharsPerLine
      modifies lcd.device
      ensures lcd.device.trace == old(lcd.device.trace) + FrameEvents(line, frame, delay)
    {
      var _ := lcd.SetTextAt(line, 0, frame);
      assert frame[..Min(|frame|, lcd.CharsPerLine)] == frame;
      lcd.device.Wait(delay);
    }

    /** Left to right: frame k is the window of the padded text starting at k. */
    method SlideForward(s: string, delay: int)
      requires Valid()
      modifies lcd.device
      ensures lcd.device.trace == old(lcd.device.trace) + TextEvents(line, s, lcd.CharsPerLine, L2R, delay)
    {
      var width := lcd.CharsPerLine;
      var padded := Padded(s, width);
      ghost var frames := Frames(s, width, L2R);
      ghost var start := lcd.device.trace;
      for i := 0 to |padded| - width + 1
        invariant lcd.device.trace == start + ShowFrames(line, frames[..i], delay)
      {
        FramesAreWindows(s, width, i);
        ShowFrame(padded[i..i + width], delay);
        ShowFramesSnoc(line, frames, i, delay);
        AppendAssoc(start, ShowFrames(line, frames[..i], delay), FrameEvents(line, frames[i], delay));
      }
      assert frames[..|frames|] == frames;
    }

    /** Right to left: the same windows, starting from the last one. */
    method SlideBackward(s: string, delay: int)
      requires Valid()
      modifies lcd.device
      ensures lcd.device.trace == old(lcd.device.trace) + TextEvents(line, s, lcd.CharsPerLine, R2L, delay)
    {
      var width := lcd.CharsPerLine;
      var padded := Padded(s, width);
      ghost var frames := Frames(s, width, R2L);
      ghost var start := lcd.device.trace;
      assert |padded| == |s| + 2 * width;
      ghost var k: nat := 0;
      var i := |padded| - width;
      while i >= 0
        invariant -1 <= i <= |s| + width
        invariant k == |s| + width - i
        invariant lcd.device.trace == start + ShowFrames(line, frames[..k], delay)
      {
        BackwardWindow(s, width, i);
        ShowFrame(padded[i..i + width], delay);
        ShowFramesSnoc(line, frames, k, delay);
        AppendAssoc(start, ShowFrames(line, frames[..k], delay), FrameEvents(line, frames[k], delay));
        i, k := i - 1, k + 1;
      }
      assert frames[..k] == frames;
    }

    /** Slide one text across the line, then pause before the next one. */
    method ShowText(s: string, delay: int, pause: int)
      requires Valid()
      modifies lcd.device
      ensures lcd.device.trace == old(lcd.device.trace) + (TextEvents(line, s, lcd.CharsPerLine, direction, delay) + [Delay(pause)])
    {
      if direction == L2R {
        SlideForward(s, delay);
      } else {
        SlideBackward(s, delay);
      }
      lcd.device.Wait(pause);
      AppendAssoc(old(lcd.device.trace), TextEvents(line, s, lcd.CharsPerLine, direction, delay), [Delay(pause)]);
    }

    /** Every text in order, each followed by the pause. */
    method ShowAll(delay: int, pause: int)
      requires Valid()
      modifies lcd.device
      ensures lcd.device.trace == old(lcd.device.trace) + ShowEvents(line, texts, lcd.CharsPerLine, direction, delay, pause)
    {
      ghost var start := lcd.device.trace;
      for t := 0 to |texts|
        invariant lcd.device.trace == start + ShowEvents(line, texts[..t], lcd.CharsPerLine, direction, delay, pause)
      {
        ShowText(texts[t], delay, pause);
        ShowEventsSnoc(line, texts, t, lcd.CharsPerLine, direction, delay, pause);
        AppendAssoc(start, ShowEvents(line, texts[..t], lcd.CharsPerLine, direction, delay, pause),
                    TextEvents(line, texts[t], lcd.CharsPerLine, direction, delay) + [Delay(pause)]);
      }
      assert texts[..|texts|] == texts;
    }

    /** Run the show; a delay given here replaces the stored one for this call only. */
    method Start(frameDelay: Option<int> := None, pauseBetweenLines: Option<int> := None)
      requires Valid()
      modifies lcd.device
      ensures lcd.device.trace == old(lcd.device.trace) +
        ShowEvents(line, texts, lcd.CharsPerLine, direction,
                   frameDelay.GetOr(frameDelayMs), pauseBetweenLines.GetOr(pauseBetweenLinesMs))
    {
      ShowAll(frameDelay.GetOr(frameDelayMs), pauseBetweenLines.GetOr(pauseBetweenLinesMs));
    }
  }

  /** The stored settings of a new slide. */
  predicate HasDefaults(slide: LCDSlide)
    reads slide
  {
    slide.direction == L2R && slide.frameDelayMs == DefaultFrameDelayMs &&
    slide.pauseBetweenLinesMs == DefaultPauseBetweenLinesMs
  }

  /** A slide show of one text on `line`, which is checked first. */
  method SlideText(lcd: LCD16x2, text: string, line: int) returns (r: Result<LCDSlide, BoundsError>)
    ensures var c := CheckBounds(lcd.Lines, lcd.CharsPerLine, Some(line));
      (r.Failure? <==> c.Fail?) && (c.Fail? ==> r.error == c.error)
    ensures r.Success? ==>
      fresh(r.value) && r.value.Valid() && HasDefaults(r.value) &&
      r.value.lcd == lcd && r.value.line == line && r.value.texts == [text]
  {
    var c := CheckBounds(lcd.Lines, lcd.CharsPerLine, Some(line));
    if c.Fail? {
      return Failure(c.error);
    }
    var slide := new LCDSlide(lcd, line, [text]);
    return Success(slide);
  }

  /** A slide show of several texts on `line`, which is checked first. */
  method SlideShow(lcd: LCD16x2, lines: seq<string>, line: int) returns (r: Result<LCDSlide, BoundsError>)
    ensures var c := CheckBounds(lcd.Lines, lcd.CharsPerLine, Some(line));
      (r.Failure? <==> c.Fail?) && (c.Fail? ==> r.error == c.error)
    ensures r.Success? ==>
      fresh(r.value) && r.value.Valid() && HasDefaults(r.value) &&
      r.value.lcd == lcd && r.value.line == line && r.value.texts == lines
  {
    var c := CheckBounds(lcd.Lines, lcd.CharsPerLine, Some(line));
    if c.Fail? {
      return Failure(c.error);
    }
    var slide := new LCDSlide(lcd, line, lines);
    return Success(slide);
  }

  /** The `params` overload: the line comes first. */
  method SlideShowParams(lcd: LCD16x2, line: int, lines: seq<string>) returns (r: Result<LCDSlide, BoundsError>)
    ensures var c := CheckBounds(lcd.Lines, lcd.CharsPerLine, Some(line));
      (r.Failure? <==> c.Fail?) && (c.Fail? ==> r.error == c.error)
    ensures r.Success? ==>
      fresh(r.value) && r.value.Valid() && HasDefaults(r.value) &&
      r.value.lcd == lcd && r.value.line == line && r.value.texts == lines
  {
    var c := CheckBounds(lcd.Lines, lcd.CharsPerLine, Some(line));
    if c.Fail? {
      return Failure(c.error);
    }
    var slide := new LCDSlide(lcd, line, lines);
    return Success(slide);
  }
}
