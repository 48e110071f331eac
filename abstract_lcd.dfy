/** What every character display shares: its geometry (lines, characters per
    line) and the argument check its operations make before touching the bus. */
module AbstractLcd {
  import opened Wrappers

  /** The ArgumentOutOfRangeException a check throws: which argument, with its value. */
  datatype BoundsError = LineOutOfRange(line: int) | PositionOutOfRange(position: int)

  /** An absent argument is not checked. */
  predicate InRange(arg: Option<int>, count: int)
  {
    arg.None? || 0 <= arg.value <= count - 1
  }

  /** The check of a line and a character position against the geometry;
      the line is checked, and reported, first. */
  function CheckBounds(lines: int, charsPerLine: int, line: Option<int>, position: Option<int> := None)
    : (r: Outcome<BoundsError>)
    ensures r.Pass? <==> InRange(line, lines) && InRange(position, charsPerLine)
    ensures !InRange(line, lines) ==> r == Fail(LineOutOfRange(line.value))
    ensures InRange(line, lines) && !InRange(position, charsPerLine) ==>
              r == Fail(PositionOutOfRange(position.value))
  {
    if line.Some? && (line.value < 0 || line.value > lines - 1) then
      Fail(LineOutOfRange(line.value))
    else if position.Some? && (position.value < 0 || position.value > charsPerLine - 1) then
      Fail(PositionOutOfRange(position.value))
    else
      Pass
  }
}
