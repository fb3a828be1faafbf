/**
 * Standard input as the program sees it: a sequence of lines, each already
 * trimmed of surrounding whitespace and already run through the integer parser.
 */
module Input {
  import opened Wrappers

  /** Bounds of Rust's `i32`, the type the item count is parsed as. */
  const I32_MIN: int := -0x8000_0000
  const I32_MAX: int := 0x7FFF_FFFF

  /**
   * One trimmed input line: its text (an item label) and what parsing that text
   * as an `i64` gives (`None` when the text is not a decimal integer in range).
   */
  datatype Line = Line(text: string, int64: Option<int>)

  /**
   * What reading a line yields once the input is exhausted: an empty string,
   * whose parse fails.
   */
  const EndOfInput: Line := Line("", None)

  /** The line read at stream position `pos`; past the end, the empty line. */
  function LineAt(input: seq<Line>, pos: nat): Line
  {
    if pos < |input| then input[pos] else EndOfInput
  }

  /**
   * Parsing the line as an `i32`. Rust accepts the same digit strings for
   * every signed integer type and differs only in the range, so the `i32`
   * parse succeeds exactly when the `i64` parse does and lands in `i32` range.
   */
  function ParseI32(l: Line): (r: Option<int>)
    ensures r.Some? <==> l.int64.Some? && I32_MIN <= l.int64.value <= I32_MAX
    ensures r.Some? ==> r.value == l.int64.value
  {
    match l.int64
    case Some(n) => if I32_MIN <= n <= I32_MAX then Some(n) else None
    case None => None
  }
}
