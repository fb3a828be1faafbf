/** Reading the item count and then that many item labels. */
module Collect {
  import opened Wrappers
  import opened Input

  /** The count line did not parse as an `i32`: the program aborts. */
  datatype CollectError = CountNotANumber

  /** The labels read, in input order, and the stream position after them. */
  datatype Collected = Collected(items: seq<string>, next: nat)

  /** The number of labels a parsed count asks for: none when it is zero or negative. */
  function Wanted(num: int): nat
  {
    if num < 0 then 0 else num
  }

  /**
   * Reads the count from the first line, then one label per following line,
   * stopping when the counter reaches the count.
   */
  method InputToVector(input: seq<Line>) returns (r: Result<Collected, CollectError>)
    ensures r.Err? <==> ParseI32(LineAt(input, 0)).None?
    ensures r.Ok? ==>
              var num := ParseI32(LineAt(input, 0)).value;
              |r.value.items| == Wanted(num) &&
              r.value.next == 1 + |r.value.items| &&
              forall k :: 0 <= k < |r.value.items| ==> r.value.items[k] == LineAt(input, 1 + k).text
  {
    var count := ParseI32(LineAt(input, 0));
    if count.None? {
      return Err(CountNotANumber);
    }
    var num := count.value;
    var pos := 1;
    var items: seq<string> := [];
    var i := 0;
    while i < num
      invariant 0 <= i <= Wanted(num)
      invariant pos == 1 + i
      invariant |items| == i
      invariant forall k :: 0 <= k < i ==> items[k] == LineAt(input, 1 + k).text
    {
      items := items + [LineAt(input, pos).text];
      pos := pos + 1;
      // the `i32` counter cannot overflow: it stays below the count
      assert i + 1 <= I32_MAX;
      i := i + 1;
    }
    return Ok(Collected(items, pos));
  }
}
