# Item voting console program — a Dafny model

The program reads a count and that many item labels. Then, for each item in
turn, it reads vote lines: `1` is a yes, `0` is a no, and any other line ends
voting on that item. It stores each item's `(yes, no)` tally in a hash map
keyed by label. It announces each item as selected (more yes than no), as
having equal voting (a tie, including no votes at all), or as not selected.

This model treats standard input as a sequence of lines, `Input.Line`. Each
line is already trimmed and already run through the integer parser. One stream
position is threaded through the whole run, just as the program's reads
consume standard input. Reading past the end of the sequence yields an empty
line that does not parse. That is what `read_line` gives at end of input, so
the end of input pushes an empty label during collection and stops voting on
an item.

Modules:

- `Wrappers`: `Option` and `Result`.
- `Input`: lines, the end-of-input line and the `i32` parse of the count line.
- `Collect`: `inputTovector`, as the loop method `InputToVector`.
- `Tally`: voting on one item. `VoteOnItem` is the loop with its mutable
  counters. It is proved against the recursive definition `TallyFrom`. Lemmas
  tie that definition to counting the `1` and `0` lines before the first stop
  line. `Judge` gives the verdict.
- `Session`: `voting`'s loop over the items, as `RunVoting`, and the program as
  a whole, as `RunProgram`. `TallyMap` is the map built by inserting tallies in
  item order. `StartOf` is where each item's votes begin.

Two behaviours of the code are easy to misread. This model follows the code in
both:

- The count need not be positive. The code accepts any `i32`. A zero or
  negative count makes the collection loop run zero times (`Collect.Wanted`).
- End of input is not a read error. `read_line` at end of input succeeds with
  an empty string. That adds an empty
  label during collection, stops voting on an item, and fails the count parse
  (`Input.EndOfInput`).

## Model

| member | source | states |
|---|---|---|
| `Input.ParseI32` | RustCode/src/main.rs:34 | the count parse succeeds exactly when the line is an integer in `i32` range, and then yields that integer |
| `Collect.InputToVector` | RustCode/src/main.rs:28-45 | an unparsable count line is an error; otherwise exactly `max(num, 0)` labels, the k-th label being the text of line k+1, and reading continues right after them |
| `Tally.Classify` | RustCode/src/main.rs:60-70 | a line is a yes exactly when it parses to 1, a no exactly when it parses to 0, and a stop in every other case, including a failed parse |
| `Tally.RunLength` | RustCode/src/main.rs:55-71 | the votes cast for an item lie inside the input: the end of input always ends voting |
| `Tally.RunEndsAtFirstStop` | RustCode/src/main.rs:55-71 | every line counted is a yes or a no, and voting ends at the first stop line |
| `Tally.TallyFrom` | RustCode/src/main.rs:51-71 | both counters are non-negative and together equal the number of lines read before the stop line |
| `Tally.TallyCountsBallots` | RustCode/src/main.rs:51-71 | yes is the number of lines parsing to 1 and no the number parsing to 0 among the lines before the first stop line |
| `Tally.VoteOnItem` | RustCode/src/main.rs:51-71 | the counting loop produces that tally and consumes exactly the votes plus the stop line; its invariant keeps the counters equal to `Counted` after each vote |
| `Tally.Counted` | RustCode/src/main.rs:51-64 | the counters after j votes are non-negative and add up to j |
| `Tally.CountedCountsPrefix` | RustCode/src/main.rs:51-64 | after j votes, yes is the number of lines parsing to 1 and no the number parsing to 0 among the first j ballots |
| `Tally.TallyAfterPrefix` | RustCode/src/main.rs:51-71 | part way through an item's voting, the final tally is the yes and no counted among the votes read so far plus what the remaining lines bring |
| `Tally.CountsOnlyGrow` | RustCode/src/main.rs:61-64 | the yes and no counters after j votes (`Counted`) are at most those after k >= j votes of the same item |
| `Tally.TallyIgnoresLaterLines` | RustCode/src/main.rs:55-71 | once its stop line is read, an item's tally and vote count do not depend on any later input |
| `Tally.Judge` | RustCode/src/main.rs:74-82 | exactly one verdict: selected iff yes > no, equal voting iff yes == no, not selected iff yes < no |
| `Tally.ScenarioSelected` | RustCode/src/main.rs:55-82 | votes 1, 1, 0, 5 give two yes and one no, stop at the 5, and select the item |
| `Tally.ScenarioTie` | RustCode/src/main.rs:55-82 | votes 1, 0 then end of input give one each and a tie |
| `Tally.ScenarioNoVotes` | RustCode/src/main.rs:55-82 | a first line that is not a number gives no votes, the tally (0, 0) and a tie |
| `Tally.ScenarioRejected` | RustCode/src/main.rs:55-82 | votes 0, 0, 0, 2 give three no, stop at the 2, and do not select the item |
| `Session.StartOf` | RustCode/src/main.rs:50-58 | item k's voting begins after the first k items' lines, which take at least one line each (their stop lines) |
| `Session.TalliesAt` | RustCode/src/main.rs:50-72 | the k-th item's tally is the one its own run of votes gives, starting right after the previous item's stop line |
| `Session.TallyMapKeys` | RustCode/src/main.rs:49-72 | the map's keys are exactly the item labels |
| `Session.TallyMapLastWins` | RustCode/src/main.rs:72 | a label maps to the tally of its last occurrence among the items, because a later insert overwrites |
| `Session.RunVoting` | RustCode/src/main.rs:47-86 | items are voted on in order; the map is the in-order insertion of their tallies and covers exactly the labels; one verdict per item, in order; reading ends after the last item's stop line |
| `Session.RunProgram` | RustCode/src/main.rs:13-26 | an unparsable count ends the program before any voting; otherwise the collected labels are voted on using the lines that follow them |

## Left out

- Console output is left out: prompts, banners, the echoed vector and the printed map. Verdicts are returned as a list of `Verdict` values instead of being printed.
- Trimming and parsing are left out. Each `Line` carries its trimmed text and the result of `parse::<i64>` as given. Nothing ties the parse result to the text.
- Read failures (`expect` on `read_line`'s error) are left out: an operating-system I/O error, or input that is not valid UTF-8. Lines here are Dafny strings, so neither case can arise. The count-parse panic is modelled as `Err(CountNotANumber)`.
- The iteration order of the `HashMap` when `main` prints it is left out. The model's map is a Dafny `map`, which has no order.
- Tally.TallyFrom: the `i64` counters are unbounded integers. Overflow would need more than 2^63 vote lines.
- Map keys are owned label strings, not references into the label vector. Both compare by string contents, so the results are the same.
