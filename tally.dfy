/**
 * Voting on one item: a loop over input lines that counts `1` as yes and `0`
 * as no and stops at the first other line, then a three-way verdict.
 */
module Tally {
  import opened Wrappers
  import opened Input

  /** The counters kept for one item (the source's `struct Voting`). */
  datatype Voting = Voting(yes: int, no: int)

  /** How the loop treats one line. */
  datatype Vote = Yes | No | Stop

  /** The decision printed for an item once its voting has stopped. */
  datatype Verdict = Selected | EqualVoting | NotSelected

  /** A line parsing to 1 is a yes, to 0 a no; anything else ends voting. */
  function Classify(l: Line): (v: Vote)
    ensures v == Yes <==> l.int64 == Some(1)
    ensures v == No <==> l.int64 == Some(0)
    ensures v == Stop <==> l.int64 != Some(1) && l.int64 != Some(0)
  {
    match l.int64
    case Some(n) => if n == 1 then Yes else if n == 0 then No else Stop
    case None => Stop
  }

  /**
   * The number of votes cast for an item whose voting starts at `pos`: the
   * length of the run of yes/no lines before the first stop line. The end of
   * the input always stops, so the run lies inside the input.
   */
  function RunLength(input: seq<Line>, pos: nat): (n: nat)
    ensures n > 0 ==> pos + n <= |input|
    decreases |input| - pos
  {
    if Classify(LineAt(input, pos)) == Stop then 0 else 1 + RunLength(input, pos + 1)
  }

  /** Voting runs over yes/no lines only and ends at the first stop line. */
  lemma {:induction false} RunEndsAtFirstStop(input: seq<Line>, pos: nat)
    ensures forall k :: pos <= k < pos + RunLength(input, pos) ==> Classify(LineAt(input, k)) != Stop
    ensures Classify(LineAt(input, pos + RunLength(input, pos))) == Stop
    decreases |input| - pos
  {
    if Classify(LineAt(input, pos)) != Stop {
      RunEndsAtFirstStop(input, pos + 1);
    }
  }

  /**
   * The tally an item receives when its voting starts at `pos`, as the loop
   * builds it: a yes or a no line counts and voting goes on with the next
   * line; a stop line ends it and counts for nothing.
   */
  function TallyFrom(input: seq<Line>, pos: nat): (t: Voting)
    ensures t.yes >= 0 && t.no >= 0
    ensures t.yes + t.no == RunLength(input, pos)
    decreases |input| - pos
  {
    match Classify(LineAt(input, pos))
    case Stop => Voting(0, 0)
    case Yes => var rest := TallyFrom(input, pos + 1); Voting(rest.yes + 1, rest.no)
    case No => var rest := TallyFrom(input, pos + 1); Voting(rest.yes, rest.no + 1)
  }

  /** The number of lines in `s` that parse to `v`. */
  function Occurrences(s: seq<Line>, v: int): nat
  {
    if s == [] then 0
    else Occurrences(s[..|s| - 1], v) + (if s[|s| - 1].int64 == Some(v) then 1 else 0)
  }

  /** Counting over a concatenation adds up the counts of the parts. */
  lemma {:induction false} OccurrencesAppend(s: seq<Line>, t: seq<Line>, v: int)
    ensures Occurrences(s + t, v) == Occurrences(s, v) + Occurrences(t, v)
  {
    if t == [] {
      assert s + t == s;
    } else {
      assert (s + t)[..|s + t| - 1] == s + t[..|t| - 1];
      OccurrencesAppend(s, t[..|t| - 1], v);
    }
  }

  /** The votes cast for an item whose voting starts at `pos`: the lines before its stop line. */
  function Ballots(input: seq<Line>, pos: nat): (b: seq<Line>)
    ensures |b| == RunLength(input, pos)
    ensures forall k :: 0 <= k < |b| ==> b[k] == LineAt(input, pos + k)
  {
    var n := RunLength(input, pos);
    if n == 0 then [] else input[pos..pos + n]
  }

  /**
   * The tally counts the votes: yes is the number of ballots that parse to 1,
   * no the number that parse to 0.
   */
  lemma {:induction false} TallyCountsBallots(input: seq<Line>, pos: nat)
    ensures TallyFrom(input, pos) == Voting(Occurrences(Ballots(input, pos), 1), Occurrences(Ballots(input, pos), 0))
    decreases |input| - pos
  {
    var line := LineAt(input, pos);
    if Classify(line) != Stop {
      TallyCountsBallots(input, pos + 1);
      assert Ballots(input, pos) == [line] + Ballots(input, pos + 1);
      OccurrencesAppend([line], Ballots(input, pos + 1), 1);
      OccurrencesAppend([line], Ballots(input, pos + 1), 0);
      assert [line][..0] == [];
    }
  }

  /**
   * Voting for one item, as the loop runs it: read a line, count a yes or a
   * no, or stop. Returns the tally and the position after the stop line, which
   * is consumed too.
   */
  method VoteOnItem(input: seq<Line>, start: nat) returns (tally: Voting, next: nat)
    ensures tally == TallyFrom(input, start)
    ensures next == start + RunLength(input, start) + 1
  {
    var yes, no := 0, 0;
    var pos := start;
    while true
      invariant start <= pos && pos + RunLength(input, pos) == start + RunLength(input, start)
      invariant Voting(yes, no) == Counted(input, start, pos - start)
      decreases RunLength(input, pos)
    {
      var line := LineAt(input, pos);
      pos := pos + 1;
      if line.int64.Some? {
        var choice := line.int64.value;
        if choice == 1 {
          yes := yes + 1;
        } else if choice == 0 {
          no := no + 1;
        } else {
          break;
        }
      } else {
        break;
      }
    }
    // the line just read was the stop line, which ends the run
    TallyAfterPrefix(input, start, pos - 1 - start);
    tally := Voting(yes, no);
    next := pos;
  }

  /** The verdict on a tally: a strict majority of yes selects the item. */
  function Judge(t: Voting): (v: Verdict)
    ensures v == Selected <==> t.yes > t.no
    ensures v == EqualVoting <==> t.yes == t.no
    ensures v == NotSelected <==> t.yes < t.no
  {
    if t.yes > t.no then Selected
    else if t.no == t.yes then EqualVoting
    else NotSelected
  }

  /**
   * The counters after the first `j` votes of an item whose voting starts at
   * `start`, as the loop updates them one vote at a time.
   */
  function Counted(input: seq<Line>, start: nat, j: nat): (c: Voting)
    requires j <= RunLength(input, start)
    ensures c.yes >= 0 && c.no >= 0 && c.yes + c.no == j
  {
    if j == 0 then Voting(0, 0)
    else
      var c := Counted(input, start, j - 1);
      if LineAt(input, start + j - 1).int64 == Some(1) then Voting(c.yes + 1, c.no)
      else Voting(c.yes, c.no + 1)
  }

  /**
   * After `j` votes the counters hold the number of lines parsing to 1 and
   * the number parsing to 0 among the first `j` ballots.
   */
  lemma {:induction false} CountedCountsPrefix(input: seq<Line>, start: nat, j: nat)
    requires j <= RunLength(input, start)
    ensures Counted(input, start, j) ==
            Voting(Occurrences(Ballots(input, start)[..j], 1), Occurrences(Ballots(input, start)[..j], 0))
  {
    var b := Ballots(input, start);
    if j == 0 {
      assert b[..0] == [];
    } else {
      CountedCountsPrefix(input, start, j - 1);
      RunEndsAtFirstStop(input, start);
      assert Classify(LineAt(input, start + j - 1)) != Stop;
      assert b[..j][..j - 1] == b[..j - 1];
      assert b[..j][j - 1] == LineAt(input, start + j - 1);
    }
  }

  /**
   * Part way through an item's voting, its final tally is what has been
   * counted so far plus what the remaining lines bring.
   */
  lemma {:induction false} TallyAfterPrefix(input: seq<Line>, start: nat, j: nat)
    requires j <= RunLength(input, start)
    ensures TallyFrom(input, start).yes == Counted(input, start, j).yes + TallyFrom(input, start + j).yes
    ensures TallyFrom(input, start).no == Counted(input, start, j).no + TallyFrom(input, start + j).no
  {
    if j > 0 {
      TallyAfterPrefix(input, start, j - 1);
      RunEndsAtFirstStop(input, start);
      var line := LineAt(input, start + j - 1);
      assert Classify(line) != Stop;
      var before, after := TallyFrom(input, start + j - 1), TallyFrom(input, start + j);
      var c := Counted(input, start, j - 1);
      if line.int64 == Some(1) {
        assert before == Voting(after.yes + 1, after.no);
        assert Counted(input, start, j) == Voting(c.yes + 1, c.no);
      } else {
        assert before == Voting(after.yes, after.no + 1);
        assert Counted(input, start, j) == Voting(c.yes, c.no + 1);
      }
    }
  }

  /** While an item's voting runs, its yes and no counters only grow. */
  lemma {:induction false} CountsOnlyGrow(input: seq<Line>, start: nat, j: nat, k: nat)
    requires j <= k <= RunLength(input, start)
    ensures Counted(input, start, j).yes <= Counted(input, start, k).yes
    ensures Counted(input, start, j).no <= Counted(input, start, k).no
    decreases k - j
  {
    if j < k {
      CountsOnlyGrow(input, start, j, k - 1);
    }
  }

  /**
   * Once an item's stop line has been read, later input cannot change its
   * tally: the lines after the stop line play no part in it.
   */
  lemma {:induction false} TallyIgnoresLaterLines(input: seq<Line>, later: seq<Line>, pos: nat)
    requires pos + RunLength(input, pos) < |input|
    ensures RunLength(input + later, pos) == RunLength(input, pos)
    ensures TallyFrom(input + later, pos) == TallyFrom(input, pos)
    decreases |input| - pos
  {
    assert LineAt(input + later, pos) == LineAt(input, pos);
    if Classify(LineAt(input, pos)) != Stop {
      TallyIgnoresLaterLines(input, later, pos + 1);
    }
  }

  /** Votes 1, 1, 0 and then 5: two yes, one no, stopped by the 5; selected. */
  lemma ScenarioSelected(input: seq<Line>)
    requires input == [Line("1", Some(1)), Line("1", Some(1)), Line("0", Some(0)), Line("5", Some(5))]
    ensures RunLength(input, 0) == 3
    ensures TallyFrom(input, 0) == Voting(2, 1)
    ensures Judge(TallyFrom(input, 0)) == Selected
  {
    assert TallyFrom(input, 3) == Voting(0, 0);
    assert TallyFrom(input, 2) == Voting(0, 1);
    assert TallyFrom(input, 1) == Voting(1, 1);
  }

  /** Votes 1 and 0 and then the end of input: one each; a tie. */
  lemma ScenarioTie(input: seq<Line>)
    requires input == [Line("1", Some(1)), Line("0", Some(0))]
    ensures RunLength(input, 0) == 2
    ensures TallyFrom(input, 0) == Voting(1, 1)
    ensures Judge(TallyFrom(input, 0)) == EqualVoting
  {
  }

  /** Text that is not a number stops voting at once: no votes, a tie. */
  lemma ScenarioNoVotes(input: seq<Line>)
    requires input == [Line("stop", None)]
    ensures RunLength(input, 0) == 0
    ensures TallyFrom(input, 0) == Voting(0, 0)
    ensures Judge(TallyFrom(input, 0)) == EqualVoting
  {
  }

  /** Votes 0, 0, 0 and then 2: three no, stopped by the 2; not selected. */
  lemma ScenarioRejected(input: seq<Line>)
    requires input == [Line("0", Some(0)), Line("0", Some(0)), Line("0", Some(0)), Line("2", Some(2))]
    ensures RunLength(input, 0) == 3
    ensures TallyFrom(input, 0) == Voting(0, 3)
    ensures Judge(TallyFrom(input, 0)) == NotSelected
  {
    assert TallyFrom(input, 3) == Voting(0, 0);
    assert TallyFrom(input, 2) == Voting(0, 1);
    assert TallyFrom(input, 1) == Voting(0, 2);
  }
}
