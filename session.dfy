/**
 * Voting over the whole list of items, in order, on one shared input stream,
 * with the tallies collected in a map keyed by item label; and the program
 * that first collects the items and then runs the voting.
 */
module Session {
  import opened Wrappers
  import opened Input
  import opened Collect
  import opened Tally

  /**
   * The stream position at which voting on item `k` begins when voting on
   * item 0 begins at `start`: each item consumes its votes and its stop line.
   */
  function StartOf(input: seq<Line>, start: nat, k: nat): (p: nat)
    ensures p >= start + k
  {
    if k == 0 then start
    else StartOf(input, start, k - 1) + RunLength(input, StartOf(input, start, k - 1)) + 1
  }

  /** The tallies of the first `n` items, in item order. */
  function Tallies(input: seq<Line>, start: nat, n: nat): (ts: seq<Voting>)
    ensures |ts| == n
  {
    if n == 0 then []
    else Tallies(input, start, n - 1) + [TallyFrom(input, StartOf(input, start, n - 1))]
  }

  /** Item `k`'s tally is the one its own run of votes gives, wherever that run begins. */
  lemma {:induction false} TalliesAt(input: seq<Line>, start: nat, n: nat, k: nat)
    requires k < n
    ensures Tallies(input, start, n)[k] == TallyFrom(input, StartOf(input, start, k))
  {
    var before := Tallies(input, start, n - 1);
    var last := TallyFrom(input, StartOf(input, start, n - 1));
    assert Tallies(input, start, n) == before + [last];
    if k < n - 1 {
      TalliesAt(input, start, n - 1, k);
      assert (before + [last])[k] == before[k];
    } else {
      assert (before + [last])[k] == last;
    }
  }

  /**
   * The map built by inserting each item's tally under its label, in item
   * order, so that a later equal label overwrites an earlier one.
   */
  function TallyMap(items: seq<string>, tallies: seq<Voting>): map<string, Voting>
    requires |items| == |tallies|
  {
    if items == [] then map[]
    else TallyMap(items[..|items| - 1], tallies[..|tallies| - 1])[items[|items| - 1] := tallies[|tallies| - 1]]
  }

  /** The labels of the map are exactly the labels of the items. */
  lemma {:induction false} TallyMapKeys(items: seq<string>, tallies: seq<Voting>)
    requires |items| == |tallies|
    ensures forall l :: l in TallyMap(items, tallies) <==> l in items
  {
    if items != [] {
      var n := |items| - 1;
      TallyMapKeys(items[..n], tallies[..n]);
      assert items == items[..n] + [items[n]];
    }
  }

  /** Each label maps to the tally of its last occurrence in the item list. */
  lemma {:induction false} TallyMapLastWins(items: seq<string>, tallies: seq<Voting>, k: nat)
    requires |items| == |tallies|
    requires k < |items|
    requires forall j :: k < j < |items| ==> items[j] != items[k]
    ensures items[k] in TallyMap(items, tallies)
    ensures TallyMap(items, tallies)[items[k]] == tallies[k]
  {
    var n := |items| - 1;
    if k < n {
      TallyMapLastWins(items[..n], tallies[..n], k);
    }
  }

  /** Voting on one more item inserts its tally into the map of the items before it. */
  lemma TallyMapStep(input: seq<Line>, items: seq<string>, start: nat, i: nat)
    requires i < |items|
    ensures TallyMap(items[..i + 1], Tallies(input, start, i + 1)) ==
            TallyMap(items[..i], Tallies(input, start, i))[items[i] := TallyFrom(input, StartOf(input, start, i))]
  {
    assert items[..i + 1][..i] == items[..i];
  }

  /**
   * Runs the voting for every item in order, starting at stream position
   * `start`: each item's tally goes into the map under its label and its
   * verdict into the list of verdicts.
   */
  method RunVoting(input: seq<Line>, items: seq<string>, start: nat)
    returns (tallies: map<string, Voting>, verdicts: seq<Verdict>, next: nat)
    ensures tallies == TallyMap(items, Tallies(input, start, |items|))
    ensures forall l :: l in tallies <==> l in items
    ensures |verdicts| == |items|
    ensures forall k :: 0 <= k < |items| ==> verdicts[k] == Judge(Tallies(input, start, |items|)[k])
    ensures next == StartOf(input, start, |items|)
  {
    tallies := map[];
    verdicts := [];
    var pos := start;
    for i := 0 to |items|
      invariant pos == StartOf(input, start, i)
      invariant tallies == TallyMap(items[..i], Tallies(input, start, i))
      invariant |verdicts| == i
      invariant forall k :: 0 <= k < i ==> verdicts[k] == Judge(Tallies(input, start, i)[k])
    {
      var tally, after := VoteOnItem(input, pos);
      TallyMapStep(input, items, start, i);
      tallies := tallies[items[i] := tally];
      verdicts := verdicts + [Judge(tally)];
      pos := after;
    }
    assert items[..|items|] == items;
    TallyMapKeys(items, Tallies(input, start, |items|));
    next := pos;
  }

  /** What the program has computed when it ends normally. */
  datatype Outcome = Outcome(items: seq<string>, tallies: map<string, Voting>, verdicts: seq<Verdict>)

  /**
   * The whole program: collect the items, then vote on each in turn on the
   * lines that follow the labels.
   */
  method RunProgram(input: seq<Line>) returns (r: Result<Outcome, CollectError>)
    ensures r.Err? <==> ParseI32(LineAt(input, 0)).None?
    ensures r.Ok? ==>
              var items := r.value.items;
              var start := 1 + |items|;
              |items| == Wanted(ParseI32(LineAt(input, 0)).value) &&
              (forall k :: 0 <= k < |items| ==> items[k] == LineAt(input, 1 + k).text) &&
              r.value.tallies == TallyMap(items, Tallies(input, start, |items|)) &&
              |r.value.verdicts| == |items| &&
              forall k :: 0 <= k < |items| ==> r.value.verdicts[k] == Judge(Tallies(input, start, |items|)[k])
  {
    var collected := InputToVector(input);
    if collected.Err? {
      return Err(collected.error);
    }
    var items := collected.value.items;
    var tallies, verdicts, _ := RunVoting(input, items, collected.value.next);
    return Ok(Outcome(items, tallies, verdicts));
  }
}
