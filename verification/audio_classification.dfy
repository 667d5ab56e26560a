/**
 * The label-ranking part of the audio classifier: the interpreter's score
 * buffer is turned into (class index, score) labels, bubble-sorted in place
 * into descending score order, and read back as a top-K prefix.
 */
module Audio {
  import opened Wrappers

  /** A class index and the score the model gave it (the source's `Label`). */
  datatype Label = Label(id: int, score: real)

  /**
   * `Label.CompareTo`: the scores compared the other way round, so that a
   * label with a higher score orders first. Like `float.CompareTo` on
   * ordinary numbers, it answers -1, 0 or 1.
   */
  function CompareTo(self: Label, other: Label): (r: int)
    ensures r < 0 <==> self.score > other.score
    ensures r == 0 <==> self.score == other.score
    ensures r > 0 <==> self.score < other.score
    ensures -1 <= r <= 1
  {
    if other.score < self.score then -1
    else if other.score == self.score then 0
    else 1
  }

  /** The labels the fill loop writes: label `i` carries the `i`th score. */
  function Labelled(scores: seq<real>): (r: seq<Label>)
    ensures |r| == |scores|
    ensures forall i :: 0 <= i < |r| ==> r[i] == Label(i, scores[i])
  {
    seq(|scores|, i requires 0 <= i < |scores| => Label(i, scores[i]))
  }

  /** Non-increasing score order. */
  ghost predicate SortedByScore(s: seq<Label>) {
    forall p, q :: 0 <= p < q < |s| ==> s[p].score >= s[q].score
  }

  /** Labels with equal scores appear in ascending index order (stability). */
  ghost predicate TiesByAscendingId(s: seq<Label>) {
    forall p, q :: 0 <= p < q < |s| && s[p].score == s[q].score ==> s[p].id < s[q].id
  }

  /** `r` is the ranking of `scores`: a stable, descending-score permutation of the labels. */
  ghost predicate IsRanking(r: seq<Label>, scores: seq<real>) {
    && multiset(r) == multiset(Labelled(scores))
    && SortedByScore(r)
    && TiesByAscendingId(r)
  }

  /** In a stable descending ordering, no label with the first label's score has a smaller id. */
  lemma FirstHasLeastId(s: seq<Label>, x: Label)
    requires |s| > 0 && SortedByScore(s) && TiesByAscendingId(s)
    requires x in s && x.score == s[0].score
    ensures s[0].id <= x.id
  {
    var m :| 0 <= m < |s| && s[m] == x;
    if m > 0 {
      assert s[0].score == s[m].score;
    }
  }

  /** The first label of a stable descending ordering is fixed by its multiset of labels. */
  lemma FirstOfStableOrder(s: seq<Label>, t: seq<Label>)
    requires |s| > 0 && multiset(s) == multiset(t)
    requires SortedByScore(s) && TiesByAscendingId(s)
    requires SortedByScore(t) && TiesByAscendingId(t)
    ensures |t| > 0 && s[0] == t[0]
  {
    assert s[0] in multiset(t);
    var k :| 0 <= k < |t| && t[k] == s[0];
    assert t[0] in multiset(s);
    var m :| 0 <= m < |s| && s[m] == t[0];
    assert s[0].score >= s[m].score && t[0].score >= t[k].score;
    FirstHasLeastId(s, t[0]);
    FirstHasLeastId(t, s[0]);
  }

  /** Dropping the first label keeps a stable descending ordering. */
  lemma TailOfStableOrder(s: seq<Label>)
    requires |s| > 0 && SortedByScore(s) && TiesByAscendingId(s)
    ensures SortedByScore(s[1..]) && TiesByAscendingId(s[1..])
  {
    assert forall p :: 0 <= p < |s| - 1 ==> s[1..][p] == s[p + 1];
  }

  /**
   * Two stable descending orderings of the same labels are the same
   * sequence: the ranking of a score buffer is unique, so the sort is
   * deterministic.
   */
  lemma {:induction false} StableOrderUnique(s: seq<Label>, t: seq<Label>)
    requires multiset(s) == multiset(t)
    requires SortedByScore(s) && TiesByAscendingId(s)
    requires SortedByScore(t) && TiesByAscendingId(t)
    ensures s == t
  {
    if |s| == 0 {
      assert |t| == |multiset(t)| == 0;
    } else {
      FirstOfStableOrder(s, t);
      assert s == [s[0]] + s[1..];
      assert t == [t[0]] + t[1..];
      assert multiset(s[1..]) == multiset(s) - multiset{s[0]};
      assert multiset(t[1..]) == multiset(t) - multiset{t[0]};
      TailOfStableOrder(s);
      TailOfStableOrder(t);
      StableOrderUnique(s[1..], t[1..]);
    }
  }

  /** The ranking of a score buffer, where one exists, is unique. */
  lemma RankingUnique(scores: seq<real>, r1: seq<Label>, r2: seq<Label>)
    requires IsRanking(r1, scores) && IsRanking(r2, scores)
    ensures r1 == r2
  {
    StableOrderUnique(r1, r2);
  }

  /** Swapping two adjacent labels whose scores differ keeps equal-score labels in order. */
  lemma SwapKeepsTies(s: seq<Label>, j: int)
    requires 0 <= j && j + 1 < |s|
    requires s[j].score != s[j + 1].score
    requires TiesByAscendingId(s)
    ensures TiesByAscendingId(s[j := s[j + 1]][j + 1 := s[j]])
  {
    var t := s[j := s[j + 1]][j + 1 := s[j]];
    forall p, q | 0 <= p < q < |t| && t[p].score == t[q].score
      ensures t[p].id < t[q].id
    {
      var p' := if p == j then j + 1 else if p == j + 1 then j else p;
      var q' := if q == j then j + 1 else if q == j + 1 then j else q;
      assert t[p] == s[p'] && t[q] == s[q'];
      assert p' < q';
    }
  }

  /**
   * `OutPutToLabelJob.Execute`: label every score with its index, then
   * bubble-sort the labels in place, swapping neighbours only when the
   * right one has a strictly higher score.
   */
  method Execute(input: array<real>, output: array<Label>)
    requires input.Length == output.Length
    modifies output
    ensures IsRanking(output[..], input[..])
    ensures input.Length <= 1 ==> output[..] == Labelled(input[..])
  {
    var n := input.Length;
    var i := 0;
    while i < n
      invariant 0 <= i <= n
      invariant forall k :: 0 <= k < i ==> output[k] == Label(k, input[k])
    {
      output[i] := Label(i, input[i]);
      i := i + 1;
    }
    ghost var labelled := Labelled(input[..]);
    assert output[..] == labelled;
    assert TiesByAscendingId(output[..]);

    i := 0;
    while i < n - 1
      invariant 0 <= i <= n
      invariant n <= 1 ==> output[..] == labelled
      invariant multiset(output[..]) == multiset(labelled)
      invariant TiesByAscendingId(output[..])
      // the last i slots hold the i lowest-ranked labels, in their final order
      invariant SettledFrom(output[..], n - i)
    {
      BubblePass(output, n - i);
      i := i + 1;
    }
  }

  /**
   * After a pass: the slots from `m` on are in descending order and no
   * label before them scores lower than any of them.
   */
  ghost predicate SettledFrom(s: seq<Label>, m: int)
    requires 0 <= m <= |s|
  {
    && (forall p, q :: m <= p < q < |s| ==> s[p].score >= s[q].score)
    && (forall p, q :: 0 <= p < m <= q < |s| ==> s[p].score >= s[q].score)
  }

  /** The state of a pass after `j` comparisons: `output[j]` holds the lowest score of `[0, j]`. */
  ghost predicate PassInvariant(s: seq<Label>, m: int, j: int)
  {
    && 0 <= j < m <= |s|
    && TiesByAscendingId(s)
    && SettledFrom(s, m)
    && (forall p :: 0 <= p < j ==> s[p].score >= s[j].score)
  }

  /** One compare-and-swap step of a pass keeps the pass invariant and the labels. */
  lemma PassStep(s: seq<Label>, m: int, j: int, t: seq<Label>)
    requires PassInvariant(s, m, j) && j + 1 < m
    requires t == if s[j + 1].score > s[j].score then s[j := s[j + 1]][j + 1 := s[j]] else s
    ensures PassInvariant(t, m, j + 1)
    ensures multiset(t) == multiset(s)
  {
    if s[j + 1].score > s[j].score {
      SwapKeepsTies(s, j);
      assert forall p :: 0 <= p < j + 1 ==> t[p].score >= t[j + 1].score;
    }
  }

  /**
   * One pass of the inner loop of `Execute` over the unsettled slots
   * `[0, m)`: the lowest score sinks to slot `m - 1`, which joins the
   * settled suffix.
   */
  method BubblePass(output: array<Label>, m: int)
    requires 2 <= m <= output.Length
    requires TiesByAscendingId(output[..])
    requires SettledFrom(output[..], m)
    modifies output
    ensures multiset(output[..]) == old(multiset(output[..]))
    ensures TiesByAscendingId(output[..])
    ensures SettledFrom(output[..], m - 1)
    ensures output[m..] == old(output[m..])
  {
    var j := 0;
    while j < m - 1
      invariant 0 <= j <= m - 1
      invariant multiset(output[..]) == old(multiset(output[..]))
      invariant PassInvariant(output[..], m, j)
      invariant output[m..] == old(output[m..])
    {
      ghost var before := output[..];
      CompareAndSwap(output, j);
      PassStep(before, m, j, output[..]);
      j := j + 1;
    }
    PassDone(output[..], m);
  }

  /** The body of the inner loop of `Execute`: swap two neighbours when the later one ranks first. */
  method CompareAndSwap(output: array<Label>, j: int)
    requires 0 <= j < output.Length - 1
    modifies output
    ensures output[..] == if old(output[j + 1].score > output[j].score)
      then old(output[..])[j := old(output[j + 1])][j + 1 := old(output[j])]
      else old(output[..])
  {
    if CompareTo(output[j], output[j + 1]) > 0 {
      var temp := output[j];
      output[j] := output[j + 1];
      output[j + 1] := temp;
    }
  }

  /** At the end of a pass, slot `m - 1` holds the lowest unsettled score and joins the settled suffix. */
  lemma PassDone(s: seq<Label>, m: int)
    requires PassInvariant(s, m, m - 1)
    ensures SettledFrom(s, m - 1)
  {
  }

  /** The classifier's buffers: the audio input, the score output and the ranked labels. */
  class AudioClassification {
    const input: array<real>
    const output: array<real>
    const labels: array<Label>

    /** The input and output are separate buffers, and the labels buffer is sized from the output buffer. */
    ghost predicate Valid()
      reads this
    {
      input != output && labels.Length == output.Length
    }

    /** Buffer allocation; the tensor sizes are read from the interpreter, which is not modelled. */
    constructor (inputLength: nat, outputLength: nat)
      ensures Valid()
      ensures input.Length == inputLength && output.Length == outputLength
      ensures fresh(input) && fresh(output) && fresh(labels)
    {
      input := new real[inputLength];
      output := new real[outputLength];
      labels := new Label[outputLength];
    }

    /**
     * `Run`: the interpreter's scores (a parameter here) land in the output
     * buffer, and the labelling job ranks them into `labels`.
     */
    method Run(scores: seq<real>)
      requires Valid()
      requires |scores| == output.Length
      modifies output, labels
      ensures Valid()
      ensures output[..] == scores
      ensures IsRanking(labels[..], scores)
      ensures input[..] == old(input[..])
    {
      forall k | 0 <= k < output.Length {
        output[k] := scores[k];
      }
      assert output[..] == scores;
      Execute(output, labels);
    }

    /**
     * `GetTopLabels`: the first `min(topK, labels.Length)` labels. A `topK`
     * past the end clamps; a negative one is refused by the slice (None).
     */
    function GetTopLabels(topK: int): (r: Option<seq<Label>>)
      reads this, labels
      ensures r.Some? <==> topK >= 0
      ensures r.Some? ==> |r.value| == (if topK < labels.Length then topK else labels.Length)
      ensures r.Some? ==> forall i :: 0 <= i < |r.value| ==> r.value[i] == labels[i]
      ensures topK >= labels.Length ==> r == Some(labels[..])
    {
      if topK < 0 then None
      else if topK < labels.Length then Some(labels[..topK])
      else Some(labels[..])
    }
  }

  /**
   * The first `k` labels of a ranking are the `k` best: none of them scores
   * below a label left out, and equal-scored labels left out have higher ids.
   */
  lemma TopLabelsAreBest(scores: seq<real>, ranked: seq<Label>, k: nat)
    requires IsRanking(ranked, scores)
    requires k <= |ranked|
    ensures forall x, y :: x in ranked[..k] && y in ranked[k..] ==>
      x.score > y.score || (x.score == y.score && x.id < y.id)
  {
    forall x, y | x in ranked[..k] && y in ranked[k..]
      ensures x.score > y.score || (x.score == y.score && x.id < y.id)
    {
      var p :| 0 <= p < k && ranked[..k][p] == x;
      var q :| 0 <= q < |ranked| - k && ranked[k..][q] == y;
      assert ranked[p] == x && ranked[k + q] == y;
    }
  }

  /**
   * The ranking of the scores [0.1, 0.9, 0.9, 0.3]: the two 0.9s keep their
   * index order, and the top two labels are indices 1 and 2.
   */
  lemma RankingExample(r: seq<Label>)
    requires IsRanking(r, [0.1, 0.9, 0.9, 0.3])
    ensures r == [Label(1, 0.9), Label(2, 0.9), Label(3, 0.3), Label(0, 0.1)]
    ensures r[..2] == [Label(1, 0.9), Label(2, 0.9)]
  {
    var expected := [Label(1, 0.9), Label(2, 0.9), Label(3, 0.3), Label(0, 0.1)];
    ExampleOrderIsRanking(expected);
    RankingUnique([0.1, 0.9, 0.9, 0.3], r, expected);
  }

  /** The hand-ranked order of the example is a ranking. */
  lemma ExampleOrderIsRanking(expected: seq<Label>)
    requires expected == [Label(1, 0.9), Label(2, 0.9), Label(3, 0.3), Label(0, 0.1)]
    ensures IsRanking(expected, [0.1, 0.9, 0.9, 0.3])
  {
    var l := Labelled([0.1, 0.9, 0.9, 0.3]);
    assert l == [l[0], l[1], l[2], l[3]];
    assert expected == [l[1], l[2], l[3], l[0]];
    assert multiset(expected) == multiset(l);
    forall p, q | 0 <= p < q < 4 ensures expected[p].score >= expected[q].score { }
    forall p, q | 0 <= p < q < 4 && expected[p].score == expected[q].score
      ensures expected[p].id < expected[q].id
    { }
  }
}
