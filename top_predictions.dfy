/**
 * `get_top_predictions` (database.py:32-36): the three most probable
 * classes of one classification result, as (label, probability) pairs in
 * descending order of probability.
 */
module TopPredictions {
  import opened Results
  import opened StableSort

  /** How many classes a result keeps. */
  const TOP_COUNT: nat := 3

  /**
   * `results[0]` of one classifier call: the label table `names`
   * (class index to label) and the probability of every class index.
   */
  datatype Scores = Scores(names: map<nat, string>, probs: seq<real>)

  function Min(a: nat, b: nat): nat {
    if a <= b then a else b
  }

  /** `range(n)` */
  function Range(n: nat): (r: seq<nat>)
    ensures |r| == n
    ensures forall i :: 0 <= i < n ==> r[i] == i
  {
    if n == 0 then [] else Range(n - 1) + [n - 1]
  }

  /** The sort key `lambda i: probs[i]`. */
  function ProbOf(probs: seq<real>): nat -> real {
    (i: nat) => if i < |probs| then probs[i] else 0.0
  }

  function Identity(i: nat): nat {
    i
  }

  /** `sorted(range(len(probs)), key=lambda i: probs[i], reverse=True)[:3]` */
  function TopIndices(probs: seq<real>): (idx: seq<nat>)
    ensures |idx| == Min(TOP_COUNT, |probs|)
  {
    SortedIndices(probs)[..Min(TOP_COUNT, |probs|)]
  }

  /** Every selected index has a label. */
  predicate Labelled(names: map<nat, string>, idx: seq<nat>) {
    forall k :: 0 <= k < |idx| ==> idx[k] in names
  }

  /** `[(names_dict[i], probs[i]) for i in indices]` */
  function Pairs(scores: Scores, idx: seq<nat>): (r: seq<(string, real)>)
    requires Labelled(scores.names, idx)
    requires forall k :: 0 <= k < |idx| ==> idx[k] < |scores.probs|
    ensures |r| == |idx|
    ensures forall k :: 0 <= k < |idx| ==> r[k] == (scores.names[idx[k]], scores.probs[idx[k]])
  {
    if idx == [] then [] else [(scores.names[idx[0]], scores.probs[idx[0]])] + Pairs(scores, idx[1..])
  }

  /**
   * `get_top_predictions`. Looking up a selected index that the label table
   * lacks raises KeyError; indices that are not selected are never looked up.
   */
  function GetTopPredictions(scores: Scores): (r: Result<seq<(string, real)>>)
    ensures r.Ok? <==> Labelled(scores.names, TopIndices(scores.probs))
    ensures r.Err? ==> r.error == KeyError
  {
    var idx := TopIndices(scores.probs);
    if Labelled(scores.names, idx) then
      TopIndicesSelectMaxima(scores.probs);
      Ok(Pairs(scores, idx))
    else
      Err(KeyError)
  }

  /** The class indices in the order `sorted` puts them. */
  function SortedIndices(probs: seq<real>): (sorted: seq<nat>)
    ensures |sorted| == |probs|
  {
    SortDesc<nat>(Range(|probs|), ProbOf(probs))
  }

  lemma SortedIndicesInRange(probs: seq<real>)
    ensures forall k :: 0 <= k < |probs| ==> SortedIndices(probs)[k] < |probs|
  {
    var sorted := SortedIndices(probs);
    forall k | 0 <= k < |sorted|
      ensures sorted[k] < |probs|
    {
      assert sorted[k] in multiset(sorted);
      assert sorted[k] in multiset(Range(|probs|));
    }
  }

  lemma SortedIndicesCover(probs: seq<real>)
    ensures forall j :: 0 <= j < |probs| ==> j in SortedIndices(probs)
  {
    var all := Range(|probs|);
    forall j | 0 <= j < |probs|
      ensures j in SortedIndices(probs)
    {
      assert all[j] == j;
      assert j in multiset(all);
    }
  }

  lemma SortedIndicesDistinct(probs: seq<real>)
    ensures var sorted := SortedIndices(probs);
      forall k, l :: 0 <= k < l < |sorted| ==> sorted[k] != sorted[l]
  {
    var all := Range(|probs|);
    assert DistinctBy<nat, nat>(all, Identity);
    SortDescDistinctBy<nat, nat>(all, ProbOf(probs), Identity);
  }

  /**
   * The selected indices are min(3, n) distinct class indices, in
   * non-increasing order of probability, and no class left out is more
   * probable than any class selected.
   */
  lemma TopIndicesSelectMaxima(probs: seq<real>)
    ensures var idx := TopIndices(probs);
      && |idx| == Min(TOP_COUNT, |probs|)
      && (forall k :: 0 <= k < |idx| ==> idx[k] < |probs|)
      && (forall k, l :: 0 <= k < l < |idx| ==> idx[k] != idx[l])
      && (forall k, l :: 0 <= k < l < |idx| ==> probs[idx[k]] >= probs[idx[l]])
      && (forall j, k :: 0 <= j < |probs| && j !in idx && 0 <= k < |idx| ==> probs[j] <= probs[idx[k]])
  {
    var n := |probs|;
    var key := ProbOf(probs);
    var sorted := SortedIndices(probs);
    var idx := TopIndices(probs);
    assert idx == sorted[..Min(TOP_COUNT, n)];
    assert SortedDesc(sorted, key);
    SortedIndicesInRange(probs);
    SortedIndicesCover(probs);
    SortedIndicesDistinct(probs);
    assert forall k :: 0 <= k < |idx| ==> idx[k] == sorted[k];
    forall k, l | 0 <= k < l < |idx|
      ensures probs[idx[k]] >= probs[idx[l]]
    {
      assert key(sorted[k]) >= key(sorted[l]);
    }
    forall j, k | 0 <= j < n && j !in idx && 0 <= k < |idx|
      ensures probs[j] <= probs[idx[k]]
    {
      assert j in sorted;
      var p :| 0 <= p < |sorted| && sorted[p] == j;
      assert key(sorted[k]) >= key(sorted[p]);
    }
  }

  /**
   * A successful result holds min(3, n) pairs (names[i], probs[i]) for
   * distinct class indices i, in non-increasing order of probability, and
   * every class left out is at most as probable as every class kept.
   */
  lemma GetTopPredictionsSpec(scores: Scores)
    requires GetTopPredictions(scores).Ok?
    ensures var top, probs := GetTopPredictions(scores).value, scores.probs;
      && |top| == Min(TOP_COUNT, |probs|)
      && (forall k, l :: 0 <= k < l < |top| ==> top[k].1 >= top[l].1)
      && exists idx: seq<nat> ::
        && |idx| == |top|
        && (forall k :: 0 <= k < |idx| ==> idx[k] < |probs| && idx[k] in scores.names)
        && (forall k, l :: 0 <= k < l < |idx| ==> idx[k] != idx[l])
        && (forall k :: 0 <= k < |idx| ==> top[k] == (scores.names[idx[k]], probs[idx[k]]))
        && (forall j, k :: 0 <= j < |probs| && j !in idx && 0 <= k < |idx| ==> probs[j] <= top[k].1)
  {
    TopIndicesSelectMaxima(scores.probs);
    var idx := TopIndices(scores.probs);
    var top := GetTopPredictions(scores).value;
    assert top == Pairs(scores, idx);
  }

  /** A label table that names every class index never makes the selection fail. */
  lemma FullLabelTableSucceeds(scores: Scores)
    requires forall i :: 0 <= i < |scores.probs| ==> i in scores.names
    ensures GetTopPredictions(scores).Ok?
  {
    TopIndicesSelectMaxima(scores.probs);
  }
}
