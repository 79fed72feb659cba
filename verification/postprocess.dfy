/** Post-processing of the classifier's output in `classifyImage`: the
    argmax over the score vector, which starts from the threshold 0 and the
    sentinel index -1 and moves only on a strictly greater score, followed by
    a bounds-checked lookup of the winning index in the label list.
    Scores are modelled as reals: the code only compares them with `>`. */
module PostProcess {

  /** The pair of loop variables `maxIdx` and `maxProb`. */
  datatype Scan = Scan(idx: int, max: real)

  /** What the post-processing decides: no scores at all, a prediction (the
      label and the winning score), or the diagnostic that quotes the index,
      the label count and the score count. */
  datatype Outcome =
    | EmptyResult
    | Prediction(predicted: string, prob: real)
    | InvalidIndex(index: int, labelCount: nat, probCount: nat)

  /** The loop variables after scanning the scores in `s`, from the start
      values (-1, 0) on; a later score replaces the current one only when it
      is strictly greater. */
  function ScanMax(s: seq<real>): (r: Scan)
    ensures -1 <= r.idx < |s|
    ensures r.idx == -1 ==> r.max == 0.0
    ensures r.idx != -1 ==> r.max == s[r.idx] > 0.0
  {
    if |s| == 0 then Scan(-1, 0.0)
    else
      var prev := ScanMax(s[..|s| - 1]);
      if s[|s| - 1] > prev.max then Scan(|s| - 1, s[|s| - 1]) else prev
  }

  /** `k` is the first position holding the largest score, and that score is
      positive. */
  ghost predicate IsFirstMax(s: seq<real>, k: int) {
    0 <= k < |s| && s[k] > 0.0 &&
    (forall j :: 0 <= j < |s| ==> s[j] <= s[k]) &&
    (forall j :: 0 <= j < k ==> s[j] < s[k])
  }

  ghost predicate AllNonPositive(s: seq<real>) {
    forall j :: 0 <= j < |s| ==> s[j] <= 0.0
  }

  /** The scan ends at the first maximum when some score is positive, and at
      the sentinel -1 when none is. */
  lemma {:induction false} ScanMaxFindsFirstMax(s: seq<real>)
    ensures ScanMax(s).idx == -1 ==> AllNonPositive(s)
    ensures ScanMax(s).idx != -1 ==> IsFirstMax(s, ScanMax(s).idx)
  {
    if |s| > 0 {
      var init := s[..|s| - 1];
      ScanMaxFindsFirstMax(init);
      assert forall j :: 0 <= j < |s| - 1 ==> s[j] == init[j];
    }
  }

  /** There is at most one first maximum. */
  lemma FirstMaxUnique(s: seq<real>, k1: int, k2: int)
    requires IsFirstMax(s, k1) && IsFirstMax(s, k2)
    ensures k1 == k2
  {
  }

  /** The index the scan ends at is characterised without the loop: it is -1
      exactly when no score is positive, and otherwise the first maximum. */
  lemma ScanMaxCharacterised(s: seq<real>, k: int)
    ensures ScanMax(s).idx == k <==> (k == -1 && AllNonPositive(s)) || IsFirstMax(s, k)
  {
    ScanMaxFindsFirstMax(s);
    var i := ScanMax(s).idx;
    if IsFirstMax(s, k) && i != -1 {
      FirstMaxUnique(s, i, k);
    }
  }

  /** The outcome of post-processing scores `probs` against `labels`. */
  function Decide(probs: seq<real>, labels: seq<string>): Outcome {
    if |probs| == 0 then EmptyResult
    else
      var sc := ScanMax(probs);
      if sc.idx != -1 && sc.idx < |labels| then Prediction(labels[sc.idx], sc.max)
      else InvalidIndex(sc.idx, |labels|, |probs|)
  }

  /** Every outcome, described by what it says about the scores and labels:
      the empty result exactly for no scores; a prediction names the label at
      the first maximum, which lies inside the label list, with its score; the
      diagnostic quotes both sizes and an index that is either -1 (no positive
      score) or the first maximum at or past the end of the label list. */
  lemma DecideCases(probs: seq<real>, labels: seq<string>)
    ensures Decide(probs, labels).EmptyResult? <==> |probs| == 0
    ensures Decide(probs, labels).Prediction? ==>
      exists k :: IsFirstMax(probs, k) && k < |labels| &&
        Decide(probs, labels) == Prediction(labels[k], probs[k])
    ensures Decide(probs, labels).InvalidIndex? ==>
      var o := Decide(probs, labels);
      o.labelCount == |labels| && o.probCount == |probs| && |probs| > 0 &&
      ((o.index == -1 && AllNonPositive(probs)) ||
       (IsFirstMax(probs, o.index) && o.index >= |labels|))
  {
    ScanMaxFindsFirstMax(probs);
  }

  /** With no positive score the outcome is the diagnostic for index -1,
      never a prediction. */
  lemma NonPositiveScoresNeverPredict(probs: seq<real>, labels: seq<string>)
    requires |probs| > 0 && AllNonPositive(probs)
    ensures Decide(probs, labels) == InvalidIndex(-1, |labels|, |probs|)
  {
  }

  /** With at least as many labels as scores and some positive score, the
      outcome is always the prediction of the label at the first maximum. */
  lemma EnoughLabelsAlwaysPredict(probs: seq<real>, labels: seq<string>)
    requires |labels| >= |probs|
    requires exists j :: 0 <= j < |probs| && probs[j] > 0.0
    ensures Decide(probs, labels).Prediction?
    ensures forall k :: IsFirstMax(probs, k) ==>
      k < |labels| && Decide(probs, labels) == Prediction(labels[k], probs[k])
  {
    ScanMaxFindsFirstMax(probs);
    forall k | IsFirstMax(probs, k)
      ensures k < |labels| && Decide(probs, labels) == Prediction(labels[k], probs[k])
    {
      ScanMaxCharacterised(probs, k);
    }
  }

  /** The scores [0.1, 0.9, 0.05] select index 1. */
  lemma ArgMaxExample()
    ensures ScanMax([0.1, 0.9, 0.05]).idx == 1
  {
  }

  /** On a tie the first occurrence wins. */
  lemma ArgMaxTieExample()
    ensures ScanMax([0.5, 0.5]).idx == 0
  {
  }

  /** The argmax loop of `classifyImage`. */
  method ArgMax(probs: seq<real>) returns (maxIdx: int, maxProb: real)
    ensures Scan(maxIdx, maxProb) == ScanMax(probs)
    ensures maxIdx == -1 ==> maxProb == 0.0 && AllNonPositive(probs)
    ensures maxIdx != -1 ==> IsFirstMax(probs, maxIdx) && maxProb == probs[maxIdx]
  {
    maxProb, maxIdx := 0.0, -1;
    for i := 0 to |probs|
      invariant Scan(maxIdx, maxProb) == ScanMax(probs[..i])
    {
      assert probs[..i + 1][..i] == probs[..i];
      if probs[i] > maxProb {
        maxProb := probs[i];
        maxIdx := i;
      }
    }
    assert probs[..|probs|] == probs;
    ScanMaxFindsFirstMax(probs);
  }

  /** Post-processing of one score vector: the emptiness check, the argmax
      loop and the bounds-checked label lookup. */
  method Classify(probs: seq<real>, labels: seq<string>) returns (o: Outcome)
    ensures o == Decide(probs, labels)
  {
    if |probs| == 0 {
      return EmptyResult;
    }
    var maxIdx, maxProb := ArgMax(probs);
    if maxIdx != -1 && maxIdx < |labels| {
      o := Prediction(labels[maxIdx], maxProb);
    } else {
      o := InvalidIndex(maxIdx, |labels|, |probs|);
    }
  }
}
