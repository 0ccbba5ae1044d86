/** Reading the emotion classifier's output: the label set, `np.argmax`, `np.max`,
    and the strict confidence threshold of the reaction loop. */
module Emotion {

  /** The classifier's classes, in the order of its output vector. */
  const Labels: seq<string> := ["Angry", "Disgust", "Fear", "Happy", "Sad", "Surprise", "Neutral"]

  /** A classification changes the display only when its confidence is strictly above this. */
  const Threshold: real := 0.4

  datatype Classification = Classification(emotion: string, confidence: real)

  /** `np.argmax`: the index of the first maximal entry. */
  function ArgMax(p: seq<real>): (i: nat)
    requires |p| > 0
    ensures i < |p|
    ensures forall j :: 0 <= j < |p| ==> p[j] <= p[i]
    ensures forall j :: 0 <= j < i ==> p[j] < p[i]
    decreases |p|
  {
    if |p| == 1 then 0
    else
      var k := ArgMax(p[..|p| - 1]);
      if p[|p| - 1] > p[k] then |p| - 1 else k
  }

  /** `np.max`: the largest entry. */
  function Max(p: seq<real>): (m: real)
    requires |p| > 0
    ensures forall j :: 0 <= j < |p| ==> p[j] <= m
    ensures exists j :: 0 <= j < |p| && p[j] == m
    decreases |p|
  {
    if |p| == 1 then p[0]
    else
      var m := Max(p[1..]);
      assert forall j :: 1 <= j < |p| ==> p[j] == p[1..][j - 1];
      if p[0] > m then p[0] else m
  }

  /** The label and confidence read off one prediction vector (lines 171-172 of the
      reaction script): the label of a maximal entry, and a confidence that is that
      entry and bounds every entry. */
  function Classify(p: seq<real>): (c: Classification)
    requires |p| == |Labels|
    ensures c.emotion in Labels
    ensures exists i :: 0 <= i < |p| && c.emotion == Labels[i] && c.confidence == p[i]
    ensures forall j :: 0 <= j < |p| ==> p[j] <= c.confidence
  {
    Classification(Labels[ArgMax(p)], Max(p))
  }

  /** When one class strictly dominates, that class is the label. */
  lemma ClassifyDominant(p: seq<real>, i: nat)
    requires |p| == |Labels| && i < |p|
    requires forall j :: 0 <= j < |p| && j != i ==> p[j] < p[i]
    ensures Classify(p) == Classification(Labels[i], p[i])
  {
  }

  /** Ties go to the earliest class in `Labels`, as with `np.argmax`. */
  lemma ClassifyTieBreak(p: seq<real>, i: nat, k: nat)
    requires |p| == |Labels| && i < k < |p| && p[i] == p[k]
    requires forall j :: 0 <= j < |p| ==> p[j] <= p[i]
    ensures Classify(p).emotion != Labels[k]
  {
  }
}
