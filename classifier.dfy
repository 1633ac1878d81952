/**
 * The classifier adapter of guiTest.py (predict_image): the trained model's
 * output vector is taken as an input, its first maximum is selected as
 * np.argmax does, and that index is looked up in the fixed table of class
 * names.
 */
module Classifier {
  import opened Wrappers

  /** The closed set of land-cover classes. */
  datatype Label = Cloudy | Desert | GreenArea | Water

  /** The table class_names: entry i names output i of the classifier. */
  const ClassNames: seq<string> := ["Cloudy", "Desert", "Green Area", "Water"]

  /** The position of a label in the table. */
  function Index(l: Label): (i: nat)
    ensures i < |ClassNames|
  {
    match l
    case Cloudy => 0
    case Desert => 1
    case GreenArea => 2
    case Water => 3
  }

  /** The label at a position of the table; the inverse of Index. */
  function LabelAt(i: nat): (l: Label)
    requires i < |ClassNames|
    ensures Index(l) == i
  {
    if i == 0 then Cloudy
    else if i == 1 then Desert
    else if i == 2 then GreenArea
    else Water
  }

  /** The text the application shows for a label. */
  function Name(l: Label): (s: string)
    ensures s == ClassNames[Index(l)]
  {
    match l
    case Cloudy => "Cloudy"
    case Desert => "Desert"
    case GreenArea => "Green Area"
    case Water => "Water"
  }

  lemma IndexRoundTrip(l: Label)
    ensures LabelAt(Index(l)) == l
  {
  }

  /** Distinct labels are shown under distinct names. */
  lemma NameInjective(a: Label, b: Label)
    ensures Name(a) == Name(b) <==> a == b
  {
  }

  /**
   * k is the first index of a maximum of v: no element exceeds v[k], and
   * every element before k is strictly smaller (the first occurrence wins a tie).
   */
  ghost predicate IsFirstMax(v: seq<real>, k: int)
  {
    && 0 <= k < |v|
    && (forall j :: 0 <= j < |v| ==> v[j] <= v[k])
    && (forall j :: 0 <= j < k ==> v[j] < v[k])
  }

  /** A vector has exactly one first maximum. */
  lemma FirstMaxUnique(v: seq<real>, i: int, k: int)
    requires IsFirstMax(v, i) && IsFirstMax(v, k)
    ensures i == k
  {
    assert v[i] == v[k];
  }

  /** np.argmax: the index of the first maximum of a non-empty vector. */
  function ArgMax(v: seq<real>): (k: nat)
    requires |v| > 0
    ensures IsFirstMax(v, k)
    decreases |v|
  {
    if |v| == 1 then 0
    else
      var k := ArgMax(v[..|v| - 1]);
      if v[k] < v[|v| - 1] then |v| - 1 else k
  }

  /** ArgMax picks the first maximum and nothing else. */
  lemma ArgMaxIsFirstMax(v: seq<real>, k: int)
    requires |v| > 0
    ensures ArgMax(v) == k <==> IsFirstMax(v, k)
  {
  }

  /** Why predict_image can fail: np.argmax of an empty vector, or an index past the table. */
  datatype PredictError = EmptyPrediction | IndexOutOfRange(index: nat)

  /**
   * predict_image once the model has produced its (flattened) output vector:
   * the label at the first maximum, or the exception the source raises.
   */
  function Predict(probs: seq<real>): (r: Result<Label, PredictError>)
    ensures r == Failure(EmptyPrediction) <==> |probs| == 0
    ensures r.Success? ==> IsFirstMax(probs, Index(r.value))
    ensures r.Success? ==> Name(r.value) == ClassNames[Index(r.value)]
    ensures r.Failure? && r.error.IndexOutOfRange? ==>
              |ClassNames| <= r.error.index && IsFirstMax(probs, r.error.index)
    ensures 0 < |probs| <= |ClassNames| ==> r.Success?
  {
    if |probs| == 0 then Failure(EmptyPrediction)
    else
      var k := ArgMax(probs);
      if k < |ClassNames| then Success(LabelAt(k)) else Failure(IndexOutOfRange(k))
  }

  /** A vector whose first maximum is at i < 4 is classified as the label at i, and conversely. */
  lemma PredictIsTableLookup(probs: seq<real>, i: nat)
    requires i < |ClassNames|
    ensures Predict(probs) == Success(LabelAt(i)) <==> IsFirstMax(probs, i)
  {
  }

  /** A tie between outputs 1 and 2 goes to the first: Desert. */
  lemma TieGoesToFirst()
    ensures Predict([0.1, 0.7, 0.7, 0.1]) == Success(Desert)
  {
    var v: seq<real> := [0.1, 0.7, 0.7, 0.1];
    assert IsFirstMax(v, 1);
    PredictIsTableLookup(v, 1);
  }

  /** A stub classifier emitting [0.1, 0.7, 0.1, 0.1] gives Desert. */
  lemma StubGivesDesert()
    ensures Predict([0.1, 0.7, 0.1, 0.1]) == Success(Desert)
  {
    var v: seq<real> := [0.1, 0.7, 0.1, 0.1];
    assert IsFirstMax(v, 1);
    PredictIsTableLookup(v, 1);
  }
}
