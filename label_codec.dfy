/**
 * A fitted scikit-learn `LabelEncoder`, reduced to its `classes_` list: a
 * label is encoded as its position in that list, and decoding is indexing.
 */
module LabelCodec {
  import opened Wrappers

  const UnseenLabels := "y contains previously unseen labels"
  /** An index past the classes; the text is a tag for numpy's index error, not its own message. */
  const IndexOutOfBounds := "index is out of bounds for the encoder's classes"

  function IndexOf(classes: seq<string>, v: string): (k: nat)
    requires v in classes
    ensures k < |classes| && classes[k] == v && v !in classes[..k]
  {
    if classes[0] == v then 0
    else
      var k := 1 + IndexOf(classes[1..], v);
      assert classes[..k] == [classes[0]] + classes[1..][..k - 1];
      k
  }

  /** `encoder.transform(values)`: fails as a whole on the first label outside `classes`. */
  function Transform(classes: seq<string>, values: seq<string>): (r: Result<seq<nat>, string>)
    ensures r.Ok? <==> forall i :: 0 <= i < |values| ==> values[i] in classes
    ensures r.Err? ==> r.error == UnseenLabels
    ensures r.Ok? ==> |r.value| == |values| && forall i :: 0 <= i < |values| ==> r.value[i] < |classes|
  {
    if forall i :: 0 <= i < |values| ==> values[i] in classes then
      Ok(seq(|values|, i requires 0 <= i < |values| => IndexOf(classes, values[i])))
    else Err(UnseenLabels)
  }

  /** `encoder.inverse_transform([k])[0]`. */
  function InverseTransform(classes: seq<string>, k: nat): (r: Result<string, string>)
    ensures r.Ok? <==> k < |classes|
  {
    if k < |classes| then Ok(classes[k]) else Err(IndexOutOfBounds)
  }

  /** Decoding an encoded label gives the label back. */
  lemma InverseOfTransform(classes: seq<string>, values: seq<string>, i: nat)
    requires Transform(classes, values).Ok? && i < |values|
    ensures InverseTransform(classes, Transform(classes, values).value[i]) == Ok(values[i])
  {
    assert values[i] in classes;
  }
}
