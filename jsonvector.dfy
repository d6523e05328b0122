// The vector <-> JSON array helpers used to save and load curve data
// (vectorToJson and jsonToVector, wt_plottingwidget.cpp).

module JsonVector {

  /** A JSON value as a JSON array may hold it. */
  datatype JsonValue =
    | JNull
    | JBool(b: bool)
    | JNumber(n: real)
    | JString(s: string)
    | JArray(items: seq<JsonValue>)

  /** Reading a JSON value as a double: numbers give their value, anything else the default 0. */
  function ToDouble(v: JsonValue): real
  {
    if v.JNumber? then v.n else 0.0
  }

  /** The array a vector is saved as: each double appended as a JSON number. */
  function ArrayOf(vec: seq<real>): (arr: seq<JsonValue>)
    ensures |arr| == |vec|
    ensures forall i :: 0 <= i < |vec| ==> arr[i] == JNumber(vec[i])
  {
    if vec == [] then [] else ArrayOf(vec[..|vec| - 1]) + [JNumber(vec[|vec| - 1])]
  }

  /** The vector an array is loaded as: each element read as a double. */
  function VectorOf(arr: seq<JsonValue>): (vec: seq<real>)
    ensures |vec| == |arr|
    ensures forall i :: 0 <= i < |arr| ==> vec[i] == ToDouble(arr[i])
  {
    if arr == [] then [] else VectorOf(arr[..|arr| - 1]) + [ToDouble(arr[|arr| - 1])]
  }

  method VectorToJson(vec: seq<real>) returns (arr: seq<JsonValue>)
    ensures arr == ArrayOf(vec)
  {
    arr := [];
    var i := 0;
    while i < |vec|
      invariant 0 <= i <= |vec|
      invariant arr == ArrayOf(vec[..i])
    {
      assert vec[..i + 1][..i] == vec[..i];
      arr := arr + [JNumber(vec[i])];
      i := i + 1;
    }
    assert vec[..|vec|] == vec;
  }

  method JsonToVector(arr: seq<JsonValue>) returns (vec: seq<real>)
    ensures vec == VectorOf(arr)
  {
    vec := [];
    var i := 0;
    while i < |arr|
      invariant 0 <= i <= |arr|
      invariant vec == VectorOf(arr[..i])
    {
      assert arr[..i + 1][..i] == arr[..i];
      vec := vec + [ToDouble(arr[i])];
      i := i + 1;
    }
    assert arr[..|arr|] == arr;
  }

  /** Saving a vector and loading it back gives the same vector: same length, order and values. */
  lemma VectorRoundTrip(vec: seq<real>)
    ensures VectorOf(ArrayOf(vec)) == vec
  {
  }

  /** Loading an array and saving it back gives the same array exactly when every element is a number. */
  lemma ArrayRoundTrip(arr: seq<JsonValue>)
    ensures ArrayOf(VectorOf(arr)) == arr <==> forall i :: 0 <= i < |arr| ==> arr[i].JNumber?
  {
    if ArrayOf(VectorOf(arr)) == arr {
      forall i | 0 <= i < |arr| ensures arr[i].JNumber? {
        assert ArrayOf(VectorOf(arr))[i] == JNumber(VectorOf(arr)[i]);
      }
    }
  }
}
