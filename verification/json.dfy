/**
  JSON values as they travel in request and response bodies.
  Numbers are integers here: no body in this system relies on fractions.
 */
module Json {
  import opened Common

  datatype Json =
    | JNull
    | JBool(b: bool)
    | JNum(n: int)
    | JStr(s: string)
    | JArr(items: seq<Json>)
    | JObj(fields: map<string, Json>)

  /** True when the value is an array whose every element is a string. */
  predicate IsStringArray(v: Json)
  {
    v.JArr? && forall i :: 0 <= i < |v.items| ==> v.items[i].JStr?
  }

  /** `JSON.stringify` of a string array. */
  function StringsToJson(xs: seq<string>): (v: Json)
    ensures IsStringArray(v)
    ensures |v.items| == |xs|
  {
    JArr(seq(|xs|, i requires 0 <= i < |xs| => JStr(xs[i])))
  }

  /** The strings of a string array; anything else reads as no strings at all. */
  function JsonToStrings(v: Json): (xs: seq<string>)
    ensures IsStringArray(v) ==> |xs| == |v.items|
    ensures IsStringArray(v) ==> forall i :: 0 <= i < |xs| ==> JStr(xs[i]) == v.items[i]
  {
    if IsStringArray(v) then seq(|v.items|, i requires 0 <= i < |v.items| => v.items[i].s) else []
  }

  /** Encoding a string array and reading it back yields the same strings. */
  lemma StringsRoundTrip(xs: seq<string>)
    ensures JsonToStrings(StringsToJson(xs)) == xs
  {
  }

  /** Reading a string array and encoding it again gives back the same JSON. */
  lemma StringsRoundTripBack(v: Json)
    requires IsStringArray(v)
    ensures StringsToJson(JsonToStrings(v)) == v
  {
    var back := StringsToJson(JsonToStrings(v));
    assert |back.items| == |v.items|;
    forall i | 0 <= i < |v.items|
      ensures back.items[i] == v.items[i]
    {
    }
  }
}
