/**
 * The values `JSON.parse` can produce, and JavaScript truthiness, which the
 * application uses for every "value or default" choice (`x || d`, `if (x)`).
 */
module JsValues {
  import opened Wrappers

  datatype Json =
    | JNull
    | JBool(b: bool)
    | JNum(n: real)
    | JStr(s: string)
    | JArr(items: seq<Json>)
    | JObj(fields: map<string, Json>)

  /** ToBoolean: `null`, `false`, `0` and `""` are falsy; every array and object is truthy, even an empty one. */
  predicate Truthy(v: Json) {
    match v
    case JNull => false
    case JBool(b) => b
    case JNum(n) => n != 0.0
    case JStr(s) => s != ""
    case JArr(_) => true
    case JObj(_) => true
  }

  /** `v || fallback`: the value itself when it is truthy, the fallback otherwise. */
  function Or(v: Json, fallback: Json): (r: Json)
    ensures Truthy(v) ==> r == v
    ensures !Truthy(v) ==> r == fallback
  {
    if Truthy(v) then v else fallback
  }

  /** A list of strings as JSON (what `JSON.stringify` receives for the ingredient list). */
  function Strings(xs: seq<string>): (r: Json)
    ensures r.JArr? && |r.items| == |xs|
    ensures forall i :: 0 <= i < |xs| ==> r.items[i] == JStr(xs[i])
  {
    JArr(seq(|xs|, i requires 0 <= i < |xs| => JStr(xs[i])))
  }

  /** Reads a JSON list of strings back; anything else is not such a list. */
  function AsStrings(v: Json): (r: Option<seq<string>>)
    ensures r.Some? ==> Strings(r.value) == v
  {
    if v.JArr? && forall i :: 0 <= i < |v.items| ==> v.items[i].JStr? then
      Some(seq(|v.items|, i requires 0 <= i < |v.items| => v.items[i].s))
    else
      None
  }

  lemma StringsRoundTrip(xs: seq<string>)
    ensures AsStrings(Strings(xs)) == Some(xs)
  {
    var v := Strings(xs);
    assert forall i :: 0 <= i < |v.items| ==> v.items[i].JStr?;
    var ys := seq(|v.items|, i requires 0 <= i < |v.items| => v.items[i].s);
    assert AsStrings(v) == Some(ys);
    assert ys == xs;
  }
}
