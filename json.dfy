/**
 * Decoded JSON values, the shape of a backend reply after `resp.json()`.
 */
module Json {

  datatype Value =
    | Null
    | Bool(b: bool)
    | Num(x: real)
    | Str(s: string)
    | List(items: seq<Value>)
    | Obj(fields: map<string, Value>)

  /** A list of numbers, as `forecast.tolist()` serialises a numpy float array. */
  function NumList(xs: seq<real>): (v: Value)
    ensures v.List? && |v.items| == |xs|
    ensures forall i :: 0 <= i < |xs| ==> v.items[i] == Num(xs[i])
  {
    List(seq(|xs|, i requires 0 <= i < |xs| => Num(xs[i])))
  }
}
