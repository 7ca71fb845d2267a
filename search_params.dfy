/** `URLSearchParams` as the sign-in flow uses it: an ordered list of name/value pairs
    whose `get` returns the first value for a name. Percent-decoding of a raw query
    string and the form-encoding of values are outside the model; the serializer takes
    the value encoder as a parameter. */
module SearchParams {
  import opened Base
  import Strings

  type Params = seq<(string, string)>

  /** `params.get(name)`: the value of the first pair with that name. */
  function Get(ps: Params, name: string): (v: Option<string>)
    ensures v.None? <==> forall i :: 0 <= i < |ps| ==> ps[i].0 != name
    ensures v.Some? ==> exists i :: 0 <= i < |ps| && ps[i] == (name, v.value)
                          && forall j :: 0 <= j < i ==> ps[j].0 != name
    decreases |ps|
  {
    if ps == [] then None
    else if ps[0].0 == name then Some(ps[0].1)
    else
      var v := Get(ps[1..], name);
      assert forall i :: 1 <= i < |ps| ==> ps[i] == ps[1..][i - 1];
      v
  }

  /** Each pair written as `name=value`, with the value through `encode`, in order. */
  function Pairs(ps: Params, encode: string -> string): (r: seq<string>)
    ensures |r| == |ps|
    ensures forall i :: 0 <= i < |ps| ==> r[i] == ps[i].0 + "=" + encode(ps[i].1)
    decreases |ps|
  {
    if ps == [] then [] else [ps[0].0 + "=" + encode(ps[0].1)] + Pairs(ps[1..], encode)
  }

  /** `params.toString()`: every pair as `name=value`, in order, joined by `&`. Values go
      through the form encoder `encode`; names are written as they are, since the names
      this flow uses are plain ASCII words that the form encoding leaves unchanged. */
  function Serialize(ps: Params, encode: string -> string): (text: string)
    ensures text == Strings.Join(Pairs(ps, encode), "&")
    ensures text == [] <==> ps == []
    ensures ps != [] ==> ps[0].0 + "=" + encode(ps[0].1) <= text
    ensures |ps| > 1 ==> ps[0].0 + "=" + encode(ps[0].1) + "&" <= text
    decreases |ps|
  {
    if ps == [] then []
    else
      var pair := ps[0].0 + "=" + encode(ps[0].1);
      assert Pairs(ps, encode)[1..] == Pairs(ps[1..], encode);
      if |ps| == 1 then pair else pair + "&" + Serialize(ps[1..], encode)
  }
}
