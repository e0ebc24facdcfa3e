/** `dict(zip(keys, values))`, the map both property-list decoders are built from. */
module PyDict {
  import opened Py

  /** The pairs of `keys` and `values` up to the shorter list, inserted in
      order, so that of two equal keys the later pair wins. */
  function Zip(keys: seq<string>, values: seq<Value>): (m: map<string, Value>)
    ensures forall k :: k in m <==> exists i :: 0 <= i < Min(|keys|, |values|) && keys[i] == k
    decreases |keys|
  {
    var n := Min(|keys|, |values|);
    if n == 0 then map[]
    else
      var m' := Zip(keys[..n - 1], values[..n - 1]);
      assert forall k :: k in m' <==> exists i :: 0 <= i < n - 1 && keys[i] == k;
      m'[keys[n - 1] := values[n - 1]]
  }

  predicate Distinct(keys: seq<string>)
  {
    forall i, j :: 0 <= i < j < |keys| ==> keys[i] != keys[j]
  }

  /** A key that no later pair repeats maps to the value beside it. */
  lemma {:induction false} ZipAt(keys: seq<string>, values: seq<Value>, i: nat)
    requires i < Min(|keys|, |values|)
    requires forall j :: i < j < Min(|keys|, |values|) ==> keys[j] != keys[i]
    ensures keys[i] in Zip(keys, values) && Zip(keys, values)[keys[i]] == values[i]
    decreases |keys|
  {
    var n := Min(|keys|, |values|);
    if i < n - 1 {
      var ks, vs := keys[..n - 1], values[..n - 1];
      assert Min(|ks|, |vs|) == n - 1;
      ZipAt(ks, vs, i);
    }
  }

  /** With distinct keys, the i-th key maps to the i-th value when there is
      one, and is absent when the values stop before it. */
  lemma ZipDistinct(keys: seq<string>, values: seq<Value>)
    requires Distinct(keys)
    ensures forall i :: 0 <= i < |keys| ==>
      if i < |values| then keys[i] in Zip(keys, values) && Zip(keys, values)[keys[i]] == values[i]
      else keys[i] !in Zip(keys, values)
  {
    forall i | 0 <= i < |keys|
      ensures if i < |values| then keys[i] in Zip(keys, values) && Zip(keys, values)[keys[i]] == values[i]
              else keys[i] !in Zip(keys, values)
    {
      if i < |values| {
        ZipAt(keys, values, i);
      }
    }
  }
}
