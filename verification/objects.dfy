/** The three object primitives the library is written with: picking the
    named properties of an object, omitting them, and shallow assignment. */
module Objects {
  import opened JsValues

  /** The set of keys listed in a key sequence. */
  function KeySet(keys: seq<string>): set<string>
  {
    set k | k in keys
  }

  /** `_.pick`: a fresh object holding the properties of `obj` whose names are in `keys`. */
  function Pick(obj: Object, keys: set<string>): (r: Object)
    ensures r.Keys == obj.Keys * keys
    ensures forall k :: k in r ==> r[k] == obj[k]
  {
    map k | k in obj && k in keys :: obj[k]
  }

  /** `_.omit`: a fresh object holding the properties of `obj` whose names are not in `keys`. */
  function Omit(obj: Object, keys: set<string>): (r: Object)
    ensures r.Keys == obj.Keys - keys
    ensures forall k :: k in r ==> r[k] == obj[k]
  {
    obj - keys
  }

  /** `_.assign(target, src)`: every property of `src` is written onto `target`,
      replacing a property of the same name; the others keep their values. */
  function AssignProps(target: Object, src: Object): (r: Object)
    ensures r.Keys == target.Keys + src.Keys
    ensures forall k :: k in src ==> r[k] == src[k]
    ensures forall k :: k in target && k !in src ==> r[k] == target[k]
  {
    target + src
  }

  /** The loop inside `_.pick`: walk the requested names in order and copy each
      one the object has. Its result is the set-level `Pick` that `params` uses. */
  method PickByArray(obj: Object, props: seq<string>) returns (r: Object)
    ensures r == Pick(obj, KeySet(props))
    ensures r.Keys == obj.Keys * KeySet(props)
    ensures forall k :: k in r ==> r[k] == obj[k]
  {
    r := map[];
    var i := 0;
    while i < |props|
      invariant 0 <= i <= |props|
      invariant r.Keys == obj.Keys * KeySet(props[..i])
      invariant forall k :: k in r ==> k in obj && r[k] == obj[k]
    {
      var key := props[i];
      assert props[..i + 1] == props[..i] + [key];
      assert KeySet(props[..i + 1]) == KeySet(props[..i]) + {key};
      if key in obj {
        r := r[key := obj[key]];
      }
      i := i + 1;
    }
    assert props[..i] == props;
  }

  /** Picking and omitting the same names split an object in two. */
  lemma PickOmitPartition(obj: Object, keys: set<string>)
    ensures Pick(obj, keys).Keys !! Omit(obj, keys).Keys
    ensures Pick(obj, keys).Keys + Omit(obj, keys).Keys == obj.Keys
    ensures AssignProps(Pick(obj, keys), Omit(obj, keys)) == obj
  {
  }
}
