/** Plain objects as the router compares them (`shallowIsEqual` in src/index.ts). */
module Records {
  import opened Types

  /** A property value of a plain object. `Undefined` is both the value of a key that
      is present but set to `undefined` and what reading a missing key yields. */
  datatype Field = Undefined | Str(s: string) | Obj(params: Params)

  type Record = map<string, Field>

  /** Reads key `k` of `b`, `undefined` when it is missing. */
  function Lookup(b: Record, k: string): Field
  {
    if k in b then b[k] else Undefined
  }

  /** `shallowIsEqual(a, b)`: the same number of keys, and every key of `a` reads the
      identical value in `b`. Values are compared as wholes. Equal objects compare
      equal, and a pair that compares equal agrees on every key `a` gives a value. */
  function ShallowIsEqual(a: Record, b: Record): (r: bool)
    ensures a == b ==> r
    ensures r ==> forall k :: k in a && !a[k].Undefined? ==> k in b && b[k] == a[k]
  {
    |a| == |b| && forall k :: k in a ==> Lookup(b, k) == a[k]
  }

  /** No key is explicitly set to `undefined`. */
  ghost predicate Defined(a: Record)
  {
    forall k :: k in a ==> !a[k].Undefined?
  }

  /** A set inside another of the same size is that set. */
  lemma SubsetOfSameSize<T>(s: set<T>, t: set<T>)
    requires s <= t && |s| == |t|
    ensures s == t
  {
    assert |t - s| == |t| - |s| == 0;
  }

  /** On objects without `undefined` values, shallow equality is exactly equality of
      the key-value records, and so symmetric. */
  lemma ShallowIsEqualDefinedIff(a: Record, b: Record)
    requires Defined(a) && Defined(b)
    ensures ShallowIsEqual(a, b) <==> a == b
  {
    if ShallowIsEqual(a, b) {
      assert a.Keys <= b.Keys by {
        forall k | k in a
          ensures k in b
        {
          assert Lookup(b, k) == a[k];
        }
      }
      assert |a.Keys| == |a| && |b.Keys| == |b|;
      SubsetOfSameSize(a.Keys, b.Keys);
      forall k | k in a
        ensures b[k] == a[k]
      {
        assert Lookup(b, k) == a[k];
      }
    }
  }

  /** With an explicit `undefined` the comparison is not symmetric: `{x: undefined}`
      equals `{y: ''}` one way round but not the other. */
  lemma ShallowIsEqualNotSymmetric()
    ensures ShallowIsEqual(map["x" := Undefined], map["y" := Str("")])
    ensures !ShallowIsEqual(map["y" := Str("")], map["x" := Undefined])
  {
  }
}
