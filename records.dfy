/** The plain JavaScript objects the client passes around — a patient, the
    form's `formData` and `additionalFields` — as string-valued records that
    remember the order in which their keys were first added (the order
    `Object.keys` reports), together with property assignment and the
    object spread `{ ...a, ...b }`. */
module Records {

  datatype Option<T> = None | Some(value: T)

  /** Keys in insertion order, and the value of each key. */
  datatype Dict = Dict(keys: seq<string>, values: map<string, string>) {
    /** Each key is listed once, and the listed keys are the keys that have a value. */
    ghost predicate Valid() {
      && Distinct(keys)
      && (forall k :: k in values <==> k in keys)
    }
  }

  /** No key is listed twice. */
  ghost predicate Distinct(keys: seq<string>) {
    keys == [] || (keys[0] !in keys[1..] && Distinct(keys[1..]))
  }

  /** Appending a key not yet listed keeps the list free of repeats. */
  lemma {:induction false} DistinctAppend(keys: seq<string>, k: string)
    requires Distinct(keys) && k !in keys
    ensures Distinct(keys + [k])
  {
    if keys != [] {
      assert (keys + [k])[1..] == keys[1..] + [k];
      DistinctAppend(keys[1..], k);
    }
  }

  type Record = d: Dict | d.Valid() witness Dict([], map[])

  /** `{}` */
  const Empty: Record := Dict([], map[])

  /** `m[k]` on a plain key→value map, with `None` standing for `undefined`. */
  function Lookup(m: map<string, string>, k: string): Option<string> {
    if k in m then Some(m[k]) else None
  }

  /** `r[k]`, with `None` standing for `undefined`. */
  function Get(r: Record, k: string): Option<string> {
    Lookup(r.values, k)
  }

  /** `{ ...r, [k]: v }`: an existing key keeps its place and takes the new
      value; a new key goes last. */
  function Put(r: Record, k: string, v: string): (r': Record)
    ensures Get(r', k) == Some(v)
    ensures forall j :: j != k ==> Get(r', j) == Get(r, j)
    ensures |r.keys| <= |r'.keys| && r'.keys[..|r.keys|] == r.keys
    ensures |r'.keys| == if k in r.values then |r.keys| else |r.keys| + 1
  {
    var d := Dict(if k in r.values then r.keys else r.keys + [k], r.values[k := v]);
    assert d.Valid() by {
      if k !in r.values {
        DistinctAppend(r.keys, k);
      }
    }
    d
  }

  /** Assigns, left to right, `r[ks[i]] = vals[ks[i]]` for each listed key. */
  function PutAll(r: Record, ks: seq<string>, vals: map<string, string>): (r': Record)
    requires forall k :: k in ks ==> k in vals
    ensures forall k :: Get(r', k) == if k in ks then Some(vals[k]) else Get(r, k)
    ensures |r.keys| <= |r'.keys| && r'.keys[..|r.keys|] == r.keys
    decreases |ks|
  {
    if ks == [] then r
    else
      var next := Put(r, ks[0], vals[ks[0]]);
      var r' := PutAll(next, ks[1..], vals);
      assert forall k :: k in ks <==> k == ks[0] || k in ks[1..];
      assert r'.keys[..|r.keys|] == r'.keys[..|next.keys|][..|r.keys|];
      r'
  }

  /** `{ ...a, ...b }`: every key of either, `b` winning on the keys they share,
      with `a`'s keys first and in their order. */
  function Merge(a: Record, b: Record): (r: Record)
    ensures r.values == a.values + b.values
    ensures |a.keys| <= |r.keys| && r.keys[..|a.keys|] == a.keys
  {
    PutAllValues(a, b);
    PutAll(a, b.keys, b.values)
  }

  /** Spreading all of `b`'s keys gives the right-biased union of the two maps. */
  lemma PutAllValues(a: Record, b: Record)
    ensures PutAll(a, b.keys, b.values).values == a.values + b.values
  {
    var r := PutAll(a, b.keys, b.values);
    var u := a.values + b.values;
    forall k ensures Lookup(r.values, k) == Lookup(u, k) {
      assert (k in b.keys) == (k in b.values);
    }
    LookupExtensional(r.values, u);
  }

  /** Two maps that answer every lookup alike are the same map. */
  lemma LookupExtensional(m: map<string, string>, n: map<string, string>)
    requires forall k :: Lookup(m, k) == Lookup(n, k)
    ensures m == n
  {
    forall k | k in m ensures k in n && m[k] == n[k] {
      assert Lookup(m, k) == Lookup(n, k);
    }
    forall k | k in n ensures k in m {
      assert Lookup(m, k) == Lookup(n, k);
    }
  }

  /** After a merge, a key of `b` reads `b`'s value and any other key reads `a`'s. */
  lemma MergeGet(a: Record, b: Record, k: string)
    ensures Get(Merge(a, b), k) == if k in b.values then Get(b, k) else Get(a, k)
  {
  }

  /** Merging with `{}` on either side gives back the same fields. */
  lemma MergeEmpty(a: Record)
    ensures Merge(a, Empty).values == a.values
    ensures Merge(Empty, a).values == a.values
  {
    assert a.values + Empty.values == a.values;
    assert Empty.values + a.values == a.values;
  }
}
