/// Multi-valued string maps: Go's `url.Values` and `http.Header`, both
/// `map[string][]string`, and the additive `Add` the client merges them with.
module Values {

  /** A key maps to its values in insertion order. */
  type Values = map<string, seq<string>>

  /** The values stored under `k`; a missing key reads as no values. */
  function ValuesAt(m: Values, k: string): seq<string>
  {
    if k in m then m[k] else []
  }

  /** `Add` appends one value under a key, creating the key if needed. */
  function Add(m: Values, k: string, v: string): (r: Values)
    ensures ValuesAt(r, k) == ValuesAt(m, k) + [v]
    ensures forall k' | k' != k :: ValuesAt(r, k') == ValuesAt(m, k')
    ensures r.Keys == m.Keys + {k}
  {
    m[k := ValuesAt(m, k) + [v]]
  }

  /** The state reached by adding every value of `src`, key by key and in
      each key's value order, into `m`. A key of `src` whose list is empty
      adds nothing, so it does not appear unless `m` already had it. */
  function Merge(m: Values, src: Values): (r: Values)
    ensures forall k :: ValuesAt(r, k) == ValuesAt(m, k) + ValuesAt(src, k)
    ensures forall k :: k in r <==> k in m || ValuesAt(src, k) != []
  {
    map k | k in m.Keys + src.Keys && (k in m || src[k] != []) :: ValuesAt(m, k) + ValuesAt(src, k)
  }

  /** Merging nothing leaves the map as it was. */
  lemma MergeNothing(m: Values)
    ensures Merge(m, map[]) == m
  {
    var r := Merge(m, map[]);
    assert r.Keys == m.Keys;
    forall k | k in m ensures r[k] == m[k] {
      assert ValuesAt(r, k) == ValuesAt(m, k);
    }
  }

  /** Copying into an empty map reproduces every key with values and loses
      the keys stored with no values, so the copy is the map itself exactly
      when no key has an empty list. */
  lemma {:induction false} CopyKeepsNonEmpty(src: Values)
    ensures Merge(map[], src) == src <==> forall k | k in src :: src[k] != []
  {
    var r := Merge(map[], src);
    if forall k | k in src :: src[k] != [] {
      assert r.Keys == src.Keys;
      forall k | k in r ensures r[k] == src[k] {
        assert ValuesAt(r, k) == ValuesAt(map[], k) + ValuesAt(src, k);
        assert ValuesAt(map[], k) == [];
      }
    }
    if r == src {
      forall k | k in src ensures src[k] != [] {
        assert k in r;
      }
    }
  }

  /** A merge only appends: every value already stored under a key stays
      there, at the same position. */
  lemma MergeOnlyAppends(m: Values, src: Values, k: string)
    requires k in m
    ensures k in Merge(m, src)
    ensures Merge(m, src)[k][..|m[k]|] == m[k]
  {
    assert ValuesAt(Merge(m, src), k) == m[k] + ValuesAt(src, k);
  }

  /** The inner loop `for _, v := range vs { m.Add(k, v) }`. */
  method AddValues(m: Values, k: string, vs: seq<string>) returns (r: Values)
    ensures r == if vs == [] then m else m[k := ValuesAt(m, k) + vs]
  {
    r := m;
    var i := 0;
    while i < |vs|
      invariant 0 <= i <= |vs|
      invariant r == if i == 0 then m else m[k := ValuesAt(m, k) + vs[..i]]
    {
      assert ValuesAt(r, k) == ValuesAt(m, k) + vs[..i];
      assert vs[..i + 1] == vs[..i] + [vs[i]];
      var next := m[k := ValuesAt(m, k) + vs[..i + 1]];
      r := Add(r, k, vs[i]);
      assert r.Keys == next.Keys;
      assert forall k' | k' in r :: r[k'] == next[k'];
      i := i + 1;
    }
    assert vs[..i] == vs;
  }

  /** The loop `for k, vs := range src { for _, v := range vs { m.Add(k, v) } }`.
      Go visits the keys of `src` in an unspecified order; the order cannot
      change the result because each key's values land under that key only. */
  method AddAll(m: Values, src: Values) returns (r: Values)
    ensures r == Merge(m, src)
  {
    r := m;
    var todo := src.Keys;
    while todo != {}
      invariant todo <= src.Keys
      invariant forall k :: k in r <==> k in m || (k in src && k !in todo && src[k] != [])
      invariant forall k | k in r ::
        r[k] == ValuesAt(m, k) + (if k in src && k !in todo then src[k] else [])
      decreases todo
    {
      var k :| k in todo;
      r := AddValues(r, k, src[k]);
      todo := todo - {k};
    }
    var spec := Merge(m, src);
    assert r.Keys == spec.Keys;
    forall k | k in r ensures r[k] == spec[k] {
      assert ValuesAt(spec, k) == ValuesAt(m, k) + ValuesAt(src, k);
    }
  }
}
