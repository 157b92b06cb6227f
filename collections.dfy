/**
 * Facts about tables filled one row at a time: a map restricted to the keys
 * written so far, and the union of the row sets written so far.
 */
module Collections {
  import opened Wrappers

  /** The first element of `xs` whose id, as `idOf` gives it, is `id`, if any. */
  function FindFirst<T>(xs: seq<T>, idOf: T -> string, id: string): (r: Option<T>)
    ensures r.Some? ==> r.value in xs && idOf(r.value) == id
    ensures r.None? ==> forall i :: 0 <= i < |xs| ==> idOf(xs[i]) != id
  {
    if xs == [] then None
    else if idOf(xs[0]) == id then Some(xs[0])
    else FindFirst(xs[1..], idOf, id)
  }

  /** The entries of `m` whose keys are in `ks`. */
  function Restrict<K, V>(m: map<K, V>, ks: set<K>): (r: map<K, V>)
    ensures r.Keys == m.Keys * ks
    ensures forall k :: k in r ==> r[k] == m[k]
  {
    map k | k in ks && k in m :: m[k]
  }

  /** Writing one more entry of `m` over `base` extends the restriction by that key. */
  lemma RestrictStep<K, V>(base: map<K, V>, m: map<K, V>, ks: set<K>, k: K)
    requires k in m
    ensures (base + Restrict(m, ks))[k := m[k]] == base + Restrict(m, ks + {k})
  {
    var l := (base + Restrict(m, ks))[k := m[k]];
    var r := base + Restrict(m, ks + {k});
    assert l.Keys == r.Keys;
    forall j | j in l ensures l[j] == r[j] {
      if j != k && j in Restrict(m, ks) {
        assert j in Restrict(m, ks + {k});
      }
    }
  }

  lemma RestrictAll<K, V>(m: map<K, V>)
    ensures Restrict(m, m.Keys) == m
  {
  }

  lemma RestrictNone<K, V>(base: map<K, V>, m: map<K, V>)
    ensures base + Restrict(m, {}) == base
  {
    assert Restrict(m, {}) == map[];
  }

  /** An update of a key that `n` then overwrites leaves no trace. */
  lemma OverwrittenUpdate<K, V>(m: map<K, V>, k: K, v: V, n: map<K, V>)
    requires k in n
    ensures m[k := v] + n == m + n
  {
    assert (m[k := v] + n).Keys == (m + n).Keys;
  }

  /** The union of the sets `f` holds under the keys in `ks`. */
  function UnionOver<K(!new), T(!new)>(f: map<K, set<T>>, ks: set<K>): (r: set<T>)
    ensures forall x :: x in r <==> exists k :: k in ks && k in f && x in f[k]
  {
    set k, x | k in ks && k in f && x in f[k] :: x
  }

  /** One more key adds its set. */
  lemma UnionOverStep<K(!new), T(!new)>(f: map<K, set<T>>, ks: set<K>, k: K)
    requires k in f
    ensures UnionOver(f, ks + {k}) == UnionOver(f, ks) + f[k]
  {
  }

  lemma UnionOverNone<K(!new), T(!new)>(f: map<K, set<T>>)
    ensures UnionOver(f, {}) == {}
  {
  }

  /** Each element's image under `f`, concatenated in order. */
  function FlatMap<T, U>(s: seq<T>, f: T -> seq<U>): seq<U>
  {
    if s == [] then [] else f(s[0]) + FlatMap(s[1..], f)
  }

  lemma {:induction false} FlatMapSnoc<T, U>(s: seq<T>, x: T, f: T -> seq<U>)
    ensures FlatMap(s + [x], f) == FlatMap(s, f) + f(x)
  {
    if s != [] {
      assert (s + [x])[1..] == s[1..] + [x];
      FlatMapSnoc(s[1..], x, f);
    }
  }

  /** Every element of the result comes from the image of some element, and every image is included. */
  lemma {:induction false} FlatMapMembers<T, U>(s: seq<T>, f: T -> seq<U>)
    ensures forall y :: y in FlatMap(s, f) ==> exists i :: 0 <= i < |s| && y in f(s[i])
    ensures forall i, y :: 0 <= i < |s| && y in f(s[i]) ==> y in FlatMap(s, f)
  {
    if s != [] {
      FlatMapMembers(s[1..], f);
      forall y | y in FlatMap(s, f) ensures exists i :: 0 <= i < |s| && y in f(s[i]) {
        if y !in f(s[0]) {
          assert y in FlatMap(s[1..], f);
          var i :| 0 <= i < |s[1..]| && y in f(s[1..][i]);
          assert s[i + 1] == s[1..][i];
        }
      }
      forall i, y | 0 <= i < |s| && y in f(s[i]) ensures y in FlatMap(s, f) {
        if i > 0 {
          assert s[1..][i - 1] == s[i];
        }
      }
    }
  }

  /** Every value of `m` mapped through `f`. */
  function MapValues<K, V, W>(m: map<K, V>, f: V -> W): (r: map<K, W>)
    ensures r.Keys == m.Keys
    ensures forall k :: k in r ==> r[k] == f(m[k])
  {
    map k | k in m :: f(m[k])
  }

  /** The loop that maps every value of `m` through `f`, visiting the keys in `order`. */
  method VisitMap<K, V, W>(m: map<K, V>, order: seq<K>, f: V -> W) returns (r: map<K, W>)
    requires forall k :: k in m <==> k in order
    ensures r == MapValues(m, f)
  {
    r := map[];
    for i := 0 to |order|
      invariant forall j :: 0 <= j < i ==> order[j] in r
      invariant forall k :: k in r ==> k in m && r[k] == f(m[k])
    {
      r := r[order[i] := f(m[order[i]])];
    }
    assert r.Keys == m.Keys;
  }

  /** The values of `m` for which `f` gives a result, replaced by that result. */
  function FilterValues<K(!new), V, W>(m: map<K, V>, f: V -> Option<W>): (r: map<K, W>)
    ensures forall k :: k in r <==> k in m && f(m[k]).Some?
    ensures forall k :: k in r ==> f(m[k]) == Some(r[k])
  {
    map k | k in m && f(m[k]).Some? :: f(m[k]).value
  }

  /** The loop that keeps the values of `m` for which `f` gives a result. */
  method CollectSome<K(!new), V, W>(m: map<K, V>, f: V -> Option<W>) returns (r: map<K, W>)
    ensures r == FilterValues(m, f)
  {
    r := map[];
    var rest := m.Keys;
    while rest != {}
      invariant rest <= m.Keys
      invariant forall k :: k in r <==> k in m && k !in rest && f(m[k]).Some?
      invariant forall k :: k in r ==> f(m[k]) == Some(r[k])
      decreases rest
    {
      var k :| k in rest;
      var v := f(m[k]);
      if v.Some? {
        r := r[k := v.value];
      }
      rest := rest - {k};
    }
    assert r.Keys == FilterValues(m, f).Keys;
  }

  /** Filtering through a left inverse of `g` undoes mapping through `g`. */
  lemma FilterAfterMap<K(!new), V, W>(m: map<K, W>, g: W -> V, f: V -> Option<W>)
    requires forall k :: k in m ==> f(g(m[k])) == Some(m[k])
    ensures FilterValues(MapValues(m, g), f) == m
  {
    assert FilterValues(MapValues(m, g), f).Keys == m.Keys;
  }
}
