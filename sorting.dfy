/**
 * Ordering of rows and keys. SQLite's `ORDER BY` with the BINARY collation and
 * Rust's `Ord` on `String` both compare strings code point by code point, and
 * SQLite puts NULL before every number and numbers before text; a sort key is
 * a sequence of such parts compared left to right.
 */
module Sorting {

  /** Lexicographic order on strings by code point. */
  predicate StrLe(a: string, b: string)
  {
    if a == [] then true
    else if b == [] then false
    else if a[0] != b[0] then a[0] < b[0]
    else StrLe(a[1..], b[1..])
  }

  lemma {:induction false} StrLeTotal(a: string, b: string)
    ensures StrLe(a, b) || StrLe(b, a)
  {
    if a != [] && b != [] && a[0] == b[0] {
      StrLeTotal(a[1..], b[1..]);
    }
  }

  lemma {:induction false} StrLeTransitive(a: string, b: string, c: string)
    requires StrLe(a, b) && StrLe(b, c)
    ensures StrLe(a, c)
  {
    if a != [] && b != [] && c != [] && a[0] == b[0] && b[0] == c[0] {
      StrLeTransitive(a[1..], b[1..], c[1..]);
    }
  }

  lemma {:induction false} StrLeAntisymmetric(a: string, b: string)
    requires StrLe(a, b) && StrLe(b, a)
    ensures a == b
  {
    if a != [] && b != [] {
      StrLeAntisymmetric(a[1..], b[1..]);
      assert a == [a[0]] + a[1..] && b == [b[0]] + b[1..];
    }
  }

  /** One column of a sort key. */
  datatype KeyPart = KNull | KInt(i: int) | KStr(s: string)

  type Key = seq<KeyPart>

  function Rank(p: KeyPart): nat
  {
    match p
    case KNull => 0
    case KInt(_) => 1
    case KStr(_) => 2
  }

  predicate PartLe(a: KeyPart, b: KeyPart)
  {
    if Rank(a) != Rank(b) then Rank(a) < Rank(b)
    else match a
      case KNull => true
      case KInt(i) => i <= b.i
      case KStr(s) => StrLe(s, b.s)
  }

  lemma PartLeTotal(a: KeyPart, b: KeyPart)
    ensures PartLe(a, b) || PartLe(b, a)
  {
    if a.KStr? && b.KStr? {
      StrLeTotal(a.s, b.s);
    }
  }

  lemma PartLeTransitive(a: KeyPart, b: KeyPart, c: KeyPart)
    requires PartLe(a, b) && PartLe(b, c)
    ensures PartLe(a, c)
  {
    if a.KStr? && b.KStr? && c.KStr? {
      StrLeTransitive(a.s, b.s, c.s);
    }
  }

  lemma PartLeAntisymmetric(a: KeyPart, b: KeyPart)
    requires PartLe(a, b) && PartLe(b, a)
    ensures a == b
  {
    if a.KStr? && b.KStr? {
      StrLeAntisymmetric(a.s, b.s);
    }
  }

  /** Keys compare column by column; a shorter key that is a prefix comes first. */
  predicate KeyLe(a: Key, b: Key)
  {
    if a == [] then true
    else if b == [] then false
    else if a[0] != b[0] then PartLe(a[0], b[0])
    else KeyLe(a[1..], b[1..])
  }

  lemma {:induction false} KeyLeTotal(a: Key, b: Key)
    ensures KeyLe(a, b) || KeyLe(b, a)
  {
    if a != [] && b != [] {
      if a[0] != b[0] {
        PartLeTotal(a[0], b[0]);
      } else {
        KeyLeTotal(a[1..], b[1..]);
      }
    }
  }

  lemma {:induction false} KeyLeTransitive(a: Key, b: Key, c: Key)
    requires KeyLe(a, b) && KeyLe(b, c)
    ensures KeyLe(a, c)
  {
    if a != [] && b != [] && c != [] {
      if a[0] == b[0] && b[0] == c[0] {
        KeyLeTransitive(a[1..], b[1..], c[1..]);
      } else if a[0] != b[0] && b[0] != c[0] {
        PartLeTransitive(a[0], b[0], c[0]);
        if a[0] == c[0] {
          PartLeAntisymmetric(a[0], b[0]);
        }
      }
    }
  }

  predicate SortedBy<T>(s: seq<T>, key: T -> Key)
  {
    forall i, j :: 0 <= i < j < |s| ==> KeyLe(key(s[i]), key(s[j]))
  }

  /** A sequence whose keys are, position by position, those of a sorted sequence is sorted. */
  lemma SortedByImage<S, T>(xs: seq<S>, kx: S -> Key, ys: seq<T>, ky: T -> Key)
    requires |xs| == |ys| && SortedBy(xs, kx)
    requires forall i :: 0 <= i < |xs| ==> ky(ys[i]) == kx(xs[i])
    ensures SortedBy(ys, ky)
  {
    forall i, j | 0 <= i < j < |ys|
      ensures KeyLe(ky(ys[i]), ky(ys[j]))
    {
      assert ky(ys[i]) == kx(xs[i]) && ky(ys[j]) == kx(xs[j]);
    }
  }

  function Insert<T>(x: T, s: seq<T>, key: T -> Key): seq<T>
  {
    if s == [] then [x]
    else if KeyLe(key(x), key(s[0])) then [x] + s
    else [s[0]] + Insert(x, s[1..], key)
  }

  /** Insertion sort: the rows in key order. */
  function SortBy<T>(s: seq<T>, key: T -> Key): seq<T>
  {
    if s == [] then [] else Insert(s[0], SortBy(s[1..], key), key)
  }

  lemma {:induction false} InsertMultiset<T>(x: T, s: seq<T>, key: T -> Key)
    ensures multiset(Insert(x, s, key)) == multiset(s) + multiset{x}
  {
    if s != [] && !KeyLe(key(x), key(s[0])) {
      InsertMultiset(x, s[1..], key);
      assert s == [s[0]] + s[1..];
    }
  }

  lemma InsertMembers<T>(x: T, s: seq<T>, key: T -> Key)
    ensures forall y :: y in Insert(x, s, key) ==> y == x || y in s
  {
    InsertMultiset(x, s, key);
    forall y | y in Insert(x, s, key) ensures y == x || y in s {
      assert y in multiset(Insert(x, s, key));
    }
  }

  lemma {:induction false} InsertSorted<T>(x: T, s: seq<T>, key: T -> Key)
    requires SortedBy(s, key)
    ensures SortedBy(Insert(x, s, key), key)
  {
    if s == [] {
    } else if KeyLe(key(x), key(s[0])) {
      var r := [x] + s;
      forall i, j | 0 <= i < j < |r| ensures KeyLe(key(r[i]), key(r[j])) {
        if i == 0 && j > 1 {
          assert r[j] == s[j - 1];
          KeyLeTransitive(key(x), key(s[0]), key(r[j]));
        }
      }
    } else {
      InsertSorted(x, s[1..], key);
      var t := Insert(x, s[1..], key);
      KeyLeTotal(key(x), key(s[0]));
      InsertMembers(x, s[1..], key);
      forall j | 0 <= j < |t| ensures KeyLe(key(s[0]), key(t[j])) {
        assert t[j] in t;
        if t[j] != x {
          var k :| 0 <= k < |s[1..]| && s[1..][k] == t[j];
          assert s[k + 1] == t[j];
        }
      }
    }
  }

  /** The sorted rows are ordered by their keys and are a permutation of the input. */
  lemma {:induction false} SortByProperties<T>(s: seq<T>, key: T -> Key)
    ensures SortedBy(SortBy(s, key), key)
    ensures multiset(SortBy(s, key)) == multiset(s)
  {
    if s != [] {
      SortByProperties(s[1..], key);
      InsertSorted(s[0], SortBy(s[1..], key), key);
      InsertMultiset(s[0], SortBy(s[1..], key), key);
      assert s == [s[0]] + s[1..];
    }
  }

  /** The first column decides unless it ties. */
  lemma KeyLeHead(a: Key, b: Key)
    requires a != [] && b != [] && KeyLe(a, b)
    ensures PartLe(a[0], b[0])
  {
    if a[0] == b[0] {
      PartLeTotal(a[0], b[0]);
    }
  }

  predicate Distinct<T(==)>(s: seq<T>)
  {
    forall i, j :: 0 <= i < j < |s| ==> s[i] != s[j]
  }

  /** A distinct sequence holds each element at most once. */
  lemma {:induction false} DistinctCount<T>(s: seq<T>, x: T)
    requires Distinct(s)
    ensures multiset(s)[x] <= 1
  {
    if s != [] {
      assert s == [s[0]] + s[1..];
      assert Distinct(s[1..]) by {
        forall i, j | 0 <= i < j < |s[1..]| ensures s[1..][i] != s[1..][j] {
          assert s[1..][i] == s[i + 1] && s[1..][j] == s[j + 1];
        }
      }
      DistinctCount(s[1..], x);
      if s[0] == x {
        assert x !in s[1..] by {
          forall k | 0 <= k < |s[1..]| ensures s[1..][k] != x {
            assert s[1..][k] == s[k + 1];
          }
        }
      }
    }
  }

  /** A permutation of a distinct sequence is distinct. */
  lemma DistinctPermutation<T>(a: seq<T>, b: seq<T>)
    requires multiset(a) == multiset(b) && Distinct(a)
    ensures Distinct(b)
  {
    forall i, j | 0 <= i < j < |b| ensures b[i] != b[j] {
      if b[i] == b[j] {
        assert b == b[..j] + b[j..];
        assert b[i] in b[..j] && b[j] in b[j..];
        assert multiset(b)[b[i]] >= 2 by {
          assert multiset(b) == multiset(b[..j]) + multiset(b[j..]);
        }
        DistinctCount(a, b[i]);
        assert false;
      }
    }
  }

  /**
   * The rows a table scan yields before `ORDER BY` is applied: every element of
   * the set once, in an order the engine chooses.
   */
  method Scan<T(==)>(s: set<T>) returns (r: seq<T>)
    ensures Distinct(r)
    ensures forall x :: x in r <==> x in s
  {
    r := [];
    var rest := s;
    while rest != {}
      invariant forall x :: x in s <==> x in r || x in rest
      invariant forall x :: x in r ==> x !in rest
      invariant Distinct(r)
      decreases rest
    {
      var x :| x in rest;
      r := r + [x];
      rest := rest - {x};
    }
  }

  /** `SELECT key FROM t ORDER BY ...`: every element of the set once, in key order. */
  method Ordered<T(==)>(s: set<T>, key: T -> Key) returns (r: seq<T>)
    ensures SortedBy(r, key) && Distinct(r)
    ensures forall x :: x in r <==> x in s
  {
    var scanned := Scan(s);
    r := SortBy(scanned, key);
    SortByProperties(scanned, key);
    DistinctPermutation(scanned, r);
    forall x ensures x in r <==> x in s {
      assert x in r <==> x in multiset(r);
      assert x in scanned <==> x in multiset(scanned);
    }
  }
}
