/**
 * Version comparison of the self-updater (commands/update.rs): dotted
 * versions are compared component by component as unsigned 32-bit numbers,
 * a missing component counting as 0, and an update is refused unless the new
 * version is strictly newer.
 */
module Versions {
  import opened Wrappers
  import opened Text

  /** One more than the largest `u32`. */
  const U32Limit: nat := 0x1_0000_0000

  /** `str::parse::<u32>()`: an optional `+`, then at least one decimal digit, of value below 2^32. */
  function ParseU32(s: string): (r: Option<nat>)
    ensures r.Some? ==> r.value < U32Limit
    ensures r.Some? ==> s != [] && s != "+"
  {
    var digits := if |s| >= 1 && s[0] == '+' then s[1..] else s;
    if |digits| >= 1 && (forall i :: 0 <= i < |digits| ==> IsDigit(digits[i])) && DigitsValue(digits) < U32Limit
    then Some(DigitsValue(digits))
    else None
  }

  /** The pieces that parse, in order (`filter_map(|s| s.parse().ok())`). */
  function KeepParsed(pieces: seq<string>): (r: seq<nat>)
    ensures |r| <= |pieces|
    ensures forall i :: 0 <= i < |r| ==> r[i] < U32Limit
  {
    if pieces == [] then []
    else
      var rest := KeepParsed(pieces[1..]);
      match ParseU32(pieces[0])
      case Some(n) => [n] + rest
      case None => rest
  }

  /** The numeric components of a version string. */
  function Components(v: string): seq<nat>
  {
    KeepParsed(Split(v, '.'))
  }

  /** Component `i`, or 0 past the end (`get(i).copied().unwrap_or(0)`). */
  function At(p: seq<nat>, i: nat): nat
  {
    if i < |p| then p[i] else 0
  }

  function Max(a: nat, b: nat): nat
  {
    if a < b then b else a
  }

  /** `p` and `q` agree on every padded component below `i`. */
  predicate AgreeBelow(p: seq<nat>, q: seq<nat>, i: nat)
  {
    forall j :: 0 <= j < i ==> At(p, j) == At(q, j)
  }

  /**
   * `n` is newer than `c`: at the first position where the zero-padded
   * components differ, `n`'s component is larger.
   */
  predicate Newer(c: seq<nat>, n: seq<nat>)
  {
    exists i :: 0 <= i < Max(|c|, |n|) && At(n, i) > At(c, i) && AgreeBelow(c, n, i)
  }

  /** A first difference in favour of `c` rules out `n` being newer. */
  lemma NotNewerAt(c: seq<nat>, n: seq<nat>, i: nat)
    requires AgreeBelow(c, n, i) && At(n, i) < At(c, i)
    ensures !Newer(c, n)
  {
    forall k | 0 <= k < Max(|c|, |n|)
      ensures !(At(n, k) > At(c, k) && AgreeBelow(c, n, k))
    {
      if i < k {
        assert At(c, i) != At(n, i);
      }
    }
  }

  /** Components agreeing up to the longer length leave neither newer. */
  lemma NotNewerEqual(c: seq<nat>, n: seq<nat>)
    requires AgreeBelow(c, n, Max(|c|, |n|))
    ensures !Newer(c, n)
  {
    forall k | 0 <= k < Max(|c|, |n|)
      ensures At(n, k) <= At(c, k)
    {
      assert At(c, k) == At(n, k);
    }
  }

  /** `compare_versions(current, new)`: true exactly when `candidate` (the new version) is newer than `current`. */
  method CompareVersions(current: string, candidate: string) returns (b: bool)
    ensures b <==> Newer(Components(current), Components(candidate))
  {
    var c := Components(current);
    var n := Components(candidate);
    for i := 0 to Max(|c|, |n|)
      invariant AgreeBelow(c, n, i)
    {
      var curr := At(c, i);
      var ne := At(n, i);
      if ne > curr {
        return true;
      } else if ne < curr {
        NotNewerAt(c, n, i);
        return false;
      }
    }
    NotNewerEqual(c, n);
    return false;
  }

  /** No version is newer than itself. */
  lemma NewerIrreflexive(p: seq<nat>)
    ensures !Newer(p, p)
  {
    NotNewerEqual(p, p);
  }

  /** Newer is asymmetric. */
  lemma NewerAsymmetric(p: seq<nat>, q: seq<nat>)
    requires Newer(p, q)
    ensures !Newer(q, p)
  {
    var k :| 0 <= k < Max(|p|, |q|) && At(q, k) > At(p, k) && AgreeBelow(p, q, k);
    NotNewerAt(q, p, k);
  }

  /** Newer is transitive. */
  lemma NewerTransitive(p: seq<nat>, q: seq<nat>, r: seq<nat>)
    requires Newer(p, q) && Newer(q, r)
    ensures Newer(p, r)
  {
    var i :| 0 <= i < Max(|p|, |q|) && At(q, i) > At(p, i) && AgreeBelow(p, q, i);
    var j :| 0 <= j < Max(|q|, |r|) && At(r, j) > At(q, j) && AgreeBelow(q, r, j);
    var k := if i < j then i else j;
    assert AgreeBelow(p, r, k) by {
      forall m | 0 <= m < k
        ensures At(p, m) == At(r, m)
      {
        assert At(p, m) == At(q, m) && At(q, m) == At(r, m);
      }
    }
    if i < j {
      assert At(q, i) == At(r, i);
    } else if j < i {
      assert At(p, j) == At(q, j);
    }
    assert At(r, k) > At(p, k);
    assert k < Max(|p|, |r|);
  }

  /** Trailing zero components do not matter: `1.2` and `1.2.0` are not newer than each other. */
  lemma TrailingZero(p: seq<nat>)
    ensures !Newer(p, p + [0]) && !Newer(p + [0], p)
  {
    assert AgreeBelow(p, p + [0], Max(|p|, |p + [0]|)) by {
      forall j | 0 <= j < |p| + 1
        ensures At(p, j) == At(p + [0], j)
      {
      }
    }
    NotNewerEqual(p, p + [0]);
    NotNewerEqual(p + [0], p);
  }

  /** Components compare numerically, not as text: `1.10` is newer than `1.9`. */
  lemma NumericOrder()
    ensures Newer([1, 9], [1, 10])
  {
    assert AgreeBelow([1, 9], [1, 10], 1);
    assert At([1, 10], 1) > At([1, 9], 1);
  }

  /**
   * The version check of `perform_update`: the trimmed contents of the new
   * build's `version.txt`, when the file exists and reads, must be newer than
   * the running version; a missing or unreadable file is not checked.
   */
  function UpdateCheck(current: string, versionFile: Option<Result<string>>): (r: Result<()>)
    ensures versionFile.None? || versionFile.value.Err? ==> r.Ok?
    ensures versionFile.Some? && versionFile.value.Ok? ==>
      var found := Trim(versionFile.value.value);
      (r.Ok? <==> Newer(Components(current), Components(found))) &&
      (r.Err? ==> r.error == Message(NotNewerMessage(found, current)))
  {
    match versionFile
    case None => Ok(())
    case Some(Err(_)) => Ok(())
    case Some(Ok(text)) =>
      if Newer(Components(current), Components(Trim(text))) then Ok(())
      else Err(Message(NotNewerMessage(Trim(text), current)))
  }

  /** The message `perform_update` refuses a version that is not newer with. */
  function NotNewerMessage(found: string, current: string): string
  {
    "新版本(" + found + ")不比当前版本(" + current + ")新，无法更新"
  }

  /** Re-installing the running version, or one differing by trailing zeros, is refused. */
  lemma UpdateRefusesSameVersion(current: string, text: string)
    requires Components(Trim(text)) == Components(current) || Components(Trim(text)) == Components(current) + [0]
    ensures UpdateCheck(current, Some(Ok(text))).Err?
  {
    if Components(Trim(text)) == Components(current) {
      NewerIrreflexive(Components(current));
    } else {
      TrailingZero(Components(current));
    }
  }

  /** An update that passes the check cannot be followed by a check passing the other way. */
  lemma UpdateNoDowngradeBack(a: string, b: string)
    requires a == Trim(a) && b == Trim(b)
    requires UpdateCheck(a, Some(Ok(b))).Ok?
    ensures UpdateCheck(b, Some(Ok(a))).Err?
  {
    NewerAsymmetric(Components(a), Components(b));
  }
}
