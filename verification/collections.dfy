/** Facts about finite sequences and sets that several modules share. */
module Collections {
  predicate Distinct<K(==)>(s: seq<K>) {
    forall i, j | 0 <= i < j < |s| :: s[i] != s[j]
  }

  /** `s` with every occurrence of `k` removed, keeping the order of the rest. */
  function Remove<K(==)>(s: seq<K>, k: K): (r: seq<K>)
    ensures forall i | 0 <= i < |r| :: r[i] in s && r[i] != k
    ensures forall i | 0 <= i < |s| && s[i] != k :: s[i] in r
    ensures |r| <= |s|
    ensures Distinct(s) ==> Distinct(r)
    ensures k !in s ==> r == s
  {
    if s == [] then []
    else if s[0] == k then Remove(s[1..], k)
    else [s[0]] + Remove(s[1..], k)
  }

  lemma {:induction false} RemovePresentShrinks<K>(s: seq<K>, k: K)
    requires Distinct(s) && k in s
    ensures |Remove(s, k)| == |s| - 1
  {
    if s[0] != k {
      assert Distinct(s[1..]) by {
        forall i, j | 0 <= i < j < |s| - 1 ensures s[1..][i] != s[1..][j] {
          assert s[1..][i] == s[i + 1] && s[1..][j] == s[j + 1];
        }
      }
      RemovePresentShrinks(s[1..], k);
    } else {
      assert s[1..] == Remove(s[1..], k) by {
        assert k !in s[1..] by {
          forall i | 0 <= i < |s| - 1 ensures s[1..][i] != k {
            assert s[1..][i] == s[i + 1];
          }
        }
      }
    }
  }

  /** A sequence without repetitions has as many elements as its set. */
  lemma {:induction false} DistinctCardinality<K>(s: seq<K>)
    requires Distinct(s)
    ensures |set x | x in s| == |s|
  {
    if s != [] {
      assert Distinct(s[1..]) by {
        forall i, j | 0 <= i < j < |s| - 1 ensures s[1..][i] != s[1..][j] {
          assert s[1..][i] == s[i + 1] && s[1..][j] == s[j + 1];
        }
      }
      DistinctCardinality(s[1..]);
      assert s[0] !in s[1..] by {
        forall i | 0 <= i < |s| - 1 ensures s[1..][i] != s[0] {
          assert s[1..][i] == s[i + 1];
        }
      }
      assert (set x | x in s) == {s[0]} + (set x | x in s[1..]);
    }
  }

  /** A subset as large as its superset is the whole superset. */
  lemma SubsetOfSameSize<T>(a: set<T>, b: set<T>)
    requires a <= b && |a| == |b|
    ensures a == b
  {
    assert b == a + (b - a);
    assert a * (b - a) == {};
  }
  /** `s` without the elements of `gone`, keeping the order of the rest. */
  function Without<K(==)>(s: seq<K>, gone: set<K>): seq<K> {
    if s == [] then [] else (if s[0] in gone then [] else [s[0]]) + Without(s[1..], gone)
  }

  /** The elements of `s` that lie in `keep`, in order. */
  function Only<K(==)>(s: seq<K>, keep: set<K>): seq<K> {
    OnlyUpTo(s, |s|, keep)
  }

  /** The elements among the first `n` of `s` that lie in `keep`, in order. */
  function OnlyUpTo<K(==)>(s: seq<K>, n: nat, keep: set<K>): seq<K>
    requires n <= |s|
  {
    if n == 0 then [] else OnlyUpTo(s, n - 1, keep) + (if s[n - 1] in keep then [s[n - 1]] else [])
  }

  /** The elements among the first `n` of `s` that lie in `keep`, as a set built from the front. */
  ghost function MembersUpTo<K>(s: seq<K>, n: nat, keep: set<K>): set<K>
    requires n <= |s|
  {
    if n == 0 then {} else MembersUpTo(s, n - 1, keep) + (if s[n - 1] in keep then {s[n - 1]} else {})
  }

  lemma {:induction false} MembersUpToIsSet<K>(s: seq<K>, n: nat, keep: set<K>)
    requires n <= |s|
    ensures MembersUpTo(s, n, keep) == set x | x in s[..n] && x in keep
  {
    if n != 0 {
      MembersUpToIsSet(s, n - 1, keep);
      assert s[..n] == s[..n - 1] + [s[n - 1]];
      assert (set x | x in s[..n] && x in keep)
        == (set x | x in s[..n - 1] && x in keep) + (if s[n - 1] in keep then {s[n - 1]} else {});
    }
  }

  /** Removing nothing leaves a sequence as it was. */
  lemma {:induction false} WithoutNothing<K>(s: seq<K>)
    ensures Without(s, {}) == s
  {
    if s != [] {
      WithoutNothing(s[1..]);
    }
  }

  lemma RemoveCons<K>(x: K, w: seq<K>, k: K)
    ensures Remove([x] + w, k) == if x == k then Remove(w, k) else [x] + Remove(w, k)
  {
    assert ([x] + w)[0] == x && ([x] + w)[1..] == w;
  }

  /** Deleting one more key from a filtered sequence is filtering by one more key. */
  lemma {:induction false} RemoveWithout<K>(s: seq<K>, gone: set<K>, k: K)
    ensures Remove(Without(s, gone), k) == Without(s, gone + {k})
  {
    if s != [] {
      RemoveWithout(s[1..], gone, k);
      var w := Without(s[1..], gone);
      assert Without(s, gone) == (if s[0] in gone then [] else [s[0]]) + w;
      assert Without(s, gone + {k}) == (if s[0] in gone + {k} then [] else [s[0]]) + Without(s[1..], gone + {k});
      if s[0] !in gone {
        RemoveCons(s[0], w, k);
      } else {
        assert Without(s, gone) == w;
      }
    }
  }
}
