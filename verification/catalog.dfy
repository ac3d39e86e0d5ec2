/**
 * Constant lookup tables written as JavaScript object literals: a sequence of
 * `key: value` properties in declaration order, read by key (`table[key] || null`),
 * listed with `Object.values` and narrowed with `Array.prototype.filter`.
 */
module Catalog {
  import opened Wrappers

  /** One `key: value` property of an object literal. */
  datatype Entry<T> = Entry(key: string, value: T)

  /** No key is written twice, so every property of the literal survives. */
  predicate DistinctKeys<T>(es: seq<Entry<T>>) {
    forall i, j | 0 <= i < j < |es| :: es[i].key != es[j].key
  }

  /** The keys of the table. */
  function Keys<T>(es: seq<Entry<T>>): (ks: set<string>)
    ensures forall k :: k in ks <==> exists i | 0 <= i < |es| :: es[i].key == k
  {
    set i | 0 <= i < |es| :: es[i].key
  }

  /** `table[key] || null`: the value stored under `key`, or nothing. */
  function Lookup<T>(es: seq<Entry<T>>, key: string): (r: Option<T>)
    ensures r.None? <==> key !in Keys(es)
    ensures r.Some? ==> exists i | 0 <= i < |es| :: es[i].key == key && es[i].value == r.value
  {
    if |es| == 0 then None
    else if es[0].key == key then Some(es[0].value)
    else
      assert forall i | 1 <= i < |es| :: es[i] == es[1..][i - 1];
      Lookup(es[1..], key)
  }

  /** With distinct keys, looking up an entry's key yields that entry's value. */
  lemma {:induction false} LookupFinds<T>(es: seq<Entry<T>>, i: int)
    requires DistinctKeys(es) && 0 <= i < |es|
    ensures Lookup(es, es[i].key) == Some(es[i].value)
  {
    if i > 0 {
      assert es[0].key != es[i].key;
      assert es[1..][i - 1] == es[i];
      LookupFinds(es[1..], i - 1);
    }
  }

  /** `Object.values(table)`, in declaration order. */
  function Values<T>(es: seq<Entry<T>>): (vs: seq<T>)
    ensures |vs| == |es|
    ensures forall i | 0 <= i < |es| :: vs[i] == es[i].value
  {
    seq(|es|, i requires 0 <= i < |es| => es[i].value)
  }

  /** Keys are distinct when each key names its own position. */
  lemma DistinctByPosition<T>(es: seq<Entry<T>>, position: string -> int)
    requires forall i | 0 <= i < |es| :: position(es[i].key) == i
    ensures DistinctKeys(es)
  {
  }

  /** `Array.prototype.filter`: the elements `keep` accepts, in their original order. */
  function Filter<T(!new)>(s: seq<T>, keep: T -> bool): (r: seq<T>)
    ensures |r| <= |s|
    ensures forall x :: x in r <==> x in s && keep(x)
  {
    if |s| == 0 then []
    else if keep(s[0]) then [s[0]] + Filter(s[1..], keep)
    else Filter(s[1..], keep)
  }

  /**
   * Filtering distributes over concatenation; with `FilterSingle` this pins the
   * result down completely: order is kept and nothing is repeated or dropped.
   */
  lemma {:induction false} FilterAppend<T(!new)>(a: seq<T>, b: seq<T>, keep: T -> bool)
    ensures Filter(a + b, keep) == Filter(a, keep) + Filter(b, keep)
  {
    if |a| > 0 {
      assert (a + b)[1..] == a[1..] + b;
      FilterAppend(a[1..], b, keep);
    } else {
      assert a + b == b;
    }
  }

  /** A one-element list is kept or dropped whole. */
  lemma FilterSingle<T(!new)>(x: T, keep: T -> bool)
    ensures Filter([x], keep) == if keep(x) then [x] else []
  {
  }

  /** A filter every element passes returns the list unchanged. */
  lemma {:induction false} FilterAll<T(!new)>(s: seq<T>, keep: T -> bool)
    requires forall x | x in s :: keep(x)
    ensures Filter(s, keep) == s
  {
    if |s| > 0 {
      assert forall x | x in s[1..] :: x in s;
      FilterAll(s[1..], keep);
    }
  }

  /** Two tests that agree on every element filter alike. */
  lemma {:induction false} FilterSameTest<T(!new)>(s: seq<T>, keep: T -> bool, keep': T -> bool)
    requires forall x | x in s :: keep(x) == keep'(x)
    ensures Filter(s, keep) == Filter(s, keep')
  {
    if |s| > 0 {
      assert forall x | x in s[1..] :: x in s;
      FilterSameTest(s[1..], keep, keep');
    }
  }
}
