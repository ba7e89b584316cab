/** Generic sequence operations: boolean-mask selection, order-preserving splits,
    and lookup in an insertion-ordered dictionary. */
module Seqs {
  import opened Results

  /** The elements of s for which keep holds, in their original order: a pandas
      boolean-mask selection `t[mask]` or a list comprehension with an `if`. */
  function Filter<T>(s: seq<T>, keep: T -> bool): (r: seq<T>)
    ensures |r| <= |s|
    ensures forall x :: x in r ==> x in s && keep(x)
    ensures forall x :: x in s && keep(x) ==> x in r
  {
    if s == [] then []
    else (if keep(s[0]) then [s[0]] else []) + Filter(s[1..], keep)
  }

  /** A mask that holds everywhere keeps the whole sequence. */
  lemma {:induction false} FilterKeepsAll<T>(s: seq<T>, keep: T -> bool)
    requires forall i :: 0 <= i < |s| ==> keep(s[i])
    ensures Filter(s, keep) == s
  {
    if s != [] {
      FilterKeepsAll(s[1..], keep);
    }
  }

  /** A selection keeps every selected element as often as it occurs, and nothing else. */
  lemma {:induction false} FilterMultiplicity<T>(s: seq<T>, keep: T -> bool)
    ensures forall x :: x in s && keep(x) ==> multiset(Filter(s, keep))[x] == multiset(s)[x]
    ensures multiset(Filter(s, keep)) <= multiset(s)
  {
    if s != [] {
      assert s == [s[0]] + s[1..];
      FilterMultiplicity(s[1..], keep);
    }
  }

  /** s is an interleaving of a and b: a and b are disjoint (as positions),
      order-preserving sub-sequences of s that together cover all of s. */
  predicate Interleaves<T(==)>(a: seq<T>, b: seq<T>, s: seq<T>)
    decreases |s|
  {
    if s == [] then a == [] && b == []
    else
      (a != [] && a[0] == s[0] && Interleaves(a[1..], b, s[1..])) ||
      (b != [] && b[0] == s[0] && Interleaves(a, b[1..], s[1..]))
  }

  /** r is exactly the elements of s that satisfy keep, in their original order:
      s splits into r, all of whose elements satisfy keep, and a rest none of whose
      elements do, with both parts keeping the order they have in s. */
  ghost predicate IsSelection<T(!new)>(r: seq<T>, s: seq<T>, keep: T -> bool)
  {
    (forall x :: x in r ==> keep(x)) &&
    exists rest :: Interleaves(r, rest, s) && forall x :: x in rest ==> !keep(x)
  }

  /** Filter computes the selection. */
  lemma FilterIsSelection<T(!new)>(s: seq<T>, keep: T -> bool)
    ensures IsSelection(Filter(s, keep), s, keep)
  {
    FilterPartition(s, keep, x => !keep(x));
  }

  /** Two splits of s by the same mask are the same split. */
  lemma {:induction false} SplitUnique<T>(a1: seq<T>, b1: seq<T>, a2: seq<T>, b2: seq<T>, s: seq<T>, keep: T -> bool)
    requires Interleaves(a1, b1, s) && Interleaves(a2, b2, s)
    requires forall x :: x in a1 ==> keep(x)
    requires forall x :: x in a2 ==> keep(x)
    requires forall x :: x in b1 ==> !keep(x)
    requires forall x :: x in b2 ==> !keep(x)
    ensures a1 == a2 && b1 == b2
    decreases |s|
  {
    if s != [] {
      if keep(s[0]) {
        assert b1 != [] ==> b1[0] in b1;
        assert b2 != [] ==> b2[0] in b2;
        forall x | x in a1[1..] ensures keep(x) { assert x in a1; }
        forall x | x in a2[1..] ensures keep(x) { assert x in a2; }
        SplitUnique(a1[1..], b1, a2[1..], b2, s[1..], keep);
        assert a1 == [a1[0]] + a1[1..] && a2 == [a2[0]] + a2[1..];
      } else {
        assert a1 != [] ==> a1[0] in a1;
        assert a2 != [] ==> a2[0] in a2;
        forall x | x in b1[1..] ensures !keep(x) { assert x in b1; }
        forall x | x in b2[1..] ensures !keep(x) { assert x in b2; }
        SplitUnique(a1, b1[1..], a2, b2[1..], s[1..], keep);
        assert b1 == [b1[0]] + b1[1..] && b2 == [b2[0]] + b2[1..];
      }
    }
  }

  /** A selection is determined by the sequence and the mask: it is what Filter computes. */
  lemma SelectionUnique<T(!new)>(r: seq<T>, s: seq<T>, keep: T -> bool)
    requires IsSelection(r, s, keep)
    ensures r == Filter(s, keep)
  {
    var rest :| Interleaves(r, rest, s) && forall x :: x in rest ==> !keep(x);
    FilterPartition(s, keep, x => !keep(x));
    SplitUnique(r, rest, Filter(s, keep), Filter(s, x => !keep(x)), s, keep);
  }

  /** Selecting with a mask and with its negation splits s into two interleaved parts. */
  lemma {:induction false} FilterPartition<T>(s: seq<T>, keep: T -> bool, drop: T -> bool)
    requires forall x :: x in s ==> drop(x) == !keep(x)
    ensures Interleaves(Filter(s, keep), Filter(s, drop), s)
  {
    if s != [] {
      var a, b := Filter(s, keep), Filter(s, drop);
      FilterPartition(s[1..], keep, drop);
      if keep(s[0]) {
        assert a == [s[0]] + Filter(s[1..], keep);
        assert b == Filter(s[1..], drop);
        assert a[1..] == Filter(s[1..], keep);
      } else {
        assert a == Filter(s[1..], keep);
        assert b == [s[0]] + Filter(s[1..], drop);
        assert b[1..] == Filter(s[1..], drop);
      }
    }
  }

  /** An interleaving accounts for every element exactly once. */
  lemma {:induction false} InterleavesCount<T>(a: seq<T>, b: seq<T>, s: seq<T>)
    requires Interleaves(a, b, s)
    ensures |a| + |b| == |s|
    ensures multiset(a) + multiset(b) == multiset(s)
    decreases |s|
  {
    if s != [] {
      assert s == [s[0]] + s[1..];
      if a != [] && a[0] == s[0] && Interleaves(a[1..], b, s[1..]) {
        InterleavesCount(a[1..], b, s[1..]);
        assert a == [a[0]] + a[1..];
      } else {
        InterleavesCount(a, b[1..], s[1..]);
        assert b == [b[0]] + b[1..];
      }
    }
  }

  /** Two masks that agree on every element of s select the same elements. */
  lemma {:induction false} FilterCongruent<T>(s: seq<T>, p: T -> bool, q: T -> bool)
    requires forall x :: x in s ==> p(x) == q(x)
    ensures Filter(s, p) == Filter(s, q)
  {
    if s != [] {
      FilterCongruent(s[1..], p, q);
    }
  }

  /** The keys of an insertion-ordered dictionary, in order (`d.keys()`). */
  function Keys<K, V>(d: seq<(K, V)>): (r: seq<K>)
    ensures |r| == |d|
    ensures forall i :: 0 <= i < |d| ==> r[i] == d[i].0
  {
    seq(|d|, i requires 0 <= i < |d| => d[i].0)
  }

  /** A Python dictionary never holds the same key twice. */
  predicate UniqueKeys<K(==), V>(d: seq<(K, V)>)
  {
    forall i, j :: 0 <= i < j < |d| ==> d[i].0 != d[j].0
  }

  /** `d[k]` on an insertion-ordered dictionary: None where Python raises KeyError. */
  function Lookup<K(==), V>(d: seq<(K, V)>, k: K): (r: Option<V>)
    ensures r.None? <==> k !in Keys(d)
    ensures r.Some? ==> exists i :: 0 <= i < |d| && d[i] == (k, r.value)
  {
    if d == [] then None
    else if d[0].0 == k then Some(d[0].1)
    else
      assert Keys(d) == [d[0].0] + Keys(d[1..]);
      var r := Lookup(d[1..], k);
      assert forall j :: 0 <= j < |d| - 1 ==> d[1..][j] == d[j + 1];
      r
  }

  /** In a dictionary with distinct keys, looking up an entry's key yields that entry. */
  lemma {:induction false} LookupEntry<K, V>(d: seq<(K, V)>, i: nat)
    requires UniqueKeys(d)
    requires i < |d|
    ensures Lookup(d, d[i].0) == Some(d[i].1)
  {
    if i > 0 {
      assert d[0].0 != d[i].0;
      assert d[1..][i - 1] == d[i];
      LookupEntry(d[1..], i - 1);
    }
  }
}
