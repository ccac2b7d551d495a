/** Sequence operations that stand for the document store's query primitives:
    a filter keeps the matching documents in natural (insertion) order, a sort
    orders them by an integer key, and a limit keeps a prefix. */
module Seqs {
  import opened Common

  function Min(a: nat, b: nat): nat {
    if a <= b then a else b
  }

  /** The elements of `s` that satisfy `p`, in their order in `s`. */
  function Filter<T>(s: seq<T>, p: T -> bool): (r: seq<T>)
    ensures |r| <= |s|
    ensures forall k :: 0 <= k < |r| ==> p(r[k]) && r[k] in s
    ensures forall k :: 0 <= k < |s| && p(s[k]) ==> s[k] in r
    decreases |s|
  {
    if s == [] then []
    else Filter(s[..|s| - 1], p) + (if p(s[|s| - 1]) then [s[|s| - 1]] else [])
  }

  lemma FilterAppend<T>(s: seq<T>, x: T, p: T -> bool)
    ensures Filter(s + [x], p) == Filter(s, p) + (if p(x) then [x] else [])
  {
    assert (s + [x])[..|s + [x]| - 1] == s;
  }

  lemma {:induction false} FilterConcat<T>(a: seq<T>, b: seq<T>, p: T -> bool)
    ensures Filter(a + b, p) == Filter(a, p) + Filter(b, p)
    decreases |b|
  {
    if b == [] {
      assert a + b == a;
    } else {
      var b' := b[..|b| - 1];
      var x := b[|b| - 1];
      assert b == b' + [x];
      assert a + b == (a + b') + [x];
      FilterConcat(a, b', p);
      FilterAppend(a + b', x, p);
      FilterAppend(b', x, p);
    }
  }

  /** A filter that every element passes keeps the whole sequence. */
  lemma {:induction false} FilterAllOf<T>(s: seq<T>, p: T -> bool)
    requires forall i :: 0 <= i < |s| ==> p(s[i])
    ensures Filter(s, p) == s
    decreases |s|
  {
    if s != [] {
      FilterAllOf(s[..|s| - 1], p);
      assert s[..|s| - 1] + [s[|s| - 1]] == s;
    }
  }

  lemma SplitAt<T>(s: seq<T>, i: nat)
    requires i < |s|
    ensures s == (s[..i] + [s[i]]) + s[i + 1..]
  {
  }

  /** Filtering around position `i`: what precedes it, then the element at `i`
      when it passes, then what follows. */
  lemma FilterAround<T>(s: seq<T>, i: nat, p: T -> bool)
    requires i < |s|
    ensures Filter(s, p) == Filter(s[..i], p) + (if p(s[i]) then [s[i]] else []) + Filter(s[i + 1..], p)
  {
    var a, x, b := s[..i], s[i], s[i + 1..];
    SplitAt(s, i);
    FilterConcat(a + [x], b, p);
    FilterAppend(a, x, p);
    calc {
      Filter(s, p);
      Filter((a + [x]) + b, p);
      Filter(a + [x], p) + Filter(b, p);
      (Filter(a, p) + (if p(x) then [x] else [])) + Filter(b, p);
    }
  }

  /** Cutting out an element the filter drops changes nothing. */
  lemma FilterSkip<T>(s: seq<T>, i: nat, p: T -> bool)
    requires i < |s| && !p(s[i])
    ensures Filter(s[..i] + s[i + 1..], p) == Filter(s, p)
  {
    FilterConcat(s[..i], s[i + 1..], p);
    FilterAround(s, i, p);
  }

  /** Replacing one element by another that the filter treats alike changes
      the filtered sequence at most in that one element. */
  lemma FilterReplace<T>(s: seq<T>, i: nat, y: T, p: T -> bool)
    requires i < |s| && p(s[i]) == p(y)
    ensures |Filter(s[i := y], p)| == |Filter(s, p)|
    ensures !p(y) ==> Filter(s[i := y], p) == Filter(s, p)
    ensures p(y) ==> Filter(s[i := y], p) == Filter(s[..i], p) + [y] + Filter(s[i + 1..], p)
  {
    var t := s[i := y];
    FilterAround(s, i, p);
    FilterAround(t, i, p);
    assert t[..i] == s[..i] && t[i + 1..] == s[i + 1..];
  }

  /** A filter that no element passes keeps nothing. */
  lemma {:induction false} FilterNoneOf<T>(s: seq<T>, p: T -> bool)
    requires forall i :: 0 <= i < |s| ==> !p(s[i])
    ensures Filter(s, p) == []
    decreases |s|
  {
    if s != [] {
      FilterNoneOf(s[..|s| - 1], p);
    }
  }

  /** Two predicates that agree on every element select the same elements. */
  lemma {:induction false} FilterSame<T>(s: seq<T>, p: T -> bool, q: T -> bool)
    requires forall i :: 0 <= i < |s| ==> p(s[i]) == q(s[i])
    ensures Filter(s, p) == Filter(s, q)
    decreases |s|
  {
    if s != [] {
      FilterSame(s[..|s| - 1], p, q);
    }
  }

  /** The first index whose element satisfies `p` (`indexOf`, `findOne`). */
  function Find<T>(s: seq<T>, p: T -> bool): (r: Option<nat>)
    ensures r.Some? ==> r.value < |s| && p(s[r.value])
    ensures r.Some? ==> forall j :: 0 <= j < r.value ==> !p(s[j])
    ensures r.None? ==> forall j :: 0 <= j < |s| ==> !p(s[j])
    decreases |s|
  {
    if s == [] then None
    else if p(s[0]) then Some(0)
    else match Find(s[1..], p)
      case None => None
      case Some(i) => Some(i + 1)
  }

  /** `Find` depends only on where its predicate holds. */
  lemma {:induction false} FindSameWhere<T>(s: seq<T>, t: seq<T>, p: T -> bool)
    requires |s| == |t|
    requires forall k :: 0 <= k < |s| ==> p(s[k]) == p(t[k])
    ensures Find(s, p) == Find(t, p)
    decreases |s|
  {
    if s != [] {
      FindSameWhere(s[1..], t[1..], p);
    }
  }

  /** A filter keeps every ordering relation that held between the elements. */
  lemma {:induction false} FilterPairwise<T>(s: seq<T>, p: T -> bool, rel: (T, T) -> bool)
    requires forall i, j :: 0 <= i < j < |s| ==> rel(s[i], s[j])
    ensures forall i, j :: 0 <= i < j < |Filter(s, p)| ==> rel(Filter(s, p)[i], Filter(s, p)[j])
    decreases |s|
  {
    if s != [] {
      var init := s[..|s| - 1];
      var x := s[|s| - 1];
      FilterPairwise(init, p, rel);
      var f := Filter(init, p);
      forall k | 0 <= k < |f| ensures rel(f[k], x) {
        assert f[k] in init;
        var m :| 0 <= m < |init| && init[m] == f[k];
        assert s[m] == init[m];
      }
    }
  }

  /** `s` in reverse order: natural order is creation order, so this is newest first. */
  function Reverse<T>(s: seq<T>): (r: seq<T>)
    ensures |r| == |s|
    ensures forall k :: 0 <= k < |s| ==> r[k] == s[|s| - 1 - k]
    decreases |s|
  {
    if s == [] then [] else [s[|s| - 1]] + Reverse(s[..|s| - 1])
  }

  lemma {:induction false} ReversePermutes<T>(s: seq<T>)
    ensures multiset(Reverse(s)) == multiset(s)
    decreases |s|
  {
    if s != [] {
      var init, last := s[..|s| - 1], s[|s| - 1];
      ReversePermutes(init);
      assert Reverse(s) == [last] + Reverse(init);
      assert s == init + [last];
      assert multiset(s) == multiset(init) + multiset{last};
    }
  }

  /** The `cap` newest elements of `s`, newest first (a sort on creation time,
      descending, followed by a limit). */
  function Latest<T>(s: seq<T>, cap: nat): (r: seq<T>)
    ensures |r| == Min(cap, |s|)
    ensures forall k :: 0 <= k < |r| ==> r[k] == s[|s| - 1 - k]
  {
    Reverse(s)[..Min(cap, |s|)]
  }

  /** What `Latest` leaves out is older than everything it keeps. */
  lemma LatestKeepsNewest<T>(s: seq<T>, cap: nat, j: nat)
    requires j < |s|
    ensures |s| - 1 - j < Min(cap, |s|) ==> Latest(s, cap)[|s| - 1 - j] == s[j]
    ensures |s| - 1 - j >= Min(cap, |s|) ==> |Latest(s, cap)| == cap && j < |s| - cap
  {
  }

  ghost predicate SortedBy<T>(s: seq<T>, key: T -> int) {
    forall i, j :: 0 <= i < j < |s| ==> key(s[i]) <= key(s[j])
  }

  /** A prefix of a sorted sequence is sorted, and every key in it is at most
      every key left after it. */
  lemma SortedPrefix<T>(s: seq<T>, n: nat, key: T -> int)
    requires SortedBy(s, key) && n <= |s|
    ensures SortedBy(s[..n], key)
    ensures multiset(s[..n]) + multiset(s[n..]) == multiset(s)
    ensures forall i, j :: 0 <= i < n <= j < |s| ==> key(s[i]) <= key(s[j])
  {
    assert s == s[..n] + s[n..];
  }

  /** An element of a sorted sequence that is not in its first `n` elements
      has a key at least as large as each of them. */
  lemma SortedPrefixBelow<T>(s: seq<T>, n: nat, key: T -> int, x: T)
    requires SortedBy(s, key) && n <= |s|
    requires x in s && x !in s[..n]
    ensures forall k :: 0 <= k < n ==> key(s[k]) <= key(x)
  {
    assert s == s[..n] + s[n..];
    assert x in multiset(s[n..]) by {
      assert multiset(s) == multiset(s[..n]) + multiset(s[n..]);
      assert x in multiset(s) && x !in multiset(s[..n]);
    }
    var m :| 0 <= m < |s[n..]| && s[n..][m] == x;
    assert s[n + m] == x;
  }

  function InsertBy<T>(x: T, s: seq<T>, key: T -> int): (r: seq<T>)
    requires SortedBy(s, key)
    ensures SortedBy(r, key)
    ensures multiset(r) == multiset(s) + multiset{x}
    decreases |s|
  {
    if s == [] then [x]
    else if key(x) <= key(s[0]) then [x] + s
    else
      var t := InsertBy(x, s[1..], key);
      HeadBelowInserted(x, s, t, key);
      [s[0]] + t
  }

  /** Putting back the head of a sorted sequence in front of the rest with a
      larger element inserted keeps it sorted. */
  lemma HeadBelowInserted<T>(x: T, s: seq<T>, t: seq<T>, key: T -> int)
    requires s != [] && SortedBy(s, key) && key(s[0]) < key(x)
    requires SortedBy(t, key) && multiset(t) == multiset(s[1..]) + multiset{x}
    ensures SortedBy([s[0]] + t, key)
    ensures multiset([s[0]] + t) == multiset(s) + multiset{x}
  {
    assert s == [s[0]] + s[1..];
    forall k | 0 <= k < |t| ensures key(s[0]) <= key(t[k]) {
      assert t[k] in multiset(t);
      if t[k] != x {
        assert t[k] in multiset(s[1..]);
        var m :| 0 <= m < |s[1..]| && s[1..][m] == t[k];
        assert s[1 + m] == t[k];
      }
    }
    var r := [s[0]] + t;
    forall i, j | 0 <= i < j < |r| ensures key(r[i]) <= key(r[j]) {
      assert r[j] == t[j - 1];
      if i > 0 {
        assert r[i] == t[i - 1];
      }
    }
  }

  /** `s` ordered by ascending `key`, by insertion. The order among equal keys is
      not part of the contract. */
  function SortBy<T>(s: seq<T>, key: T -> int): (r: seq<T>)
    ensures SortedBy(r, key)
    ensures multiset(r) == multiset(s)
    ensures |r| == |s|
    decreases |s|
  {
    if s == [] then []
    else
      assert s == [s[0]] + s[1..];
      InsertBy(s[0], SortBy(s[1..], key), key)
  }
}
