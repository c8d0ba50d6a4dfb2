/**
 * Row-sequence operations pandas performs on data frames: sorting by a key
 * column and drop_duplicates with keep="first" or keep="last".
 */
module Frames {

  predicate SortedBy<T>(s: seq<T>, key: T -> int) {
    forall i, j :: 0 <= i < j < |s| ==> key(s[i]) <= key(s[j])
  }

  /** Inserts x after every element whose key is not larger. */
  function InsertBy<T>(x: T, s: seq<T>, key: T -> int): (r: seq<T>)
    ensures |r| == |s| + 1 && multiset(r) == multiset(s) + multiset{x}
  {
    if s == [] then [x]
    else if key(x) < key(s[0]) then [x] + s
    else
      assert s == [s[0]] + s[1..];
      [s[0]] + InsertBy(x, s[1..], key)
  }

  lemma {:induction false} InsertBySorted<T>(x: T, s: seq<T>, key: T -> int)
    requires SortedBy(s, key)
    ensures SortedBy(InsertBy(x, s, key), key)
  {
    if s != [] && key(x) >= key(s[0]) {
      var rest := InsertBy(x, s[1..], key);
      InsertBySorted(x, s[1..], key);
      forall k | 0 <= k < |rest|
        ensures key(s[0]) <= key(rest[k])
      {
        assert rest[k] in multiset(rest);
        if rest[k] != x {
          assert rest[k] in multiset(s[1..]);
          var i :| 0 <= i < |s[1..]| && s[1..][i] == rest[k];
          assert s[i + 1] == rest[k];
        }
      }
    }
  }

  /** sort_values(key): ordered by key, same rows (insertion sort keeps ties in input order). */
  function SortBy<T>(s: seq<T>, key: T -> int): (r: seq<T>)
    ensures |r| == |s| && multiset(r) == multiset(s)
    ensures SortedBy(r, key)
  {
    if s == [] then []
    else
      var init := s[..|s| - 1];
      assert s == init + [s[|s| - 1]];
      InsertBySorted(s[|s| - 1], SortBy(init, key), key);
      InsertBy(s[|s| - 1], SortBy(init, key), key)
  }

  predicate Distinct<T(==)>(s: seq<T>) {
    forall i, j :: 0 <= i < j < |s| ==> s[i] != s[j]
  }

  /** drop_duplicates() with keep="first": s[i] stays iff it does not occur earlier. */
  function DedupFirst<T(==,!new)>(s: seq<T>): (r: seq<T>)
    ensures |r| <= |s|
    ensures forall x :: x in r <==> x in s
    ensures Distinct(r)
  {
    if s == [] then []
    else
      var init := s[..|s| - 1];
      var p := DedupFirst(init);
      if s[|s| - 1] in init then p else p + [s[|s| - 1]]
  }

  /** A sequence without repeats is its own de-duplication. */
  lemma {:induction false} DedupFirstOfDistinct<T(!new)>(s: seq<T>)
    requires Distinct(s)
    ensures DedupFirst(s) == s
  {
    if s != [] {
      var init := s[..|s| - 1];
      DedupFirstOfDistinct(init);
      assert s[|s| - 1] !in init;
      assert s == init + [s[|s| - 1]];
    }
  }

  /** Some element of s carries key k. */
  predicate HasKey<T, K(==)>(s: seq<T>, key: T -> K, k: K) {
    exists i :: 0 <= i < |s| && key(s[i]) == k
  }

  /** s[i] is the last element of s carrying its key. */
  predicate LastOfKey<T, K(==)>(s: seq<T>, key: T -> K, i: int)
    requires 0 <= i < |s|
  {
    forall j :: i < j < |s| ==> key(s[j]) != key(s[i])
  }

  /** x occurs in s at a position no later element shares the key of. */
  ghost predicate LastIn<T, K(!new)>(s: seq<T>, key: T -> K, x: T) {
    exists i :: 0 <= i < |s| && s[i] == x && LastOfKey(s, key, i)
  }

  /**
   * r is what drop_duplicates(subset=key, keep="last") leaves of s: no key
   * twice, the same keys, and every element the last of its key in s.
   */
  ghost predicate DedupLastOf<T, K(!new)>(r: seq<T>, s: seq<T>, key: T -> K) {
    |r| <= |s|
    && (forall i, j :: 0 <= i < j < |r| ==> key(r[i]) != key(r[j]))
    && (forall k :: HasKey(r, key, k) <==> HasKey(s, key, k))
    && (forall j :: 0 <= j < |r| ==> LastIn(s, key, r[j]))
  }

  /** The keys of a non-empty sequence: its head's and its tail's. */
  lemma HasKeyCons<T, K(!new)>(s: seq<T>, key: T -> K)
    requires s != []
    ensures forall k :: HasKey(s, key, k) <==> key(s[0]) == k || HasKey(s[1..], key, k)
  {
    forall k ensures HasKey(s, key, k) <==> key(s[0]) == k || HasKey(s[1..], key, k) {
      if HasKey(s, key, k) && key(s[0]) != k {
        var i :| 0 <= i < |s| && key(s[i]) == k;
        assert key(s[1..][i - 1]) == k;
      }
      if HasKey(s[1..], key, k) {
        var i :| 0 <= i < |s[1..]| && key(s[1..][i]) == k;
        assert key(s[i + 1]) == k;
      }
    }
  }

  /** An element that is the last of its key in the tail is the last of its key in the whole. */
  lemma LastInTail<T, K(!new)>(s: seq<T>, key: T -> K, rest: seq<T>)
    requires s != [] && DedupLastOf(rest, s[1..], key)
    ensures forall j :: 0 <= j < |rest| ==> LastIn(s, key, rest[j])
  {
    forall j | 0 <= j < |rest| ensures LastIn(s, key, rest[j]) {
      var i :| 0 <= i < |s| - 1 && s[1..][i] == rest[j] && LastOfKey(s[1..], key, i);
      forall m | i + 1 < m < |s| ensures key(s[m]) != key(s[i + 1]) {
        assert s[m] == s[1..][m - 1];
      }
      assert s[i + 1] == rest[j] && LastOfKey(s, key, i + 1);
    }
  }

  /** A head whose key does not come again is kept in front of the tail's de-duplication. */
  lemma DedupKeepHead<T, K(!new)>(s: seq<T>, key: T -> K, rest: seq<T>)
    requires s != [] && DedupLastOf(rest, s[1..], key) && !HasKey(s[1..], key, key(s[0]))
    ensures DedupLastOf([s[0]] + rest, s, key)
  {
    var r := [s[0]] + rest;
    HasKeyCons(s, key);
    LastInTail(s, key, rest);
    assert LastOfKey(s, key, 0);
    forall j | 0 < j < |r| ensures key(r[j]) != key(r[0]) {
      assert HasKey(rest, key, key(rest[j - 1]));
    }
    forall k ensures HasKey(r, key, k) <==> key(s[0]) == k || HasKey(rest, key, k) {
      if key(s[0]) == k {
        assert key(r[0]) == k;
      }
      if HasKey(rest, key, k) {
        var i :| 0 <= i < |rest| && key(rest[i]) == k;
        assert key(r[i + 1]) == k;
      }
      if HasKey(r, key, k) && key(s[0]) != k {
        var i :| 0 <= i < |r| && key(r[i]) == k;
        assert key(rest[i - 1]) == k;
      }
    }
  }

  /** A head whose key comes again later is dropped. */
  lemma DedupDropHead<T, K(!new)>(s: seq<T>, key: T -> K, rest: seq<T>)
    requires s != [] && DedupLastOf(rest, s[1..], key) && HasKey(s[1..], key, key(s[0]))
    ensures DedupLastOf(rest, s, key)
  {
    HasKeyCons(s, key);
    LastInTail(s, key, rest);
  }

  /** drop_duplicates(subset=key, keep="last"): s[i] stays iff no later element carries the same key. */
  function DedupLastBy<T, K(==,!new)>(s: seq<T>, key: T -> K): (r: seq<T>)
    ensures DedupLastOf(r, s, key)
  {
    if s == [] then []
    else
      var rest := DedupLastBy(s[1..], key);
      if HasKey(s[1..], key, key(s[0])) then
        DedupDropHead(s, key, rest);
        rest
      else
        DedupKeepHead(s, key, rest);
        [s[0]] + rest
  }

  /** What drop_duplicates(keep="last") keeps is the last of its key. */
  lemma DedupLastMember<T, K(!new)>(s: seq<T>, key: T -> K, x: T)
    requires x in DedupLastBy(s, key)
    ensures LastIn(s, key, x)
  {
    var r := DedupLastBy(s, key);
    var j :| 0 <= j < |r| && r[j] == x;
  }

  /** drop_duplicates(keep="last") keeps one element of every key. */
  lemma DedupLastHasKey<T, K(!new)>(s: seq<T>, key: T -> K, k: K)
    requires HasKey(s, key, k)
    ensures exists x :: x in DedupLastBy(s, key) && key(x) == k
  {
    var r := DedupLastBy(s, key);
    assert HasKey(r, key, k);
    var j :| 0 <= j < |r| && key(r[j]) == k;
    assert r[j] in r;
  }

  function Id<T>(x: T): T {
    x
  }

  /** Exact-duplicate removal keeping the last copy: drop_duplicates(keep="last"). */
  function DedupLast<T(==,!new)>(s: seq<T>): (r: seq<T>)
    ensures Distinct(r)
    ensures forall x :: x in r <==> x in s
  {
    var r := DedupLastBy(s, Id);
    assert forall x :: x in r <==> HasKey(r, Id, x);
    assert forall x :: x in s <==> HasKey(s, Id, x);
    r
  }

  /** De-duplication keeps the relative order, so a sorted sequence stays sorted. */
  lemma {:induction false} DedupLastBySorted<T, K(!new)>(s: seq<T>, key: T -> K, ord: T -> int)
    requires SortedBy(s, ord)
    ensures SortedBy(DedupLastBy(s, key), ord)
    decreases |s|
  {
    if s != [] {
      var rest := DedupLastBy(s[1..], key);
      DedupLastBySorted(s[1..], key, ord);
      forall j | 0 <= j < |rest| ensures ord(s[0]) <= ord(rest[j]) {
        var i :| 0 <= i < |s[1..]| && s[1..][i] == rest[j] && LastOfKey(s[1..], key, i);
        assert s[i + 1] == rest[j];
      }
    }
  }

  lemma DedupLastSorted<T(!new)>(s: seq<T>, ord: T -> int)
    requires SortedBy(s, ord)
    ensures SortedBy(DedupLast(s), ord)
  {
    DedupLastBySorted(s, Id, ord);
  }

  /** Boolean-mask selection df[mask]: the elements satisfying p, in order. */
  function Filter<T>(s: seq<T>, p: T -> bool): (r: seq<T>)
    ensures |r| <= |s|
    ensures forall i :: 0 <= i < |r| ==> p(r[i])
    ensures multiset(r) <= multiset(s)
  {
    if s == [] then []
    else
      var init := s[..|s| - 1];
      assert s == init + [s[|s| - 1]];
      Filter(init, p) + (if p(s[|s| - 1]) then [s[|s| - 1]] else [])
  }

  predicate AllPass<T>(s: seq<T>, p: T -> bool) {
    forall i :: 0 <= i < |s| ==> p(s[i])
  }

  /** A mask every element passes keeps the whole sequence. */
  lemma {:induction false} FilterAll<T>(s: seq<T>, p: T -> bool)
    requires AllPass(s, p)
    ensures Filter(s, p) == s
  {
    if s != [] {
      var init := s[..|s| - 1];
      assert s == init + [s[|s| - 1]];
      assert AllPass(init, p) && p(s[|s| - 1]);
      FilterAll(init, p);
    }
  }

  /** A mask and its negation split a sequence into two parts that together hold every element once. */
  lemma {:induction false} FilterPartition<T>(s: seq<T>, p: T -> bool, q: T -> bool)
    requires forall x :: q(x) == !p(x)
    ensures multiset(Filter(s, p)) + multiset(Filter(s, q)) == multiset(s)
  {
    if s != [] {
      var init := s[..|s| - 1];
      var x := s[|s| - 1];
      FilterPartition(init, p, q);
      assert s == init + [x];
      calc {
        multiset(Filter(s, p)) + multiset(Filter(s, q));
        multiset(Filter(init, p)) + multiset(Filter(init, q)) + multiset{x};
        multiset(init) + multiset{x};
      }
    }
  }

  /** Every element satisfying p is kept. */
  lemma {:induction false} FilterKeeps<T>(s: seq<T>, p: T -> bool, i: int)
    requires 0 <= i < |s| && p(s[i])
    ensures s[i] in multiset(Filter(s, p))
  {
    var init := s[..|s| - 1];
    if i < |s| - 1 {
      FilterKeeps(init, p, i);
      assert init[i] == s[i];
    }
  }

  /** pd.concat of frames: their rows one after another. */
  function Concat<T>(parts: seq<seq<T>>): seq<T> {
    if parts == [] then [] else Concat(parts[..|parts| - 1]) + parts[|parts| - 1]
  }

  /** An element is in the concatenation exactly when it is in one of the parts. */
  lemma {:induction false} ConcatMember<T>(parts: seq<seq<T>>, x: T)
    ensures x in Concat(parts) <==> exists k :: 0 <= k < |parts| && x in parts[k]
  {
    if parts != [] {
      var init := parts[..|parts| - 1];
      ConcatMember(init, x);
      assert forall k :: 0 <= k < |init| ==> parts[k] == init[k];
      if x in Concat(parts) && x !in parts[|parts| - 1] {
        assert x in Concat(init);
        var k :| 0 <= k < |init| && x in init[k];
        assert x in parts[k];
      }
    }
  }

  /** An element is selected exactly when it occurs and satisfies the mask. */
  lemma FilterMember<T>(s: seq<T>, p: T -> bool, x: T)
    ensures x in Filter(s, p) <==> x in s && p(x)
  {
    var r := Filter(s, p);
    if x in r {
      assert x in multiset(r);
      var i :| 0 <= i < |r| && r[i] == x;
    }
    if x in s && p(x) {
      var i :| 0 <= i < |s| && s[i] == x;
      FilterKeeps(s, p, i);
    }
  }

  /** Selection keeps the order of a sorted sequence. */
  lemma {:induction false} FilterSorted<T>(s: seq<T>, p: T -> bool, key: T -> int)
    requires SortedBy(s, key)
    ensures SortedBy(Filter(s, p), key)
  {
    if s != [] {
      var init := s[..|s| - 1];
      var x := s[|s| - 1];
      FilterSorted(init, p, key);
      var f := Filter(init, p);
      forall k | 0 <= k < |f| ensures key(f[k]) <= key(x) {
        assert f[k] in multiset(init);
        var i :| 0 <= i < |init| && init[i] == f[k];
        assert s[i] == init[i];
      }
    }
  }

  /** The concatenation seen from the front. */
  lemma {:induction false} ConcatCons<T>(a: seq<T>, parts: seq<seq<T>>)
    ensures Concat([a] + parts) == a + Concat(parts)
  {
    if parts != [] {
      var init := parts[..|parts| - 1];
      ConcatCons(a, init);
      assert ([a] + parts)[..|parts|] == [a] + init;
    }
  }

  /** Selection from a sequence without repeats has no repeats. */
  lemma {:induction false} FilterDistinct<T>(s: seq<T>, p: T -> bool)
    requires Distinct(s)
    ensures Distinct(Filter(s, p))
  {
    if s != [] {
      var init := s[..|s| - 1];
      var x := s[|s| - 1];
      FilterDistinct(init, p);
      assert forall i :: 0 <= i < |init| ==> init[i] == s[i];
      assert x !in init;
      FilterMember(init, p, x);
    }
  }

  /** No two elements of s share a key. */
  predicate KeysDistinct<T, K(==)>(s: seq<T>, key: T -> K) {
    forall i, j :: 0 <= i < j < |s| ==> key(s[i]) != key(s[j])
  }

  /** Selection from a sequence without repeated keys has no repeated keys. */
  lemma {:induction false} FilterDistinctBy<T, K>(s: seq<T>, p: T -> bool, key: T -> K)
    requires KeysDistinct(s, key)
    ensures KeysDistinct(Filter(s, p), key)
  {
    if s != [] {
      var init := s[..|s| - 1];
      var x := s[|s| - 1];
      FilterDistinctBy(init, p, key);
      var f := Filter(init, p);
      forall k | 0 <= k < |f| ensures key(f[k]) != key(x) {
        assert f[k] in multiset(init);
        var i :| 0 <= i < |init| && init[i] == f[k];
        assert s[i] == init[i];
      }
    }
  }

  /** A column computed row by row: f applied to every element, in order. */
  function MapSeq<T, U>(s: seq<T>, f: T -> U): (r: seq<U>)
    ensures |r| == |s| && forall i :: 0 <= i < |s| ==> r[i] == f(s[i])
  {
    if s == [] then [] else MapSeq(s[..|s| - 1], f) + [f(s[|s| - 1])]
  }

  /** Selecting and then mapping one more element. */
  lemma FilterMapSnoc<T, U>(s: seq<T>, x: T, p: T -> bool, f: T -> U)
    ensures MapSeq(Filter(s + [x], p), f) == MapSeq(Filter(s, p), f) + if p(x) then [f(x)] else []
  {
    assert (s + [x])[..|s|] == s;
  }

  /** y is produced exactly when it is the image of a selected element. */
  lemma FilterMapMember<T, U>(s: seq<T>, p: T -> bool, f: T -> U, y: U)
    ensures y in MapSeq(Filter(s, p), f) <==> exists x :: x in s && p(x) && y == f(x)
  {
    var r := Filter(s, p);
    if y in MapSeq(r, f) {
      var i :| 0 <= i < |r| && MapSeq(r, f)[i] == y;
      FilterMember(s, p, r[i]);
    }
    if exists x :: x in s && p(x) && y == f(x) {
      var x :| x in s && p(x) && y == f(x);
      FilterMember(s, p, x);
      var i :| 0 <= i < |r| && r[i] == x;
      assert MapSeq(r, f)[i] == y;
    }
  }

  predicate StrictlyBy<T>(s: seq<T>, key: T -> int) {
    forall i, j :: 0 <= i < j < |s| ==> key(s[i]) < key(s[j])
  }

  /** Selected elements keep any upper bound all elements have. */
  lemma FilterBelow<T>(s: seq<T>, p: T -> bool, key: T -> int, bound: int)
    requires forall k :: 0 <= k < |s| ==> key(s[k]) < bound
    ensures forall k :: 0 <= k < |Filter(s, p)| ==> key(Filter(s, p)[k]) < bound
  {
    var f := Filter(s, p);
    forall k | 0 <= k < |f| ensures key(f[k]) < bound {
      FilterMember(s, p, f[k]);
    }
  }

  /** Selection keeps a strictly increasing order. */
  lemma {:induction false} FilterStrict<T>(s: seq<T>, p: T -> bool, key: T -> int)
    requires StrictlyBy(s, key)
    ensures StrictlyBy(Filter(s, p), key)
  {
    if s != [] {
      var init := s[..|s| - 1];
      var x := s[|s| - 1];
      assert StrictlyBy(init, key);
      FilterStrict(init, p, key);
      FilterBelow(init, p, key, key(x));
      var f := Filter(init, p);
      assert Filter(s, p) == f + if p(x) then [x] else [];
    }
  }

  /** One more element of a prefix: what selecting and mapping it adds. */
  lemma FilterMapPrefix<T, U>(s: seq<T>, k: int, p: T -> bool, f: T -> U)
    requires 0 <= k < |s|
    ensures MapSeq(Filter(s[..k + 1], p), f) == MapSeq(Filter(s[..k], p), f) + if p(s[k]) then [f(s[k])] else []
  {
    assert s[..k + 1] == s[..k] + [s[k]];
    FilterMapSnoc(s[..k], s[k], p, f);
  }

  /** t1 extends t0, and every element appended to it satisfies p. */
  ghost predicate GrowsWith<T>(t0: seq<T>, t1: seq<T>, p: T -> bool) {
    t0 <= t1 && forall i :: |t0| <= i < |t1| ==> p(t1[i])
  }

  /** Two extensions in a row are one extension. */
  lemma GrowsWithTrans<T>(t0: seq<T>, t1: seq<T>, t2: seq<T>, p: T -> bool)
    requires GrowsWith(t0, t1, p) && GrowsWith(t1, t2, p)
    ensures GrowsWith(t0, t2, p)
  {
    forall i | |t0| <= i < |t1| ensures p(t2[i]) {
      assert t2[i] == t1[i];
    }
  }

  /** Appended elements satisfying p satisfy everything p implies. */
  lemma GrowsWithWeaken<T>(t0: seq<T>, t1: seq<T>, p: T -> bool, q: T -> bool)
    requires GrowsWith(t0, t1, p) && forall x :: p(x) ==> q(x)
    ensures GrowsWith(t0, t1, q)
  {
  }
}
