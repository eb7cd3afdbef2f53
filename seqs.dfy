/** The array operations of JavaScript that the pages use (`find`, `filter`,
    `map`, `includes`, `Array.from(new Set(...))`) and the add/remove toggle
    that two pages build from them. */
module Seqs {
  import opened Wrappers

  /** No element occurs twice. */
  predicate NoDup<T(==)>(s: seq<T>) {
    forall i, j :: 0 <= i < j < |s| ==> s[i] != s[j]
  }

  /** `a` is `b` with some elements dropped and the rest kept in order. */
  predicate IsSubsequence<T(==)>(a: seq<T>, b: seq<T>)
    decreases |b|
  {
    |a| == 0 ||
    (|b| > 0 && (if a[0] == b[0] then IsSubsequence(a[1..], b[1..]) else IsSubsequence(a, b[1..])))
  }

  /** `Array.prototype.find`: the first element that satisfies `p`, if any. */
  function Find<T(==)>(s: seq<T>, p: T -> bool): (r: Option<T>)
    ensures r.None? <==> forall i :: 0 <= i < |s| ==> !p(s[i])
    ensures r.Some? ==> exists i :: 0 <= i < |s| && s[i] == r.value && p(s[i]) && forall j :: 0 <= j < i ==> !p(s[j])
  {
    if |s| == 0 then None
    else if p(s[0]) then
      Some(s[0])
    else
      var r := Find(s[1..], p);
      if r.Some? then
        var i :| 0 <= i < |s[1..]| && s[1..][i] == r.value && p(s[1..][i]) && forall j :: 0 <= j < i ==> !p(s[1..][j]);
        assert s[i + 1] == r.value && p(s[i + 1]);
        assert forall j :: 0 <= j < i + 1 ==> !p(s[j]) by {
          forall j | 0 <= j < i + 1 ensures !p(s[j]) {
            if j > 0 { assert s[j] == s[1..][j - 1]; }
          }
        }
        r
      else
        r
  }

  /** `Array.prototype.filter`: the elements that satisfy `p`, in their order,
      each as many times as `s` holds it. */
  function Filter<T(!new)>(s: seq<T>, p: T -> bool): (r: seq<T>)
    ensures |r| <= |s|
    ensures forall i :: 0 <= i < |r| ==> p(r[i])
    ensures forall x :: x in r <==> x in s && p(x)
    ensures forall x :: multiset(r)[x] == if p(x) then multiset(s)[x] else 0
  {
    if |s| == 0 then []
    else
      var rest := Filter(s[1..], p);
      assert s == [s[0]] + s[1..];
      assert multiset(s) == multiset{s[0]} + multiset(s[1..]);
      assert forall x :: x in s <==> x == s[0] || x in s[1..];
      if p(s[0]) then
        assert multiset([s[0]] + rest) == multiset{s[0]} + multiset(rest);
        [s[0]] + rest
      else
        rest
  }

  /** One step of `Filter`. */
  lemma FilterHead<T(!new)>(s: seq<T>, p: T -> bool)
    requires |s| > 0
    ensures Filter(s, p) == if p(s[0]) then [s[0]] + Filter(s[1..], p) else Filter(s[1..], p)
  {
  }

  /** One step of `Find`. */
  lemma FindHead<T(!new)>(s: seq<T>, q: T -> bool)
    requires |s| > 0
    ensures Find(s, q) == if q(s[0]) then Some(s[0]) else Find(s[1..], q)
  {
  }

  /** Filtering by `p` and then taking the first element that meets `q`
      finds the first element of `s` that meets both. */
  lemma {:induction false} FindAfterFilter<T(!new)>(s: seq<T>, p: T -> bool, q: T -> bool)
    ensures Find(Filter(s, p), q).None? <==> forall i :: 0 <= i < |s| ==> !(p(s[i]) && q(s[i]))
    ensures Find(Filter(s, p), q).Some? ==>
      exists i :: 0 <= i < |s| && s[i] == Find(Filter(s, p), q).value && p(s[i]) && q(s[i]) &&
        forall j :: 0 <= j < i ==> !(p(s[j]) && q(s[j]))
  {
    if |s| > 0 {
      var f := Filter(s, p);
      var rest := Filter(s[1..], p);
      FilterHead(s, p);
      if p(s[0]) && q(s[0]) {
        FindHead(f, q);
        assert Find(f, q) == Some(s[0]);
      } else {
        if p(s[0]) {
          FindHead(f, q);
          assert f[1..] == rest;
        }
        assert Find(f, q) == Find(rest, q);
        FindAfterFilter(s[1..], p, q);
        ShiftFirstMatch(s, p, q, Find(rest, q));
      }
    }
  }

  /** When the head of `s` does not meet both, the first match in the tail is
      the first match in `s`, one index further on. */
  lemma ShiftFirstMatch<T(!new)>(s: seq<T>, p: T -> bool, q: T -> bool, r: Option<T>)
    requires |s| > 0 && !(p(s[0]) && q(s[0]))
    requires r.None? <==> forall i :: 0 <= i < |s[1..]| ==> !(p(s[1..][i]) && q(s[1..][i]))
    requires r.Some? ==>
      exists i :: 0 <= i < |s[1..]| && s[1..][i] == r.value && p(s[1..][i]) && q(s[1..][i]) &&
        forall j :: 0 <= j < i ==> !(p(s[1..][j]) && q(s[1..][j]))
    ensures r.None? <==> forall i :: 0 <= i < |s| ==> !(p(s[i]) && q(s[i]))
    ensures r.Some? ==>
      exists i :: 0 <= i < |s| && s[i] == r.value && p(s[i]) && q(s[i]) &&
        forall j :: 0 <= j < i ==> !(p(s[j]) && q(s[j]))
  {
    if r.Some? {
      var k :| 0 <= k < |s[1..]| && s[1..][k] == r.value && p(s[1..][k]) && q(s[1..][k]) &&
        forall j :: 0 <= j < k ==> !(p(s[1..][j]) && q(s[1..][j]));
      assert s[k + 1] == r.value;
      forall j | 0 <= j < k + 1 ensures !(p(s[j]) && q(s[j])) {
        if j > 0 { assert s[j] == s[1..][j - 1]; }
      }
    } else {
      forall i | 0 <= i < |s| ensures !(p(s[i]) && q(s[i])) {
        if i > 0 { assert s[i] == s[1..][i - 1]; }
      }
    }
  }

  /** `Array.prototype.map`. */
  function Map<T, U>(s: seq<T>, f: T -> U): (r: seq<U>)
    ensures |r| == |s|
    ensures forall i :: 0 <= i < |s| ==> r[i] == f(s[i])
  {
    if |s| == 0 then [] else [f(s[0])] + Map(s[1..], f)
  }

  /** The index at which `x` first occurs in `s`. */
  function FirstIndex<T(==)>(s: seq<T>, x: T): (i: nat)
    requires x in s
    ensures i < |s| && s[i] == x
    ensures forall j :: 0 <= j < i ==> s[j] != x
  {
    if s[0] == x then 0
    else
      assert s == [s[0]] + s[1..];
      1 + FirstIndex(s[1..], x)
  }

  /** Past a different head, the first occurrence is one further on. */
  lemma FirstIndexTail<T>(s: seq<T>, x: T)
    requires x in s && s[0] != x
    ensures x in s[1..] && FirstIndex(s, x) == 1 + FirstIndex(s[1..], x)
  {
    assert s == [s[0]] + s[1..];
  }

  /** `map` gives `target` when it gives each of its elements. */
  lemma MapPointwise<T, U>(s: seq<T>, f: T -> U, target: seq<U>)
    requires |s| == |target|
    requires forall i :: 0 <= i < |s| ==> f(s[i]) == target[i]
    ensures Map(s, f) == target
  {
  }

  /** `Array.from(new Set(s))`: each element once, in the order in which a
      `Set` sees it first.  `seen` holds the elements already inserted. */
  function DistinctFrom<T(==,!new)>(s: seq<T>, seen: set<T>): (r: seq<T>)
    ensures NoDup(r)
    ensures forall x :: x in r <==> x in s && x !in seen
    ensures IsSubsequence(r, s)
    ensures forall i, j :: 0 <= i < j < |r| ==> FirstIndex(s, r[i]) < FirstIndex(s, r[j])
  {
    if |s| == 0 then []
    else if s[0] in seen then
      var rest := DistinctFrom(s[1..], seen);
      assert forall x :: x in s <==> x == s[0] || x in s[1..];
      SkipKeepsSubsequence(rest, s);
      TailOrder(s, rest);
      rest
    else
      var rest := DistinctFrom(s[1..], seen + {s[0]});
      assert forall x :: x in s <==> x == s[0] || x in s[1..];
      var r := [s[0]] + rest;
      assert r[1..] == rest && s[0] !in rest;
      ConsNoDup(s[0], rest);
      TailOrder(s, rest);
      HeadOrder(s, rest);
      r
  }

  /** Elements of the tail other than the head keep their first-occurrence
      order in the whole sequence. */
  lemma TailOrder<T>(s: seq<T>, rest: seq<T>)
    requires |s| > 0
    requires forall k :: 0 <= k < |rest| ==> rest[k] in s[1..] && rest[k] != s[0]
    requires forall i, j :: 0 <= i < j < |rest| ==> FirstIndex(s[1..], rest[i]) < FirstIndex(s[1..], rest[j])
    ensures forall k :: 0 <= k < |rest| ==> rest[k] in s && FirstIndex(s, rest[k]) == 1 + FirstIndex(s[1..], rest[k])
    ensures forall i, j :: 0 <= i < j < |rest| ==> FirstIndex(s, rest[i]) < FirstIndex(s, rest[j])
  {
    forall k | 0 <= k < |rest| ensures rest[k] in s && FirstIndex(s, rest[k]) == 1 + FirstIndex(s[1..], rest[k]) {
      assert s == [s[0]] + s[1..];
      FirstIndexTail(s, rest[k]);
    }
  }

  /** The head goes first: its first occurrence is at 0. */
  lemma HeadOrder<T>(s: seq<T>, rest: seq<T>)
    requires |s| > 0
    requires forall k :: 0 <= k < |rest| ==> rest[k] in s && FirstIndex(s, rest[k]) > 0
    requires forall i, j :: 0 <= i < j < |rest| ==> FirstIndex(s, rest[i]) < FirstIndex(s, rest[j])
    ensures forall i, j :: 0 <= i < j < |[s[0]] + rest| ==>
      FirstIndex(s, ([s[0]] + rest)[i]) < FirstIndex(s, ([s[0]] + rest)[j])
  {
    var r := [s[0]] + rest;
    forall i, j | 0 <= i < j < |r| ensures FirstIndex(s, r[i]) < FirstIndex(s, r[j]) {
      assert r[j] == rest[j - 1];
      if i > 0 { assert r[i] == rest[i - 1]; }
    }
  }

  /** An element already seen is skipped. */
  lemma DistinctFromSeen<T(!new)>(x: T, rest: seq<T>, seen: set<T>)
    requires x in seen
    ensures DistinctFrom([x] + rest, seen) == DistinctFrom(rest, seen)
  {
    assert ([x] + rest)[1..] == rest;
  }

  /** An element not seen yet is kept and remembered. */
  lemma DistinctFromNew<T(!new)>(x: T, rest: seq<T>, seen: set<T>)
    requires x !in seen
    ensures DistinctFrom([x] + rest, seen) == [x] + DistinctFrom(rest, seen + {x})
  {
    assert ([x] + rest)[1..] == rest;
  }

  /** An element listed twice in a row, not seen before, is kept once. */
  lemma DistinctFromPair<T(!new)>(x: T, rest: seq<T>, seen: set<T>)
    requires x !in seen
    ensures DistinctFrom([x, x] + rest, seen) == [x] + DistinctFrom(rest, seen + {x})
  {
    assert [x, x] + rest == [x] + ([x] + rest);
    DistinctFromNew(x, [x] + rest, seen);
    DistinctFromSeen(x, rest, seen + {x});
  }

  /** Each element of `xs` listed twice in a row. */
  function Doubled<T>(xs: seq<T>): (r: seq<T>)
    ensures |r| == 2 * |xs|
  {
    if |xs| == 0 then [] else [xs[0], xs[0]] + Doubled(xs[1..])
  }

  /** Removing the repeats from a doubled list of distinct, unseen elements
      gives the list back. */
  lemma {:induction false} DistinctFromDoubled<T(!new)>(xs: seq<T>, seen: set<T>)
    requires NoDup(xs)
    requires forall i :: 0 <= i < |xs| ==> xs[i] !in seen
    ensures DistinctFrom(Doubled(xs), seen) == xs
  {
    if |xs| > 0 {
      var x := xs[0];
      NoDupTail(xs, seen);
      DistinctFromDoubled(xs[1..], seen + {x});
      DistinctFromPair(x, Doubled(xs[1..]), seen);
      assert Doubled(xs) == [x, x] + Doubled(xs[1..]);
      assert [x] + xs[1..] == xs;
    }
  }

  /** The tail of a duplicate-free list of unseen elements is duplicate-free
      and unseen even once its head counts as seen. */
  lemma NoDupTail<T>(xs: seq<T>, seen: set<T>)
    requires |xs| > 0 && NoDup(xs)
    requires forall i :: 0 <= i < |xs| ==> xs[i] !in seen
    ensures NoDup(xs[1..])
    ensures forall i :: 0 <= i < |xs[1..]| ==> xs[1..][i] !in seen + {xs[0]}
  {
    forall i | 0 <= i < |xs[1..]| ensures xs[1..][i] !in seen + {xs[0]} {
      assert xs[1..][i] == xs[i + 1];
    }
    forall i, j | 0 <= i < j < |xs[1..]| ensures xs[1..][i] != xs[1..][j] {
      assert xs[1..][i] == xs[i + 1] && xs[1..][j] == xs[j + 1];
    }
  }

  /** `Array.from(new Set(s))`: every element of `s` once, ordered by where
      it first occurs. */
  function Distinct<T(==,!new)>(s: seq<T>): (r: seq<T>)
    ensures NoDup(r)
    ensures forall x :: x in r <==> x in s
    ensures IsSubsequence(r, s)
    ensures forall i, j :: 0 <= i < j < |r| ==> FirstIndex(s, r[i]) < FirstIndex(s, r[j])
  {
    DistinctFrom(s, {})
  }

  /** Dropping the first element of the longer sequence keeps a subsequence a subsequence. */
  lemma {:induction false} SkipKeepsSubsequence<T>(a: seq<T>, b: seq<T>)
    requires |b| > 0 && IsSubsequence(a, b[1..])
    ensures IsSubsequence(a, b)
    decreases |b|, 0
  {
    if |a| > 0 && a[0] == b[0] {
      // b[1..] contains a, so in particular it contains a[1..] after a[0]
      SubsequenceTail(a, b[1..]);
    }
  }

  /** A subsequence without its head is still a subsequence. */
  lemma {:induction false} SubsequenceTail<T>(a: seq<T>, b: seq<T>)
    requires |a| > 0 && IsSubsequence(a, b)
    ensures IsSubsequence(a[1..], b)
    decreases |b|, 1
  {
    if a[0] == b[0] {
      SkipKeepsSubsequence(a[1..], b);
    } else {
      SubsequenceTail(a, b[1..]);
      SkipKeepsSubsequence(a[1..], b);
    }
  }

  /** `filter` keeps the surviving elements in their original order. */
  lemma {:induction false} FilterIsSubsequence<T(!new)>(s: seq<T>, p: T -> bool)
    ensures IsSubsequence(Filter(s, p), s)
  {
    if |s| > 0 {
      FilterIsSubsequence(s[1..], p);
      if p(s[0]) {
        assert Filter(s, p) == [s[0]] + Filter(s[1..], p);
        assert Filter(s, p)[1..] == Filter(s[1..], p);
      } else {
        SkipKeepsSubsequence(Filter(s, p), s);
      }
    }
  }

  /** `filter` distributes over concatenation. */
  lemma {:induction false} FilterAppend<T(!new)>(a: seq<T>, b: seq<T>, p: T -> bool)
    ensures Filter(a + b, p) == Filter(a, p) + Filter(b, p)
  {
    if |a| == 0 {
      assert a + b == b;
    } else {
      assert (a + b)[1..] == a[1..] + b;
      FilterAppend(a[1..], b, p);
    }
  }

  /** A filter that every element passes changes nothing. */
  lemma {:induction false} FilterAllPass<T(!new)>(s: seq<T>, p: T -> bool)
    requires forall i :: 0 <= i < |s| ==> p(s[i])
    ensures Filter(s, p) == s
  {
    if |s| > 0 {
      FilterAllPass(s[1..], p);
      assert [s[0]] + s[1..] == s;
    }
  }

  /** `filter` never introduces a duplicate. */
  lemma {:induction false} FilterKeepsNoDup<T(!new)>(s: seq<T>, p: T -> bool)
    requires NoDup(s)
    ensures NoDup(Filter(s, p))
  {
    if |s| > 0 {
      NoDupTail(s, {});
      FilterKeepsNoDup(s[1..], p);
      FilterHead(s, p);
      if p(s[0]) {
        assert s[0] !in s[1..];
        ConsNoDup(s[0], Filter(s[1..], p));
      }
    }
  }

  /** Putting an element that is not there in front keeps a list
      duplicate-free. */
  lemma ConsNoDup<T>(x: T, rest: seq<T>)
    requires NoDup(rest) && x !in rest
    ensures NoDup([x] + rest)
  {
    var r := [x] + rest;
    forall i, j | 0 <= i < j < |r| ensures r[i] != r[j] {
      if i > 0 { assert r[i] == rest[i - 1] && r[j] == rest[j - 1]; }
      else { assert r[j] == rest[j - 1]; }
    }
  }

  /** The add/remove toggle of `toggleExpand`: `id` is removed (every
      occurrence, through `filter`) when present and appended otherwise. */
  function Toggle(ids: seq<int>, id: int): (r: seq<int>)
    ensures id in r <==> id !in ids
    ensures forall x :: x != id ==> (x in r <==> x in ids)
  {
    if id in ids then Filter(ids, x => x != id) else ids + [id]
  }

  /** Toggling keeps a duplicate-free list duplicate-free. */
  lemma ToggleKeepsNoDup(ids: seq<int>, id: int)
    requires NoDup(ids)
    ensures NoDup(Toggle(ids, id))
  {
    if id in ids {
      FilterKeepsNoDup(ids, x => x != id);
    } else {
      var r := ids + [id];
      forall i, j | 0 <= i < j < |r| ensures r[i] != r[j] {
        if j == |ids| { assert r[i] in ids; }
      }
    }
  }

  /** Toggling twice restores membership of every id; when `id` was absent it
      restores the list itself. */
  lemma ToggleTwice(ids: seq<int>, id: int)
    ensures forall x :: x in Toggle(Toggle(ids, id), id) <==> x in ids
    ensures id !in ids ==> Toggle(Toggle(ids, id), id) == ids
  {
    if id !in ids {
      var p := (x: int) => x != id;
      FilterAppend(ids, [id], p);
      FilterAllPass(ids, p);
      assert Filter([id], p) == [];
    }
  }
}
