/** List helpers behind Array.filter/map/sort, list comprehensions and query ordering. */
module Seqs {
  import opened Wrappers

  /** Order-preserving selection: `[x for x in s if p(x)]` / `s.filter(p)`. */
  function Filter<T>(s: seq<T>, p: T -> bool): (r: seq<T>)
    ensures |r| <= |s|
    ensures forall k :: 0 <= k < |r| ==> p(r[k]) && r[k] in s
    ensures forall x :: x in s && p(x) ==> x in r
  {
    if s == [] then [] else (if p(s[0]) then [s[0]] else []) + Filter(s[1..], p)
  }

  lemma {:induction false} FilterConcat<T>(a: seq<T>, b: seq<T>, p: T -> bool)
    ensures Filter(a + b, p) == Filter(a, p) + Filter(b, p)
  {
    if a == [] {
      assert a + b == b;
    } else {
      var head: seq<T> := if p(a[0]) then [a[0]] else [];
      assert (a + b)[0] == a[0];
      assert (a + b)[1..] == a[1..] + b;
      calc {
        Filter(a + b, p);
        head + Filter(a[1..] + b, p);
        { FilterConcat(a[1..], b, p); }
        head + (Filter(a[1..], p) + Filter(b, p));
        (head + Filter(a[1..], p)) + Filter(b, p);
        Filter(a, p) + Filter(b, p);
      }
    }
  }

  lemma {:induction false} FilterAll<T>(s: seq<T>, p: T -> bool)
    requires forall x :: x in s ==> p(x)
    ensures Filter(s, p) == s
  {
    if s != [] { FilterAll(s[1..], p); }
  }

  /** Nothing passes the filter when no element satisfies the predicate. */
  lemma {:induction false} FilterNone<T>(s: seq<T>, p: T -> bool)
    requires forall x :: x in s ==> !p(x)
    ensures Filter(s, p) == []
  {
    if s != [] {
      assert s[0] in s;
      FilterNone(s[1..], p);
    }
  }

  /** How many elements satisfy p: `len([x for x in s if p(x)])`. */
  function Count<T>(s: seq<T>, p: T -> bool): nat
  {
    |Filter(s, p)|
  }

  /** The count of a non-empty list: its head, then its tail. */
  lemma CountCons<T>(s: seq<T>, p: T -> bool)
    requires s != []
    ensures Count(s, p) == (if p(s[0]) then 1 else 0) + Count(s[1..], p)
  {
  }

  /** Elements satisfying p and elements not satisfying p together make up the whole list. */
  lemma {:induction false} CountSplit<T>(s: seq<T>, p: T -> bool, q: T -> bool)
    requires forall x :: q(x) == !p(x)
    ensures Count(s, p) + Count(s, q) == |s|
  {
    if s != [] { CountSplit(s[1..], p, q); }
  }

  /** The count of p is at least that of a stronger predicate q. */
  lemma {:induction false} CountMono<T>(s: seq<T>, p: T -> bool, q: T -> bool)
    requires forall x :: q(x) ==> p(x)
    ensures Count(s, q) <= Count(s, p)
  {
    if s != [] { CountMono(s[1..], p, q); }
  }

  /** Counts of disjoint predicates add up to the count of their union. */
  lemma {:induction false} CountDisjointUnion<T>(s: seq<T>, p: T -> bool, q: T -> bool, u: T -> bool)
    requires forall x :: !(p(x) && q(x))
    requires forall x :: u(x) == (p(x) || q(x))
    ensures Count(s, p) + Count(s, q) == Count(s, u)
  {
    if s != [] { CountDisjointUnion(s[1..], p, q, u); }
  }

  /** `s.map(f)`. */
  function Map<T, U>(s: seq<T>, f: T -> U): (r: seq<U>)
    ensures |r| == |s|
    ensures forall k :: 0 <= k < |s| ==> r[k] == f(s[k])
  {
    if s == [] then [] else [f(s[0])] + Map(s[1..], f)
  }

  lemma MapSnoc<T, U>(s: seq<T>, x: T, f: T -> U)
    ensures Map(s + [x], f) == Map(s, f) + [f(x)]
  {
    assert |Map(s + [x], f)| == |Map(s, f) + [f(x)]|;
    forall k | 0 <= k < |s| + 1 ensures Map(s + [x], f)[k] == (Map(s, f) + [f(x)])[k] {
      if k < |s| { assert (s + [x])[k] == s[k]; }
    }
  }

  /** Mapping one more element of a prefix. */
  lemma MapPrefixStep<T, U>(s: seq<T>, i: nat, f: T -> U)
    requires i < |s|
    ensures Map(s[..i + 1], f) == Map(s[..i], f) + [f(s[i])]
  {
    assert s[..i + 1] == s[..i] + [s[i]];
    MapSnoc(s[..i], s[i], f);
  }

  /** Applies a partial step to every element, in order; None as soon as one step fails. */
  function MapAll<T, U>(s: seq<T>, f: T -> Option<U>): (r: Option<seq<U>>)
    ensures r.Some? <==> forall k :: 0 <= k < |s| ==> f(s[k]).Some?
    ensures r.Some? ==> |r.value| == |s| && (forall k :: 0 <= k < |s| ==> r.value[k] == f(s[k]).value)
  {
    if s == [] then Some([])
    else
      var init := s[..|s| - 1];
      assert forall k :: 0 <= k < |init| ==> init[k] == s[k];
      match MapAll(init, f)
      case None => None
      case Some(vs) =>
        match f(s[|s| - 1])
        case None => None
        case Some(v) => Some(vs + [v])
  }

  lemma MapAllSnoc<T, U>(s: seq<T>, x: T, f: T -> Option<U>)
    ensures MapAll(s + [x], f) ==
      if MapAll(s, f).Some? && f(x).Some? then Some(MapAll(s, f).value + [f(x).value]) else None
  {
    assert (s + [x])[..|s|] == s;
  }

  /** `MapAll` over the elements that pass `keep`, computed element by element from the front. */
  function FilterMapAll<T, U>(s: seq<T>, keep: T -> bool, f: T -> Option<U>): Option<seq<U>>
  {
    if s == [] then Some([])
    else
      var init := FilterMapAll(s[..|s| - 1], keep, f);
      var x := s[|s| - 1];
      if !keep(x) then init
      else if init.Some? && f(x).Some? then Some(init.value + [f(x).value])
      else None
  }

  lemma {:induction false} FilterMapAllIsMapAllOfFilter<T, U>(s: seq<T>, keep: T -> bool, f: T -> Option<U>)
    ensures FilterMapAll(s, keep, f) == MapAll(Filter(s, keep), f)
  {
    if s != [] {
      var init := s[..|s| - 1];
      var x := s[|s| - 1];
      assert s == init + [x];
      FilterMapAllIsMapAllOfFilter(init, keep, f);
      FilterConcat(init, [x], keep);
      var kept := Filter(init, keep);
      assert Filter([x], keep) == if keep(x) then [x] else [];
      if keep(x) {
        assert Filter(s, keep) == kept + [x];
        MapAllSnoc(kept, x, f);
      } else {
        assert Filter(s, keep) == kept;
      }
    }
  }

  lemma {:induction false} FilterMapAllPrefixNone<T, U>(s: seq<T>, t: seq<T>, keep: T -> bool, f: T -> Option<U>)
    requires FilterMapAll(s, keep, f).None?
    ensures FilterMapAll(s + t, keep, f).None?
    decreases |t|
  {
    if t != [] {
      var u := s + t[..|t| - 1];
      FilterMapAllPrefixNone(s, t[..|t| - 1], keep, f);
      assert (s + t)[..|s + t| - 1] == u;
    } else {
      assert s + t == s;
    }
  }

  /** One more element of a prefix: skipped, appended, or the whole run fails. */
  lemma FilterMapAllStep<T, U>(s: seq<T>, i: nat, keep: T -> bool, f: T -> Option<U>)
    requires i < |s|
    ensures FilterMapAll(s[..i + 1], keep, f) ==
      if !keep(s[i]) then FilterMapAll(s[..i], keep, f)
      else if FilterMapAll(s[..i], keep, f).Some? && f(s[i]).Some? then Some(FilterMapAll(s[..i], keep, f).value + [f(s[i]).value])
      else None
  {
    assert s[..i + 1][..i] == s[..i];
  }

  /** A step that fails on an element of the prefix makes the whole run fail. */
  lemma FilterMapAllFailsAt<T, U>(s: seq<T>, i: nat, keep: T -> bool, f: T -> Option<U>)
    requires i < |s| && keep(s[i]) && f(s[i]).None?
    ensures MapAll(Filter(s, keep), f).None?
  {
    FilterMapAllStep(s, i, keep, f);
    assert s[..i + 1] + s[i + 1..] == s;
    FilterMapAllPrefixNone(s[..i + 1], s[i + 1..], keep, f);
    FilterMapAllIsMapAllOfFilter(s, keep, f);
  }

  // ---------- stable sorting by a total preorder ----------

  /** `before(a, b)`: a may come before b. Sorting needs it total and transitive. */
  ghost predicate TotalPreorder<T(!new)>(before: (T, T) -> bool)
  {
    (forall a, b :: before(a, b) || before(b, a)) &&
    (forall a, b, c :: before(a, b) && before(b, c) ==> before(a, c))
  }

  predicate SortedBy<T>(s: seq<T>, before: (T, T) -> bool)
  {
    forall i, j :: 0 <= i < j < |s| ==> before(s[i], s[j])
  }

  lemma SortedTail<T>(s: seq<T>, before: (T, T) -> bool)
    requires s != [] && SortedBy(s, before)
    ensures SortedBy(s[1..], before)
    ensures forall x :: x in s[1..] ==> before(s[0], x)
  {
    var tail := s[1..];
    forall i, j | 0 <= i < j < |tail| ensures before(tail[i], tail[j]) {
      assert tail[i] == s[i + 1] && tail[j] == s[j + 1];
    }
    forall x | x in tail ensures before(s[0], x) {
      var m :| 0 <= m < |tail| && tail[m] == x;
      assert s[m + 1] == x;
    }
  }

  /** Filtering a sorted sequence keeps it sorted. */
  lemma {:induction false} FilterKeepsSorted<T>(s: seq<T>, p: T -> bool, before: (T, T) -> bool)
    requires SortedBy(s, before)
    ensures SortedBy(Filter(s, p), before)
  {
    if s != [] {
      SortedTail(s, before);
      FilterKeepsSorted(s[1..], p, before);
      var ft := Filter(s[1..], p);
      if p(s[0]) {
        assert Filter(s, p) == [s[0]] + ft;
        forall k | 0 <= k < |ft| ensures before(s[0], ft[k]) {
          assert ft[k] in s[1..];
        }
        ConsSorted(s[0], ft, before);
      } else {
        assert Filter(s, p) == ft;
      }
    }
  }

  /** A head that may precede every element of a sorted list keeps it sorted. */
  lemma ConsSorted<T>(x: T, t: seq<T>, before: (T, T) -> bool)
    requires SortedBy(t, before)
    requires forall k :: 0 <= k < |t| ==> before(x, t[k])
    ensures SortedBy([x] + t, before)
  {
    var r := [x] + t;
    forall i, j | 0 <= i < j < |r| ensures before(r[i], r[j]) {
      assert r[j] == t[j - 1];
      if i > 0 { assert r[i] == t[i - 1]; }
    }
  }

  /** Inserts x in front of the first element it may precede: equal keys keep input order. */
  function Insert<T>(x: T, s: seq<T>, before: (T, T) -> bool): (r: seq<T>)
    ensures multiset(r) == multiset(s) + multiset{x}
    ensures |r| == |s| + 1
  {
    if s == [] then [x]
    else if before(x, s[0]) then [x] + s
    else
      assert s == [s[0]] + s[1..];
      [s[0]] + Insert(x, s[1..], before)
  }

  lemma {:induction false} InsertSorted<T(!new)>(x: T, s: seq<T>, before: (T, T) -> bool)
    requires TotalPreorder(before)
    requires SortedBy(s, before)
    ensures SortedBy(Insert(x, s, before), before)
  {
    if s != [] && !before(x, s[0]) {
      InsertSorted(x, s[1..], before);
      var r := Insert(x, s, before);
      var t := Insert(x, s[1..], before);
      assert r == [s[0]] + t;
      forall k | 0 <= k < |t| ensures before(s[0], t[k]) {
        assert t[k] in multiset(t);
        assert t[k] == x || t[k] in multiset(s[1..]);
        if t[k] != x {
          assert t[k] in s[1..];
          var m :| 0 <= m < |s[1..]| && s[1..][m] == t[k];
          assert s[m + 1] == t[k];
        }
      }
    }
  }

  /** Stable insertion sort: the list `sorted(s, key=...)` / `s.sort(cmp)` produces. */
  function SortBy<T(!new)>(s: seq<T>, before: (T, T) -> bool): (r: seq<T>)
    requires TotalPreorder(before)
    ensures SortedBy(r, before)
    ensures multiset(r) == multiset(s)
    ensures |r| == |s|
  {
    if s == [] then []
    else
      var t := SortBy(s[1..], before);
      InsertSorted(s[0], t, before);
      MultisetOfCons(s);
      Insert(s[0], t, before)
  }

  lemma MultisetOfCons<T>(s: seq<T>)
    requires s != []
    ensures multiset(s) == multiset(s[1..]) + multiset{s[0]}
  {
    assert s == [s[0]] + s[1..];
  }

  /** A list already in order is left as it is. */
  lemma {:induction false} SortBySortedNoop<T(!new)>(s: seq<T>, before: (T, T) -> bool)
    requires TotalPreorder(before)
    requires SortedBy(s, before)
    ensures SortBy(s, before) == s
  {
    if s != [] {
      SortBySortedNoop(s[1..], before);
      if |s| > 1 { assert before(s[0], s[1]); }
    }
  }

  /** The head of a sorted copy comes before every element of the input. */
  lemma {:induction false} SortByHead<T(!new)>(s: seq<T>, before: (T, T) -> bool)
    requires TotalPreorder(before)
    requires s != []
    ensures SortBy(s, before)[0] in s
    ensures forall x :: x in s ==> before(SortBy(s, before)[0], x)
  {
    var r := SortBy(s, before);
    assert r[0] in multiset(s);
    forall x | x in s ensures before(r[0], x) {
      assert x in multiset(r);
      var j :| 0 <= j < |r| && r[j] == x;
      if j == 0 {
        assert before(x, x);
      }
    }
  }

  /** Every element of a sorted list may come before its last one. */
  lemma SortedLastIsGreatest<T(!new)>(s: seq<T>, before: (T, T) -> bool, x: T)
    requires TotalPreorder(before)
    requires SortedBy(s, before) && x in s
    ensures before(x, s[|s| - 1])
  {
    var j :| 0 <= j < |s| && s[j] == x;
    if j == |s| - 1 {
      assert before(x, x) || before(x, x);
    }
  }

  // ---------- taking a prefix of an ordered list ----------

  /** The first `n` elements, or all of them when there are fewer: `.limit(n)`, `s[:n]`. */
  function TakeAtMost<T>(s: seq<T>, n: nat): (r: seq<T>)
    ensures |r| == if |s| < n then |s| else n
    ensures forall k :: 0 <= k < |r| ==> r[k] == s[k]
  {
    if |s| <= n then s else s[..n]
  }

  /** Two lists with the same multiset have the same members. */
  lemma SameMembers<T>(a: seq<T>, b: seq<T>)
    requires multiset(a) == multiset(b)
    ensures forall x :: x in a <==> x in b
  {
    forall x ensures x in a <==> x in b {
      assert x in a <==> x in multiset(a);
      assert x in b <==> x in multiset(b);
    }
  }

  /** Cutting a sorted list keeps it sorted, and whatever is cut off may come after all that is kept. */
  lemma TakeKeepsFirst<T>(s: seq<T>, n: nat, before: (T, T) -> bool)
    requires SortedBy(s, before)
    ensures SortedBy(TakeAtMost(s, n), before)
    ensures forall x :: x in s && x !in TakeAtMost(s, n) ==>
              forall k :: 0 <= k < |TakeAtMost(s, n)| ==> before(TakeAtMost(s, n)[k], x)
  {
    var r := TakeAtMost(s, n);
    forall x | x in s && x !in r
      ensures forall k :: 0 <= k < |r| ==> before(r[k], x)
    {
      var j :| 0 <= j < |s| && s[j] == x;
      assert forall i :: 0 <= i < |r| ==> s[i] in r;
    }
  }

  /**
   * The first `n` of a sorted copy: sorted, drawn from `s`, of size min(n, |s|), with nothing
   * left out that must come before something kept; all of `s` when it has at most `n` elements.
   */
  function FirstBy<T(!new)>(s: seq<T>, before: (T, T) -> bool, n: nat): (r: seq<T>)
    requires TotalPreorder(before)
    ensures |r| == if |s| < n then |s| else n
    ensures forall k :: 0 <= k < |r| ==> r[k] in s
    ensures SortedBy(r, before)
    ensures forall x :: x in s && x !in r ==> forall k :: 0 <= k < |r| ==> before(r[k], x)
    ensures |s| <= n ==> multiset(r) == multiset(s)
  {
    var sorted := SortBy(s, before);
    TakeKeepsFirst(sorted, n, before);
    SameMembers(sorted, s);
    TakeAtMost(sorted, n)
  }

  // ---------- the first element satisfying a test ----------

  /** The index of the first element at or after i that satisfies p: a scan with early return. */
  function FirstFrom<T>(s: seq<T>, p: T -> bool, i: nat): (r: Option<nat>)
    requires i <= |s|
    ensures r.Some? ==> i <= r.value < |s| && p(s[r.value])
    ensures r.Some? ==> forall k :: i <= k < r.value ==> !p(s[k])
    ensures r.None? ==> forall k :: i <= k < |s| ==> !p(s[k])
    decreases |s| - i
  {
    if i == |s| then None
    else if p(s[i]) then Some(i)
    else FirstFrom(s, p, i + 1)
  }
}
