/** `Array.prototype.filter` and the stable `Array.prototype.sort` that the
    list page chains, over sequences. A comparator is given as the relation
    "may come first", `le(a, b)` standing for `compare(a, b) <= 0`. */
module Sorting {

  /** A comparator consistent enough for sorting: any two elements can be
      ordered, and the order is transitive. */
  ghost predicate TotalPreorder<T(!new)>(le: (T, T) -> bool)
  {
    && (forall a, b :: le(a, b) || le(b, a))
    && (forall a, b, c :: le(a, b) && le(b, c) ==> le(a, c))
  }

  ghost predicate Sorted<T>(s: seq<T>, le: (T, T) -> bool)
  {
    forall i, j :: 0 <= i < j < |s| ==> le(s[i], s[j])
  }

  /** `s.filter(p)`: the elements satisfying `p`, in their original order. */
  function Keep<T>(s: seq<T>, p: T -> bool): (r: seq<T>)
    ensures |r| <= |s|
  {
    if s == [] then [] else (if p(s[0]) then [s[0]] else []) + Keep(s[1..], p)
  }

  /** The filter keeps exactly the elements that pass. */
  lemma {:induction false} KeepMembers<T>(s: seq<T>, p: T -> bool)
    ensures forall x :: x in Keep(s, p) <==> x in s && p(x)
  {
    if s != [] {
      KeepMembers(s[1..], p);
      assert s == [s[0]] + s[1..];
    }
  }

  /** Filtering loses and duplicates nothing: each element occurs as often as
      in the input if it passes, and not at all otherwise. */
  lemma {:induction false} KeepCounts<T>(s: seq<T>, p: T -> bool, x: T)
    ensures multiset(Keep(s, p))[x] == if p(x) then multiset(s)[x] else 0
  {
    if s != [] {
      KeepCounts(s[1..], p, x);
      assert s == [s[0]] + s[1..];
    }
  }

  /** A filter that every element passes changes nothing. */
  lemma {:induction false} KeepAll<T>(s: seq<T>, p: T -> bool)
    requires forall x :: x in s ==> p(x)
    ensures Keep(s, p) == s
  {
    if s != [] {
      KeepAll(s[1..], p);
      assert s == [s[0]] + s[1..];
    }
  }

  lemma {:induction false} KeepAppend<T>(s: seq<T>, t: seq<T>, p: T -> bool)
    ensures Keep(s + t, p) == Keep(s, p) + Keep(t, p)
  {
    if s == [] {
      assert s + t == t;
    } else {
      var head := if p(s[0]) then [s[0]] else [];
      calc {
        Keep(s + t, p);
        { assert (s + t)[0] == s[0] && (s + t)[1..] == s[1..] + t; }
        head + Keep(s[1..] + t, p);
        { KeepAppend(s[1..], t, p); }
        head + (Keep(s[1..], p) + Keep(t, p));
        (head + Keep(s[1..], p)) + Keep(t, p);
      }
    }
  }

  /** Stable insertion: `x` goes after every element that must precede it and
      before the first one it may precede. */
  function Insert<T>(x: T, t: seq<T>, le: (T, T) -> bool): (r: seq<T>)
    ensures multiset(r) == multiset(t) + multiset{x}
    ensures |r| == |t| + 1
  {
    if t == [] || le(x, t[0]) then [x] + t
    else
      assert t == [t[0]] + t[1..];
      [t[0]] + Insert(x, t[1..], le)
  }

  /** A stable sort by `le`: insertion of each element, the first ending up
      in front of the ones it ties with. */
  function Sort<T>(s: seq<T>, le: (T, T) -> bool): (r: seq<T>)
    ensures multiset(r) == multiset(s)
    ensures |r| == |s|
  {
    if s == [] then []
    else
      assert s == [s[0]] + s[1..];
      Insert(s[0], Sort(s[1..], le), le)
  }

  lemma {:induction false} InsertSorted<T(!new)>(x: T, t: seq<T>, le: (T, T) -> bool)
    requires TotalPreorder(le) && Sorted(t, le)
    ensures Sorted(Insert(x, t, le), le)
  {
    if t != [] && !le(x, t[0]) {
      var u := Insert(x, t[1..], le);
      InsertSorted(x, t[1..], le);
      forall y | y in u
        ensures le(t[0], y)
      {
        assert y in multiset(u);
        if y != x {
          assert y in multiset(t[1..]);
          var k :| 0 <= k < |t[1..]| && t[1..][k] == y;
          assert t[k + 1] == y;
        }
      }
      var r := [t[0]] + u;
      forall i, j | 0 <= i < j < |r|
        ensures le(r[i], r[j])
      {
        if i > 0 {
          assert r[i] == u[i - 1] && r[j] == u[j - 1];
        } else {
          assert r[j] == u[j - 1];
        }
      }
    }
  }

  /** The sort's output is ordered by `le`. */
  lemma {:induction false} SortSorted<T(!new)>(s: seq<T>, le: (T, T) -> bool)
    requires TotalPreorder(le)
    ensures Sorted(Sort(s, le), le)
  {
    if s != [] {
      SortSorted(s[1..], le);
      InsertSorted(s[0], Sort(s[1..], le), le);
    }
  }

  /** The elements that tie with `c`. */
  function TiesWith<T>(c: T, le: (T, T) -> bool): T -> bool
  {
    y => le(y, c) && le(c, y)
  }

  /** Two elements that both tie with `c` tie with each other. */
  lemma TiesExclusive<T(!new)>(x: T, y: T, c: T, le: (T, T) -> bool)
    requires TotalPreorder(le) && !le(x, y)
    ensures !(TiesWith(c, le)(x) && TiesWith(c, le)(y))
  {
  }

  lemma KeepCons<T>(y: T, u: seq<T>, p: T -> bool)
    ensures Keep([y] + u, p) == (if p(y) then [y] else []) + Keep(u, p)
  {
    assert ([y] + u)[1..] == u;
  }

  /** Moving an element past one that does not tie with the same element as
      it leaves the filtered ties unchanged. */
  lemma SwapPastNonTie<T>(x: T, y: T, u: seq<T>, tail: seq<T>, p: T -> bool)
    requires !(p(x) && p(y))
    requires Keep(u, p) == Keep([x] + tail, p)
    ensures Keep([y] + u, p) == Keep([x] + ([y] + tail), p)
  {
    KeepCons(y, u, p);
    KeepCons(x, tail, p);
    KeepCons(y, tail, p);
    KeepCons(x, [y] + tail, p);
    if p(x) {
      assert Keep([y] + u, p) == [x] + Keep(tail, p);
    } else {
      assert Keep([y] + u, p) == (if p(y) then [y] else []) + Keep(tail, p);
    }
  }

  lemma {:induction false} InsertStable<T(!new)>(x: T, t: seq<T>, le: (T, T) -> bool, c: T)
    requires TotalPreorder(le)
    ensures Keep(Insert(x, t, le), TiesWith(c, le)) == Keep([x] + t, TiesWith(c, le))
  {
    if t != [] && !le(x, t[0]) {
      InsertStable(x, t[1..], le, c);
      TiesExclusive(x, t[0], c, le);
      assert Insert(x, t, le) == [t[0]] + Insert(x, t[1..], le);
      assert [t[0]] + t[1..] == t;
      SwapPastNonTie(x, t[0], Insert(x, t[1..], le), t[1..], TiesWith(c, le));
    }
  }

  /** Stability: among elements that tie, the sort keeps the input order. */
  lemma {:induction false} SortStable<T(!new)>(s: seq<T>, le: (T, T) -> bool, c: T)
    requires TotalPreorder(le)
    ensures Keep(Sort(s, le), TiesWith(c, le)) == Keep(s, TiesWith(c, le))
  {
    if s != [] {
      var p := TiesWith(c, le);
      SortStable(s[1..], le, c);
      InsertStable(s[0], Sort(s[1..], le), le, c);
      KeepAppend([s[0]], Sort(s[1..], le), p);
      KeepAppend([s[0]], s[1..], p);
      assert s == [s[0]] + s[1..];
    }
  }

  /** Sorting what is already sorted changes nothing. */
  lemma {:induction false} SortOfSorted<T>(s: seq<T>, le: (T, T) -> bool)
    requires Sorted(s, le)
    ensures Sort(s, le) == s
  {
    if s != [] {
      assert Sorted(s[1..], le);
      SortOfSorted(s[1..], le);
      assert s == [s[0]] + s[1..];
    }
  }

  /** Filtering and then sorting is idempotent: applying both again to the
      result gives the result back. */
  lemma FilterSortIdempotent<T(!new)>(s: seq<T>, p: T -> bool, le: (T, T) -> bool)
    requires TotalPreorder(le)
    ensures Sort(Keep(Sort(Keep(s, p), le), p), le) == Sort(Keep(s, p), le)
  {
    var kept := Keep(s, p);
    var shown := Sort(kept, le);
    KeepMembers(s, p);
    forall x | x in shown
      ensures p(x)
    {
      assert x in multiset(shown);
      assert x in multiset(kept);
      assert x in kept;
    }
    KeepAll(shown, p);
    SortSorted(kept, le);
    SortOfSorted(shown, le);
  }
}
