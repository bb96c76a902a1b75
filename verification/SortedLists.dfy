/** A set of ids as the one list that holds each of them once, in order. */
module SortedLists {
  ghost predicate IsSortedListOf(xs: seq<nat>, s: set<nat>) {
    Ascending(xs) && forall x :: x in xs <==> x in s
  }

  function Insert(xs: seq<nat>, x: nat): seq<nat> {
    if xs == [] || x < xs[0] then [x] + xs else [xs[0]] + Insert(xs[1..], x)
  }

  lemma {:induction false} InsertElements(xs: seq<nat>, x: nat, y: nat)
    ensures y in Insert(xs, x) <==> y == x || y in xs
  {
    if xs != [] && xs[0] <= x {
      assert xs == [xs[0]] + xs[1..];
      InsertElements(xs[1..], x, y);
    }
  }

  ghost predicate Ascending(xs: seq<nat>) {
    forall i, j :: 0 <= i < j < |xs| ==> xs[i] < xs[j]
  }

  lemma {:induction false} InsertAscends(xs: seq<nat>, x: nat)
    requires Ascending(xs) && x !in xs
    ensures Ascending(Insert(xs, x))
  {
    if xs != [] && xs[0] < x {
      var rest := Insert(xs[1..], x);
      InsertAscends(xs[1..], x);
      forall k | 0 <= k < |rest| ensures xs[0] < rest[k] {
        InsertElements(xs[1..], x, rest[k]);
      }
    }
  }

  lemma InsertSorts(xs: seq<nat>, s: set<nat>, x: nat)
    requires IsSortedListOf(xs, s) && x !in s
    ensures IsSortedListOf(Insert(xs, x), s + {x})
  {
    InsertAscends(xs, x);
    forall y: nat ensures y in Insert(xs, x) <==> y in s + {x} {
      InsertElements(xs, x, y);
    }
  }

  lemma {:induction false} SortedListLength(xs: seq<nat>, s: set<nat>)
    requires IsSortedListOf(xs, s)
    ensures |xs| == |s|
  {
    if xs == [] {
      assert s == {};
    } else {
      assert xs[0] in xs && xs == [xs[0]] + xs[1..];
      SortedListLength(xs[1..], s - {xs[0]});
    }
  }

  lemma {:induction false} SortedListIsUnique(xs: seq<nat>, ys: seq<nat>, s: set<nat>)
    requires IsSortedListOf(xs, s) && IsSortedListOf(ys, s)
    ensures xs == ys
  {
    SortedListLength(xs, s);
    SortedListLength(ys, s);
    if xs != [] {
      assert xs[0] in ys && ys[0] in xs;
      assert xs == [xs[0]] + xs[1..] && ys == [ys[0]] + ys[1..];
      SortedListIsUnique(xs[1..], ys[1..], s - {xs[0]});
    }
  }

  lemma {:induction false} SortedListExists(s: set<nat>)
    ensures exists xs :: IsSortedListOf(xs, s)
  {
    if s == {} {
      assert IsSortedListOf([], s);
    } else {
      var x :| x in s;
      SortedListExists(s - {x});
      var xs :| IsSortedListOf(xs, s - {x});
      InsertSorts(xs, s - {x}, x);
      assert s - {x} + {x} == s;
    }
  }

  ghost function Sorted(s: set<nat>): (xs: seq<nat>)
    ensures IsSortedListOf(xs, s)
  {
    SortedListExists(s);
    var xs :| IsSortedListOf(xs, s);
    xs
  }

  lemma {:induction false} OnceInSorted(xs: seq<nat>, s: set<nat>, u: nat)
    requires IsSortedListOf(xs, s)
    ensures multiset(xs)[u] == if u in s then 1 else 0
  {
    if xs != [] {
      assert xs == [xs[0]] + xs[1..] && xs[0] in xs;
      OnceInSorted(xs[1..], s - {xs[0]}, u);
    }
  }
}
