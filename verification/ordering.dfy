/**
  The iteration order of the exercise catalog (src/exercises_cmd.ts): the
  map's entries, in insertion order, sorted by the exercises' `order`
  property with the stable `Array.prototype.sort` and the comparator
  `a.order - b.order`. Entries with the same order keep their insertion
  order.
*/
module Ordering {

  /** What the exercise table needs of a map entry: its key, its exercise's order and completion timestamp. */
  datatype Listed = Listed(name: string, order: int, completed: string)

  /** Non-decreasing by order. */
  predicate Sorted(s: seq<Listed>) {
    forall i, j :: 0 <= i < j < |s| ==> s[i].order <= s[j].order
  }

  /** `x` placed in front of the first element whose order is not smaller. */
  function Insert(x: Listed, s: seq<Listed>): (r: seq<Listed>)
    ensures multiset(r) == multiset(s) + multiset{x}
  {
    if s == [] || x.order <= s[0].order then [x] + s
    else
      assert s == [s[0]] + s[1..];
      [s[0]] + Insert(x, s[1..])
  }

  /** The stable sort by order, as insertion of each entry in front of the sorted later ones. */
  function SortByOrder(s: seq<Listed>): (r: seq<Listed>)
    ensures multiset(r) == multiset(s)
  {
    if s == [] then []
    else
      assert s == [s[0]] + s[1..];
      Insert(s[0], SortByOrder(s[1..]))
  }

  /** An element no greater than the head of a sorted sequence can go in front of it. */
  lemma ConsSorted(a: Listed, t: seq<Listed>)
    requires Sorted(t) && (t == [] || a.order <= t[0].order)
    ensures Sorted([a] + t)
  {
    var r := [a] + t;
    forall i, j | 0 <= i < j < |r| ensures r[i].order <= r[j].order {
      assert r[j] == t[j - 1];
      if i > 0 {
        assert r[i] == t[i - 1];
      } else if j > 1 {
        assert t[0].order <= t[j - 1].order;
      }
    }
  }

  /** Inserting into a sorted sequence keeps it sorted. */
  lemma {:induction false} InsertSorted(x: Listed, s: seq<Listed>)
    requires Sorted(s)
    ensures Sorted(Insert(x, s))
  {
    if s == [] || x.order <= s[0].order {
      ConsSorted(x, s);
    } else {
      var u := s[1..];
      assert Sorted(u) by {
        forall i, j | 0 <= i < j < |u| ensures u[i].order <= u[j].order {
          assert u[i] == s[i + 1] && u[j] == s[j + 1];
        }
      }
      InsertSorted(x, u);
      var t := Insert(x, u);
      assert t[0] == x || t[0] == u[0];
      if t[0] != x {
        assert s[0].order <= s[1].order;
      }
      ConsSorted(s[0], t);
    }
  }

  /** The iteration order is sorted by order. */
  lemma {:induction false} SortByOrderSorted(s: seq<Listed>)
    ensures Sorted(SortByOrder(s))
  {
    if s != [] {
      SortByOrderSorted(s[1..]);
      InsertSorted(s[0], SortByOrder(s[1..]));
    }
  }

  /** The entries with order `k`, in sequence order. */
  function WithOrder(s: seq<Listed>, k: int): (r: seq<Listed>)
    ensures |r| <= |s|
  {
    if s == [] then []
    else (if s[0].order == k then [s[0]] else []) + WithOrder(s[1..], k)
  }

  /** `x` lands in front of every element with its own order. */
  lemma {:induction false} InsertWithOrder(x: Listed, s: seq<Listed>, k: int)
    ensures WithOrder(Insert(x, s), k) == (if x.order == k then [x] else []) + WithOrder(s, k)
  {
    if s != [] && x.order > s[0].order {
      var r := [s[0]] + Insert(x, s[1..]);
      InsertWithOrder(x, s[1..], k);
      assert r[1..] == Insert(x, s[1..]);
      assert WithOrder(r, k) == (if s[0].order == k then [s[0]] else []) + WithOrder(Insert(x, s[1..]), k);
    } else {
      assert ([x] + s)[1..] == s;
    }
  }

  /** Stability: the entries of each order appear in the iteration in insertion order. */
  lemma {:induction false} SortByOrderStable(s: seq<Listed>, k: int)
    ensures WithOrder(SortByOrder(s), k) == WithOrder(s, k)
  {
    if s != [] {
      SortByOrderStable(s[1..], k);
      InsertWithOrder(s[0], SortByOrder(s[1..]), k);
    }
  }

  /** The number of entries with a completion timestamp. */
  function NumCompleted(s: seq<Listed>): (n: nat)
    ensures n <= |s|
  {
    if s == [] then 0 else (if s[0].completed != "" then 1 else 0) + NumCompleted(s[1..])
  }

  /** Inserting an entry adds its own completion to the count. */
  lemma {:induction false} InsertNumCompleted(x: Listed, s: seq<Listed>)
    ensures NumCompleted(Insert(x, s)) == NumCompleted(s) + (if x.completed != "" then 1 else 0)
  {
    if s != [] && x.order > s[0].order {
      InsertNumCompleted(x, s[1..]);
      assert ([s[0]] + Insert(x, s[1..]))[1..] == Insert(x, s[1..]);
    } else {
      assert ([x] + s)[1..] == s;
    }
  }

  /** Sorting does not change how many entries are completed. */
  lemma {:induction false} SortByOrderNumCompleted(s: seq<Listed>)
    ensures NumCompleted(SortByOrder(s)) == NumCompleted(s)
  {
    if s != [] {
      SortByOrderNumCompleted(s[1..]);
      InsertNumCompleted(s[0], SortByOrder(s[1..]));
    }
  }
}
