/**
 * `sorted(instances, key=lambda x: x["Name"])`: a stable sort of the listing
 * by display name. Python's library sort is not modelled step by step; the
 * reference here is a stable insertion sort, and `StableSortIsUnique` shows
 * that every stable sort by name returns the same list.
 */
module NameSort {
  import opened NameOrder
  import opened Instance

  /** Ascending by display name under Python's string order. */
  predicate IsSortedByName(s: seq<NormalizedInstance>)
  {
    forall i, j :: 0 <= i < j < |s| ==> NameLeq(s[i].name, s[j].name)
  }

  /** The records of `s` whose display name is `n`, in their order in `s`. */
  function WithName(s: seq<NormalizedInstance>, n: string): seq<NormalizedInstance>
  {
    if s == [] then []
    else (if s[0].name == n then [s[0]] else []) + WithName(s[1..], n)
  }

  /** Stability: records with equal names appear in `s` and `t` in the same order. */
  ghost predicate SameNameClasses(s: seq<NormalizedInstance>, t: seq<NormalizedInstance>)
  {
    forall n :: WithName(s, n) == WithName(t, n)
  }

  /**
   * Inserts `x` after every leading record whose name is not greater than
   * `x`'s, so that in a sorted list `x` follows the records it ties with.
   */
  function Insert(x: NormalizedInstance, s: seq<NormalizedInstance>): seq<NormalizedInstance>
  {
    if s == [] then [x]
    else if NameLess(x.name, s[0].name) then [x] + s
    else [s[0]] + Insert(x, s[1..])
  }

  lemma {:induction false} InsertPermutes(x: NormalizedInstance, s: seq<NormalizedInstance>)
    ensures multiset(Insert(x, s)) == multiset(s) + multiset{x}
  {
    if s != [] && !NameLess(x.name, s[0].name) {
      InsertPermutes(x, s[1..]);
      assert s == [s[0]] + s[1..];
    }
  }

  /** A record no greater than every record of a sorted list can go in front of it. */
  lemma SortedCons(h: NormalizedInstance, t: seq<NormalizedInstance>)
    requires IsSortedByName(t)
    requires forall k :: 0 <= k < |t| ==> NameLeq(h.name, t[k].name)
    ensures IsSortedByName([h] + t)
  {
    var s := [h] + t;
    forall i, j | 0 <= i < j < |s| ensures NameLeq(s[i].name, s[j].name) {
      assert s[j] == t[j - 1];
      if i > 0 {
        assert s[i] == t[i - 1];
      }
    }
  }

  lemma {:induction false} InsertSorted(x: NormalizedInstance, s: seq<NormalizedInstance>)
    requires IsSortedByName(s)
    ensures IsSortedByName(Insert(x, s))
  {
    if s == [] {
    } else if NameLess(x.name, s[0].name) {
      NameLeqTotal(x.name, s[0].name);
      forall k | 0 <= k < |s| ensures NameLeq(x.name, s[k].name) {
        if k > 0 { NameLeqTransitive(x.name, s[0].name, s[k].name); }
      }
      SortedCons(x, s);
    } else {
      var rest := Insert(x, s[1..]);
      InsertSorted(x, s[1..]);
      InsertPermutes(x, s[1..]);
      forall k | 0 <= k < |rest| ensures NameLeq(s[0].name, rest[k].name) {
        assert rest[k] in multiset(rest);
        if rest[k] != x {
          assert rest[k] in multiset(s[1..]);
          var j :| 0 <= j < |s[1..]| && s[1..][j] == rest[k];
          assert s[j + 1] == rest[k];
        }
      }
      SortedCons(s[0], rest);
    }
  }

  /** The stable sort by display name. */
  function SortByName(s: seq<NormalizedInstance>): (r: seq<NormalizedInstance>)
    ensures IsSortedByName(r)
    ensures multiset(r) == multiset(s)
  {
    if s == [] then []
    else
      var init, last := s[..|s| - 1], s[|s| - 1];
      var sortedInit := SortByName(init);
      var r := Insert(last, sortedInit);
      assert IsSortedByName(r) by {
        InsertSorted(last, sortedInit);
      }
      assert multiset(r) == multiset(s) by {
        InsertPermutes(last, sortedInit);
        SplitLastMultiset(s);
      }
      r
  }

  /** A non-empty list is its front followed by its last record, as multisets too. */
  lemma SplitLastMultiset(s: seq<NormalizedInstance>)
    requires s != []
    ensures multiset(s) == multiset(s[..|s| - 1]) + multiset{s[|s| - 1]}
  {
    assert s == s[..|s| - 1] + [s[|s| - 1]];
  }

  /** Two records whose names are out of order are swapped by the sort. */
  lemma SortTwoOutOfOrder(a: NormalizedInstance, b: NormalizedInstance)
    requires NameLess(b.name, a.name)
    ensures SortByName([a, b]) == [b, a]
  {
    assert SortByName([a]) == [a] by { assert [a][..0] == []; }
    assert [a, b][..1] == [a];
    assert Insert(b, [a]) == [b, a];
  }

  lemma {:induction false} WithNameAppend(a: seq<NormalizedInstance>, b: seq<NormalizedInstance>, n: string)
    ensures WithName(a + b, n) == WithName(a, n) + WithName(b, n)
  {
    if a == [] {
      assert a + b == b;
    } else {
      var head := if a[0].name == n then [a[0]] else [];
      assert (a + b)[0] == a[0];
      assert (a + b)[1..] == a[1..] + b;
      assert WithName(a + b, n) == head + WithName(a[1..] + b, n);
      WithNameAppend(a[1..], b, n);
      assert head + (WithName(a[1..], n) + WithName(b, n)) == (head + WithName(a[1..], n)) + WithName(b, n);
    }
  }

  lemma {:induction false} WithNameNone(s: seq<NormalizedInstance>, n: string)
    requires forall k :: 0 <= k < |s| ==> s[k].name != n
    ensures WithName(s, n) == []
  {
    if s != [] {
      WithNameNone(s[1..], n);
    }
  }

  /** Inserting into a sorted list puts `x` after every record it ties with. */
  lemma {:induction false} InsertStable(x: NormalizedInstance, s: seq<NormalizedInstance>, n: string)
    requires IsSortedByName(s)
    ensures WithName(Insert(x, s), n) == WithName(s, n) + (if x.name == n then [x] else [])
  {
    if s == [] {
      assert WithName([x], n) == (if x.name == n then [x] else []) + WithName([], n);
    } else if NameLess(x.name, s[0].name) {
      assert ([x] + s)[1..] == s;
      if x.name == n {
        NameLeqReflexive(n);
        forall k | 0 <= k < |s| ensures s[k].name != n {
          if k > 0 { assert NameLeq(s[0].name, s[k].name); }
        }
        WithNameNone(s, n);
      }
    } else {
      var rest := Insert(x, s[1..]);
      assert ([s[0]] + rest)[1..] == rest;
      InsertStable(x, s[1..], n);
    }
  }

  /** Sorting keeps the relative order of records with equal names. */
  lemma {:induction false} SortByNameStable(s: seq<NormalizedInstance>)
    ensures SameNameClasses(SortByName(s), s)
  {
    if s != [] {
      var init, last := s[..|s| - 1], s[|s| - 1];
      assert s == init + [last];
      SortByNameStable(init);
      forall n ensures WithName(SortByName(s), n) == WithName(s, n) {
        SortByNameStableStep(init, last, n);
      }
    }
  }

  lemma SortByNameStableStep(init: seq<NormalizedInstance>, last: NormalizedInstance, n: string)
    requires WithName(SortByName(init), n) == WithName(init, n)
    ensures WithName(SortByName(init + [last]), n) == WithName(init + [last], n)
  {
    var s := init + [last];
    assert s[..|s| - 1] == init && s[|s| - 1] == last;
    assert SortByName(s) == Insert(last, SortByName(init));
    InsertStable(last, SortByName(init), n);
    WithNameAppend(init, [last], n);
    assert WithName([last], n) == (if last.name == n then [last] else []) + WithName([], n);
  }

  /** A record's own name class is never empty. */
  lemma {:induction false} WithNameHas(s: seq<NormalizedInstance>, k: int)
    requires 0 <= k < |s|
    ensures WithName(s, s[k].name) != []
  {
    if k > 0 {
      WithNameHas(s[1..], k - 1);
    }
  }

  /** A non-empty name class has a witness in the list. */
  lemma {:induction false} WithNameWitness(s: seq<NormalizedInstance>, n: string) returns (k: int)
    requires WithName(s, n) != []
    ensures 0 <= k < |s| && s[k].name == n
  {
    if s[0].name == n {
      k := 0;
    } else {
      k := WithNameWitness(s[1..], n);
      k := k + 1;
    }
  }

  /** In a sorted list, the first record's name is the least of all names. */
  lemma HeadIsLeast(s: seq<NormalizedInstance>, n: string)
    requires IsSortedByName(s) && s != []
    requires WithName(s, n) != []
    ensures NameLeq(s[0].name, n)
  {
    var k := WithNameWitness(s, n);
    if k == 0 {
      NameLeqReflexive(n);
    }
  }

  /**
   * A sorted list is determined by its classes of equal names: two sorted
   * lists that agree on every class are equal. So any stable sort by name
   * returns what `SortByName` returns.
   */
  lemma {:induction false} StableSortIsUnique(a: seq<NormalizedInstance>, b: seq<NormalizedInstance>)
    requires IsSortedByName(a) && IsSortedByName(b)
    requires SameNameClasses(a, b)
    ensures a == b
  {
    if a != [] && b != [] {
      var n, m := a[0].name, b[0].name;
      WithNameHas(a, 0);
      WithNameHas(b, 0);
      assert WithName(b, n) == WithName(a, n);
      assert WithName(a, m) == WithName(b, m);
      HeadIsLeast(b, n);
      HeadIsLeast(a, m);
      NameLeqAntisymmetric(n, m);
      assert WithName(a, n) == [a[0]] + WithName(a[1..], n);
      assert WithName(b, n) == [b[0]] + WithName(b[1..], n);
      assert n == m;
      assert WithName(a, n)[0] == a[0] && WithName(b, n)[0] == b[0];
      forall n' ensures WithName(a[1..], n') == WithName(b[1..], n') {
        var wa, wb := WithName(a, n'), WithName(b, n');
        assert wa == wb;
        if n' == n {
          assert wa[1..] == WithName(a[1..], n');
          assert wb[1..] == WithName(b[1..], n');
        } else {
          assert wa == WithName(a[1..], n');
          assert wb == WithName(b[1..], n');
        }
      }
      StableSortIsUnique(a[1..], b[1..]);
      assert a == [a[0]] + a[1..];
      assert b == [b[0]] + b[1..];
    } else if a != [] {
      WithNameHas(a, 0);
    } else if b != [] {
      WithNameHas(b, 0);
    }
  }

  /** Sorting an already sorted list leaves it unchanged. */
  lemma SortedIsFixed(s: seq<NormalizedInstance>)
    requires IsSortedByName(s)
    ensures SortByName(s) == s
  {
    SortByNameStable(s);
    StableSortIsUnique(SortByName(s), s);
  }

  /** Re-sorting the sorted listing by name leaves it unchanged. */
  lemma SortByNameIdempotent(s: seq<NormalizedInstance>)
    ensures SortByName(SortByName(s)) == SortByName(s)
  {
    SortedIsFixed(SortByName(s));
  }
}
