/**
 * Stable sorting by a total preorder.  `Sort` is the reference for the library's stable sort and
 * `Insert` for "insert before the first larger element".  A sequence is the stable sort of another
 * one when it is sorted and keeps, for every element, the order of the elements equivalent to it;
 * `StableSortUnique` shows that this pins the sequence down.
 */
module StableSorting {

  ghost predicate TotalPreorder<T(!new)>(le: (T, T) -> bool) {
    && (forall x, y :: le(x, y) || le(y, x))
    && (forall x, y, z :: Chain(le, x, y, z) ==> le(x, z))
  }

  /** Names the premise of transitivity, so that a proof says where it uses it. */
  predicate Chain<T>(le: (T, T) -> bool, x: T, y: T, z: T) {
    le(x, y) && le(y, z)
  }

  predicate Sorted<T>(le: (T, T) -> bool, s: seq<T>) {
    forall i, j :: 0 <= i < j < |s| ==> le(s[i], s[j])
  }

  /** The elements of `s` equivalent to `x`, in order. */
  function Class<T>(le: (T, T) -> bool, s: seq<T>, x: T): seq<T> {
    if s == [] then []
    else
      var last := s[|s| - 1];
      Class(le, s[..|s| - 1], x) + (if le(x, last) && le(last, x) then [last] else [])
  }

  ghost predicate StableSortOf<T(!new)>(le: (T, T) -> bool, r: seq<T>, s: seq<T>) {
    Sorted(le, r) && forall x :: Class(le, r, x) == Class(le, s, x)
  }

  /** The number of leading elements that are not larger than `x`. */
  function Position<T>(le: (T, T) -> bool, s: seq<T>, x: T): (p: nat)
    ensures p <= |s|
    ensures forall i :: 0 <= i < p ==> le(s[i], x)
    ensures p < |s| ==> !le(s[p], x)
  {
    if s == [] || !le(s[0], x) then 0 else 1 + Position(le, s[1..], x)
  }

  function Insert<T>(le: (T, T) -> bool, s: seq<T>, x: T): seq<T> {
    var p := Position(le, s, x);
    s[..p] + [x] + s[p..]
  }

  function Sort<T>(le: (T, T) -> bool, s: seq<T>): seq<T> {
    if s == [] then [] else Insert(le, Sort(le, s[..|s| - 1]), s[|s| - 1])
  }

  lemma {:induction false} ClassConcat<T>(le: (T, T) -> bool, a: seq<T>, b: seq<T>, x: T)
    ensures Class(le, a + b, x) == Class(le, a, x) + Class(le, b, x)
  {
    if b == [] {
      assert a + b == a;
    } else {
      ClassConcat(le, a, b[..|b| - 1], x);
      assert (a + b)[..|a + b| - 1] == a + b[..|b| - 1];
    }
  }

  lemma {:induction false} ClassEmpty<T>(le: (T, T) -> bool, s: seq<T>, x: T)
    requires forall i :: 0 <= i < |s| ==> !(le(x, s[i]) && le(s[i], x))
    ensures Class(le, s, x) == []
  {
    if s != [] {
      ClassEmpty(le, s[..|s| - 1], x);
    }
  }

  lemma {:induction false} ClassMembers<T>(le: (T, T) -> bool, s: seq<T>, x: T)
    ensures forall y :: y in Class(le, s, x) <==> y in s && le(x, y) && le(y, x)
  {
    if s != [] {
      ClassMembers(le, s[..|s| - 1], x);
      assert s == s[..|s| - 1] + [s[|s| - 1]];
    }
  }

  /** Inserting into a sorted sequence keeps it sorted and puts `x` last in its class. */
  lemma InsertStable<T(!new)>(le: (T, T) -> bool, s: seq<T>, x: T)
    requires TotalPreorder(le) && Sorted(le, s)
    ensures StableSortOf(le, Insert(le, s, x), s + [x])
  {
    InsertSorted(le, s, x);
    forall y ensures Class(le, Insert(le, s, x), y) == Class(le, s + [x], y) {
      InsertClass(le, s, x, y);
    }
  }

  /** The tail after the insertion point is strictly larger than `x`. */
  lemma TailLarger<T(!new)>(le: (T, T) -> bool, s: seq<T>, x: T)
    requires TotalPreorder(le) && Sorted(le, s)
    ensures forall i :: Position(le, s, x) <= i < |s| ==> le(x, s[i]) && !le(s[i], x)
  {
    var p := Position(le, s, x);
    forall i | p <= i < |s| ensures le(x, s[i]) && !le(s[i], x) {
      assert i == p || le(s[p], s[i]);
      assert !Chain(le, s[p], s[i], x);
    }
  }

  lemma InsertSorted<T(!new)>(le: (T, T) -> bool, s: seq<T>, x: T)
    requires TotalPreorder(le) && Sorted(le, s)
    ensures Sorted(le, Insert(le, s, x))
  {
    TailLarger(le, s, x);
  }

  lemma InsertClass<T(!new)>(le: (T, T) -> bool, s: seq<T>, x: T, y: T)
    requires TotalPreorder(le) && Sorted(le, s)
    ensures Class(le, Insert(le, s, x), y) == Class(le, s + [x], y)
  {
    TailLarger(le, s, x);
    PlacedClass(le, s, Position(le, s, x), x, y);
  }

  /** `x` may move past elements of other classes. */
  lemma ClassSwap<T>(le: (T, T) -> bool, a: seq<T>, b: seq<T>, x: T, y: T)
    requires le(y, x) && le(x, y) ==> Class(le, b, y) == []
    ensures Class(le, a + [x] + b, y) == Class(le, a + b + [x], y)
  {
    var single := if le(y, x) && le(x, y) then [x] else [];
    assert Class(le, a + [x] + b, y) == Class(le, a, y) + single + Class(le, b, y) by {
      ClassConcat(le, a + [x], b, y);
      ClassAppend(le, a, x, y);
    }
    assert Class(le, a + b + [x], y) == Class(le, a, y) + Class(le, b, y) + single by {
      ClassAppend(le, a + b, x, y);
      ClassConcat(le, a, b, y);
    }
  }

  lemma ClassAppend<T>(le: (T, T) -> bool, a: seq<T>, x: T, y: T)
    ensures Class(le, a + [x], y) == Class(le, a, y) + (if le(y, x) && le(x, y) then [x] else [])
  {
    assert (a + [x])[..|a|] == a;
  }

  lemma {:induction false} SortStable<T(!new)>(le: (T, T) -> bool, s: seq<T>)
    requires TotalPreorder(le)
    ensures StableSortOf(le, Sort(le, s), s)
  {
    if s != [] {
      var t, x := s[..|s| - 1], s[|s| - 1];
      SortStable(le, t);
      var r := Sort(le, t);
      InsertStable(le, r, x);
      assert s == t + [x];
      forall y ensures Class(le, Sort(le, s), y) == Class(le, s, y) {
        ClassConcat(le, r, [x], y);
        ClassConcat(le, t, [x], y);
      }
    }
  }

  lemma LastInClass<T(!new)>(le: (T, T) -> bool, s: seq<T>)
    requires TotalPreorder(le) && s != []
    ensures var x := s[|s| - 1]; Class(le, s, x) == Class(le, s[..|s| - 1], x) + [x]
  {
  }

  lemma SameLast<T(!new)>(le: (T, T) -> bool, a: seq<T>, b: seq<T>)
    requires TotalPreorder(le) && Sorted(le, a) && Sorted(le, b) && a != [] && b != []
    requires forall x :: Class(le, a, x) == Class(le, b, x)
    ensures a[|a| - 1] == b[|b| - 1]
  {
    var x, y := a[|a| - 1], b[|b| - 1];
    LastInClass(le, a);
    LastInClass(le, b);
    assert le(y, x) by { LastIsLargest(le, a, y, Class(le, b, y)); }
    assert le(x, y) by { LastIsLargest(le, b, x, Class(le, a, x)); }
    ClassLast(le, a, x);
    ClassLast(le, b, x);
  }

  lemma LastIsLargest<T(!new)>(le: (T, T) -> bool, s: seq<T>, y: T, c: seq<T>)
    requires Sorted(le, s) && s != [] && y in c && c == Class(le, s, y) && le(y, y)
    ensures le(y, s[|s| - 1])
  {
    ClassMembers(le, s, y);
  }

  lemma ClassLast<T>(le: (T, T) -> bool, s: seq<T>, x: T)
    requires s != [] && le(x, s[|s| - 1]) && le(s[|s| - 1], x)
    ensures Class(le, s, x) != []
    ensures Class(le, s, x)[|Class(le, s, x)| - 1] == s[|s| - 1]
  {
  }

  lemma ClassInit<T>(le: (T, T) -> bool, a: seq<T>, b: seq<T>, z: T)
    requires a != [] && b != [] && a[|a| - 1] == b[|b| - 1]
    requires Class(le, a, z) == Class(le, b, z)
    ensures Class(le, a[..|a| - 1], z) == Class(le, b[..|b| - 1], z)
  {
    var tail := if le(z, a[|a| - 1]) && le(a[|a| - 1], z) then [a[|a| - 1]] else [];
    assert Class(le, a, z) == Class(le, a[..|a| - 1], z) + tail;
    assert Class(le, b, z) == Class(le, b[..|b| - 1], z) + tail;
    CancelTail(Class(le, a[..|a| - 1], z), Class(le, b[..|b| - 1], z), tail);
  }

  lemma CancelTail<T>(p: seq<T>, q: seq<T>, tail: seq<T>)
    requires p + tail == q + tail
    ensures p == q
  {
    assert |p + tail| == |p| + |tail| && |q + tail| == |q| + |tail|;
    assert p == (p + tail)[..|p|] && q == (q + tail)[..|q|];
  }

  lemma NonemptyClass<T(!new)>(le: (T, T) -> bool, s: seq<T>)
    requires TotalPreorder(le) && s != []
    ensures Class(le, s, s[0]) != []
  {
    ClassMembers(le, s, s[0]);
    assert s[0] in s && le(s[0], s[0]);
  }

  /** Being the stable sort of the same sequence determines the result. */
  lemma {:induction false} StableSortUnique<T(!new)>(le: (T, T) -> bool, a: seq<T>, b: seq<T>)
    requires TotalPreorder(le) && Sorted(le, a) && Sorted(le, b)
    requires forall x :: Class(le, a, x) == Class(le, b, x)
    ensures a == b
    decreases |a|
  {
    if a == [] || b == [] {
      if a != [] { NonemptyClass(le, a); }
      if b != [] { NonemptyClass(le, b); }
    } else {
      SameLast(le, a, b);
      var a', b' := a[..|a| - 1], b[..|b| - 1];
      forall z ensures Class(le, a', z) == Class(le, b', z) {
        ClassInit(le, a, b, z);
      }
      assert Sorted(le, a') && Sorted(le, b');
      StableSortUnique(le, a', b');
    }
  }

  /** Equal classes for every element mean the same elements with the same multiplicity. */
  lemma SameClassesSameMembers<T(!new)>(le: (T, T) -> bool, a: seq<T>, b: seq<T>)
    requires TotalPreorder(le)
    requires forall x :: Class(le, a, x) == Class(le, b, x)
    ensures multiset(a) == multiset(b)
  {
    forall x ensures multiset(a)[x] == multiset(b)[x] {
      assert le(x, x);
      ClassCounts(le, a, x);
      ClassCounts(le, b, x);
    }
  }

  lemma {:induction false} ClassCounts<T>(le: (T, T) -> bool, s: seq<T>, x: T)
    requires le(x, x)
    ensures multiset(Class(le, s, x))[x] == multiset(s)[x]
  {
    if s != [] {
      var init, last := s[..|s| - 1], s[|s| - 1];
      ClassCounts(le, init, x);
      assert s == init + [last];
      ClassAppend(le, init, last, x);
    }
  }

  /** Sorting a sorted sequence with one more element at the end is one insertion. */
  lemma SortAppend<T(!new)>(le: (T, T) -> bool, s: seq<T>, x: T)
    requires TotalPreorder(le) && Sorted(le, s)
    ensures Sort(le, s + [x]) == Insert(le, s, x)
    ensures Sort(le, s) == s
  {
    assert (s + [x])[..|s|] == s;
    SortStable(le, s);
    StableSortUnique(le, Sort(le, s), s);
  }

  lemma SortMembers<T(!new)>(le: (T, T) -> bool, s: seq<T>)
    requires TotalPreorder(le)
    ensures Sorted(le, Sort(le, s))
    ensures multiset(Sort(le, s)) == multiset(s) && |Sort(le, s)| == |s|
    ensures forall x :: x in Sort(le, s) <==> x in s
  {
    SortStable(le, s);
    SameClassesSameMembers(le, Sort(le, s), s);
    assert |multiset(Sort(le, s))| == |multiset(s)|;
    forall x ensures x in Sort(le, s) <==> x in s {
      assert x in multiset(Sort(le, s)) <==> x in multiset(s);
    }
  }

  /** An element placed by one order and re-sorted by another lands where the second would insert it. */
  lemma Resort<T(!new)>(old_le: (T, T) -> bool, le: (T, T) -> bool, s: seq<T>, x: T)
    requires TotalPreorder(le) && Sorted(le, s)
    requires forall i :: Position(old_le, s, x) <= i < |s| ==> !le(s[i], x)
    ensures Sort(le, Insert(old_le, s, x)) == Insert(le, s, x)
  {
    var placed := Insert(old_le, s, x);
    SortStable(le, placed);
    InsertStable(le, s, x);
    forall y ensures Class(le, placed, y) == Class(le, s + [x], y) {
      PlacedClass(le, s, Position(old_le, s, x), x, y);
    }
    StableSortUnique(le, Sort(le, placed), Insert(le, s, x));
  }

  lemma PlacedClass<T(!new)>(le: (T, T) -> bool, s: seq<T>, p: nat, x: T, y: T)
    requires TotalPreorder(le) && p <= |s|
    requires forall i :: p <= i < |s| ==> !le(s[i], x)
    ensures Class(le, s[..p] + [x] + s[p..], y) == Class(le, s + [x], y)
  {
    assert s == s[..p] + s[p..];
    TailClass(le, s, p, x, y);
    ClassSwap(le, s[..p], s[p..], x, y);
  }

  lemma TailClass<T(!new)>(le: (T, T) -> bool, s: seq<T>, p: nat, x: T, y: T)
    requires TotalPreorder(le) && p <= |s|
    requires forall i :: p <= i < |s| ==> !le(s[i], x)
    ensures le(y, x) && le(x, y) ==> Class(le, s[p..], y) == []
  {
    if le(y, x) && le(x, y) {
      forall i | 0 <= i < |s[p..]| ensures !(le(y, s[p..][i]) && le(s[p..][i], y)) {
        assert !le(s[p + i], x);
        assert !Chain(le, s[p + i], y, x);
      }
      ClassEmpty(le, s[p..], y);
    }
  }
}
