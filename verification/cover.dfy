/** The minimal cover of repository roots: sort, drop duplicates, keep what nothing kept covers. */
module RootCover {
  import Sorting = StableSorting

  /** A path as its components. */
  type Path = seq<string>

  /** The component is no later in character order. */
  predicate NameLe(a: string, b: string) {
    if a == [] then true
    else if b == [] then false
    else if a[0] != b[0] then a[0] < b[0]
    else NameLe(a[1..], b[1..])
  }

  /** Paths compare component by component. */
  predicate PathLe(a: Path, b: Path) {
    if a == [] then true
    else if b == [] then false
    else if a[0] != b[0] then NameLe(a[0], b[0])
    else PathLe(a[1..], b[1..])
  }

  function ByPath(): (Path, Path) -> bool {
    (a: Path, b: Path) => PathLe(a, b)
  }

  /** `a` is `b` or one of its ancestors. */
  predicate Covers(a: Path, b: Path) {
    a <= b
  }

  // ── The order ─────────────────────────────────────────────────────────────

  lemma {:induction false} NamesTotal(a: string, b: string)
    ensures NameLe(a, b) || NameLe(b, a)
    ensures NameLe(a, b) && NameLe(b, a) ==> a == b
  {
    if a != [] && b != [] {
      NamesTotal(a[1..], b[1..]);
      assert a == [a[0]] + a[1..] && b == [b[0]] + b[1..];
    }
  }

  lemma {:induction false} NamesChain(a: string, b: string, c: string)
    requires NameLe(a, b) && NameLe(b, c)
    ensures NameLe(a, c)
  {
    if a != [] && b != [] && c != [] && a[0] == b[0] == c[0] { NamesChain(a[1..], b[1..], c[1..]); }
  }

  lemma {:induction false} PathsTotal(a: Path, b: Path)
    ensures PathLe(a, b) || PathLe(b, a)
    ensures PathLe(a, b) && PathLe(b, a) ==> a == b
  {
    if a != [] && b != [] {
      NamesTotal(a[0], b[0]);
      PathsTotal(a[1..], b[1..]);
      assert a == [a[0]] + a[1..] && b == [b[0]] + b[1..];
    }
  }

  lemma {:induction false} PathsChain(a: Path, b: Path, c: Path)
    requires PathLe(a, b) && PathLe(b, c)
    ensures PathLe(a, c)
  {
    if a != [] && b != [] && c != [] {
      if a[0] == b[0] == c[0] {
        PathsChain(a[1..], b[1..], c[1..]);
      } else if a[0] != b[0] && b[0] != c[0] {
        NamesChain(a[0], b[0], c[0]);
        NamesTotal(a[0], b[0]);
      }
    }
  }

  /** An ancestor sorts before its descendants. */
  lemma {:induction false} CoverSortsFirst(a: Path, b: Path)
    requires Covers(a, b)
    ensures PathLe(a, b)
  {
    if a != [] {
      assert a[0] == b[0] && a[1..] <= b[1..];
      CoverSortsFirst(a[1..], b[1..]);
    }
  }

  lemma ByPathIsTotal()
    ensures Sorting.TotalPreorder(ByPath())
  {
    forall a: Path, b: Path ensures ByPath()(a, b) || ByPath()(b, a) { PathsTotal(a, b); }
    forall a: Path, b: Path, c: Path | Sorting.Chain(ByPath(), a, b, c) ensures ByPath()(a, c) { PathsChain(a, b, c); }
  }

  /** The first difference is at position `k`, and the smaller character there is the first name's. */
  predicate LowerAt(a: string, b: string, k: nat) {
    k < |a| && k < |b| && a[..k] == b[..k] && a[k] < b[k]
  }

  lemma LowerLater(a: string, b: string, k: nat)
    requires a != [] && b != [] && a[0] == b[0]
    ensures LowerAt(a[1..], b[1..], k) <==> LowerAt(a, b, k + 1)
  {
    if k < |a[1..]| && k < |b[1..]| {
      assert a[..k + 1] == [a[0]] + a[1..][..k] && b[..k + 1] == [b[0]] + b[1..][..k];
      assert a[1..][..k] == a[..k + 1][1..] && b[1..][..k] == b[..k + 1][1..];
    }
  }

  /** Names in order: one continues the other, or has the smaller character at the first difference. */
  lemma {:induction false} NamesAreLexicographic(a: string, b: string)
    ensures NameLe(a, b) <==> a <= b || exists k: nat :: LowerAt(a, b, k)
  {
    hide LowerAt;
    if a != [] && b != [] && a[0] == b[0] {
      NamesAreLexicographic(a[1..], b[1..]);
      assert a <= b <==> a[1..] <= b[1..] by { assert a == [a[0]] + a[1..] && b == [b[0]] + b[1..]; }
      NotLowerAtFirst(a, b);
      if k: nat :| LowerAt(a[1..], b[1..], k) { LowerLater(a, b, k); }
      if k: nat :| LowerAt(a, b, k) { LowerLater(a, b, k - 1); }
    } else {
      LowerAtFirst(a, b);
    }
  }

  lemma NotLowerAtFirst(a: string, b: string)
    requires a != [] && b != [] && a[0] == b[0]
    ensures !LowerAt(a, b, 0)
  {
  }

  lemma LowerAtFirst(a: string, b: string)
    requires a == [] || b == [] || a[0] != b[0]
    ensures (exists k: nat :: LowerAt(a, b, k)) <==> a != [] && b != [] && a[0] < b[0]
  {
    if a != [] && b != [] && a[0] < b[0] { assert LowerAt(a, b, 0); }
    if k: nat :| LowerAt(a, b, k) { OnlyLowerAtFirst(a, b, k); }
  }

  lemma OnlyLowerAtFirst(a: string, b: string, k: nat)
    requires LowerAt(a, b, k)
    ensures k == 0 || a[0] == b[0]
  {
    if k > 0 { assert a[0] == a[..k][0] && b[0] == b[..k][0]; }
  }

  /** The first difference is at component `k`, and the smaller name there is the first path's. */
  predicate SmallerAt(a: Path, b: Path, k: nat) {
    k < |a| && k < |b| && a[..k] == b[..k] && a[k] != b[k] && NameLe(a[k], b[k])
  }

  lemma SmallerLater(a: Path, b: Path, k: nat)
    requires a != [] && b != [] && a[0] == b[0]
    ensures SmallerAt(a[1..], b[1..], k) <==> SmallerAt(a, b, k + 1)
  {
    hide NameLe;
    if k < |a[1..]| && k < |b[1..]| {
      assert a[..k + 1] == [a[0]] + a[1..][..k] && b[..k + 1] == [b[0]] + b[1..][..k];
      assert a[1..][..k] == a[..k + 1][1..] && b[1..][..k] == b[..k + 1][1..];
    }
  }

  /** Paths in order: one continues the other, or has the smaller name at the first difference. */
  lemma {:induction false} PathsAreLexicographic(a: Path, b: Path)
    ensures PathLe(a, b) <==> a <= b || exists k: nat :: SmallerAt(a, b, k)
  {
    hide NameLe, SmallerAt;
    if a != [] && b != [] && a[0] == b[0] {
      PathsAreLexicographic(a[1..], b[1..]);
      assert a <= b <==> a[1..] <= b[1..] by { assert a == [a[0]] + a[1..] && b == [b[0]] + b[1..]; }
      NotAtFirst(a, b);
      if k: nat :| SmallerAt(a[1..], b[1..], k) { SmallerLater(a, b, k); }
      if k: nat :| SmallerAt(a, b, k) { SmallerLater(a, b, k - 1); }
    } else {
      AtFirst(a, b);
    }
  }

  lemma NotAtFirst(a: Path, b: Path)
    requires a != [] && b != [] && a[0] == b[0]
    ensures !SmallerAt(a, b, 0)
  {
  }

  lemma AtFirst(a: Path, b: Path)
    requires a == [] || b == [] || a[0] != b[0]
    ensures (exists k: nat :: SmallerAt(a, b, k)) <==> a != [] && b != [] && NameLe(a[0], b[0])
  {
    hide NameLe;
    if a != [] && b != [] && NameLe(a[0], b[0]) { assert SmallerAt(a, b, 0); }
    if k: nat :| SmallerAt(a, b, k) { OnlyAtFirst(a, b, k); }
  }

  lemma OnlyAtFirst(a: Path, b: Path, k: nat)
    requires SmallerAt(a, b, k)
    ensures k == 0 || a[0] == b[0]
  {
    if k > 0 { assert a[0] == a[..k][0] && b[0] == b[..k][0]; }
  }

  /** A path covers exactly those that continue it by any number of components. */
  lemma CoversContinuations(a: Path, b: Path)
    ensures Covers(a, b) <==> exists rest :: b == a + rest
  {
    if Covers(a, b) { assert b == a + b[|a|..]; }
  }

  // ── What the cover is ─────────────────────────────────────────────────────

  predicate Increasing(s: seq<Path>) {
    forall i, j :: 0 <= i < j < |s| ==> PathLe(s[i], s[j]) && s[i] != s[j]
  }

  /** No other candidate is an ancestor. */
  ghost predicate IsRoot(p: Path, candidates: seq<Path>) {
    p in candidates && forall q :: q in candidates && Covers(q, p) ==> q == p
  }

  /** In order, exactly the candidates without a proper ancestor among the candidates. */
  ghost predicate IsCover(cover: seq<Path>, candidates: seq<Path>) {
    Increasing(cover) && forall p :: p in cover <==> IsRoot(p, candidates)
  }

  /** Some root covers each candidate. */
  lemma {:induction false} RootAbove(p: Path, candidates: seq<Path>) returns (root: Path)
    requires p in candidates
    ensures IsRoot(root, candidates) && Covers(root, p)
    decreases |p|
  {
    if q :| q in candidates && Covers(q, p) && q != p {
      root := RootAbove(q, candidates);
    } else {
      root := p;
    }
  }

  /** The cover reaches every candidate and nothing in it covers anything else in it. */
  lemma CoverIsMinimal(cover: seq<Path>, candidates: seq<Path>)
    requires IsCover(cover, candidates)
    ensures forall p :: p in candidates ==> exists root :: root in cover && Covers(root, p)
    ensures forall a, b :: a in cover && b in cover && Covers(a, b) ==> a == b
  {
    forall p | p in candidates ensures exists root :: root in cover && Covers(root, p) {
      var root := RootAbove(p, candidates);
      assert root in cover;
    }
  }

  lemma {:induction false} IncreasingUnique(a: seq<Path>, b: seq<Path>)
    requires Increasing(a) && Increasing(b) && forall p :: p in a <==> p in b
    ensures a == b
  {
    hide Increasing;
    assert a != [] ==> a[0] in b;
    assert b != [] ==> b[0] in a;
    if a != [] && b != [] {
      SameLast(a, b);
      var a', b' := a[..|a| - 1], b[..|b| - 1];
      forall p ensures p in a' <==> p in b' {
        InitMembers(a, p);
        InitMembers(b, p);
      }
      InitIncreasing(a);
      InitIncreasing(b);
      IncreasingUnique(a', b');
      assert a == a' + [a[|a| - 1]] && b == b' + [b[|b| - 1]];
    }
  }

  lemma InitIncreasing(a: seq<Path>)
    requires Increasing(a) && a != []
    ensures Increasing(a[..|a| - 1])
  {
  }

  lemma SameLast(a: seq<Path>, b: seq<Path>)
    requires Increasing(a) && Increasing(b) && a != [] && b != [] && forall p :: p in a <==> p in b
    ensures a[|a| - 1] == b[|b| - 1]
  {
    hide Increasing;
    LargestIsLast(a, b);
    LargestIsLast(b, a);
    PathsTotal(a[|a| - 1], b[|b| - 1]);
  }

  lemma LargestIsLast(a: seq<Path>, b: seq<Path>)
    requires Increasing(a) && a != [] && b != [] && forall p :: p in b ==> p in a
    ensures PathLe(b[|b| - 1], a[|a| - 1])
  {
    var y := b[|b| - 1];
    assert y in b;
    var i :| 0 <= i < |a| && a[i] == y;
    PathsTotal(y, y);
  }

  lemma InitMembers(s: seq<Path>, p: Path)
    requires Increasing(s) && s != []
    ensures p in s[..|s| - 1] <==> p in s && p != s[|s| - 1]
  {
    assert s == s[..|s| - 1] + [s[|s| - 1]];
  }

  /** The cover depends only on which candidates there are, not on their order or number. */
  lemma CoverIgnoresOrder(a: seq<Path>, candidates: seq<Path>, b: seq<Path>, others: seq<Path>)
    requires IsCover(a, candidates) && IsCover(b, others) && forall p :: p in candidates <==> p in others
    ensures a == b
  {
    forall p ensures p in a <==> p in b {
      assert IsRoot(p, candidates) <==> IsRoot(p, others);
    }
    IncreasingUnique(a, b);
  }

  // ── The loops ─────────────────────────────────────────────────────────────

  /** Drops each path equal to the one before it. */
  method Dedup(sorted: seq<Path>) returns (r: seq<Path>)
    requires Sorting.Sorted(ByPath(), sorted)
    ensures Increasing(r) && forall p :: p in r <==> p in sorted
  {
    r := [];
    for i := 0 to |sorted|
      invariant Increasing(r) && forall p :: p in r <==> p in sorted[..i]
      invariant if i == 0 then r == [] else r != [] && r[|r| - 1] == sorted[i - 1]
    {
      assert sorted[..i + 1] == sorted[..i] + [sorted[i]];
      if i == 0 || sorted[i] != sorted[i - 1] {
        if i > 0 {
          assert ByPath()(sorted[i - 1], sorted[i]);
          AppendIncreasing(r, sorted[i], sorted[i - 1]);
        }
        r := r + [sorted[i]];
      }
    }
    assert sorted[..|sorted|] == sorted;
  }

  lemma AppendIncreasing(r: seq<Path>, x: Path, last: Path)
    requires Increasing(r) && r != [] && r[|r| - 1] == last && PathLe(last, x) && last != x
    ensures Increasing(r + [x])
  {
    forall i | 0 <= i < |r| ensures PathLe(r[i], x) && r[i] != x {
      if i < |r| - 1 {
        PathsChain(r[i], last, x);
        PathsTotal(r[i], last);
      }
    }
  }

  /** The entries the new candidate does not cover. */
  function Retained(entries: seq<Path>, candidate: Path): seq<Path> {
    if entries == [] then []
    else Retained(entries[..|entries| - 1], candidate)
         + (if Covers(candidate, entries[|entries| - 1]) then [] else [entries[|entries| - 1]])
  }

  lemma {:induction false} RetainsAll(entries: seq<Path>, candidate: Path)
    requires forall i :: 0 <= i < |entries| ==> !Covers(candidate, entries[i])
    ensures Retained(entries, candidate) == entries
  {
    if entries != [] { RetainsAll(entries[..|entries| - 1], candidate); }
  }

  /** A candidate later in the order covers nothing earlier. */
  lemma LaterCoversNothing(sorted: seq<Path>, i: nat, p: Path)
    requires Increasing(sorted) && i < |sorted| && p in sorted[..i]
    ensures !Covers(sorted[i], p)
  {
    var k :| 0 <= k < i && sorted[k] == p;
    if Covers(sorted[i], p) {
      CoverSortsFirst(sorted[i], p);
      PathsTotal(sorted[i], sorted[k]);
    }
  }

  method MinimalCover(found: seq<Path>) returns (minimal: seq<Path>)
    ensures IsCover(minimal, found)
    ensures forall p :: p in minimal <==> p in found && forall q, rest :: q in found && p == q + rest ==> rest == []
  {
    ByPathIsTotal();
    Sorting.SortMembers(ByPath(), found);
    var sorted := Sorting.Sort(ByPath(), found);
    var candidates := Dedup(sorted);
    minimal := [];
    for i := 0 to |candidates|
      invariant IsCover(minimal, candidates[..i])
    {
      var candidate := candidates[i];
      var covered := AnyCovers(minimal, candidate);
      NextCandidate(minimal, candidates, i);
      if !covered {
        // Sorting has put every ancestor first, so nothing is ever removed here.
        assert Retained(minimal, candidate) == minimal;
        minimal := Retained(minimal, candidate);
        minimal := minimal + [candidate];
      }
    }
    assert candidates[..|candidates|] == candidates;
    forall p ensures IsRoot(p, candidates) <==> IsRoot(p, found) {}
    forall p ensures p in minimal <==> p in found && forall q, rest :: q in found && p == q + rest ==> rest == [] {
      RootContinuesNothing(p, found);
    }
  }

  lemma RootContinuesNothing(p: Path, candidates: seq<Path>)
    ensures IsRoot(p, candidates) <==> p in candidates && forall q, rest :: q in candidates && p == q + rest ==> rest == []
  {
    if IsRoot(p, candidates) {
      forall q, rest | q in candidates && p == q + rest ensures rest == [] {
        CoversContinuations(q, p);
      }
    } else if p in candidates {
      var q :| q in candidates && Covers(q, p) && q != p;
      CoversContinuations(q, p);
      var rest :| p == q + rest;
      assert rest != [];
    }
  }

  method AnyCovers(entries: seq<Path>, candidate: Path) returns (covered: bool)
    ensures covered <==> exists e :: e in entries && Covers(e, candidate)
  {
    covered := false;
    for i := 0 to |entries|
      invariant covered <==> exists e :: e in entries[..i] && Covers(e, candidate)
    {
      assert entries[..i + 1] == entries[..i] + [entries[i]];
      if Covers(entries[i], candidate) {
        covered := true;
      }
    }
    assert entries[..|entries|] == entries;
  }

  /** One more candidate is a root exactly when no root so far covers it, and it unseats none of them. */
  lemma NextCandidate(cover: seq<Path>, candidates: seq<Path>, i: nat)
    requires Increasing(candidates) && i < |candidates| && IsCover(cover, candidates[..i])
    ensures (forall e :: e in cover ==> !Covers(candidates[i], e)) && Retained(cover, candidates[i]) == cover
    ensures if exists e :: e in cover && Covers(e, candidates[i]) then IsCover(cover, candidates[..i + 1])
            else IsCover(cover + [candidates[i]], candidates[..i + 1])
  {
    var c, before, after := candidates[i], candidates[..i], candidates[..i + 1];
    assert after == before + [c];
    forall e | e in cover ensures !Covers(c, e) {
      LaterCoversNothing(candidates, i, e);
    }
    RetainsAll(cover, c);
    RootsKept(cover, candidates, i);
    if e :| e in cover && Covers(e, c) {
      assert !IsRoot(c, after);
    } else {
      CoverIsMinimal(cover, before);
      NewRoot(cover, candidates, i);
    }
  }

  lemma RootsKept(cover: seq<Path>, candidates: seq<Path>, i: nat)
    requires Increasing(candidates) && i < |candidates| && IsCover(cover, candidates[..i])
    ensures forall p :: p != candidates[i] ==> (p in cover <==> IsRoot(p, candidates[..i + 1]))
    ensures candidates[i] !in cover
  {
    var c, before, after := candidates[i], candidates[..i], candidates[..i + 1];
    assert after == before + [c];
    forall p | p != c ensures p in cover <==> IsRoot(p, after) {
      if p in before { LaterCoversNothing(candidates, i, p); }
    }
  }

  lemma RootCovers(cover: seq<Path>, q: Path, c: Path)
    requires Covers(q, c) && exists root :: root in cover && Covers(root, q)
    ensures exists root :: root in cover && Covers(root, c)
  {
    var root :| root in cover && Covers(root, q);
    assert Covers(root, c);
  }

  lemma NewRoot(cover: seq<Path>, candidates: seq<Path>, i: nat)
    requires Increasing(candidates) && i < |candidates| && IsCover(cover, candidates[..i])
    requires forall e :: e in cover ==> !Covers(e, candidates[i])
    ensures IsCover(cover + [candidates[i]], candidates[..i + 1])
  {
    var c, before, after := candidates[i], candidates[..i], candidates[..i + 1];
    assert after == before + [c];
    RootsKept(cover, candidates, i);
    CoverIsMinimal(cover, before);
    forall q | q in before ensures !Covers(q, c) {
      if Covers(q, c) { RootCovers(cover, q, c); }
    }
    forall k | 0 <= k < |cover| ensures PathLe(cover[k], c) && cover[k] != c {
      assert cover[k] in cover && IsRoot(cover[k], before);
      var n :| 0 <= n < i && candidates[n] == cover[k];
    }
  }
}
