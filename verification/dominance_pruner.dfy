/** The dominance pruner (eliminateDuplicatePossibilitiesFromList): two
    adjacent-pair scans that drop entries dominated by their neighbour, never
    shrinking a list below the minimum pool size. */
module DominancePruner {
  import opened Roster
  import opened ColumnSort

  /** `d` costs no more than `p` and scores no fewer points. */
  predicate Dominates(d: Player, p: Player)
  {
    d.salary <= p.salary && d.points >= p.points
  }

  /** Some entry of `kept` dominates `p`. */
  predicate Covered(kept: seq<Player>, p: Player)
  {
    exists y :: y in kept && Dominates(y, p)
  }

  /** What pruning promises of one position's list: small lists are left alone;
      otherwise the result is drawn from the list, keeps at least `minSize`
      entries, and every entry of the list is dominated by a kept one. */
  predicate Pruned(before: seq<Player>, after: seq<Player>, minSize: int)
  {
    (|before| <= minSize ==> after == before)
    && (|before| > minSize ==> |after| >= minSize)
    && multiset(after) <= multiset(before)
    && forall x :: x in before ==> Covered(after, x)
  }

  /** Entry k of `s` has a successor that dominates it. */
  predicate DominatedAt(s: seq<Player>, k: int)
    requires 0 <= k < |s|
  {
    k + 1 < |s| && Dominates(s[k + 1], s[k])
  }

  /** The entries of `s` whose mark in `kept` is true, in order. */
  function Keep(s: seq<Player>, kept: seq<bool>): (r: seq<Player>)
    requires |kept| == |s|
    ensures |r| <= |s|
  {
    if s == [] then []
    else Keep(s[..|s| - 1], kept[..|s| - 1]) + (if kept[|s| - 1] then [s[|s| - 1]] else [])
  }

  /** A marked entry survives. */
  lemma {:induction false} KeptIn(s: seq<Player>, kept: seq<bool>, k: int)
    requires |kept| == |s| && 0 <= k < |s| && kept[k]
    ensures s[k] in Keep(s, kept)
  {
    if k < |s| - 1 {
      KeptIn(s[..|s| - 1], kept[..|s| - 1], k);
    }
  }

  /** The survivors are drawn from `s`. */
  lemma {:induction false} KeepIsSubMultiset(s: seq<Player>, kept: seq<bool>)
    requires |kept| == |s|
    ensures multiset(Keep(s, kept)) <= multiset(s)
  {
    if s != [] {
      var n := |s| - 1;
      KeepIsSubMultiset(s[..n], kept[..n]);
      assert s == s[..n] + [s[n]];
    }
  }

  /** When nothing is dropped, the survivors are `s` itself. */
  lemma {:induction false} KeepAll(s: seq<Player>, kept: seq<bool>)
    requires |kept| == |s| && |Keep(s, kept)| == |s|
    ensures Keep(s, kept) == s
  {
    if s != [] {
      var n := |s| - 1;
      assert kept[n];
      KeepAll(s[..n], kept[..n]);
      assert s == s[..n] + [s[n]];
    }
  }

  /** What one neighbour scan does to `s`, with `kept` marking the survivors:
      an entry is removed only when its successor dominates it; as long as
      more than `minSize` entries survive, every entry its successor dominates
      is removed; removal stops at `minSize` survivors; and once a dominated
      entry is kept, every later entry is kept, so the earliest dominated
      entries are the ones removed. */
  predicate Scan(s: seq<Player>, kept: seq<bool>, minSize: int)
  {
    |kept| == |s|
    && (forall k :: 0 <= k < |s| && !kept[k] ==> DominatedAt(s, k))
    && (|Keep(s, kept)| > minSize ==>
          forall k :: 0 <= k < |s| && DominatedAt(s, k) ==> !kept[k])
    && (|Keep(s, kept)| < |s| ==> |Keep(s, kept)| >= minSize)
    && (forall j, k :: 0 <= j < k < |s| && kept[j] && DominatedAt(s, j) ==> kept[k])
  }

  /** The number of marks that are true. */
  function CountKept(kept: seq<bool>): (n: nat)
    ensures n <= |kept|
  {
    if kept == [] then 0
    else CountKept(kept[..|kept| - 1]) + (if kept[|kept| - 1] then 1 else 0)
  }

  /** As many entries survive as there are true marks. */
  lemma {:induction false} KeepLength(s: seq<Player>, kept: seq<bool>)
    requires |kept| == |s|
    ensures |Keep(s, kept)| == CountKept(kept)
  {
    if s != [] {
      KeepLength(s[..|s| - 1], kept[..|s| - 1]);
    }
  }

  lemma {:induction false} CountKeptAppend(a: seq<bool>, b: seq<bool>)
    ensures CountKept(a + b) == CountKept(a) + CountKept(b)
    decreases |b|
  {
    if b == [] {
      assert a + b == a;
    } else {
      var n := |b| - 1;
      assert (a + b)[..|a + b| - 1] == a + b[..n];
      assert (a + b)[|a + b| - 1] == b[n];
      CountKeptAppend(a, b[..n]);
    }
  }

  lemma {:induction false} CountAllKept(kept: seq<bool>)
    requires forall k :: 0 <= k < |kept| ==> kept[k]
    ensures CountKept(kept) == |kept|
  {
    if kept != [] {
      CountAllKept(kept[..|kept| - 1]);
    }
  }

  /** Two marks that agree before `i`, where `a` keeps everything from `i`
      on: if `b` drops `i`, it keeps fewer entries than `a` and not all. */
  lemma CountBelow(a: seq<bool>, b: seq<bool>, i: int)
    requires |a| == |b| && 0 <= i < |a| && a[..i] == b[..i]
    requires forall m :: i <= m < |a| ==> a[m]
    ensures !b[i] ==> CountKept(b) < CountKept(a) && CountKept(b) < |b|
  {
    assert a == a[..i] + a[i..] && b == b[..i] + b[i..];
    assert b[i..] == [b[i]] + b[i + 1..];
    CountKeptAppend(a[..i], a[i..]);
    CountAllKept(a[i..]);
    CountKeptAppend(b[..i], b[i..]);
    CountKeptAppend([b[i]], b[i + 1..]);
    assert CountKept([b[i]]) == (if b[i] then 1 else 0) by {
      assert [b[i]][..0] == [];
    }
  }

  /** Two scans of `s` that agree before `i` agree at `i`: where `a` keeps a
      dominated entry, it has reached the floor and keeps everything after,
      so `b` cannot drop it without falling below the floor. */
  lemma ScanStep(s: seq<Player>, a: seq<bool>, b: seq<bool>, minSize: int, i: int)
    requires Scan(s, a, minSize) && Scan(s, b, minSize)
    requires 0 <= i < |s| && a[..i] == b[..i]
    ensures a[i] ==> b[i]
  {
    if a[i] && DominatedAt(s, i) {
      assert forall m :: i < m < |s| ==> a[m];
      KeepLength(s, a);
      KeepLength(s, b);
      CountBelow(a, b, i);
    }
  }

  /** Two scans of `s` agree on their first `n` marks. */
  lemma {:induction false} ScansAgreeUpTo(s: seq<Player>, k1: seq<bool>, k2: seq<bool>, minSize: int, n: int)
    requires Scan(s, k1, minSize) && Scan(s, k2, minSize)
    requires 0 <= n <= |s|
    ensures k1[..n] == k2[..n]
  {
    if n > 0 {
      ScansAgreeUpTo(s, k1, k2, minSize, n - 1);
      ScanStep(s, k1, k2, minSize, n - 1);
      ScanStep(s, k2, k1, minSize, n - 1);
      assert k1[..n] == k1[..n - 1] + [k1[n - 1]];
      assert k2[..n] == k2[..n - 1] + [k2[n - 1]];
    }
  }

  /** `Scan` fixes the scan completely: two masks that both describe a scan of
      `s` with the same minimum size are the same mask. */
  lemma ScanIsUnique(s: seq<Player>, k1: seq<bool>, k2: seq<bool>, minSize: int)
    requires Scan(s, k1, minSize) && Scan(s, k2, minSize)
    ensures k1 == k2
  {
    ScansAgreeUpTo(s, k1, k2, minSize, |s|);
    assert k1 == k1[..|s|] && k2 == k2[..|s|];
  }

  /** Entry k, and so every entry of `s`, is dominated by a survivor of a scan:
      a removed entry hands on to its successor. */
  lemma {:induction false} ScanCovers(s: seq<Player>, kept: seq<bool>, minSize: int, k: int)
    requires Scan(s, kept, minSize) && 0 <= k < |s|
    ensures Covered(Keep(s, kept), s[k])
    decreases |s| - k
  {
    if kept[k] {
      KeptIn(s, kept, k);
    } else {
      ScanCovers(s, kept, minSize, k + 1);
      var y :| y in Keep(s, kept) && Dominates(y, s[k + 1]);
    }
  }

  /** A scan prunes: its survivors meet everything pruning promises. */
  lemma ScanPrunes(s: seq<Player>, kept: seq<bool>, minSize: int)
    requires Scan(s, kept, minSize)
    ensures Pruned(s, Keep(s, kept), minSize)
  {
    var r := Keep(s, kept);
    if |r| == |s| {
      KeepAll(s, kept);
    }
    KeepIsSubMultiset(s, kept);
    forall x | x in s
      ensures Covered(r, x)
    {
      var k :| 0 <= k < |s| && s[k] == x;
      ScanCovers(s, kept, minSize, k);
    }
  }

  /** A scan over [X 10/5, Y 5/5] with minimum size 1 removes X, which Y
      dominates, whatever the marks: only [Y] can survive. */
  lemma ScanDropsDominated(x: Player, y: Player, kept: seq<bool>)
    requires x == Player("b", 10, 5) && y == Player("a", 5, 5)
    requires Scan([x, y], kept, 1)
    ensures Keep([x, y], kept) == [y]
  {
    var s := [x, y];
    assert kept[1];
    assert s[..1] == [x] && kept[..1] == [kept[0]];
    assert [x][..0] == [] && [kept[0]][..0] == [];
    assert Dominates(s[1], s[0]);
  }

  /** The scan stops at the floor: over [p1 10/1, p2 9/2, p3 8/3, p4 7/4]
      with minimum size 2, where each entry is dominated by the next, only the
      two earliest go and [p3, p4] is what survives. */
  lemma ScanStopsAtFloor(p1: Player, p2: Player, p3: Player, p4: Player, kept: seq<bool>)
    requires p1 == Player("p1", 10, 1) && p2 == Player("p2", 9, 2)
    requires p3 == Player("p3", 8, 3) && p4 == Player("p4", 7, 4)
    requires Scan([p1, p2, p3, p4], kept, 2)
    ensures kept == [false, false, true, true]
    ensures Keep([p1, p2, p3, p4], kept) == [p3, p4]
  {
    var s, m := [p1, p2, p3, p4], [false, false, true, true];
    assert s[..3] == [p1, p2, p3] && m[..3] == [false, false, true];
    assert s[..3][..2] == [p1, p2] && m[..3][..2] == [false, false];
    assert s[..2][..1] == [p1] && m[..2][..1] == [false];
    assert [p1][..0] == [] && [false][..0] == [];
    assert Keep([p1], [false]) == [];
    assert Keep([p1, p2], [false, false]) == [];
    assert Keep([p1, p2, p3], [false, false, true]) == [p3];
    assert Keep(s, m) == [p3, p4];
    assert DominatedAt(s, 0) && DominatedAt(s, 1) && DominatedAt(s, 2);
    assert Scan(s, m, 2);
    ScanIsUnique(s, kept, m, 2);
  }

  /** One scan over a sorted list: entry k is unset when entry k+1 exists, has
      at most its salary and at least its points, and more than `minSize`
      entries are still left. Entry k+1 is always read from the list as sorted. */
  method DropDominated(s: seq<Player>, minSize: int) returns (r: seq<Player>, ghost kept: seq<bool>)
    ensures Scan(s, kept, minSize) && r == Keep(s, kept)
  {
    r, kept := [], [];
    var count := |s|;
    for k := 0 to |s|
      invariant count == |s| - k + |r|
      invariant count == |s| || count >= minSize
      invariant |kept| == k && r == Keep(s[..k], kept)
      invariant forall j :: 0 <= j < k && !kept[j] ==> DominatedAt(s, j)
      invariant forall j :: 0 <= j < k && DominatedAt(s, j) && kept[j] ==> count <= minSize
      invariant forall j, m :: 0 <= j < m < k && kept[j] && DominatedAt(s, j) ==> kept[m]
    {
      assert s[..k + 1][..k] == s[..k];
      var drop := k + 1 < |s| && s[k].salary >= s[k + 1].salary && s[k].points <= s[k + 1].points && count > minSize;
      assert drop <==> DominatedAt(s, k) && count > minSize;
      ghost var next := kept + [!drop];
      assert next[..k] == kept;
      assert forall j :: 0 <= j < k ==> next[j] == kept[j];
      if drop {
        count := count - 1;
      } else {
        r := r + [s[k]];
      }
      kept := next;
    }
    assert s[..|s|] == s;
  }

  /** `arrange` only reorders: it stands for `array_multisort(..., SORT_ASC)`,
      whose comparison of whole records is not part of this model. */
  ghost predicate Reorders(arrange: seq<Player> -> seq<Player>)
  {
    forall s :: multiset(arrange(s)) == multiset(s)
  }

  /** The two passes of one position, through the intermediate lists: sort by
      salary (highest first), scan, reorder, sort by points (lowest first),
      scan, reorder. */
  ghost predicate ScansThrough(list: seq<Player>, bySalary: seq<Player>, kept1: seq<bool>,
                               byPoints: seq<Player>, kept2: seq<bool>, r: seq<Player>,
                               minSize: int, arrange: seq<Player> -> seq<Player>)
  {
    Sorted(bySalary, SalaryColumn, Desc) && multiset(bySalary) == multiset(list)
    && Scan(bySalary, kept1, minSize)
    && Sorted(byPoints, PointsColumn, Asc) && multiset(byPoints) == multiset(arrange(Keep(bySalary, kept1)))
    && Scan(byPoints, kept2, minSize)
    && r == arrange(Keep(byPoints, kept2))
  }

  /** What one position goes through: small lists are left alone, larger ones
      go through both scans. */
  ghost predicate TwoScans(list: seq<Player>, r: seq<Player>, minSize: int, arrange: seq<Player> -> seq<Player>)
  {
    (|list| <= minSize ==> r == list)
    && (|list| > minSize ==>
          exists bySalary, kept1, byPoints, kept2 ::
            ScansThrough(list, bySalary, kept1, byPoints, kept2, r, minSize, arrange))
  }

  /** Pruning a permutation of a list, then pruning a permutation of what
      survived, prunes the list: a permutation of the final survivors meets
      everything pruning promises. */
  lemma PrunedTwice(list: seq<Player>, s1: seq<Player>, a1: seq<Player>,
                    s2: seq<Player>, a2: seq<Player>, r: seq<Player>, minSize: int)
    requires |list| > minSize && multiset(s1) == multiset(list) && Pruned(s1, a1, minSize)
    requires multiset(s2) == multiset(a1) && Pruned(s2, a2, minSize)
    requires multiset(r) == multiset(a2)
    ensures Pruned(list, r, minSize)
  {
    forall x | x in list
      ensures Covered(r, x)
    {
      assert x in multiset(s1);
      assert Covered(a1, x);
      var y1 :| y1 in a1 && Dominates(y1, x);
      assert y1 in multiset(s2);
      assert Covered(a2, y1);
      var y2 :| y2 in a2 && Dominates(y2, y1);
      assert y2 in multiset(r);
      assert y2 in r && Dominates(y2, x);
    }
    assert |s1| == |multiset(list)|;
    assert |s2| == |multiset(a1)|;
    assert |r| == |multiset(a2)|;
  }

  /** Both scans together prune: the survivors are drawn from the list, at
      least `minSize` of them remain, and every entry of the list is
      dominated by one of them. */
  lemma TwoScansPrune(list: seq<Player>, r: seq<Player>, minSize: int, arrange: seq<Player> -> seq<Player>)
    requires Reorders(arrange) && TwoScans(list, r, minSize, arrange)
    ensures Pruned(list, r, minSize)
  {
    if |list| > minSize {
      var bySalary, kept1, byPoints, kept2 :|
        ScansThrough(list, bySalary, kept1, byPoints, kept2, r, minSize, arrange);
      var firstPass, secondPass := Keep(bySalary, kept1), Keep(byPoints, kept2);
      ScanPrunes(bySalary, kept1, minSize);
      ScanPrunes(byPoints, kept2, minSize);
      assert multiset(arrange(firstPass)) == multiset(firstPass);
      assert multiset(arrange(secondPass)) == multiset(secondPass);
      PrunedTwice(list, bySalary, firstPass, byPoints, secondPass, r, minSize);
    }
  }

  /** One position of eliminateDuplicatePossibilitiesFromList: skip small
      lists; otherwise scan sorted by salary (highest first), then scan sorted
      by points (lowest first), reordering with `arrange` after each scan. */
  method PruneList(list: seq<Player>, minSize: int, arrange: seq<Player> -> seq<Player>) returns (r: seq<Player>)
    requires Reorders(arrange)
    ensures TwoScans(list, r, minSize, arrange)
    ensures Pruned(list, r, minSize)
  {
    if |list| <= minSize {
      return list;
    }
    var bySalary := SortByColumn(list, SalaryColumn, Desc);
    var firstPass, kept1 := DropDominated(bySalary, minSize);
    var arranged := arrange(firstPass);
    var byPoints := SortByColumn(arranged, PointsColumn, Asc);
    var secondPass, kept2 := DropDominated(byPoints, minSize);
    r := arrange(secondPass);
    assert ScansThrough(list, bySalary, kept1, byPoints, kept2, r, minSize, arrange);
    TwoScansPrune(list, r, minSize, arrange);
  }

  /** eliminateDuplicatePossibilitiesFromList: prune every position's list on
      its own; the positions themselves are unchanged. */
  method EliminateDuplicatePossibilitiesFromList(pp: Pool, minSize: int, arrange: seq<Player> -> seq<Player>)
    returns (r: Pool)
    requires Reorders(arrange)
    ensures r.Keys == pp.Keys
    ensures forall pos :: pos in pp ==> TwoScans(pp[pos], r[pos], minSize, arrange)
    ensures forall pos :: pos in pp ==> Pruned(pp[pos], r[pos], minSize)
  {
    r := pp;
    var todo := pp.Keys;
    while todo != {}
      invariant todo <= pp.Keys && r.Keys == pp.Keys
      invariant forall pos :: pos in todo ==> r[pos] == pp[pos]
      invariant forall pos :: pos in pp && pos !in todo ==> TwoScans(pp[pos], r[pos], minSize, arrange)
      invariant forall pos :: pos in pp && pos !in todo ==> Pruned(pp[pos], r[pos], minSize)
      decreases todo
    {
      var pos :| pos in todo;
      var pruned := PruneList(pp[pos], minSize, arrange);
      r := r[pos := pruned];
      todo := todo - {pos};
    }
  }
}
