/** The slot combiner (collapseMultiplePlayersInPool with
    checkPositionPlayerDuplicates): for fan_duel, each of the PG, SG, SF and
    PF lists becomes the list of bundles of two distinct players. */
module SlotCombiner {
  import opened Roster

  /** The positions fan_duel fills with two players each, in processing order. */
  const PairedPositions: seq<string> := ["PG", "SG", "SF", "PF"]

  /** A bundle of two candidates: joined id, summed salary, summed points. */
  function Bundle(a: Player, b: Player): Player
  {
    Player(a.id + [Separator] + b.id, a.salary + b.salary, a.points + b.points)
  }

  /** Some value occurs twice (array_flip then has fewer entries). */
  predicate HasRepeat(ids: seq<string>)
  {
    exists i, j :: 0 <= i < j < |ids| && ids[i] == ids[j]
  }

  /** Every value of `ids` occurs in `w` (array_diff(ids, w) is empty). */
  predicate Within(ids: seq<string>, w: seq<string>)
  {
    forall x :: x in ids ==> x in w
  }

  /** checkPositionPlayerDuplicates: false when `ids` repeats a value or when
      some already selected group holds every value of `ids`. */
  method CheckPositionPlayerDuplicates(ids: seq<string>, selected: seq<seq<string>>) returns (ok: bool)
    ensures ok <==> !HasRepeat(ids) && forall k :: 0 <= k < |selected| ==> !Within(ids, selected[k])
  {
    if HasRepeat(ids) {
      return false;
    }
    for k := 0 to |selected|
      invariant forall m :: 0 <= m < k ==> !Within(ids, selected[m])
    {
      if Within(ids, selected[k]) {
        return false;
      }
    }
    return true;
  }

  /** Index pair (i, j) yields a bundle: i < j and both hold the first
      occurrence of their id. */
  predicate Chosen(list: seq<Player>, i: int, j: int)
    requires 0 <= i < |list| && 0 <= j < |list|
  {
    i < j && IsFirst(list, i) && IsFirst(list, j)
  }

  /** (p, q) is visited before (i, j) by the two nested loops. */
  predicate Precedes(p: int, q: int, i: int, j: int)
  {
    p < i || (p == i && q < j)
  }

  /** The chosen pairs (i, q) with q < j, in visiting order. */
  function RowPrefix(list: seq<Player>, i: int, j: int): seq<(int, int)>
    requires 0 <= i < |list| && 0 <= j <= |list|
  {
    if j == 0 then []
    else if Chosen(list, i, j - 1) then RowPrefix(list, i, j - 1) + [(i, j - 1)]
    else RowPrefix(list, i, j - 1)
  }

  /** The chosen pairs whose first index is below i, in visiting order. */
  function GridPrefix(list: seq<Player>, i: int): seq<(int, int)>
    requires 0 <= i <= |list|
  {
    if i == 0 then [] else GridPrefix(list, i - 1) + RowPrefix(list, i - 1, |list|)
  }

  /** A row prefix holds exactly the chosen pairs of row i left of column j,
      each visited before the next. */
  lemma {:induction false} RowPrefixMembers(list: seq<Player>, i: int, j: int)
    requires 0 <= i < |list| && 0 <= j <= |list|
    ensures var ps := RowPrefix(list, i, j);
            (forall x :: x in ps <==> x.0 == i && 0 <= x.1 < j && Chosen(list, x.0, x.1))
            && forall a, b :: 0 <= a < b < |ps| ==> Precedes(ps[a].0, ps[a].1, ps[b].0, ps[b].1)
  {
    if j > 0 {
      RowPrefixMembers(list, i, j - 1);
      var prev := RowPrefix(list, i, j - 1);
      assert forall a :: 0 <= a < |prev| ==> prev[a] in prev;
    }
  }

  /** A grid prefix holds exactly the chosen pairs of the rows above i, each
      visited before the next. */
  lemma {:induction false} GridPrefixMembers(list: seq<Player>, i: int)
    requires 0 <= i <= |list|
    ensures var ps := GridPrefix(list, i);
            (forall x :: x in ps <==> 0 <= x.0 < i && 0 <= x.1 < |list| && Chosen(list, x.0, x.1))
            && forall a, b :: 0 <= a < b < |ps| ==> Precedes(ps[a].0, ps[a].1, ps[b].0, ps[b].1)
  {
    if i > 0 {
      GridPrefixMembers(list, i - 1);
      RowPrefixMembers(list, i - 1, |list|);
      var prev := GridPrefix(list, i - 1);
      var row := RowPrefix(list, i - 1, |list|);
      assert forall a :: 0 <= a < |prev| ==> prev[a] in prev;
      assert forall b :: 0 <= b < |row| ==> row[b] in row;
    }
  }

  /** All chosen index pairs, in visiting order. */
  function ChosenPairs(list: seq<Player>): (ps: seq<(int, int)>)
    ensures forall x :: x in ps ==> 0 <= x.0 < x.1 < |list|
  {
    GridPrefixMembers(list, |list|);
    GridPrefix(list, |list|)
  }

  /** The bundles the combiner emits for one position's list. */
  function Pairs(list: seq<Player>): seq<Player>
  {
    var ps := ChosenPairs(list);
    seq(|ps|, k requires 0 <= k < |ps| => Bundle(list[ps[k].0], list[ps[k].1]))
  }

  /** `selected` and `bundles` are what the loop has emitted for the index pairs `ps`. */
  ghost predicate Emitted(list: seq<Player>, ps: seq<(int, int)>, selected: seq<seq<string>>, bundles: seq<Player>)
  {
    (forall x :: x in ps ==> 0 <= x.0 < |list| && 0 <= x.1 < |list|)
    && |selected| == |ps| && |bundles| == |ps|
    && (forall k :: 0 <= k < |ps| ==> ps[k] in ps)
    && (forall k :: 0 <= k < |ps| ==> selected[k] == [list[ps[k].0].id, list[ps[k].1].id])
    && (forall k :: 0 <= k < |ps| ==> bundles[k] == Bundle(list[ps[k].0], list[ps[k].1]))
  }

  /** A two-value group repeats a value exactly when both values are equal. */
  lemma RepeatInPair(a: string, b: string)
    ensures HasRepeat([a, b]) <==> a == b
  {
    if a == b {
      assert [a, b][0] == [a, b][1];
    }
  }

  /** The pairs emitted before (i, j) are the chosen pairs visited before it. */
  lemma EmittedBefore(list: seq<Player>, i: int, j: int)
    requires 0 <= i < |list| && 0 <= j <= |list|
    ensures forall x :: x in GridPrefix(list, i) + RowPrefix(list, i, j) <==>
              (0 <= x.0 < |list| && 0 <= x.1 < |list| && Chosen(list, x.0, x.1) && Precedes(x.0, x.1, i, j))
  {
    GridPrefixMembers(list, i);
    RowPrefixMembers(list, i, j);
  }

  /** A chosen pair is not covered by any pair emitted before it. */
  lemma ChosenIsNew(list: seq<Player>, i: int, j: int, p: int, q: int)
    requires 0 <= i < |list| && 0 <= j < |list| && 0 <= p < |list| && 0 <= q < |list|
    requires Chosen(list, i, j) && Chosen(list, p, q) && Precedes(p, q, i, j)
    ensures !Within([list[i].id, list[j].id], [list[p].id, list[q].id])
  {
    FirstsAreUnique(list, i, p);
    FirstsAreUnique(list, i, q);
    FirstsAreUnique(list, j, p);
    FirstsAreUnique(list, j, q);
    assert list[i].id in [list[i].id, list[j].id] && list[j].id in [list[i].id, list[j].id];
  }

  /** A pair of distinct ids that is not chosen is covered by the chosen pair
      of the two ids' first occurrences, which is visited earlier. */
  lemma UnchosenIsCovered(list: seq<Player>, i: int, j: int) returns (p: int, q: int)
    requires 0 <= i < |list| && 0 <= j < |list|
    requires list[i].id != list[j].id && !Chosen(list, i, j)
    ensures 0 <= p < |list| && 0 <= q < |list|
    ensures Chosen(list, p, q) && Precedes(p, q, i, j)
    ensures Within([list[i].id, list[j].id], [list[p].id, list[q].id])
  {
    FirstIsLookup(list, i);
    FirstIsLookup(list, j);
    var fa := IndexOfId(list, list[i].id);
    var fb := IndexOfId(list, list[j].id);
    if fa < fb {
      p, q := fa, fb;
    } else {
      p, q := fb, fa;
    }
  }

  /** The test at (i, j), against the pairs emitted before it, passes exactly
      when (i, j) is chosen: an unordered pair of ids is emitted at its first
      visit, and a player is never paired with itself. */
  lemma TestPassesIffChosen(list: seq<Player>, i: int, j: int)
    requires 0 <= i < |list| && 0 <= j < |list|
    ensures var ps := GridPrefix(list, i) + RowPrefix(list, i, j);
            var ids := [list[i].id, list[j].id];
            (forall x :: x in ps ==> 0 <= x.0 < |list| && 0 <= x.1 < |list|)
            && ((!HasRepeat(ids) && forall x :: x in ps ==> !Within(ids, [list[x.0].id, list[x.1].id]))
                <==> Chosen(list, i, j))
  {
    var ps := GridPrefix(list, i) + RowPrefix(list, i, j);
    var ids := [list[i].id, list[j].id];
    EmittedBefore(list, i, j);
    RepeatInPair(list[i].id, list[j].id);
    if Chosen(list, i, j) {
      forall x | x in ps
        ensures !Within(ids, [list[x.0].id, list[x.1].id])
      {
        ChosenIsNew(list, i, j, x.0, x.1);
      }
    } else if list[i].id != list[j].id {
      var p, q := UnchosenIsCovered(list, i, j);
      assert (p, q) in ps;
    }
  }

  /** Each emitted bundle joins two first occurrences i < j. */
  lemma PairsEntry(list: seq<Player>, k: int)
    requires 0 <= k < |Pairs(list)|
    ensures var (i, j) := ChosenPairs(list)[k];
            0 <= i < j < |list| && IsFirst(list, i) && IsFirst(list, j) && Pairs(list)[k] == Bundle(list[i], list[j])
  {
    var ps := ChosenPairs(list);
    GridPrefixMembers(list, |list|);
    assert ps[k] in ps;
  }

  /** The bundle of two first occurrences i < j is emitted. */
  lemma ChosenEmitted(list: seq<Player>, i: int, j: int)
    requires 0 <= i < j < |list| && IsFirst(list, i) && IsFirst(list, j)
    ensures Bundle(list[i], list[j]) in Pairs(list)
  {
    var ps := ChosenPairs(list);
    GridPrefixMembers(list, |list|);
    assert (i, j) in ps;
    var k :| 0 <= k < |ps| && ps[k] == (i, j);
    assert Pairs(list)[k] == Bundle(list[i], list[j]);
  }

  /** The emitted bundles are exactly the bundles of two first occurrences
      i < j: id `a|b`, summed salary, summed points. */
  lemma PairsMembers(list: seq<Player>, b: Player)
    ensures b in Pairs(list) <==>
              exists i, j :: 0 <= i < j < |list| && IsFirst(list, i) && IsFirst(list, j)
                             && b == Player(list[i].id + [Separator] + list[j].id,
                                            list[i].salary + list[j].salary,
                                            list[i].points + list[j].points)
  {
    if b in Pairs(list) {
      var k :| 0 <= k < |Pairs(list)| && Pairs(list)[k] == b;
      PairsEntry(list, k);
    }
    if exists i, j :: 0 <= i < j < |list| && IsFirst(list, i) && IsFirst(list, j)
                      && b == Bundle(list[i], list[j]) {
      var i, j :| 0 <= i < j < |list| && IsFirst(list, i) && IsFirst(list, j)
                  && b == Bundle(list[i], list[j]);
      ChosenEmitted(list, i, j);
    }
  }

  /** Number of first occurrences among the first n entries. */
  function FirstsBelow(list: seq<Player>, n: nat): nat
    requires n <= |list|
  {
    if n == 0 then 0 else FirstsBelow(list, n - 1) + (if IsFirst(list, n - 1) then 1 else 0)
  }

  /** The ids of the first n entries. */
  function IdsBelow(list: seq<Player>, n: nat): set<string>
    requires n <= |list|
  {
    set k | 0 <= k < n :: list[k].id
  }

  /** There are as many first occurrences as distinct ids. */
  lemma {:induction false} FirstsCountIds(list: seq<Player>, n: nat)
    requires n <= |list|
    ensures FirstsBelow(list, n) == |IdsBelow(list, n)|
  {
    if n > 0 {
      FirstsCountIds(list, n - 1);
      var prev := IdsBelow(list, n - 1);
      assert IdsBelow(list, n) == prev + {list[n - 1].id};
      if IsFirst(list, n - 1) {
        assert list[n - 1].id !in prev;
      } else {
        var k :| 0 <= k < n - 1 && list[k].id == list[n - 1].id;
        assert list[n - 1].id in prev;
      }
    }
  }

  /** The first-occurrence count never decreases. */
  lemma {:induction false} FirstsBelowMonotone(list: seq<Player>, m: nat, n: nat)
    requires m <= n <= |list|
    ensures FirstsBelow(list, m) <= FirstsBelow(list, n)
    decreases n - m
  {
    if m < n {
      FirstsBelowMonotone(list, m, n - 1);
    }
  }

  /** Number of unordered pairs from m values. */
  function Choose2(m: nat): (c: nat)
    ensures 2 * c == m * (m - 1)
  {
    if m == 0 then 0 else Choose2(m - 1) + (m - 1)
  }

  /** Row i left of column j holds one pair per first occurrence strictly
      between i and j, when i is itself a first occurrence. */
  lemma {:induction false} RowPrefixLength(list: seq<Player>, i: int, j: int)
    requires 0 <= i < |list| && 0 <= j <= |list|
    ensures |RowPrefix(list, i, j)|
            == if IsFirst(list, i) && j > i then FirstsBelow(list, j) - FirstsBelow(list, i + 1) else 0
  {
    if j > 0 {
      RowPrefixLength(list, i, j - 1);
      if j - 1 > i {
        FirstsBelowMonotone(list, i + 1, j - 1);
      }
    }
  }

  /** The rows above i hold the pairs of first occurrences not both at or after i. */
  lemma {:induction false} GridPrefixLength(list: seq<Player>, i: nat)
    requires i <= |list|
    ensures FirstsBelow(list, i) <= FirstsBelow(list, |list|)
    ensures |GridPrefix(list, i)| + Choose2(FirstsBelow(list, |list|) - FirstsBelow(list, i))
            == Choose2(FirstsBelow(list, |list|))
  {
    FirstsBelowMonotone(list, i, |list|);
    if i > 0 {
      GridPrefixLength(list, i - 1);
      RowPrefixLength(list, i - 1, |list|);
    }
  }

  /** fan_duel's combiner emits C(k, 2) bundles for k distinct ids. */
  lemma PairsCount(list: seq<Player>)
    ensures |Pairs(list)| == Choose2(|IdsBelow(list, |list|)|)
  {
    GridPrefixLength(list, |list|);
    FirstsCountIds(list, |list|);
  }

  /** Two groups of two different values that cover one another are the same
      two values. */
  lemma WithinPairSwap(a: string, b: string, c: string, d: string)
    requires a != b && c != d
    ensures Within([a, b], [c, d]) ==> Within([c, d], [a, b])
  {
    if Within([a, b], [c, d]) {
      assert a in [c, d] && b in [c, d];
    }
  }

  /** With plain ids, each bundle's id splits into the ids of two different
      players, and no two bundles hold the same two players. */
  lemma PairsAreDistinctPairs(list: seq<Player>)
    requires PlainIds(list)
    ensures var r := Pairs(list);
            (forall k :: 0 <= k < |r| ==>
               |Explode(r[k].id)| == 2 && Explode(r[k].id)[0] != Explode(r[k].id)[1])
            && forall k, l :: 0 <= k < |r| && 0 <= l < |r| && k != l ==>
                 !Within(Explode(r[k].id), Explode(r[l].id))
  {
    var ps := ChosenPairs(list);
    var r := Pairs(list);
    GridPrefixMembers(list, |list|);
    forall k | 0 <= k < |r|
      ensures Explode(r[k].id) == [list[ps[k].0].id, list[ps[k].1].id]
      ensures list[ps[k].0].id != list[ps[k].1].id
    {
      assert ps[k] in ps;
      ExplodePair(list[ps[k].0].id, list[ps[k].1].id);
      FirstsAreUnique(list, ps[k].0, ps[k].1);
    }
    forall k, l | 0 <= k < |r| && 0 <= l < |r| && k != l
      ensures !Within(Explode(r[k].id), Explode(r[l].id))
    {
      assert ps[k] in ps && ps[l] in ps;
      if k < l {
        ChosenIsNew(list, ps[l].0, ps[l].1, ps[k].0, ps[k].1);
        WithinPairSwap(list[ps[k].0].id, list[ps[k].1].id, list[ps[l].0].id, list[ps[l].1].id);
      } else {
        ChosenIsNew(list, ps[k].0, ps[k].1, ps[l].0, ps[l].1);
      }
    }
  }

  /** The groups selected so far are those of the emitted index pairs. */
  lemma SelectedAreEmitted(list: seq<Player>, ps: seq<(int, int)>, selected: seq<seq<string>>,
                           bundles: seq<Player>, ids: seq<string>)
    requires Emitted(list, ps, selected, bundles)
    ensures (forall k :: 0 <= k < |selected| ==> !Within(ids, selected[k]))
            <==> (forall x :: x in ps ==> !Within(ids, [list[x.0].id, list[x.1].id]))
  {
    forall x | x in ps
      ensures exists k :: 0 <= k < |ps| && ps[k] == x
    {
    }
  }

  /** Emitting one more index pair keeps the bookkeeping aligned. */
  lemma EmitOne(list: seq<Player>, ps: seq<(int, int)>, selected: seq<seq<string>>,
                bundles: seq<Player>, i: int, j: int)
    requires Emitted(list, ps, selected, bundles)
    requires 0 <= i < |list| && 0 <= j < |list|
    ensures Emitted(list, ps + [(i, j)], selected + [[list[i].id, list[j].id]],
                    bundles + [Bundle(list[i], list[j])])
  {
  }

  /** Once every chosen pair is emitted, the bundles are `Pairs(list)`. */
  lemma EmittedAll(list: seq<Player>, selected: seq<seq<string>>, bundles: seq<Player>)
    requires Emitted(list, ChosenPairs(list), selected, bundles)
    ensures bundles == Pairs(list)
  {
  }

  /** The nested loops of collapseMultiplePlayersInPool for one position: try
      every ordered pair, keep those the duplicate check lets through. */
  method PairPlayers(list: seq<Player>) returns (bundles: seq<Player>)
    ensures bundles == Pairs(list)
  {
    bundles := [];
    var selected: seq<seq<string>> := [];
    ghost var ps: seq<(int, int)> := [];
    for i := 0 to |list|
      invariant ps == GridPrefix(list, i)
      invariant Emitted(list, ps, selected, bundles)
    {
      ghost var grid := ps;
      ghost var row: seq<(int, int)> := [];
      assert ps == grid + row;
      for j := 0 to |list|
        invariant row == RowPrefix(list, i, j)
        invariant ps == grid + row
        invariant Emitted(list, ps, selected, bundles)
      {
        var ids := [list[i].id, list[j].id];
        var ok := CheckPositionPlayerDuplicates(ids, selected);
        TestPassesIffChosen(list, i, j);
        SelectedAreEmitted(list, ps, selected, bundles, ids);
        if ok {
          EmitOne(list, ps, selected, bundles, i, j);
          selected := selected + [ids];
          bundles := bundles + [Bundle(list[i], list[j])];
          ps := ps + [(i, j)];
          row := row + [(i, j)];
          assert ps == grid + row;
        }
      }
      assert GridPrefix(list, i + 1) == grid + row;
    }
    EmittedAll(list, selected, bundles);
  }

  /** One block of collapseMultiplePlayersInPool: replace `pos`'s list by its
      bundles; a missing position raises in the source and gives `None` here. */
  method CollapsePosition(pool: Pool, pos: string) returns (r: Option<Pool>)
    ensures pos !in pool ==> r == None
    ensures pos in pool ==> r == Some(pool[pos := Pairs(pool[pos])])
  {
    if pos !in pool {
      return None;
    }
    var bundles := PairPlayers(pool[pos]);
    return Some(pool[pos := bundles]);
  }

  /** Every paired position has a list in `pp`. */
  predicate HasPairedPositions(pp: Pool)
  {
    forall m :: 0 <= m < |PairedPositions| ==> PairedPositions[m] in pp
  }

  /** The pool after collapsing: each paired position's list replaced by its
      bundles, every other position untouched. */
  function Collapsed(pp: Pool): (r: Pool)
    ensures r.Keys == pp.Keys
    ensures forall pos :: pos in pp && pos in PairedPositions ==> r[pos] == Pairs(pp[pos])
    ensures forall pos :: pos in pp && pos !in PairedPositions ==> r[pos] == pp[pos]
  {
    map pos | pos in pp :: if pos in PairedPositions then Pairs(pp[pos]) else pp[pos]
  }

  /** Four updates of the paired positions, whatever the new lists. */
  lemma FourUpdatesAt(pp: Pool, f: Pool)
    requires "PG" in pp && "SG" in pp && "SF" in pp && "PF" in pp
    requires f.Keys == pp.Keys
    ensures pp["PG" := f["PG"]]["SG" := f["SG"]]["SF" := f["SF"]]["PF" := f["PF"]]
            == map pos | pos in pp :: if pos in PairedPositions then f[pos] else pp[pos]
  {
    assert PairedPositions == ["PG", "SG", "SF", "PF"];
  }

  /** The four updates in source order give the collapsed pool. */
  lemma FourUpdates(pp: Pool)
    requires "PG" in pp && "SG" in pp && "SF" in pp && "PF" in pp
    ensures var p1 := pp["PG" := Pairs(pp["PG"])];
            var p2 := p1["SG" := Pairs(pp["SG"])];
            var p3 := p2["SF" := Pairs(pp["SF"])];
            p3["PF" := Pairs(pp["PF"])] == Collapsed(pp)
  {
    var f := map pos | pos in pp :: Pairs(pp[pos]);
    FourUpdatesAt(pp, f);
  }

  /** collapseMultiplePlayersInPool: for fan_duel, replace the PG, SG, SF and PF
      lists by their bundles, in that order; every other league passes through.
      A missing paired position gives `None`. */
  method CollapseMultiplePlayersInPool(pp: Pool, league: League) returns (r: Option<Pool>)
    ensures league != FanDuel ==> r == Some(pp)
    ensures league == FanDuel && !HasPairedPositions(pp) ==> r == None
    ensures league == FanDuel && HasPairedPositions(pp) ==> r == Some(Collapsed(pp))
  {
    if league != FanDuel {
      return Some(pp);
    }
    assert PairedPositions[0] == "PG" && PairedPositions[1] == "SG";
    assert PairedPositions[2] == "SF" && PairedPositions[3] == "PF";
    r := CollapsePosition(pp, "PG");
    if r.Some? {
      r := CollapsePosition(r.value, "SG");
    }
    if r.Some? {
      r := CollapsePosition(r.value, "SF");
    }
    if r.Some? {
      r := CollapsePosition(r.value, "PF");
    }
    if HasPairedPositions(pp) {
      assert "PG" in pp && "SG" in pp && "SF" in pp && "PF" in pp;
      FourUpdates(pp);
    }
  }
}
