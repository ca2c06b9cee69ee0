/** Small worked examples of the lineup builder, each stated for every
    candidate record with the given fields. */
module Scenarios {
  import opened Roster
  import opened TeamBuilder
  import opened BestTeam
  import opened LineupSearch
  import opened SlotCombiner
  import opened BundleExpander

  /** Appending one entry adds its salary and points to the sums. */
  lemma SumsAppend(team: Team, e: Entry)
    ensures SalarySum(team + [e]) == SalarySum(team) + e.player.salary
    ensures PointsSum(team + [e]) == PointsSum(team) + e.player.points
  {
    assert (team + [e])[..|team|] == team;
  }

  /** The two running backs in turn: B joins and is rejected by the cap, then
      C overwrites B under the same key and is accepted. */
  lemma SecondSlotSteps(a: Player, b: Player, c: Player, slot: Slot)
    requires a == Player("A", 5000, 20) && b == Player("B", 4000, 15) && c == Player("C", 3000, 10)
    requires slot == Slot("RB", 1)
    ensures var t1 := [Entry(0, a, "QB")];
            var b1 := Best(t1, 5000, 20);
            var t2 := t1 + [Entry(1, b, "RB")];
            var t3 := t1 + [Entry(1, c, "RB")];
            Added(t1, slot, b) == t2 && Better(t2, b1, 8000) == b1
            && Added(t2, slot, c) == t3 && Better(t3, b1, 8000) == Best(t3, 8000, 30)
  {
    var t1 := [Entry(0, a, "QB")];
    var t2 := t1 + [Entry(1, b, "RB")];
    var t3 := t1 + [Entry(1, c, "RB")];
    assert Explode("A") == ["A"] && Explode("B") == ["B"];
    assert !Occupied(t1, "B");
    assert KeyIndex(t1, 1) == -1;
    assert !Occupied(t2, "C");
    assert KeyIndex(t2, 1) == 1;
    assert t2[1 := Entry(1, c, "RB")] == t3;
    SumsAppend([], t1[0]);
    SumsAppend(t1, Entry(1, b, "RB"));
    SumsAppend(t1, Entry(1, c, "RB"));
  }

  /** With the quarterback placed, the running-back slot ends on the cheaper
      back: the dearer one breaks the cap. */
  lemma SecondSlotPicksCheaper(a: Player, b: Player, c: Player, pp: Pool, slots: seq<Slot>)
    requires a == Player("A", 5000, 20) && b == Player("B", 4000, 15) && c == Player("C", 3000, 10)
    requires slots == [Slot("QB", 0), Slot("RB", 1)]
    ensures var t1 := [Entry(0, a, "QB")];
            Search(t1, slots, 1, [b, c], Best(t1, 5000, 20), pp, 8000)
            == Some(State(t1 + [Entry(1, c, "RB")], Best(t1 + [Entry(1, c, "RB")], 8000, 30)))
  {
    var t1 := [Entry(0, a, "QB")];
    var t2 := t1 + [Entry(1, b, "RB")];
    var t3 := t1 + [Entry(1, c, "RB")];
    var b1 := Best(t1, 5000, 20);
    var b3 := Best(t3, 8000, 30);
    SecondSlotSteps(a, b, c, slots[1]);
    assert [c][0] == c && [c][1..] == [];
    assert Search(t3, slots, 1, [], b3, pp, 8000) == Some(State(t3, b3));
    assert Search(t2, slots, 1, [c], b1, pp, 8000) == Some(State(t3, b3));
    assert [b, c][0] == b && [b, c][1..] == [c];
  }

  /** QB [A 5000/20], RB [B 4000/15, C 3000/10], cap 8000: the lineup is A and
      C, since A with B would cost 9000. */
  lemma CapPicksCheaper(a: Player, b: Player, c: Player, pp: Pool, slots: seq<Slot>)
    requires a == Player("A", 5000, 20) && b == Player("B", 4000, 15) && c == Player("C", 3000, 10)
    requires pp == map["QB" := [a], "RB" := [b, c]]
    requires slots == [Slot("QB", 0), Slot("RB", 1)]
    ensures LineUp(pp, 8000, slots) == [LineupEntry("QB", "A"), LineupEntry("RB", "C")]
  {
    var t1 := [Entry(0, a, "QB")];
    var t3 := t1 + [Entry(1, c, "RB")];
    var b1 := Best(t1, 5000, 20);
    var b3 := Best(t3, 8000, 30);
    assert Added([], slots[0], a) == t1;
    SumsAppend([], t1[0]);
    assert Better(t1, Initial, 8000) == b1;
    SecondSlotPicksCheaper(a, b, c, pp, slots);
    assert pp["RB"] == [b, c] && pp["QB"] == [a];
    assert Search(t1, slots, 1, pp["RB"], b1, pp, 8000) == Some(State(t3, b3));
    assert [a][0] == a && [a][1..] == [];
    assert Search(t3, slots, 0, [], b3, pp, 8000) == Some(State(t3, b3));
    assert Search([], slots, 0, [a], Initial, pp, 8000) == Some(State(t3, b3));
    assert Incumbent(pp, 8000, slots) == Some(b3);
  }

  /** A single slot whose only candidate costs more than the cap gives the
      empty lineup. */
  lemma OverCapGivesEmptyLineup(a: Player, pp: Pool, slots: seq<Slot>, cap: int)
    requires a.salary > cap && pp == map["QB" := [a]] && slots == [Slot("QB", 0)]
    ensures LineUp(pp, cap, slots) == []
  {
    var t1 := [Entry(0, a, "QB")];
    assert Added([], slots[0], a) == t1;
    SumsAppend([], t1[0]);
    assert Better(t1, Initial, cap) == Initial;
    assert [a][1..] == [];
    assert Search([], slots, 0, [a], Initial, pp, cap) == Some(State(t1, Initial));
  }

  /** For one slot, a second candidate of the same salary and points
      overwrites the first under the slot's key and replaces the incumbent. */
  lemma TieOverwrites(a: Player, b: Player, slot: Slot, cap: int)
    requires Separator !in a.id && a.id != b.id
    requires a.salary == b.salary && a.points == b.points && 0 <= a.points && a.salary <= cap
    ensures var t1 := [Entry(slot.element, a, slot.position)];
            var t2 := [Entry(slot.element, b, slot.position)];
            Added([], slot, a) == t1 && Better(t1, Initial, cap) == Best(t1, a.salary, a.points)
            && Added(t1, slot, b) == t2 && Better(t2, Best(t1, a.salary, a.points), cap) == Best(t2, b.salary, b.points)
  {
    var t1 := [Entry(slot.element, a, slot.position)];
    var t2 := [Entry(slot.element, b, slot.position)];
    assert Added([], slot, a) == t1;
    SumsAppend([], t1[0]);
    assert Explode(a.id) == [a.id];
    assert !Occupied(t1, b.id);
    assert KeyIndex(t1, slot.element) == 0;
    assert t1[0 := Entry(slot.element, b, slot.position)] == t2;
    SumsAppend([], t2[0]);
  }

  /** Two candidates with equal salary and points for one slot: the one
      iterated later is kept. */
  lemma TieKeepsLater(a: Player, b: Player, pp: Pool, slots: seq<Slot>, cap: int)
    requires Separator !in a.id && a.id != b.id
    requires a.salary == b.salary && a.points == b.points && 0 <= a.points && a.salary <= cap
    requires pp == map["QB" := [a, b]] && slots == [Slot("QB", 0)]
    ensures LineUp(pp, cap, slots) == [LineupEntry("QB", b.id)]
  {
    var t1 := [Entry(0, a, "QB")];
    var t2 := [Entry(0, b, "QB")];
    var b1 := Best(t1, a.salary, a.points);
    var b2 := Best(t2, b.salary, b.points);
    TieOverwrites(a, b, slots[0], cap);
    assert [a, b][0] == a && [a, b][1..] == [b] && [b][0] == b && [b][1..] == [];
    assert Search(t2, slots, 0, [], b2, pp, cap) == Some(State(t2, b2));
    assert Search(t1, slots, 0, [b], b1, pp, cap) == Some(State(t2, b2));
    assert Search([], slots, 0, [a, b], Initial, pp, cap) == Some(State(t2, b2));
    assert Formatted(t2) == [LineupEntry("QB", b.id)];
  }

  /** QB [A 5000/20], RB [B 4000/15], cap 8000: A with B would cost 9000, so
      the one-entry team (QB A) stays the incumbent and the lineup is partial. */
  lemma PartialLineup(a: Player, b: Player, pp: Pool, slots: seq<Slot>)
    requires a == Player("A", 5000, 20) && b == Player("B", 4000, 15)
    requires pp == map["QB" := [a], "RB" := [b]]
    requires slots == [Slot("QB", 0), Slot("RB", 1)]
    ensures LineUp(pp, 8000, slots) == [LineupEntry("QB", "A")]
  {
    var t1 := [Entry(0, a, "QB")];
    var t2 := t1 + [Entry(1, b, "RB")];
    var b1 := Best(t1, 5000, 20);
    assert Added([], slots[0], a) == t1;
    SumsAppend([], t1[0]);
    assert Better(t1, Initial, 8000) == b1;
    assert Explode("A") == ["A"];
    assert !Occupied(t1, "B");
    assert KeyIndex(t1, 1) == -1;
    assert Added(t1, slots[1], b) == t2;
    SumsAppend(t1, Entry(1, b, "RB"));
    assert Better(t2, b1, 8000) == b1;
    assert pp["RB"] == [b] && pp["QB"] == [a];
    assert [b][0] == b && [b][1..] == [] && [a][0] == a && [a][1..] == [];
    assert Search(t2, slots, 1, [], b1, pp, 8000) == Some(State(t2, b1));
    assert Search(t1, slots, 1, [b], b1, pp, 8000) == Some(State(t2, b1));
    assert Search(t2, slots, 0, [], b1, pp, 8000) == Some(State(t2, b1));
    assert Search([], slots, 0, [a], Initial, pp, 8000) == Some(State(t2, b1));
    assert Incumbent(pp, 8000, slots) == Some(b1);
  }

  /** The sums of a one-entry and of a two-entry team. */
  lemma SumsOfTwo(e0: Entry, e1: Entry)
    ensures SalarySum([e0]) == e0.player.salary && PointsSum([e0]) == e0.player.points
    ensures SalarySum([e0, e1]) == e0.player.salary + e1.player.salary
    ensures PointsSum([e0, e1]) == e0.player.points + e1.player.points
  {
    assert [e0][..0] == [] && [e0, e1][..1] == [e0];
  }

  /** A first candidate within the cap joins the empty team and becomes the
      incumbent. */
  lemma FirstPick(a: Player, slot: Slot, cap: int)
    requires a.salary <= cap && a.points >= 0
    ensures var t := [Entry(slot.element, a, slot.position)];
            Added([], slot, a) == t && Better(t, Initial, cap) == Best(t, a.salary, a.points)
  {
    var t := [Entry(slot.element, a, slot.position)];
    assert Added([], slot, a) == t;
    SumsAppend([], t[0]);
  }

  /** With A at X, B and then C fill key 1, and (X A, Y C) becomes the
      incumbent. */
  lemma MissedFirstSteps(a: Player, b: Player, c: Player)
    requires a == Player("A", 1, 1) && b == Player("B", 1, 50) && c == Player("C", 1, 100)
    ensures var tA := [Entry(0, a, "X")];
            var tAB := tA + [Entry(1, b, "Y")];
            var tAC := tA + [Entry(1, c, "Y")];
            var bAB := Best(tAB, 2, 51);
            Added(tA, Slot("Y", 1), b) == tAB && Better(tAB, Best(tA, 1, 1), 1000) == bAB
            && Added(tAB, Slot("Y", 1), c) == tAC && Better(tAC, bAB, 1000) == Best(tAC, 2, 101)
  {
    var tA := [Entry(0, a, "X")];
    var tAB := tA + [Entry(1, b, "Y")];
    var tAC := tA + [Entry(1, c, "Y")];
    assert tAB == [tA[0], Entry(1, b, "Y")] && tAC == [tA[0], Entry(1, c, "Y")];
    SumsOfTwo(tA[0], Entry(1, b, "Y"));
    SumsOfTwo(tA[0], Entry(1, c, "Y"));
    assert Explode("A") == ["A"] && Explode("B") == ["B"];
    assert !Occupied(tA, "B");
    assert KeyIndex(tA, 1) == -1;
    assert Added(tA, Slot("Y", 1), b) == tAB;
    assert Better(tAB, Best(tA, 1, 1), 1000) == Best(tAB, 2, 51);
    assert !Occupied(tAB, "C");
    assert KeyIndex(tAB, 1) == 1;
    assert tAB[1 := Entry(1, c, "Y")] == tAC;
    assert Added(tAB, Slot("Y", 1), c) == tAC;
  }

  /** C already sits under key 1, so it is not placed at X, and the incumbent
      (X A, Y C) is replaced by an equal record. */
  lemma MissedSecondOpening(a: Player, c: Player)
    requires a == Player("A", 1, 1) && c == Player("C", 1, 100)
    ensures var tAC := [Entry(0, a, "X"), Entry(1, c, "Y")];
            var bAC := Best(tAC, 2, 101);
            Added(tAC, Slot("X", 0), c) == tAC && Better(tAC, bAC, 1000) == bAC
  {
    var tA := [Entry(0, a, "X")];
    var tAC := [Entry(0, a, "X"), Entry(1, c, "Y")];
    assert tAC == tA + [Entry(1, c, "Y")];
    assert Explode("C") == ["C"];
    assert tAC[1].player.id == "C" && "C" in Explode(tAC[1].player.id);
    assert Occupied(tAC, "C");
    SumsOfTwo(tAC[0], tAC[1]);
  }

  /** Next to A, B and then C take key 1 in turn; the incumbent (X A, Y C)
      does not change. */
  lemma MissedSecondSteps(a: Player, b: Player, c: Player)
    requires a == Player("A", 1, 1) && b == Player("B", 1, 50) && c == Player("C", 1, 100)
    ensures var tAB := [Entry(0, a, "X"), Entry(1, b, "Y")];
            var tAC := [Entry(0, a, "X"), Entry(1, c, "Y")];
            var bAC := Best(tAC, 2, 101);
            Added(tAC, Slot("Y", 1), b) == tAB && Better(tAB, bAC, 1000) == bAC
            && Added(tAB, Slot("Y", 1), c) == tAC
  {
    var tA := [Entry(0, a, "X")];
    var tAB := [Entry(0, a, "X"), Entry(1, b, "Y")];
    var tAC := [Entry(0, a, "X"), Entry(1, c, "Y")];
    assert tAB == tA + [Entry(1, b, "Y")] && tAC == tA + [Entry(1, c, "Y")];
    assert Explode("A") == ["A"] && Explode("B") == ["B"] && Explode("C") == ["C"];
    assert !Occupied(tAC, "B");
    assert KeyIndex(tAC, 1) == 1;
    assert tAC[1 := Entry(1, b, "Y")] == tAB;
    assert Added(tAC, Slot("Y", 1), b) == tAB;
    SumsOfTwo(tAB[0], tAB[1]);
    assert !Occupied(tAB, "C");
    assert KeyIndex(tAB, 1) == 1;
    assert tAB[1 := Entry(1, c, "Y")] == tAC;
  }

  /** Slot Y under outer candidate A: the search ends on (X A, Y C). */
  lemma MissedInnerFirst(a: Player, b: Player, c: Player, pp: Pool, slots: seq<Slot>)
    requires a == Player("A", 1, 1) && b == Player("B", 1, 50) && c == Player("C", 1, 100)
    requires slots == [Slot("X", 0), Slot("Y", 1)]
    ensures var tA := [Entry(0, a, "X")];
            var tAC := tA + [Entry(1, c, "Y")];
            Search(tA, slots, 1, [b, c], Best(tA, 1, 1), pp, 1000)
            == Some(State(tAC, Best(tAC, 2, 101)))
  {
    var tA := [Entry(0, a, "X")];
    var tAB := tA + [Entry(1, b, "Y")];
    var tAC := tA + [Entry(1, c, "Y")];
    var bAC := Best(tAC, 2, 101);
    MissedFirstSteps(a, b, c);
    assert [b, c][0] == b && [b, c][1..] == [c] && [c][0] == c && [c][1..] == [];
    assert Search(tAC, slots, 1, [], bAC, pp, 1000) == Some(State(tAC, bAC));
    assert Search(tAB, slots, 1, [c], Best(tAB, 2, 51), pp, 1000) == Some(State(tAC, bAC));
  }

  /** Slot Y under outer candidate C: the walk pairs A with B and with C again,
      and the incumbent does not change. */
  lemma MissedInnerSecond(a: Player, b: Player, c: Player, pp: Pool, slots: seq<Slot>)
    requires a == Player("A", 1, 1) && b == Player("B", 1, 50) && c == Player("C", 1, 100)
    requires slots == [Slot("X", 0), Slot("Y", 1)]
    ensures var tAC := [Entry(0, a, "X"), Entry(1, c, "Y")];
            var bAC := Best(tAC, 2, 101);
            Search(tAC, slots, 1, [b, c], bAC, pp, 1000) == Some(State(tAC, bAC))
  {
    var tAB := [Entry(0, a, "X"), Entry(1, b, "Y")];
    var tAC := [Entry(0, a, "X"), Entry(1, c, "Y")];
    var bAC := Best(tAC, 2, 101);
    MissedSecondSteps(a, b, c);
    MissedSecondOpening(a, c);
    assert [b, c][0] == b && [b, c][1..] == [c] && [c][0] == c && [c][1..] == [];
    assert Search(tAC, slots, 1, [], bAC, pp, 1000) == Some(State(tAC, bAC));
    assert Search(tAB, slots, 1, [c], bAC, pp, 1000) == Some(State(tAC, bAC));
  }

  /** Outer candidate C at slot X: it is refused, and the walk of slot Y
      leaves team and incumbent as (X A, Y C). */
  lemma MissedOuterSecond(a: Player, b: Player, c: Player, pp: Pool, slots: seq<Slot>)
    requires a == Player("A", 1, 1) && b == Player("B", 1, 50) && c == Player("C", 1, 100)
    requires pp == map["X" := [a, c], "Y" := [b, c]]
    requires slots == [Slot("X", 0), Slot("Y", 1)]
    ensures var tAC := [Entry(0, a, "X"), Entry(1, c, "Y")];
            var bAC := Best(tAC, 2, 101);
            Search(tAC, slots, 0, [c], bAC, pp, 1000) == Some(State(tAC, bAC))
  {
    var tAC := [Entry(0, a, "X"), Entry(1, c, "Y")];
    var bAC := Best(tAC, 2, 101);
    MissedSecondOpening(a, c);
    assert pp["Y"] == [b, c];
    MissedInnerSecond(a, b, c, pp, slots);
    assert [c][0] == c && [c][1..] == [];
    assert Search(tAC, slots, 0, [], bAC, pp, 1000) == Some(State(tAC, bAC));
  }

  /** The whole search of the missed-optimum example ends on (X A, Y C). */
  lemma MissedOuterFirst(a: Player, b: Player, c: Player, pp: Pool, slots: seq<Slot>)
    requires a == Player("A", 1, 1) && b == Player("B", 1, 50) && c == Player("C", 1, 100)
    requires pp == map["X" := [a, c], "Y" := [b, c]]
    requires slots == [Slot("X", 0), Slot("Y", 1)]
    ensures var tAC := [Entry(0, a, "X"), Entry(1, c, "Y")];
            Search([], slots, 0, [a, c], Initial, pp, 1000) == Some(State(tAC, Best(tAC, 2, 101)))
  {
    var tA := [Entry(0, a, "X")];
    var tAC := [Entry(0, a, "X"), Entry(1, c, "Y")];
    var bAC := Best(tAC, 2, 101);
    assert tAC == tA + [Entry(1, c, "Y")];
    FirstPick(a, slots[0], 1000);
    assert pp["Y"] == [b, c];
    MissedInnerFirst(a, b, c, pp, slots);
    MissedOuterSecond(a, b, c, pp, slots);
    assert [a, c][0] == a && [a, c][1..] == [c];
  }

  /** Slots [X/0, Y/1], X [A 1/1, C 1/100], Y [B 1/50, C 1/100], cap 1000: the
      lineup is (X A, Y C) with 101 points, although (X C, Y B) fits the cap
      with 150. The team is not reset after A's subtree, so C still sits under
      key 1 and is refused at X; (X C, Y B) is never evaluated. */
  lemma MissedOptimum(a: Player, b: Player, c: Player, pp: Pool, slots: seq<Slot>)
    requires a == Player("A", 1, 1) && b == Player("B", 1, 50) && c == Player("C", 1, 100)
    requires pp == map["X" := [a, c], "Y" := [b, c]]
    requires slots == [Slot("X", 0), Slot("Y", 1)]
    ensures LineUp(pp, 1000, slots) == [LineupEntry("X", "A"), LineupEntry("Y", "C")]
    ensures var other := [Entry(0, c, "X"), Entry(1, b, "Y")];
            SalarySum(other) <= 1000 && PointsSum(other) == 150 > 101
  {
    var tAC := [Entry(0, a, "X"), Entry(1, c, "Y")];
    MissedOuterFirst(a, b, c, pp, slots);
    assert pp["X"] == [a, c];
    assert Incumbent(pp, 1000, slots) == Some(Best(tAC, 2, 101));
    SumsOfTwo(Entry(0, c, "X"), Entry(1, b, "Y"));
  }

  /** fan_duel, PG [A 3000/10, B 2000/8]: the combiner yields the one bundle
      A|B at 5000/18, and expanding it gives (PG, A, 10) and (PG, B, 8). */
  lemma TwoGuardRoundTrip(a: Player, b: Player, pp: Pool)
    requires a == Player("A", 3000, 10) && b == Player("B", 2000, 8)
    requires pp == map["PG" := [a, b]]
    ensures Pairs(pp["PG"]) == [Player("A|B", 5000, 18)]
    ensures Expand([LineupEntry("PG", "A|B")], pp, FanDuel)
            == Some([ScoredEntry("PG", "A", 10), ScoredEntry("PG", "B", 8)])
  {
    var list := [a, b];
    assert pp["PG"] == list;
    assert "A" != "B";
    assert IsFirst(list, 0) && IsFirst(list, 1);
    assert !Chosen(list, 0, 0) && Chosen(list, 0, 1);
    assert !Chosen(list, 1, 0) && !Chosen(list, 1, 1);
    assert RowPrefix(list, 0, 1) == [];
    assert RowPrefix(list, 0, 2) == [(0, 1)];
    assert RowPrefix(list, 1, 1) == [];
    assert RowPrefix(list, 1, 2) == [];
    assert GridPrefix(list, 1) == [(0, 1)];
    assert GridPrefix(list, 2) == [(0, 1)];
    assert "A|B" == a.id + [Separator] + b.id;
    assert Pairs(list) == [Bundle(a, b)];
    assert "PG" in PairedPositions;
    assert PlainIds(list);
    ExpandFirstsBundle(pp, "PG", 0, 1);
  }
}
