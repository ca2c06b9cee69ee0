/** The bundle expander (formatLineupByExpandPositions): splits the bundled
    ids of a fan_duel lineup back into single players, then annotates every
    entry with the points the pool gives its player. */
module BundleExpander {
  import opened Roster
  import opened SlotCombiner

  /** One line of the expanded lineup: position, player id and that player's points. */
  datatype ScoredEntry = ScoredEntry(pos: string, player: string, points: int)

  /** `array_search(id, array_column(list, 'player'))` used as an array key:
      the first matching index, or 0 when nothing matches (`false` read as a key). */
  function SearchKey(list: seq<Player>, id: string): (k: nat)
    ensures HasId(list, id) ==> k < |list| && list[k].id == id && forall j :: 0 <= j < k ==> list[j].id != id
    ensures !HasId(list, id) ==> k == 0
  {
    if HasId(list, id) then IndexOfId(list, id) else 0
  }

  /** `$playerPool[pos][$key]` after the search for `id`; `None` when the
      position has no list or the key is not in it, which raises in the source. */
  function Fetch(pp: Pool, pos: string, id: string): (r: Option<Player>)
    ensures r.Some? <==> pos in pp && |pp[pos]| > 0
    ensures pos in pp && HasId(pp[pos], id) ==> r == Some(pp[pos][IndexOfId(pp[pos], id)]) && r.value.id == id
    ensures pos in pp && |pp[pos]| > 0 && !HasId(pp[pos], id) ==> r == Some(pp[pos][0])
  {
    if pos !in pp then None
    else
      var k := SearchKey(pp[pos], id);
      if k < |pp[pos]| then Some(pp[pos][k]) else None
  }

  /** Each piece of a bundled id becomes an entry for `pos` holding the id of
      the pool entry the piece's lookup lands on. */
  function ExpandParts(pos: string, parts: seq<string>, pp: Pool): (r: Option<seq<LineupEntry>>)
    ensures r.Some? <==> |parts| == 0 || (pos in pp && |pp[pos]| > 0)
    ensures r.Some? ==> |r.value| == |parts|
                        && forall k :: 0 <= k < |parts| ==>
                             r.value[k] == LineupEntry(pos, Fetch(pp, pos, parts[k]).value.id)
  {
    if parts == [] then Some([])
    else
      match ExpandParts(pos, parts[..|parts| - 1], pp)
      case None => None
      case Some(init) =>
        match Fetch(pp, pos, parts[|parts| - 1])
        case None => None
        case Some(p) => Some(init + [LineupEntry(pos, p.id)])
  }

  /** What the first loop appends for one lineup entry under fan_duel. */
  function ExpandEntry(e: LineupEntry, pp: Pool): Option<seq<LineupEntry>>
  {
    if e.pos in PairedPositions then ExpandParts(e.pos, Explode(e.player), pp) else Some([e])
  }

  /** What the first loop builds from a fan_duel lineup. */
  function ExpandAll(lineup: seq<LineupEntry>, pp: Pool): Option<seq<LineupEntry>>
  {
    if lineup == [] then Some([])
    else
      match ExpandAll(lineup[..|lineup| - 1], pp)
      case None => None
      case Some(init) =>
        match ExpandEntry(lineup[|lineup| - 1], pp)
        case None => None
        case Some(tail) => Some(init + tail)
  }

  /** Once a prefix of the lineup faults, the whole lineup faults. */
  lemma {:induction false} ExpandAllPrefix(lineup: seq<LineupEntry>, pp: Pool, n: nat)
    requires n <= |lineup|
    ensures ExpandAll(lineup[..n], pp).None? ==> ExpandAll(lineup, pp).None?
    decreases |lineup|
  {
    if n < |lineup| {
      var init := lineup[..|lineup| - 1];
      assert init[..n] == lineup[..n];
      ExpandAllPrefix(init, pp, n);
    } else {
      assert lineup[..n] == lineup;
    }
  }

  /** Extending the lineup by one entry extends its expansion by that entry's. */
  lemma ExpandAllStep(lineup: seq<LineupEntry>, pp: Pool, i: int)
    requires 0 <= i < |lineup|
    ensures ExpandAll(lineup[..i + 1], pp)
            == match ExpandAll(lineup[..i], pp)
               case None => None
               case Some(init) =>
                 match ExpandEntry(lineup[i], pp)
                 case None => None
                 case Some(tail) => Some(init + tail)
  {
    assert lineup[..i + 1][..i] == lineup[..i];
  }

  /** The first loop: fan_duel expands, draft_kings and yahoo pass entries
      through, and any other league appends nothing. */
  function Expanded(lineup: seq<LineupEntry>, pp: Pool, league: League): Option<seq<LineupEntry>>
  {
    match league
    case FanDuel => ExpandAll(lineup, pp)
    case DraftKings => Some(lineup)
    case Yahoo => Some(lineup)
    case OtherLeague => Some([])
  }

  /** The second loop: each entry gets the points of the pool entry its id's
      lookup lands on in its position's list. */
  function Scored(entries: seq<LineupEntry>, pp: Pool): (r: Option<seq<ScoredEntry>>)
    ensures r.Some? <==> forall k :: 0 <= k < |entries| ==> Fetch(pp, entries[k].pos, entries[k].player).Some?
    ensures r.Some? ==> |r.value| == |entries|
                        && forall k :: 0 <= k < |entries| ==>
                             r.value[k] == ScoredEntry(entries[k].pos, entries[k].player,
                                                       Fetch(pp, entries[k].pos, entries[k].player).value.points)
  {
    if entries == [] then Some([])
    else
      var e := entries[|entries| - 1];
      match Scored(entries[..|entries| - 1], pp)
      case None => None
      case Some(init) =>
        match Fetch(pp, e.pos, e.player)
        case None => None
        case Some(p) => Some(init + [ScoredEntry(e.pos, e.player, p.points)])
  }

  /** formatLineupByExpandPositions as a function. Any other league gives the
      empty lineup; draft_kings and yahoo keep each entry's position and id; every
      entry's points are those of the pool entry its id's lookup lands on. */
  function Expand(lineup: seq<LineupEntry>, pp: Pool, league: League): (r: Option<seq<ScoredEntry>>)
    ensures league == OtherLeague ==> r == Some([])
    ensures (league == DraftKings || league == Yahoo) ==>
              (r.Some? <==> forall k :: 0 <= k < |lineup| ==> Fetch(pp, lineup[k].pos, lineup[k].player).Some?)
    ensures (league == DraftKings || league == Yahoo) && r.Some? ==>
              |r.value| == |lineup|
              && forall k :: 0 <= k < |lineup| ==> r.value[k].pos == lineup[k].pos && r.value[k].player == lineup[k].player
    ensures r.Some? ==> forall k :: 0 <= k < |r.value| ==>
              Fetch(pp, r.value[k].pos, r.value[k].player).Some?
              && r.value[k].points == Fetch(pp, r.value[k].pos, r.value[k].player).value.points
  {
    match Expanded(lineup, pp, league)
    case None => None
    case Some(entries) => Scored(entries, pp)
  }

  /** The inner loop of formatLineupByExpandPositions for one bundled entry:
      look every piece up in the position's list and emit the entry found. */
  method ExpandBundle(e: LineupEntry, pp: Pool) returns (pieces: Option<seq<LineupEntry>>)
    ensures pieces == ExpandParts(e.pos, Explode(e.player), pp)
  {
    var parts := Explode(e.player);
    var out: seq<LineupEntry> := [];
    for j := 0 to |parts|
      invariant ExpandParts(e.pos, parts[..j], pp) == Some(out)
    {
      assert parts[..j + 1][..j] == parts[..j];
      var p := Fetch(pp, e.pos, parts[j]);
      if p.None? {
        return None;
      }
      out := out + [LineupEntry(e.pos, p.value.id)];
    }
    assert parts[..|parts|] == parts;
    return Some(out);
  }

  /** The first loop of formatLineupByExpandPositions: one pass over the
      lineup, switching on the league and, under fan_duel, on the position. */
  method ExpandLineup(lineup: seq<LineupEntry>, pp: Pool, league: League) returns (r: Option<seq<LineupEntry>>)
    ensures r == Expanded(lineup, pp, league)
  {
    var formatted: seq<LineupEntry> := [];
    for i := 0 to |lineup|
      invariant league == FanDuel ==> ExpandAll(lineup[..i], pp) == Some(formatted)
      invariant (league == DraftKings || league == Yahoo) ==> formatted == lineup[..i]
      invariant league == OtherLeague ==> formatted == []
    {
      var e := lineup[i];
      if league == FanDuel {
        ExpandAllStep(lineup, pp, i);
        if e.pos in PairedPositions {
          var pieces := ExpandBundle(e, pp);
          if pieces.None? {
            ExpandAllPrefix(lineup, pp, i + 1);
            return None;
          }
          formatted := formatted + pieces.value;
        } else {
          formatted := formatted + [e];
        }
      } else if league == DraftKings || league == Yahoo {
        assert lineup[..i + 1] == lineup[..i] + [e];
        formatted := formatted + [e];
      }
    }
    assert lineup[..|lineup|] == lineup;
    return Some(formatted);
  }

  /** The second loop of formatLineupByExpandPositions: patch every entry's
      points in, looked up by its id in its position's list. */
  method ScoreLineup(entries: seq<LineupEntry>, pp: Pool) returns (r: Option<seq<ScoredEntry>>)
    ensures r == Scored(entries, pp)
  {
    var scored: seq<ScoredEntry> := [];
    for k := 0 to |entries|
      invariant Scored(entries[..k], pp) == Some(scored)
    {
      assert entries[..k + 1][..k] == entries[..k];
      var p := Fetch(pp, entries[k].pos, entries[k].player);
      if p.None? {
        return None;
      }
      scored := scored + [ScoredEntry(entries[k].pos, entries[k].player, p.value.points)];
    }
    assert entries[..|entries|] == entries;
    return Some(scored);
  }

  /** formatLineupByExpandPositions: expand the lineup, then annotate it with
      points. `None` stands for a lookup that raises. */
  method FormatLineupByExpandPositions(lineup: seq<LineupEntry>, pp: Pool, league: League)
    returns (r: Option<seq<ScoredEntry>>)
    ensures r == Expand(lineup, pp, league)
  {
    var formatted := ExpandLineup(lineup, pp, league);
    if formatted.None? {
      return None;
    }
    r := ScoreLineup(formatted.value, pp);
  }

  /** The player ids of a run of entries. */
  function Players(entries: seq<LineupEntry>): (ids: seq<string>)
    ensures |ids| == |entries| && forall k :: 0 <= k < |entries| ==> ids[k] == entries[k].player
  {
    seq(|entries|, k requires 0 <= k < |entries| => entries[k].player)
  }

  /** A fan_duel bundle entry whose pieces are all in its position's list
      expands to one entry per piece, in order, under the same position, and
      joining the expanded ids gives the bundle's id back. */
  lemma ExpandEntryJoinsBack(e: LineupEntry, pp: Pool)
    requires e.pos in PairedPositions && e.pos in pp
    requires forall c :: c in Explode(e.player) ==> HasId(pp[e.pos], c)
    ensures var r := ExpandEntry(e, pp);
            r.Some? && |r.value| == |Explode(e.player)|
            && (forall k :: 0 <= k < |r.value| ==> r.value[k] == LineupEntry(e.pos, Explode(e.player)[k]))
            && Implode(Players(r.value)) == e.player
  {
    var parts := Explode(e.player);
    assert parts[0] in parts;
    var r := ExpandEntry(e, pp).value;
    forall k | 0 <= k < |r|
      ensures r[k] == LineupEntry(e.pos, parts[k])
    {
      assert parts[k] in parts;
    }
    assert Players(r) == parts;
    ImplodeExplode(e.player);
  }

  /** Under fan_duel a one-entry lineup holding the bundle of two listed
      players expands to those two players. */
  lemma ExpandPairEntry(pp: Pool, pos: string, x: Player, y: Player, id: string)
    requires pos in PairedPositions && pos in pp
    requires Separator !in x.id && Separator !in y.id && id == x.id + [Separator] + y.id
    requires HasId(pp[pos], x.id) && HasId(pp[pos], y.id)
    ensures Expanded([LineupEntry(pos, id)], pp, FanDuel)
            == Some([LineupEntry(pos, x.id), LineupEntry(pos, y.id)])
  {
    var e := LineupEntry(pos, id);
    var expanded := [LineupEntry(pos, x.id), LineupEntry(pos, y.id)];
    ExplodePair(x.id, y.id);
    var got := ExpandParts(pos, [x.id, y.id], pp);
    assert got.Some? && |got.value| == 2;
    assert got.value[0] == expanded[0] && got.value[1] == expanded[1];
    assert got.value == expanded;
    assert Explode(e.player) == [x.id, y.id];
    assert ExpandEntry(e, pp) == Some(expanded);
    assert [e][..0] == [] && [] + expanded == expanded;
    assert ExpandAll([e], pp) == Some(expanded);
  }

  /** Two entries holding first occurrences in their position's list get
      those players' points. */
  lemma ScoredPair(pp: Pool, pos: string, i: int, j: int)
    requires pos in pp && 0 <= i < |pp[pos]| && 0 <= j < |pp[pos]|
    requires IsFirst(pp[pos], i) && IsFirst(pp[pos], j)
    ensures var list := pp[pos];
            Scored([LineupEntry(pos, list[i].id), LineupEntry(pos, list[j].id)], pp)
            == Some([ScoredEntry(pos, list[i].id, list[i].points), ScoredEntry(pos, list[j].id, list[j].points)])
  {
    var list := pp[pos];
    FirstIsLookup(list, i);
    FirstIsLookup(list, j);
    var entries := [LineupEntry(pos, list[i].id), LineupEntry(pos, list[j].id)];
    var got := Scored(entries, pp);
    assert got.Some? && |got.value| == 2;
    assert got.value[0] == ScoredEntry(pos, list[i].id, list[i].points);
    assert got.value[1] == ScoredEntry(pos, list[j].id, list[j].points);
    assert got.value == [ScoredEntry(pos, list[i].id, list[i].points), ScoredEntry(pos, list[j].id, list[j].points)];
  }

  /** Under fan_duel, the bundle of two first occurrences expands to the two
      players with their own points. */
  lemma ExpandFirstsBundle(pp: Pool, pos: string, i: int, j: int)
    requires pos in PairedPositions && pos in pp && PlainIds(pp[pos])
    requires 0 <= i < |pp[pos]| && 0 <= j < |pp[pos]| && IsFirst(pp[pos], i) && IsFirst(pp[pos], j)
    ensures var list := pp[pos];
            Expand([LineupEntry(pos, Bundle(list[i], list[j]).id)], pp, FanDuel)
            == Some([ScoredEntry(pos, list[i].id, list[i].points), ScoredEntry(pos, list[j].id, list[j].points)])
  {
    var list := pp[pos];
    assert HasId(list, list[i].id) && HasId(list, list[j].id);
    ExpandPairEntry(pp, pos, list[i], list[j], Bundle(list[i], list[j]).id);
    ScoredPair(pp, pos, i, j);
  }

  /** Expanding a bundle the combiner made, against the pool it was made from,
      gives back its two players with their own points, which sum to the
      bundle's points. */
  lemma ExpandUndoesCollapse(pp: Pool, pos: string, b: Player)
    requires pos in PairedPositions && pos in pp && PlainIds(pp[pos])
    requires b in Pairs(pp[pos])
    ensures exists i, j :: 0 <= i < j < |pp[pos]|
              && Expand([LineupEntry(pos, b.id)], pp, FanDuel)
                 == Some([ScoredEntry(pos, pp[pos][i].id, pp[pos][i].points),
                          ScoredEntry(pos, pp[pos][j].id, pp[pos][j].points)])
              && b.points == pp[pos][i].points + pp[pos][j].points
              && b.salary == pp[pos][i].salary + pp[pos][j].salary
  {
    var i, j := BundleSource(pp[pos], b);
    ExpandFirstsBundle(pp, pos, i, j);
  }

  /** The two first occurrences a bundle of `Pairs(list)` was made from. */
  lemma BundleSource(list: seq<Player>, b: Player) returns (i: int, j: int)
    requires b in Pairs(list)
    ensures 0 <= i < j < |list| && IsFirst(list, i) && IsFirst(list, j) && b == Bundle(list[i], list[j])
  {
    var k :| 0 <= k < |Pairs(list)| && Pairs(list)[k] == b;
    PairsEntry(list, k);
    i, j := ChosenPairs(list)[k].0, ChosenPairs(list)[k].1;
  }
}
