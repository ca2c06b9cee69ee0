/** The lineup search (getLineUpByPlayerPool, getTeam) and the lineup
    formatter (formatLineup). */
module LineupSearch {
  import opened Roster
  import opened TeamBuilder
  import opened BestTeam

  /** What getTeam returns: the team as left by the walk, and the incumbent. */
  datatype State = State(team: Team, best: Best)

  /** getTeam as a function. For each candidate of `pool`, in order: insert it at
      slot `element`, let the tracker consider the team, then search the next
      slot's pool and carry its team and incumbent on to the next sibling. The
      team is never reset between siblings. `None` is a fault: the next slot's
      position has no pool. */
  function Search(team: Team, slots: seq<Slot>, element: nat, pool: seq<Player>, best: Best,
                  pp: Pool, cap: int): Option<State>
    requires element < |slots|
    decreases |slots| - element, |pool|
  {
    if pool == [] then Some(State(team, best))
    else
      var t := Added(team, slots[element], pool[0]);
      var b := Better(t, best, cap);
      if element + 1 < |slots| then
        var next := slots[element + 1].position;
        if next !in pp then None
        else
          match Search(t, slots, element + 1, pp[next], b, pp, cap)
          case None => None
          case Some(st) => Search(st.team, slots, element, pool[1..], st.best, pp, cap)
      else Search(t, slots, element, pool[1..], b, pp, cap)
  }

  /** getTeam: a loop over the candidates that recurses into the next slot. */
  method GetTeam(team: Team, slots: seq<Slot>, element: nat, pool: seq<Player>, best: Best,
                 pp: Pool, cap: int) returns (r: Option<State>)
    requires element < |slots|
    ensures r == Search(team, slots, element, pool, best, pp, cap)
    decreases |slots| - element
  {
    var t, b := team, best;
    for i := 0 to |pool|
      invariant Search(team, slots, element, pool, best, pp, cap)
                == Search(t, slots, element, pool[i..], b, pp, cap)
    {
      assert pool[i..][0] == pool[i] && pool[i..][1..] == pool[i + 1..];
      t := AddPlayerToTeam(t, slots[element], pool[i]);
      b := GetBestTeam(t, b, cap);
      if element + 1 < |slots| {
        var next := slots[element + 1].position;
        if next !in pp {
          return None;
        }
        var sub := GetTeam(t, slots, element + 1, pp[next], b, pp, cap);
        if sub.None? {
          return None;
        }
        t, b := sub.value.team, sub.value.best;
      }
    }
    assert pool[|pool|..] == [];
    return Some(State(t, b));
  }

  /** The incumbent never loses points or entries during a search. */
  lemma {:induction false} SearchMonotone(team: Team, slots: seq<Slot>, element: nat, pool: seq<Player>,
                                          best: Best, pp: Pool, cap: int)
    requires element < |slots|
    ensures var r := Search(team, slots, element, pool, best, pp, cap);
            r.Some? ==> r.value.best.points >= best.points && |r.value.best.team| >= |best.team|
    decreases |slots| - element, |pool|
  {
    if pool != [] {
      var t := Added(team, slots[element], pool[0]);
      var b := Better(t, best, cap);
      if element + 1 < |slots| {
        var next := slots[element + 1].position;
        if next in pp {
          SearchMonotone(t, slots, element + 1, pp[next], b, pp, cap);
          var sub := Search(t, slots, element + 1, pp[next], b, pp, cap);
          if sub.Some? {
            SearchMonotone(sub.value.team, slots, element, pool[1..], sub.value.best, pp, cap);
          }
        }
      } else {
        SearchMonotone(t, slots, element, pool[1..], b, pp, cap);
      }
    }
  }

  /** The incumbent stays the initial one or a team within the cap whose stored
      sums are its own. */
  lemma {:induction false} SearchStaysFeasible(team: Team, slots: seq<Slot>, element: nat, pool: seq<Player>,
                                               best: Best, pp: Pool, cap: int)
    requires element < |slots|
    requires Feasible(best, cap)
    ensures var r := Search(team, slots, element, pool, best, pp, cap);
            r.Some? ==> Feasible(r.value.best, cap)
    decreases |slots| - element, |pool|
  {
    if pool != [] {
      var t := Added(team, slots[element], pool[0]);
      var b := Better(t, best, cap);
      assert Feasible(b, cap);
      if element + 1 < |slots| {
        var next := slots[element + 1].position;
        if next in pp {
          SearchStaysFeasible(t, slots, element + 1, pp[next], b, pp, cap);
          var sub := Search(t, slots, element + 1, pp[next], b, pp, cap);
          if sub.Some? {
            SearchStaysFeasible(sub.value.team, slots, element, pool[1..], sub.value.best, pp, cap);
          }
        }
      } else {
        SearchStaysFeasible(t, slots, element, pool[1..], b, pp, cap);
      }
    }
  }

  /** Every pool of `pp` holds plain ids only. */
  predicate PlainPool(pp: Pool)
  {
    forall pos :: pos in pp ==> PlainIds(pp[pos])
  }

  /** With plain ids everywhere, the walk's team and the incumbent never hold
      the same id twice. */
  lemma {:induction false} SearchKeepsIdsUnique(team: Team, slots: seq<Slot>, element: nat, pool: seq<Player>,
                                                best: Best, pp: Pool, cap: int)
    requires element < |slots|
    requires PlainIds(pool) && PlainPool(pp)
    requires UniqueIds(team) && UniqueIds(best.team)
    ensures var r := Search(team, slots, element, pool, best, pp, cap);
            r.Some? ==> UniqueIds(r.value.team) && UniqueIds(r.value.best.team)
    decreases |slots| - element, |pool|
  {
    if pool != [] {
      var t := Added(team, slots[element], pool[0]);
      InsertKeepsIdsUnique(team, slots[element], pool[0]);
      var b := Better(t, best, cap);
      assert PlainIds(pool[1..]);
      if element + 1 < |slots| {
        var next := slots[element + 1].position;
        if next in pp {
          SearchKeepsIdsUnique(t, slots, element + 1, pp[next], b, pp, cap);
          var sub := Search(t, slots, element + 1, pp[next], b, pp, cap);
          if sub.Some? {
            SearchKeepsIdsUnique(sub.value.team, slots, element, pool[1..], sub.value.best, pp, cap);
          }
        }
      } else {
        SearchKeepsIdsUnique(t, slots, element, pool[1..], b, pp, cap);
      }
    }
  }

  /** formatLineup as a function: one (position, id) pair per entry, in the
      team's insertion order. */
  function Formatted(team: Team): (lineup: seq<LineupEntry>)
    ensures |lineup| == |team|
    ensures forall i :: 0 <= i < |team| ==> lineup[i] == LineupEntry(team[i].pos, team[i].player.id)
  {
    if team == [] then []
    else Formatted(team[..|team| - 1]) + [LineupEntry(team[|team| - 1].pos, team[|team| - 1].player.id)]
  }

  /** formatLineup: append one pair per entry. */
  method FormatLineup(team: Team) returns (lineup: seq<LineupEntry>)
    ensures lineup == Formatted(team)
    ensures |lineup| == |team|
    ensures forall i :: 0 <= i < |team| ==> lineup[i] == LineupEntry(team[i].pos, team[i].player.id)
  {
    lineup := [];
    for i := 0 to |team|
      invariant lineup == Formatted(team[..i])
    {
      assert team[..i + 1][..i] == team[..i];
      lineup := lineup + [LineupEntry(team[i].pos, team[i].player.id)];
    }
    assert team[..|team|] == team;
  }

  /** The incumbent a whole search ends with; `None` when the search faults
      (no slots, or a slot's position has no pool). */
  function Incumbent(pp: Pool, cap: int, slots: seq<Slot>): Option<Best>
  {
    if |slots| == 0 || slots[0].position !in pp then None
    else
      match Search([], slots, 0, pp[slots[0].position], Initial, pp, cap)
      case None => None
      case Some(st) => Some(st.best)
  }

  /** getLineUpByPlayerPool as a function: a fault gives the empty lineup. */
  function LineUp(pp: Pool, cap: int, slots: seq<Slot>): seq<LineupEntry>
  {
    match Incumbent(pp, cap, slots)
    case None => []
    case Some(b) => Formatted(b.team)
  }

  /** getLineUpByPlayerPool: search from an empty team and the initial
      incumbent, then format the incumbent's team. */
  method GetLineUpByPlayerPool(pp: Pool, cap: int, slots: seq<Slot>) returns (lineup: seq<LineupEntry>)
    ensures lineup == LineUp(pp, cap, slots)
    ensures |slots| > 0 && slots[0].position in pp && pp[slots[0].position] == [] ==> lineup == []
  {
    if |slots| == 0 || slots[0].position !in pp {
      return [];
    }
    var response := GetTeam([], slots, 0, pp[slots[0].position], Initial, pp, cap);
    if response.None? {
      return [];
    }
    lineup := FormatLineup(response.value.best.team);
  }

  /** A non-empty lineup is the formatted team of an incumbent whose salary
      is within the cap and whose points are not negative. */
  lemma LineUpWithinCap(pp: Pool, cap: int, slots: seq<Slot>)
    ensures var lineup := LineUp(pp, cap, slots);
            lineup != [] ==>
              Incumbent(pp, cap, slots).Some?
              && lineup == Formatted(Incumbent(pp, cap, slots).value.team)
              && SalarySum(Incumbent(pp, cap, slots).value.team) <= cap
              && Incumbent(pp, cap, slots).value.points >= 0
  {
    if |slots| > 0 && slots[0].position in pp {
      var pool := pp[slots[0].position];
      SearchStaysFeasible([], slots, 0, pool, Initial, pp, cap);
      SearchMonotone([], slots, 0, pool, Initial, pp, cap);
    }
  }

  /** When every pool holds plain ids, no player appears twice in the lineup. */
  lemma LineUpHasDistinctPlayers(pp: Pool, cap: int, slots: seq<Slot>)
    requires PlainPool(pp)
    ensures var lineup := LineUp(pp, cap, slots);
            forall i, j :: 0 <= i < j < |lineup| ==> lineup[i].player != lineup[j].player
  {
    if |slots| > 0 && slots[0].position in pp {
      var pool := pp[slots[0].position];
      SearchKeepsIdsUnique([], slots, 0, pool, Initial, pp, cap);
    }
  }
}
