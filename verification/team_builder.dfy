/** The team builder: the exclusivity check and the insertion of a
    candidate into a partial team (addPlayerToTeam). */
module TeamBuilder {
  import opened Roster

  /** A team entry: the pick stored under `key`, tagged with its slot's position. */
  datatype Entry = Entry(key: int, player: Player, pos: string)

  /** A PHP array keyed by slot index; the sequence order is insertion order. */
  type Team = seq<Entry>

  /** Where `key` sits in `team`, or -1 when absent. */
  function KeyIndex(team: Team, key: int): (i: int)
    ensures -1 <= i < |team|
    ensures i >= 0 ==> team[i].key == key && forall j :: 0 <= j < i ==> team[j].key != key
    ensures i == -1 ==> forall j :: 0 <= j < |team| ==> team[j].key != key
  {
    if team == [] then -1
    else if team[0].key == key then 0
    else
      var i := KeyIndex(team[1..], key);
      if i < 0 then -1 else i + 1
  }

  /** `KeyIndex` is fixed by its contract: the first index holding `key`, or -1. */
  lemma KeyIndexIs(team: Team, key: int, i: int)
    requires -1 <= i < |team|
    requires i >= 0 ==> team[i].key == key && forall j :: 0 <= j < i ==> team[j].key != key
    requires i == -1 ==> forall j :: 0 <= j < |team| ==> team[j].key != key
    ensures KeyIndex(team, key) == i
  {
  }

  /** PHP `$team[$key]` read as an optional entry. */
  function Lookup(team: Team, key: int): Option<Entry>
  {
    var i := KeyIndex(team, key);
    if i < 0 then None else Some(team[i])
  }

  /** PHP `$team[$e.key] = $e`: an existing key is overwritten in place,
      a new key is appended at the end. */
  function Assign(team: Team, e: Entry): (r: Team)
    ensures Lookup(r, e.key) == Some(e)
    ensures forall k :: k != e.key ==> Lookup(r, k) == Lookup(team, k)
    ensures |r| == if Lookup(team, e.key).None? then |team| + 1 else |team|
    ensures forall j :: 0 <= j < |team| ==> r[j].key == team[j].key
  {
    var i := KeyIndex(team, e.key);
    if i < 0 then
      var r := team + [e];
      KeyIndexIs(r, e.key, |team|);
      forall k | k != e.key
        ensures KeyIndex(r, k) == KeyIndex(team, k)
      {
        KeyIndexIs(r, k, KeyIndex(team, k));
      }
      r
    else
      var r := team[i := e];
      forall k
        ensures KeyIndex(r, k) == KeyIndex(team, k)
      {
        KeyIndexIs(r, k, KeyIndex(team, k));
      }
      r
  }

  /** Some component of some entry's '|'-separated id equals `id`. */
  predicate Occupied(team: Team, id: string)
  {
    exists i :: 0 <= i < |team| && id in Explode(team[i].player.id)
  }

  /** What addPlayerToTeam returns: the team unchanged when the candidate's id is
      already a component of some entry, otherwise the candidate, tagged with the
      slot's position, written under the slot's key. */
  function Added(team: Team, slot: Slot, player: Player): (r: Team)
    ensures Occupied(team, player.id) ==> r == team
    ensures !Occupied(team, player.id) ==>
              Lookup(r, slot.element) == Some(Entry(slot.element, player, slot.position))
    ensures forall k :: k != slot.element ==> Lookup(r, k) == Lookup(team, k)
  {
    if Occupied(team, player.id) then team
    else Assign(team, Entry(slot.element, player, slot.position))
  }

  /** addPlayerToTeam: scan every component of every entry's id for the
      candidate's id, then write the candidate unless it was found. */
  method AddPlayerToTeam(team: Team, slot: Slot, player: Player) returns (r: Team)
    ensures r == Added(team, slot, player)
    ensures Occupied(team, player.id) ==> r == team
    ensures !Occupied(team, player.id) ==> r == Assign(team, Entry(slot.element, player, slot.position))
  {
    var exist := false;
    for i := 0 to |team|
      invariant exist <==> exists k :: 0 <= k < i && player.id in Explode(team[k].player.id)
    {
      var parts := Explode(team[i].player.id);
      for j := 0 to |parts|
        invariant exist <==> (exists k :: 0 <= k < i && player.id in Explode(team[k].player.id))
                             || player.id in parts[..j]
      {
        if player.id == parts[j] {
          exist := true;
        }
      }
      assert parts[..|parts|] == parts;
    }
    if !exist {
      r := Assign(team, Entry(slot.element, player, slot.position));
    } else {
      r := team;
    }
  }

  /** Every entry has a plain (separator-free) id, and no two entries share an id. */
  predicate UniqueIds(team: Team)
  {
    (forall i :: 0 <= i < |team| ==> Separator !in team[i].player.id)
    && forall i, j :: 0 <= i < j < |team| ==> team[i].player.id != team[j].player.id
  }

  /** With plain ids, insertion keeps the ids of a team pairwise distinct. */
  lemma InsertKeepsIdsUnique(team: Team, slot: Slot, player: Player)
    requires UniqueIds(team) && Separator !in player.id
    ensures UniqueIds(Added(team, slot, player))
  {
    if !Occupied(team, player.id) {
      forall i | 0 <= i < |team|
        ensures team[i].player.id != player.id
      {
        assert player.id !in Explode(team[i].player.id);
      }
      var e := Entry(slot.element, player, slot.position);
      var k := KeyIndex(team, slot.element);
      if k < 0 {
        assert Assign(team, e) == team + [e];
      } else {
        assert Assign(team, e) == team[k := e];
      }
    }
  }

  /** The check compares the whole candidate id with components of the team's
      ids, so a bundle `a|c` is admitted next to a bundle `a|b` although both
      hold player `a`. */
  lemma SharedComponentAdmitted(a: string, b: string, c: string, p: Player, q: Player, s1: Slot, s2: Slot)
    requires Separator !in a && Separator !in b && Separator !in c
    requires p.id == a + [Separator] + b && q.id == a + [Separator] + c
    requires s1.element != s2.element
    ensures var team := Added(Added([], s1, p), s2, q);
            |team| == 2 && a in Explode(team[0].player.id) && a in Explode(team[1].player.id)
  {
    ExplodePair(a, b);
    ExplodePair(a, c);
    var t1 := Added([], s1, p);
    assert t1 == [Entry(s1.element, p, s1.position)];
    assert Explode(t1[0].player.id) == [a, b];
    assert q.id != a && q.id != b by {
      assert Separator in q.id;
    }
    assert !Occupied(t1, q.id);
  }
}
