/** Values shared by every component of the lineup builder: candidates,
    roster slots, lineup entries, leagues, and the '|'-joined identifiers
    that bundles use. */
module Roster {

  datatype Option<T> = None | Some(value: T)

  /** A candidate: one athlete, or a bundle whose id joins several ids with '|'.
      Salaries and points are integers here (see README). */
  datatype Player = Player(id: string, salary: int, points: int)

  /** One roster slot: its position label and the key its pick is stored under. */
  datatype Slot = Slot(position: string, element: int)

  /** One line of a formatted lineup: a position label and a (possibly joined) id. */
  datatype LineupEntry = LineupEntry(pos: string, player: string)

  /** The league discriminator; `OtherLeague` stands for any other configured value. */
  datatype League = FanDuel | DraftKings | Yahoo | OtherLeague

  /** The candidate lists, keyed by position label. */
  type Pool = map<string, seq<Player>>

  const Separator: char := '|'

  /** The position of the first separator in `s`. */
  function SeparatorAt(s: string): (i: nat)
    requires Separator in s
    ensures i < |s| && s[i] == Separator && Separator !in s[..i]
  {
    if s[0] == Separator then 0
    else
      var i := SeparatorAt(s[1..]);
      assert s[..i + 1] == [s[0]] + s[1..][..i];
      i + 1
  }

  /** PHP `explode('|', s)`: the pieces between separators, in order. */
  function Explode(s: string): (parts: seq<string>)
    ensures |parts| >= 1
    ensures forall k :: 0 <= k < |parts| ==> Separator !in parts[k]
    decreases |s|
  {
    if Separator !in s then [s]
    else
      var i := SeparatorAt(s);
      [s[..i]] + Explode(s[i + 1..])
  }

  /** Splitting at the first separator: the piece before it, then the rest. */
  lemma ExplodeAround(a: string, b: string)
    requires Separator !in a
    ensures Explode(a + [Separator] + b) == [a] + Explode(b)
  {
    var s := a + [Separator] + b;
    assert s[|a|] == Separator;
    assert s[..|a|] == a;
    assert SeparatorAt(s) == |a|;
    assert s[..|a|] == a && s[|a| + 1..] == b;
  }

  /** The id of a two-player bundle explodes to the two ids, in order. */
  lemma ExplodePair(a: string, b: string)
    requires Separator !in a && Separator !in b
    ensures Explode(a + [Separator] + b) == [a, b]
  {
    ExplodeAround(a, b);
  }

  /** PHP `implode('|', parts)`: the pieces joined by separators. */
  function Implode(parts: seq<string>): string
  {
    if |parts| <= 1 then (if parts == [] then "" else parts[0])
    else parts[0] + [Separator] + Implode(parts[1..])
  }

  /** Joining the pieces of a string gives the string back. */
  lemma {:induction false} ImplodeExplode(s: string)
    ensures Implode(Explode(s)) == s
    decreases |s|
  {
    if Separator in s {
      var i := SeparatorAt(s);
      var rest := s[i + 1..];
      ImplodeExplode(rest);
      assert Explode(s)[1..] == Explode(rest);
      assert s[..i] + [Separator] + rest == s;
    }
  }

  /** Every candidate in `list` has a plain (separator-free) id. */
  predicate PlainIds(list: seq<Player>)
  {
    forall k :: 0 <= k < |list| ==> Separator !in list[k].id
  }

  /** Some entry of `list` has id `id`. */
  predicate HasId(list: seq<Player>, id: string)
  {
    exists k :: 0 <= k < |list| && list[k].id == id
  }

  /** PHP `array_search(id, array_column(list, 'player'))`: the first index whose id matches. */
  function IndexOfId(list: seq<Player>, id: string): (k: nat)
    requires HasId(list, id)
    ensures k < |list| && list[k].id == id
    ensures forall j :: 0 <= j < k ==> list[j].id != id
  {
    if list[0].id == id then 0
    else
      assert HasId(list[1..], id) by {
        var k :| 0 <= k < |list| && list[k].id == id;
        assert list[1..][k - 1].id == id;
      }
      1 + IndexOfId(list[1..], id)
  }

  /** Index `i` holds the first occurrence of its id in `list`. */
  predicate IsFirst(list: seq<Player>, i: int)
    requires 0 <= i < |list|
  {
    forall k :: 0 <= k < i ==> list[k].id != list[i].id
  }

  /** The first occurrence of an id is where the id lookup lands. */
  lemma FirstIsLookup(list: seq<Player>, i: int)
    requires 0 <= i < |list|
    ensures HasId(list, list[i].id)
    ensures IndexOfId(list, list[i].id) <= i
    ensures IsFirst(list, IndexOfId(list, list[i].id))
    ensures IsFirst(list, i) <==> IndexOfId(list, list[i].id) == i
  {
    assert HasId(list, list[i].id);
  }

  /** Two first occurrences with the same id are the same index. */
  lemma FirstsAreUnique(list: seq<Player>, i: int, j: int)
    requires 0 <= i < |list| && 0 <= j < |list|
    requires IsFirst(list, i) && IsFirst(list, j)
    ensures list[i].id == list[j].id <==> i == j
  {
  }
}
