/** multiDimensionArraySortByColumn: order a candidate list by one column,
    highest first (the default) or lowest first, reindexed from 0. */
module ColumnSort {
  import opened Roster

  datatype Column = SalaryColumn | PointsColumn

  /** 'DESC' (the default) uses arsort; any other value uses asort. */
  datatype Direction = Desc | Asc

  function Key(p: Player, col: Column): int
  {
    match col
    case SalaryColumn => p.salary
    case PointsColumn => p.points
  }

  /** `a` may stand before `b` in the requested order. */
  predicate InOrder(a: Player, b: Player, col: Column, dir: Direction)
  {
    match dir
    case Desc => Key(a, col) >= Key(b, col)
    case Asc => Key(a, col) <= Key(b, col)
  }

  predicate Sorted(s: seq<Player>, col: Column, dir: Direction)
  {
    forall i, j :: 0 <= i < j < |s| ==> InOrder(s[i], s[j], col, dir)
  }

  /** Insert `p` after every entry it does not strictly precede, so that equal
      keys keep their arrival order. */
  function Insert(s: seq<Player>, p: Player, col: Column, dir: Direction): (r: seq<Player>)
    requires Sorted(s, col, dir)
    ensures Sorted(r, col, dir)
    ensures multiset(r) == multiset(s) + multiset{p}
  {
    if s == [] then [p]
    else if !InOrder(s[0], p, col, dir) then [p] + s
    else
      var rest := Insert(s[1..], p, col, dir);
      assert s == [s[0]] + s[1..];
      assert forall x :: x in rest ==> InOrder(s[0], x, col, dir) by {
        forall x | x in rest
          ensures InOrder(s[0], x, col, dir)
        {
          assert x in multiset(rest);
        }
      }
      [s[0]] + rest
  }

  /** multiDimensionArraySortByColumn: the result is a permutation of the
      input ordered by the column in the requested direction. */
  method SortByColumn(list: seq<Player>, col: Column, dir: Direction) returns (r: seq<Player>)
    ensures Sorted(r, col, dir)
    ensures multiset(r) == multiset(list)
    ensures |r| == |list|
  {
    r := [];
    for i := 0 to |list|
      invariant Sorted(r, col, dir)
      invariant multiset(r) == multiset(list[..i])
    {
      assert list[..i + 1] == list[..i] + [list[i]];
      r := Insert(r, list[i], col, dir);
    }
    assert list[..|list|] == list;
    assert |multiset(r)| == |r|;
  }
}
