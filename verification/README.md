# Fantasy lineup builder (`AlgorithmHelper`), modelled in Dafny

`AlgorithmHelper` builds a fantasy-sports lineup. It starts from a pool of
candidate players keyed by position label, a salary cap and an ordered list of
roster slots (position label plus the key the pick is stored under). From these
it walks the candidates slot by slot and keeps the best team it evaluates: a
team within the cap with at least the points and at least as many entries as
the best so far. This is a heuristic, not an optimiser. The result can be a
partial lineup, and because the walking team is not reset between candidates
it can miss a better full team (`Scenarios.PartialLineup` and
`Scenarios.MissedOptimum` show both). Around this search sit four helpers:

- The **dominance pruner** removes an entry when its neighbour in sorted
  order costs no more and scores no fewer points.
- The **slot combiner** turns each fan_duel two-player position (PG, SG, SF,
  PF) into a list of `a|b` bundles.
- The **bundle expander** splits a lineup's bundles back into single players
  and adds each player's points.
- The **column sort** orders a candidate list by salary or by points.

The model follows the PHP code's structure, one module per component:

- `Roster` holds the shared values: candidates, slots, lineup entries,
  leagues, the pool, PHP `explode`/`implode` on `|`, and the first-match id
  lookup `array_search`.
- `TeamBuilder` (`addPlayerToTeam`) models a PHP array keyed by slot index
  as an ordered sequence of keyed entries. `$team[k] = v` overwrites in place
  when the key exists and appends otherwise.
- `BestTeam` (`getBestTeam`) is the replacement rule.
- `LineupSearch` (`getTeam`, `getLineUpByPlayerPool`, `formatLineup`) defines
  the recursive search as the function `Search`. The looping method `GetTeam`
  is proved equal to it. The source's quirks are kept:
  - the partial team is never reset between sibling candidates;
  - a rejected candidate is still handed to the tracker and still recursed
    into;
  - a fault inside the search gives the empty lineup.
- `ColumnSort` (`multiDimensionArraySortByColumn`).
- `DominancePruner` (`eliminateDuplicatePossibilitiesFromList`).
- `SlotCombiner` (`collapseMultiplePlayersInPool`,
  `checkPositionPlayerDuplicates`). The combiner's output is characterised
  independently of its loops: pair (i, j) is emitted exactly when i < j and
  both hold the first occurrence of their id.
- `BundleExpander` (`formatLineupByExpandPositions`).
- `Scenarios` holds small worked examples.

Every loop of the source is a `method` with a `for`/`while` loop. Each is
proved equal to a specification function or to the property the source
promises, and lemmas state that function's properties.

The PHP code raises in several places: an undefined array key, a lookup into
a missing list, or an empty list. Laravel turns these notices into
exceptions. The model reports them as `None`:

- `getLineUpByPlayerPool` catches them and returns `[]`, and the model does
  the same.
- `collapseMultiplePlayersInPool` and `formatLineupByExpandPositions` do not
  catch them, and their models return `None`.

A slot whose position has no list in the pool is a fault: the code reads an
undefined key and the framework turns the warning into an exception, so the
search gives the empty lineup. It is not treated as an empty candidate list.

The source is the single file `find-best-team-from-given-list.php`.

## Model

| member | source | states |
|---|---|---|
| Roster.Explode | find-best-team-from-given-list.php:80 | `explode('|', s)` yields at least one piece and no piece contains the separator |
| Roster.ExplodePair | find-best-team-from-given-list.php:155-159 | the id `a|b` of a bundle of two plain ids splits back into exactly `[a, b]` |
| Roster.ImplodeExplode | find-best-team-from-given-list.php:250 | joining the pieces `explode` produces with `|` gives the original string back (round trip) |
| Roster.IndexOfId | find-best-team-from-given-list.php:252 | `array_search` over the `player` column returns the first index whose id matches |
| Roster.FirstIsLookup | find-best-team-from-given-list.php:302 | the lookup of an entry's id lands on the first occurrence of that id, at or before the entry, and lands on the entry itself exactly when it is a first occurrence |
| TeamBuilder.Assign | find-best-team-from-given-list.php:89 | `$team[key] = entry`: afterwards the key holds the entry, every other key holds what it held, the team grows by one exactly when the key was new, and existing keys keep their order |
| TeamBuilder.Added | find-best-team-from-given-list.php:76-92 | insertion rule: when the candidate's id equals a `|`-component of some entry the team is unchanged; otherwise the slot's key holds the candidate tagged with the slot's position and no other key changes |
| TeamBuilder.AddPlayerToTeam | find-best-team-from-given-list.php:76-92 | the nested scan over entries and their components computes exactly the insertion rule |
| TeamBuilder.InsertKeepsIdsUnique | find-best-team-from-given-list.php:76-92 | with plain ids, insertion never creates two entries with the same id |
| TeamBuilder.SharedComponentAdmitted | find-best-team-from-given-list.php:80-84 | the whole candidate id is compared with components, so a bundle `a|c` is admitted next to `a|b` although both hold player `a` |
| BestTeam.GetBestTeam | find-best-team-from-given-list.php:102-116 | replaces the incumbent exactly when salary ≤ cap, points ≥ the incumbent's and size ≥ the incumbent's (a full tie goes to the newer team); otherwise keeps it; points and size never drop; a consistent within-cap incumbent stays one |
| LineupSearch.GetTeam | find-best-team-from-given-list.php:51-66 | the candidate loop with its recursion computes `Search`, including the fault when the next slot's position has no list |
| LineupSearch.SearchMonotone | find-best-team-from-given-list.php:51-66 | a search never lowers the incumbent's points or shrinks its team |
| LineupSearch.SearchStaysFeasible | find-best-team-from-given-list.php:51-66 | a search ends on the initial incumbent or on a team within the cap whose stored sums are its own |
| LineupSearch.SearchKeepsIdsUnique | find-best-team-from-given-list.php:51-66 | with plain ids, neither the walking team nor the incumbent ever holds the same player twice |
| LineupSearch.Formatted | find-best-team-from-given-list.php:124-131 | one (position, id) pair per team entry, in the team's order, and nothing else |
| LineupSearch.FormatLineup | find-best-team-from-given-list.php:124-131 | the loop produces exactly one (position, id) pair per entry, in order |
| LineupSearch.GetLineUpByPlayerPool | find-best-team-from-given-list.php:27-37 | the result is the formatted incumbent of a search from the empty team, or `[]` on a fault; an empty first list gives `[]` |
| LineupSearch.LineUpWithinCap | find-best-team-from-given-list.php:27-37 | a non-empty lineup comes from an incumbent whose salary is within the cap and whose points are not negative |
| LineupSearch.LineUpHasDistinctPlayers | find-best-team-from-given-list.php:27-37 | with plain ids in the pool, no player appears twice in the lineup |
| ColumnSort.Insert | find-best-team-from-given-list.php:390-399 | inserting into a list ordered by the column keeps it ordered and adds exactly the new entry |
| ColumnSort.SortByColumn | find-best-team-from-given-list.php:384-401 | the result is a permutation of the input, of the same length, ordered non-increasing (DESC) or non-decreasing (ASC) by the column |
| DominancePruner.ScanPrunes | find-best-team-from-given-list.php:347-356 | what one scan keeps is drawn from the list, has at least the minimum size when the list was larger, and dominates every entry of the list (salary ≤, points ≥) |
| DominancePruner.DropDominated | find-best-team-from-given-list.php:347-356 | the scan removes an entry only when its successor dominates it; it removes the earliest dominated entries, one index at a time, while more than the minimum size remain, and once it keeps a dominated entry it keeps every later one; the survivors keep their order |
| DominancePruner.ScanIsUnique | find-best-team-from-given-list.php:347-356 | these rules determine the scan completely: two marks of survivors that both satisfy them for the same list and minimum size are equal |
| DominancePruner.ScanStopsAtFloor | find-best-team-from-given-list.php:352 | over [p1 10/1, p2 9/2, p3 8/3, p4 7/4] with minimum size 2, where each entry is dominated by the next, only p1 and p2 go and [p3, p4] survives |
| DominancePruner.TwoScansPrune | find-best-team-from-given-list.php:342-371 | the salary pass and the points pass together keep a sub-multiset of the list, of at least the minimum size, that dominates every entry of the list, whatever order the reordering steps produce |
| DominancePruner.PruneList | find-best-team-from-given-list.php:342-371 | lists not above the minimum size are untouched; otherwise the list is sorted by salary (highest first) and scanned, reordered, sorted by points (lowest first) and scanned, and reordered, each scan removing as `DropDominated` states |
| DominancePruner.EliminateDuplicatePossibilitiesFromList | find-best-team-from-given-list.php:338-374 | the same positions come out, and each position's list goes through both scans on its own |
| DominancePruner.ScanDropsDominated | find-best-team-from-given-list.php:352 | a scan over [X 10/5, Y 5/5] with minimum size 1 must remove X, which Y dominates, leaving [Y] |
| SlotCombiner.CheckPositionPlayerDuplicates | find-best-team-from-given-list.php:315-330 | true exactly when the group has no repeated id and no selected group already holds all of its ids |
| SlotCombiner.TestPassesIffChosen | find-best-team-from-given-list.php:149-163 | at pair (i, j) the duplicate check passes exactly when i < j and both are first occurrences of their ids |
| SlotCombiner.PairPlayers | find-best-team-from-given-list.php:147-164 | the nested loops emit exactly `Pairs(list)`, the bundles of the chosen pairs in visiting order |
| SlotCombiner.PairsMembers | find-best-team-from-given-list.php:155-160 | a bundle is emitted exactly when it joins two first occurrences i < j: id `a|b`, summed salary, summed points |
| SlotCombiner.PairsCount | find-best-team-from-given-list.php:147-164 | a list with k distinct ids yields exactly C(k, 2) bundles |
| SlotCombiner.PairsAreDistinctPairs | find-best-team-from-given-list.php:152-154 | with plain ids, every bundle splits into two different ids and no two bundles hold the same two players |
| SlotCombiner.Choose2 | find-best-team-from-given-list.php:147-164 | the number of unordered pairs from m values is m(m-1)/2 |
| SlotCombiner.FirstsCountIds | find-best-team-from-given-list.php:147-164 | the number of first occurrences equals the number of distinct ids |
| SlotCombiner.CollapsePosition | find-best-team-from-given-list.php:147-164 | one block replaces the position's list by its bundles, or faults when the position is missing |
| SlotCombiner.Collapsed | find-best-team-from-given-list.php:140-228 | the collapsed pool has the same positions; PG, SG, SF and PF hold their bundles and every other position is unchanged |
| SlotCombiner.CollapseMultiplePlayersInPool | find-best-team-from-given-list.php:140-228 | leagues other than fan_duel get the pool back unchanged; for fan_duel a missing PG/SG/SF/PF list faults, otherwise the result is the collapsed pool |
| BundleExpander.SearchKey | find-best-team-from-given-list.php:252-253 | the key is the first matching index, or 0 when nothing matches (`false` read as a key) |
| BundleExpander.Fetch | find-best-team-from-given-list.php:252-253 | the lookup succeeds exactly when the position has a non-empty list; it gives the first entry with the id, or entry 0 when the id is absent |
| BundleExpander.ExpandParts | find-best-team-from-given-list.php:250-256 | one entry per piece, in order, under the bundle's position, holding the id of the pool entry the piece's lookup lands on |
| BundleExpander.ExpandBundle | find-best-team-from-given-list.php:250-256 | the inner loop computes `ExpandParts` of the bundle's pieces |
| BundleExpander.ExpandLineup | find-best-team-from-given-list.php:241-299 | the first loop computes `Expanded`: fan_duel expands PG/SG/SF/PF entries and passes others through; draft_kings and yahoo pass through; other leagues give nothing |
| BundleExpander.Scored | find-best-team-from-given-list.php:301-304 | every entry keeps its position and id and gets the points of the pool entry its lookup lands on; a fault when some lookup has no list to land in |
| BundleExpander.ScoreLineup | find-best-team-from-given-list.php:301-304 | the second loop computes `Scored` |
| BundleExpander.Expand | find-best-team-from-given-list.php:238-306 | any other league gives `[]`; draft_kings and yahoo keep each entry's position and id, in order; every emitted entry carries the points of its looked-up pool entry |
| BundleExpander.FormatLineupByExpandPositions | find-best-team-from-given-list.php:238-306 | the two loops together compute `Expand` |
| BundleExpander.ExpandEntryJoinsBack | find-best-team-from-given-list.php:249-257 | a bundle entry whose pieces are all listed expands to one entry per piece, in order, under its position, and the expanded ids joined with `|` give the bundle id back |
| BundleExpander.ExpandUndoesCollapse | find-best-team-from-given-list.php:238-306 | expanding a bundle the combiner made, against the pool it came from, yields its two players with their own points, which sum to the bundle's points, and their salaries sum to its salary |
| Scenarios.CapPicksCheaper | find-best-team-from-given-list.php:27-116 | QB [A 5000/20], RB [B 4000/15, C 3000/10], cap 8000 gives the lineup (QB A), (RB C) |
| Scenarios.OverCapGivesEmptyLineup | find-best-team-from-given-list.php:102-116 | a single slot whose only candidate exceeds the cap gives the empty lineup |
| Scenarios.PartialLineup | find-best-team-from-given-list.php:51-116 | QB [A 5000/20], RB [B 4000/15], cap 8000: A with B would cost 9000, so the lineup is the partial (QB A) |
| Scenarios.MissedOptimum | find-best-team-from-given-list.php:51-92 | X [A 1/1, C 1/100], Y [B 1/50, C 1/100], cap 1000 gives (X A, Y C) at 101 points although (X C, Y B) fits the cap at 150: C left under key 1 by the previous subtree is refused at X |
| Scenarios.TieKeepsLater | find-best-team-from-given-list.php:112-114 | of two candidates with equal salary and points for one slot, the later one is kept |
| Scenarios.TwoGuardRoundTrip | find-best-team-from-given-list.php:140-306 | fan_duel PG [A 3000/10, B 2000/8] collapses to the single bundle A\|B at 5000/18, which expands to (PG, A, 10), (PG, B, 8) |

## Left out

- The constructor and its `Carbon` dependency (lines 3, 13-16) are not modelled: no algorithm uses them.
- `config(...)` lookups are not modelled. The league becomes the `League` parameter, where `OtherLeague` stands for any other value. The minimum pool size becomes the `minSize` parameter.
- PHP exceptions and Laravel's conversion of notices into them are modelled as `None`. The model does not say which notice was raised.
- PHP's loose `==` is not modelled: the `switch` on position labels, the id comparison in `addPlayerToTeam`, `array_search`, and the key coercion of `array_flip`/`array_diff`. Ids compare as exact strings.
- Salaries and points are integers; PHP floats are not modelled.
- Lineup entries carry only position and id. The `$player['pos']` assignment at lines 254, 263, 272 and 281 writes a local copy that is then discarded, so it is not modelled.
- The `array_multisort($playerList, SORT_ASC)` calls at lines 357 and 370 compare whole records, which this model does not do. Both calls are the parameter `arrange` of `DominancePruner.PruneList` and `DominancePruner.EliminateDuplicatePossibilitiesFromList`, and the only thing assumed of it is that it reorders its input. The order it produces matters: it decides ties of the points sort, and so which entries the second scan removes. The contracts therefore hold for every reordering, and they say nothing about the final order of a pruned list.
- ColumnSort.SortByColumn: stable insertion sort stands in for `arsort`/`asort`, and the order among entries with equal keys is not claimed. That order matters to the pruner: with minimum size 1, a salary scan over [A 10/5, B 10/3] keeps both, while one over [B 10/3, A 10/5] drops B. This is why `DominancePruner.TwoScans` describes the result through some salary-sorted and some points-sorted order of the list, not through one fixed order.
- DominancePruner.EliminateDuplicatePossibilitiesFromList: positions are processed in an arbitrary order rather than the pool's key order. Each position is pruned on its own, so the result does not depend on the order.
- LineupSearch.LineUpHasDistinctPlayers: stated only for pools with plain (separator-free) ids. With bundles, `TeamBuilder.SharedComponentAdmitted` shows that two bundles sharing a player can both enter a team.
