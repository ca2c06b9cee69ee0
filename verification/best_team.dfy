/** The best-team tracker (getBestTeam): sums a candidate team and decides
    whether it replaces the incumbent. */
module BestTeam {
  import opened Roster
  import opened TeamBuilder

  /** The incumbent: a team with the salary and points stored beside it. */
  datatype Best = Best(team: Team, salary: int, points: int)

  /** The incumbent the search starts from. */
  const Initial: Best := Best([], 0, 0)

  /** Total salary of the entries of a team. */
  function SalarySum(team: Team): int
  {
    if team == [] then 0 else SalarySum(team[..|team| - 1]) + team[|team| - 1].player.salary
  }

  /** Total points of the entries of a team. */
  function PointsSum(team: Team): int
  {
    if team == [] then 0 else PointsSum(team[..|team| - 1]) + team[|team| - 1].player.points
  }

  /** The replacement rule: within the cap, at least the incumbent's points,
      and at least as many entries as the incumbent's team. */
  predicate Replaces(team: Team, best: Best, cap: int)
  {
    SalarySum(team) <= cap && PointsSum(team) >= best.points && |team| >= |best.team|
  }

  /** The incumbent after considering `team`. */
  function Better(team: Team, best: Best, cap: int): Best
  {
    if Replaces(team, best, cap) then Best(team, SalarySum(team), PointsSum(team)) else best
  }

  /** An incumbent whose stored sums are those of its team and whose salary is
      within the cap, or the initial incumbent. */
  predicate Feasible(best: Best, cap: int)
  {
    best == Initial
    || (best.salary == SalarySum(best.team) && best.points == PointsSum(best.team) && best.salary <= cap)
  }

  /** getBestTeam: accumulate the team's salary and points, then apply the
      replacement rule; on a tie in all three parts the newer team wins. */
  method GetBestTeam(team: Team, best: Best, cap: int) returns (r: Best)
    ensures Replaces(team, best, cap) ==> r == Best(team, SalarySum(team), PointsSum(team))
    ensures !Replaces(team, best, cap) ==> r == best
    ensures r.points >= best.points && |r.team| >= |best.team|
    ensures Feasible(best, cap) ==> Feasible(r, cap)
  {
    var salary := 0;
    var points := 0;
    for i := 0 to |team|
      invariant salary == SalarySum(team[..i])
      invariant points == PointsSum(team[..i])
    {
      assert team[..i + 1][..i] == team[..i];
      salary := salary + team[i].player.salary;
      points := points + team[i].player.points;
    }
    assert team[..|team|] == team;
    if salary <= cap && points >= best.points && |team| >= |best.team| {
      r := Best(team, salary, points);
    } else {
      r := best;
    }
  }
}
