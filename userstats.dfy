/**
 * The account statistics kept for every registered player, and their
 * update after one game: counters, the current and best win streaks, and
 * the points with their bonuses and floor. The table is a map from user id
 * to statistics; the database that holds it in the original is not
 * modelled.
 */
module UserStats {
  import opened Board

  /** The statistics columns of one account. */
  datatype Stats = Stats(wins: int, losses: int, draws: int, totalGames: int,
                         winStreak: int, bestWinStreak: int, points: int)

  const NewStats := Stats(0, 0, 0, 0, 0, 0, 0)

  /** What every stored row satisfies: no negative counter, and the best streak is at least the current one. */
  predicate StatsValid(s: Stats) {
    s.wins >= 0 && s.losses >= 0 && s.draws >= 0 && s.totalGames >= 0 &&
    s.winStreak >= 0 && s.points >= 0 && s.bestWinStreak >= s.winStreak
  }

  /**
   * The statistics after one result. A win adds a win, extends the streak
   * and earns 10 points, plus a new best streak and 5 more points when the
   * streak beats the best; a loss adds a loss, breaks the streak and costs
   * 3 points but never below 0; a draw adds a draw and 2 points. Any other
   * result changes no counter. Every call counts one more game.
   */
  function AfterResult(s: Stats, result: string): (r: Stats)
    ensures r.totalGames == s.totalGames + 1
    ensures result == "win" ==>
      r.wins == s.wins + 1 && r.winStreak == s.winStreak + 1 &&
      (s.winStreak + 1 > s.bestWinStreak ==> r.bestWinStreak == s.winStreak + 1 && r.points == s.points + 15) &&
      (s.winStreak + 1 <= s.bestWinStreak ==> r.bestWinStreak == s.bestWinStreak && r.points == s.points + 10) &&
      r.losses == s.losses && r.draws == s.draws
    ensures result == "loss" ==>
      r.losses == s.losses + 1 && r.winStreak == 0 && r.points == (if s.points >= 3 then s.points - 3 else 0) &&
      r.wins == s.wins && r.draws == s.draws && r.bestWinStreak == s.bestWinStreak
    ensures result == "draw" ==>
      r.draws == s.draws + 1 && r.points == s.points + 2 &&
      r.wins == s.wins && r.losses == s.losses && r.winStreak == s.winStreak && r.bestWinStreak == s.bestWinStreak
    ensures result != "win" && result != "loss" && result != "draw" ==> r == s.(totalGames := s.totalGames + 1)
  {
    match result
    case "win" =>
      var streak := s.winStreak + 1;
      if streak > s.bestWinStreak then
        s.(wins := s.wins + 1, winStreak := streak, bestWinStreak := streak, points := s.points + 15, totalGames := s.totalGames + 1)
      else
        s.(wins := s.wins + 1, winStreak := streak, points := s.points + 10, totalGames := s.totalGames + 1)
    case "loss" =>
      s.(losses := s.losses + 1, winStreak := 0, points := if s.points - 3 > 0 then s.points - 3 else 0,
         totalGames := s.totalGames + 1)
    case "draw" =>
      s.(draws := s.draws + 1, points := s.points + 2, totalGames := s.totalGames + 1)
    case _ =>
      s.(totalGames := s.totalGames + 1)
  }

  /**
   * An update keeps a row valid: points never go negative, and the best
   * streak stays at least the current streak.
   */
  lemma AfterResultValid(s: Stats, result: string)
    requires StatsValid(s)
    ensures StatsValid(AfterResult(s, result))
  {
  }

  /** The games counted are the updates made: after `results`, in order, the total has grown by their number. */
  function AfterResults(s: Stats, results: seq<string>): Stats
    decreases |results|
  {
    if results == [] then s else AfterResults(AfterResult(s, results[0]), results[1..])
  }

  /**
   * Over any sequence of results a valid row stays valid, and the games
   * counted grow by exactly the number of results, whatever they are.
   */
  lemma {:induction false} AfterResultsSpec(s: Stats, results: seq<string>)
    requires StatsValid(s)
    ensures StatsValid(AfterResults(s, results))
    ensures AfterResults(s, results).totalGames == s.totalGames + |results|
    ensures AfterResults(s, results).wins >= s.wins && AfterResults(s, results).losses >= s.losses &&
            AfterResults(s, results).draws >= s.draws
    decreases |results|
  {
    if results != [] {
      AfterResultValid(s, results[0]);
      AfterResultsSpec(AfterResult(s, results[0]), results[1..]);
    }
  }

  /** The account table, keyed by user id. */
  class UserTable {
    var users: map<int, Stats>

    ghost predicate Valid()
      reads this
    {
      forall id :: id in users ==> StatsValid(users[id])
    }

    constructor()
      ensures Valid() && users == map[]
    {
      users := map[];
    }

    /**
     * Records one result for `userId`: an unknown id yields None and
     * writes nothing; otherwise the row is read into locals, updated
     * step by step, written back with one more game, and returned.
     */
    method UpdateStats(userId: int, result: string) returns (updated: Option<Stats>)
      requires Valid()
      modifies this
      ensures Valid()
      ensures userId !in old(users) ==> updated == None && users == old(users)
      ensures userId in old(users) ==>
        updated == Some(AfterResult(old(users)[userId], result)) &&
        users == old(users)[userId := AfterResult(old(users)[userId], result)]
    {
      if userId !in users {
        return None;
      }
      var user := users[userId];
      var wins := user.wins;
      var losses := user.losses;
      var draws := user.draws;
      var winStreak := user.winStreak;
      var bestWinStreak := user.bestWinStreak;
      var points := user.points;
      match result {
        case "win" =>
          wins := wins + 1;
          winStreak := winStreak + 1;
          points := points + 10;
          if winStreak > bestWinStreak {
            bestWinStreak := winStreak;
            points := points + 5;
          }
        case "loss" =>
          losses := losses + 1;
          winStreak := 0;
          points := if 0 >= points - 3 then 0 else points - 3;
        case "draw" =>
          draws := draws + 1;
          points := points + 2;
        case _ =>
      }
      var row := Stats(wins, losses, draws, user.totalGames + 1, winStreak, bestWinStreak, points);
      AfterResultValid(user, result);
      users := users[userId := row];
      updated := Some(row);
    }
  }

  /** A leaderboard row with its rank. */
  datatype RankedRow<T> = RankedRow(row: T, rank: int)

  /** Numbers the rows of a page that starts after `offset` rows: ranks offset+1, offset+2, ... in row order. */
  function Ranked<T>(rows: seq<T>, offset: int): (r: seq<RankedRow<T>>)
    ensures |r| == |rows|
    ensures forall i :: 0 <= i < |rows| ==> r[i].row == rows[i]
  {
    seq(|rows|, i requires 0 <= i < |rows| => RankedRow(rows[i], offset + i + 1))
  }

  /**
   * Consecutive pages number consistently: ranking a list in one page or
   * split into two pages, the second starting where the first ends, gives
   * the same ranks; the ranks rise by one from row to row.
   */
  lemma RankedPages<T>(rows1: seq<T>, rows2: seq<T>, offset: int)
    ensures Ranked(rows1 + rows2, offset) == Ranked(rows1, offset) + Ranked(rows2, offset + |rows1|)
    ensures forall i :: 0 <= i < |rows1| ==> Ranked(rows1, offset)[i].rank == offset + i + 1
    ensures forall i :: 0 < i < |rows1| ==> Ranked(rows1, offset)[i].rank == Ranked(rows1, offset)[i - 1].rank + 1
  {
    var whole := Ranked(rows1 + rows2, offset);
    var split := Ranked(rows1, offset) + Ranked(rows2, offset + |rows1|);
    assert |whole| == |split|;
    forall i | 0 <= i < |whole|
      ensures whole[i] == split[i]
    {
      if i >= |rows1| {
        assert split[i] == Ranked(rows2, offset + |rows1|)[i - |rows1|];
      }
    }
  }
}
