/**
 * The per-session score kept by the server for a browser session: three
 * counters, created on first use, bumped by a posted result and reset on
 * request.
 */
module SessionScore {

  datatype Option<T> = None | Some(value: T)

  datatype Score = Score(wins: nat, losses: nat, draws: nat)

  const ZeroScore := Score(0, 0, 0)

  /**
   * The score after a posted result: "win", "loss" and "draw" each add
   * one to their own counter and leave the other two alone; any other
   * result changes nothing.
   */
  function Bumped(s: Score, result: string): (r: Score)
    ensures result == "win" ==> r.wins == s.wins + 1 && r.losses == s.losses && r.draws == s.draws
    ensures result == "loss" ==> r.losses == s.losses + 1 && r.wins == s.wins && r.draws == s.draws
    ensures result == "draw" ==> r.draws == s.draws + 1 && r.wins == s.wins && r.losses == s.losses
    ensures result != "win" && result != "loss" && result != "draw" ==> r == s
  {
    match result
    case "win" => s.(wins := s.wins + 1)
    case "loss" => s.(losses := s.losses + 1)
    case "draw" => s.(draws := s.draws + 1)
    case _ => s
  }

  /** The score after a sequence of posted results. */
  function BumpedAll(s: Score, results: seq<string>): Score
    decreases |results|
  {
    if results == [] then s else BumpedAll(Bumped(s, results[0]), results[1..])
  }

  /**
   * Without a reset the counters never decrease, and together they grow by
   * at most the number of results posted.
   */
  lemma {:induction false} BumpedAllMonotone(s: Score, results: seq<string>)
    ensures var r := BumpedAll(s, results);
      r.wins >= s.wins && r.losses >= s.losses && r.draws >= s.draws &&
      r.wins + r.losses + r.draws <= s.wins + s.losses + s.draws + |results|
    decreases |results|
  {
    if results != [] {
      BumpedAllMonotone(Bumped(s, results[0]), results[1..]);
    }
  }

  /** The session's score, absent until the first request that touches it. */
  class Session {
    var gameScore: Option<Score>

    constructor()
      ensures gameScore == None
    {
      gameScore := None;
    }

    /** Reading the score creates a zero score when there is none. */
    method GetScore() returns (s: Score)
      modifies this
      ensures old(gameScore).None? ==> s == ZeroScore
      ensures old(gameScore).Some? ==> s == old(gameScore).value
      ensures gameScore == Some(s)
    {
      if gameScore.None? {
        gameScore := Some(ZeroScore);
      }
      s := gameScore.value;
    }

    /** Posting a result bumps its counter, after creating a zero score when there is none. */
    method PostResult(result: string) returns (s: Score)
      modifies this
      ensures s == Bumped(if old(gameScore).Some? then old(gameScore).value else ZeroScore, result)
      ensures gameScore == Some(s)
    {
      if gameScore.None? {
        gameScore := Some(ZeroScore);
      }
      var score := gameScore.value;
      match result {
        case "win" => score := score.(wins := score.wins + 1);
        case "loss" => score := score.(losses := score.losses + 1);
        case "draw" => score := score.(draws := score.draws + 1);
        case _ =>
      }
      gameScore := Some(score);
      s := score;
    }

    /** Reset replaces any score by zeros. */
    method Reset() returns (s: Score)
      modifies this
      ensures s == ZeroScore && gameScore == Some(ZeroScore)
    {
      gameScore := Some(ZeroScore);
      s := ZeroScore;
    }
  }

}
