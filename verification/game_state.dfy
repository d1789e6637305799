/** The match score: two counters owned by the authority, bumped once per
    kill, and the broadcast of both totals when they replicate. */
module Scoring {
  import opened Net

  datatype Score = Score(player1: int, player2: int)

  /** One AddScore call with the given authority and winner flag. */
  function AddScoreSpec(s: Score, authority: bool, player1Scored: bool): Score
  {
    if !authority then s
    else if player1Scored then Score(s.player1 + 1, s.player2)
    else Score(s.player1, s.player2 + 1)
  }

  /** An AddScore call: whether the game state had authority, and which
      player scored. */
  datatype ScoreCall = ScoreCall(authority: bool, player1Scored: bool)

  function ApplyScores(s: Score, calls: seq<ScoreCall>): Score
    decreases |calls|
  {
    if calls == [] then s
    else ApplyScores(AddScoreSpec(s, calls[0].authority, calls[0].player1Scored), calls[1..])
  }

  /** The number of calls made with authority, and with authority for
      player 1 and for player 2. */
  function AuthorityCalls(calls: seq<ScoreCall>): nat
    decreases |calls|
  {
    if calls == [] then 0 else (if calls[0].authority then 1 else 0) + AuthorityCalls(calls[1..])
  }

  function Player1Calls(calls: seq<ScoreCall>): nat
    decreases |calls|
  {
    if calls == [] then 0
    else (if calls[0].authority && calls[0].player1Scored then 1 else 0) + Player1Calls(calls[1..])
  }

  function Player2Calls(calls: seq<ScoreCall>): nat
    decreases |calls|
  {
    if calls == [] then 0
    else (if calls[0].authority && !calls[0].player1Scored then 1 else 0) + Player2Calls(calls[1..])
  }

  /** Over any series of AddScore calls, each counter grows by exactly the
      number of authority calls crediting its player. */
  lemma {:induction false} ScoresCountCredits(s: Score, calls: seq<ScoreCall>)
    ensures ApplyScores(s, calls).player1 == s.player1 + Player1Calls(calls)
    ensures ApplyScores(s, calls).player2 == s.player2 + Player2Calls(calls)
    decreases |calls|
  {
    if calls != [] {
      ScoresCountCredits(AddScoreSpec(s, calls[0].authority, calls[0].player1Scored), calls[1..]);
    }
  }

  /** Each authority call credits exactly one of the two players. */
  lemma {:induction false} CreditsSplitAuthorityCalls(calls: seq<ScoreCall>)
    ensures Player1Calls(calls) + Player2Calls(calls) == AuthorityCalls(calls)
    decreases |calls|
  {
    if calls != [] {
      CreditsSplitAuthorityCalls(calls[1..]);
    }
  }

  /** Both scores are non-decreasing over any series of calls, and their sum
      grows by exactly the number of authority calls. */
  lemma ScoresMonotoneAndCounted(s: Score, calls: seq<ScoreCall>)
    ensures ApplyScores(s, calls).player1 >= s.player1
    ensures ApplyScores(s, calls).player2 >= s.player2
    ensures ApplyScores(s, calls).player1 + ApplyScores(s, calls).player2 ==
            s.player1 + s.player2 + AuthorityCalls(calls)
  {
    ScoresCountCredits(s, calls);
    CreditsSplitAuthorityCalls(calls);
  }

  /** Calls without authority change no score. */
  lemma {:induction false} NonAuthorityCallsChangeNothing(s: Score, calls: seq<ScoreCall>)
    requires forall i :: 0 <= i < |calls| ==> !calls[i].authority
    ensures ApplyScores(s, calls) == s
    decreases |calls|
  {
    if calls != [] {
      NonAuthorityCallsChangeNothing(s, calls[1..]);
    }
  }

  /** The replicated game state holding the two scores. */
  class GameState {
    const localRole: NetRole
    var player1Score: int
    var player2Score: int

    function CurrentScore(): Score
      reads this
    {
      Score(player1Score, player2Score)
    }

    /** Both scores start at zero. */
    constructor (localRole: NetRole)
      ensures this.localRole == localRole
      ensures player1Score == 0 && player2Score == 0
    {
      this.localRole := localRole;
      player1Score, player2Score := 0, 0;
    }

    /** With authority, bumps exactly one counter by one; without, changes
        nothing. */
    method AddScore(player1Scored: bool)
      modifies this
      ensures CurrentScore() == AddScoreSpec(old(CurrentScore()), localRole == Authority, player1Scored)
      ensures localRole == Authority && player1Scored ==>
        player1Score == old(player1Score) + 1 && player2Score == old(player2Score)
      ensures localRole == Authority && !player1Scored ==>
        player2Score == old(player2Score) + 1 && player1Score == old(player1Score)
      ensures localRole != Authority ==>
        player1Score == old(player1Score) && player2Score == old(player2Score)
    {
      if localRole == Authority {
        if player1Scored {
          player1Score := player1Score + 1;
        } else {
          player2Score := player2Score + 1;
        }
      }
    }

    /** The payload OnScoreUpdated is broadcast with: both current totals,
        no history. */
    function OnRep_Score(): (totals: (int, int))
      reads this
      ensures totals.0 == CurrentScore().player1 && totals.1 == CurrentScore().player2
    {
      (player1Score, player2Score)
    }
  }
}
