/** The game store: the two team names, the winning score, the round history
    and the game-over state, with the actions that change them and the
    total-score query. */
module Store {

  import opened Nullable
  import opened Scoring

  const DefaultTeamAName: string := "Team A"
  const DefaultTeamBName: string := "Team B"
  const DefaultWinningScore: int := 1000

  class GameStore {
    var teamAName: string
    var teamBName: string
    var winningScore: int
    var rounds: seq<Round>
    var isGameOver: bool
    var winningTeam: Option<TeamId>

    /** Rounds are numbered 1, 2, 3, ... and the game is over exactly when
        there is a winner. */
    ghost predicate Valid()
      reads this
    {
      SequentialIds(rounds) && (isGameOver <==> winningTeam.Some?)
    }

    /** The store starts in the default state. */
    constructor ()
      ensures Valid()
      ensures teamAName == DefaultTeamAName && teamBName == DefaultTeamBName
      ensures winningScore == DefaultWinningScore
      ensures rounds == [] && !isGameOver && winningTeam == None
    {
      teamAName, teamBName := DefaultTeamAName, DefaultTeamBName;
      winningScore := DefaultWinningScore;
      rounds := [];
      isGameOver, winningTeam := false, None;
    }

    /** Renames one team; any string is accepted. */
    method SetTeamName(t: TeamId, name: string)
      requires Valid()
      modifies this
      ensures Valid()
      ensures t == A ==> teamAName == name && teamBName == old(teamBName)
      ensures t == B ==> teamBName == name && teamAName == old(teamAName)
      ensures winningScore == old(winningScore) && rounds == old(rounds)
      ensures isGameOver == old(isGameOver) && winningTeam == old(winningTeam)
    {
      if t == A {
        teamAName := name;
      } else {
        teamBName := name;
      }
    }

    /** Replaces the threshold without re-evaluating whether the game is over. */
    method SetWinningScore(score: int)
      requires Valid()
      modifies this
      ensures Valid()
      ensures winningScore == score
      ensures teamAName == old(teamAName) && teamBName == old(teamBName) && rounds == old(rounds)
      ensures isGameOver == old(isGameOver) && winningTeam == old(winningTeam)
    {
      winningScore := score;
    }

    /** Adjusts the raw points by the calls, appends the round with the next
        id, recomputes both totals from the whole history and decides whether
        the game is over, team A first. */
    method AddRound(rawA: int, rawB: int, calls: seq<Call>)
      requires Valid()
      modifies this
      ensures Valid()
      ensures rounds == old(rounds)
                        + [Round(|old(rounds)| + 1, Adjusted(rawA, calls, A), Adjusted(rawB, calls, B), calls)]
      ensures TeamTotal(rounds, A) == TeamTotal(old(rounds), A) + Adjusted(rawA, calls, A)
      ensures TeamTotal(rounds, B) == TeamTotal(old(rounds), B) + Adjusted(rawB, calls, B)
      ensures winningTeam == Some(A) <==> TeamTotal(rounds, A) >= winningScore
      ensures winningTeam == Some(B) <==> TeamTotal(rounds, A) < winningScore <= TeamTotal(rounds, B)
      ensures isGameOver <==> TeamTotal(rounds, A) >= winningScore || TeamTotal(rounds, B) >= winningScore
      ensures teamAName == old(teamAName) && teamBName == old(teamBName)
      ensures winningScore == old(winningScore)
    {
      var adjA, adjB := AdjustPoints(rawA, rawB, calls);
      var newRound := Round(|rounds| + 1, adjA, adjB, calls);
      var newRounds := rounds + [newRound];
      LastRoundTotal(rounds, newRound, A);
      LastRoundTotal(rounds, newRound, B);
      var teamATotal := TeamTotal(newRounds, A);
      var teamBTotal := TeamTotal(newRounds, B);
      var over := false;
      var winner: Option<TeamId> := None;
      if teamATotal >= winningScore {
        over, winner := true, Some(A);
      } else if teamBTotal >= winningScore {
        over, winner := true, Some(B);
      }
      rounds, isGameOver, winningTeam := newRounds, over, winner;
    }

    /** Removes the last round, if there is one, and then always clears the
        game-over state, even when an earlier round had already reached the
        winning score. */
    method UndoLastRound()
      requires Valid()
      modifies this
      ensures Valid()
      ensures old(rounds) == [] ==>
        rounds == [] && isGameOver == old(isGameOver) && winningTeam == old(winningTeam)
      ensures old(rounds) != [] ==>
        rounds == old(rounds)[..|old(rounds)| - 1] && !isGameOver && winningTeam == None
      ensures old(rounds) != [] ==> forall t: TeamId ::
        TeamTotal(rounds, t) == TeamTotal(old(rounds), t) - Points(old(rounds)[|old(rounds)| - 1], t)
      ensures teamAName == old(teamAName) && teamBName == old(teamBName)
      ensures winningScore == old(winningScore)
    {
      if |rounds| == 0 {
        return;
      }
      rounds := rounds[..|rounds| - 1];
      isGameOver, winningTeam := false, None;
    }

    /** Back to the default names, the default winning score and no rounds. */
    method ResetGame()
      requires Valid()
      modifies this
      ensures Valid()
      ensures teamAName == DefaultTeamAName && teamBName == DefaultTeamBName
      ensures winningScore == DefaultWinningScore
      ensures rounds == [] && !isGameOver && winningTeam == None
    {
      teamAName, teamBName := DefaultTeamAName, DefaultTeamBName;
      winningScore := DefaultWinningScore;
      rounds := [];
      isGameOver, winningTeam := false, None;
    }

    /** Clears the rounds and the game-over state, keeping the team names and
        the winning score. */
    method StartNewGame()
      requires Valid()
      modifies this
      ensures Valid()
      ensures rounds == [] && !isGameOver && winningTeam == None
      ensures teamAName == old(teamAName) && teamBName == old(teamBName)
      ensures winningScore == old(winningScore)
    {
      rounds := [];
      isGameOver, winningTeam := false, None;
    }

    /** Team `t`'s total: the sum of its adjusted points over all stored rounds. */
    function GetTotalScore(t: TeamId): (total: int)
      reads this
      ensures rounds == [] ==> total == 0
      ensures forall k :: 0 <= k <= |rounds| ==>
        total == TeamTotal(rounds[..k], t) + TeamTotal(rounds[k..], t)
    {
      SplitTotals(rounds, t);
      TeamTotal(rounds, t)
    }
  }

  /** A total is the sum of the totals of any prefix and the matching suffix. */
  lemma SplitTotals(rounds: seq<Round>, t: TeamId)
    ensures forall k :: 0 <= k <= |rounds| ==>
      TeamTotal(rounds, t) == TeamTotal(rounds[..k], t) + TeamTotal(rounds[k..], t)
  {
    forall k | 0 <= k <= |rounds|
      ensures TeamTotal(rounds, t) == TeamTotal(rounds[..k], t) + TeamTotal(rounds[k..], t)
    {
      assert rounds == rounds[..k] + rounds[k..];
      TeamTotalConcat(rounds[..k], rounds[k..], t);
    }
  }

  /** Undoing the last round and adding it again with the raw points and calls
      it was made from gives back the same history: the round gets the id of
      the slot it occupies again. */
  method UndoThenReplay(g: GameStore, rawA: int, rawB: int, calls: seq<Call>)
    requires g.Valid()
    requires |g.rounds| > 0
    requires g.rounds[|g.rounds| - 1]
             == Round(|g.rounds|, Adjusted(rawA, calls, A), Adjusted(rawB, calls, B), calls)
    modifies g
    ensures g.Valid()
    ensures g.rounds == old(g.rounds)
    ensures g.winningTeam == Some(A) <==> TeamTotal(g.rounds, A) >= g.winningScore
    ensures g.winningTeam == Some(B) <==> TeamTotal(g.rounds, A) < g.winningScore <= TeamTotal(g.rounds, B)
  {
    g.UndoLastRound();
    g.AddRound(rawA, rawB, calls);
  }

}
