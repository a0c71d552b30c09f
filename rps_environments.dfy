/**
 * Rock-paper-scissors engines: one round (`rps_engine`) and a best-of-N match
 * built on it (`multi_rps_engine`), from gearbox_py/rps/environments.py.
 */
module RpsEnvironments {
  import opened Wrappers
  import opened Environments

  /** `RPS_Action`: the move token each player typed. */
  datatype RpsAction = RpsAction(p1: string, p2: string)

  /** `RPS_state`: the match length and each player's count of won rounds. */
  datatype RpsState = RpsState(bestOf: int, p1Win: int, p2Win: int)

  /** `RPS_state(best_of)`: a match with no rounds won yet (the counters default to 0). */
  function NewMatch(bestOf: int): RpsState
  {
    RpsState(bestOf, 0, 0)
  }

  /** Who won: 0 for nobody (a draw), 1 for the first player, 2 for the second. */
  type Winner = w: int | 0 <= w <= 2

  /** The `info` of a single round: `{'winner': winner}`. */
  datatype RoundInfo = RoundInfo(winner: Winner)

  /** The `info` of a match step: `{'winner': ..., 'round_winner': ...}`. */
  datatype MatchInfo = MatchInfo(winner: Winner, roundWinner: Winner)

  datatype Move = Rock | Paper | Scissors

  /** The token a player types for a move. */
  function Name(m: Move): string
  {
    match m
    case Rock => "rock"
    case Paper => "paper"
    case Scissors => "scissors"
  }

  /** The key of `values` a token names, if any (`values.get` answering `None` otherwise). */
  function ParseMove(token: string): Option<Move>
  {
    if token == "rock" then Some(Rock)
    else if token == "paper" then Some(Paper)
    else if token == "scissors" then Some(Scissors)
    else None
  }

  /** The numbers `values` gives the moves: distinct powers of two, so that a sum of two of them names the pair. */
  function Code(m: Move): int
  {
    match m
    case Rock => 1
    case Paper => 2
    case Scissors => 4
  }

  /** The rule of the game, independent of the encoding: rock beats scissors, scissors beats paper, paper beats rock. */
  predicate Beats(m1: Move, m2: Move)
  {
    (m1 == Rock && m2 == Scissors) || (m1 == Scissors && m2 == Paper) || (m1 == Paper && m2 == Rock)
  }

  /**
   * The winner of one round, decided as the source does on the encoded moves:
   * a sum identifies an unordered pair of distinct moves, and the first player
   * wins when holding the stronger move of that pair. The last test,
   * `p1 == p2`, always holds when it is reached, so the fall-through where
   * `winner` stays unbound cannot happen; the model asserts it and skips it.
   */
  function RoundWinner(m1: Move, m2: Move): Winner
  {
    var p1, p2 := Code(m1), Code(m2);
    if p1 + p2 == Code(Rock) + Code(Paper) then (if p1 == Code(Paper) then 1 else 2)
    else if p1 + p2 == Code(Paper) + Code(Scissors) then (if p1 == Code(Scissors) then 1 else 2)
    else if p1 + p2 == Code(Scissors) + Code(Rock) then (if p1 == Code(Rock) then 1 else 2)
    else assert p1 == p2; 0
  }

  /** The per-player reward of a round: nothing on a draw, +1 to the winner and -1 to the loser otherwise. */
  function RoundReward(w: Winner): Reward
  {
    if w == 0 then PerAgent([0, 0])
    else if w == 1 then PerAgent([1, -1])
    else PerAgent([-1, 1])
  }

  /**
   * `rps_engine`: one round. The first player's token is checked first, then
   * the second's; the state is ignored and the outcome's state is `None`
   * (here the unit value), with `done` always set.
   */
  function RpsEngine(state: (), action: RpsAction): Result<Outcome<(), RoundInfo>, EngineError>
  {
    match ParseMove(action.p1)
    case None => Failure(InvalidAction(action.p1))
    case Some(m1) =>
      match ParseMove(action.p2)
      case None => Failure(InvalidAction(action.p2))
      case Some(m2) =>
        var winner := RoundWinner(m1, m2);
        Success(Outcome((), RoundReward(winner), true, RoundInfo(winner)))
  }

  /** The match state after a round: the round winner's counter goes up by one; a draw changes nothing. */
  function Tally(state: RpsState, roundWinner: Winner): RpsState
  {
    if roundWinner == 1 then state.(p1Win := state.p1Win + 1)
    else if roundWinner == 2 then state.(p2Win := state.p2Win + 1)
    else state
  }

  /** One of the players has won more than half of a best-of-`bestOf` match (`best_of // 2` floors, as `/` does here for a positive divisor). */
  predicate HasMajority(state: RpsState, bestOf: int)
  {
    state.p1Win > bestOf / 2 || state.p2Win > bestOf / 2
  }

  /**
   * `multi_rps_engine`: plays one round and tallies it. The match ends when a
   * player has a majority (that player's round reward becomes the reward and
   * they are the winner) or when the decisive rounds add up to `best_of` (a
   * drawn match); otherwise the reward is zero and there is no winner yet.
   * An invalid move fails the whole step.
   */
  function MultiRpsEngine(state: RpsState, action: RpsAction): Result<Outcome<RpsState, MatchInfo>, EngineError>
  {
    match RpsEngine((), action)
    case Failure(e) => Failure(e)
    case Success(round) =>
      var w := round.info.winner;
      var next := Tally(state, w);
      if HasMajority(next, state.bestOf) then
        Success(Outcome(next, round.reward, true, MatchInfo(w, w)))
      else
        Success(Outcome(next, PerAgent([0, 0]), next.p1Win + next.p2Win == state.bestOf, MatchInfo(0, w)))
  }

  /**
   * `multi_rps_engine` statement by statement: copy the state, set up the
   * default reward, done flag and info, increment the round winner's counter
   * on the copy, then settle the ending.
   */
  method MultiRpsEngineStep(state: RpsState, action: RpsAction) returns (r: Result<Outcome<RpsState, MatchInfo>, EngineError>)
    ensures r == MultiRpsEngine(state, action)
  {
    var outcome := RpsEngine((), action);
    if outcome.Failure? {
      return Failure(outcome.error);
    }
    var roundWinner := outcome.value.info.winner;
    var newState := state;
    var newReward := PerAgent([0, 0]);
    var newDone := false;
    var newInfo := MatchInfo(0, roundWinner);
    if roundWinner == 1 {
      newState := newState.(p1Win := newState.p1Win + 1);
    } else if roundWinner == 2 {
      newState := newState.(p2Win := newState.p2Win + 1);
    }
    if newState.p1Win > state.bestOf / 2 || newState.p2Win > state.bestOf / 2 {
      newReward := outcome.value.reward;
      newInfo := newInfo.(winner := roundWinner);
      newDone := true;
    } else if newState.p1Win + newState.p2Win == state.bestOf {
      newDone := true;
    }
    r := Success(Outcome(newState, newReward, newDone, newInfo));
  }

  // ---------------------------------------------------------------------------
  // Moves and their encoding
  // ---------------------------------------------------------------------------

  /** Every move's name is accepted and parses to that move. */
  lemma ParseMoveName(m: Move)
    ensures ParseMove(Name(m)) == Some(m)
  {
  }

  /** A token is accepted only when it is the name of the move it parses to. */
  lemma ParseMoveOnlyNames(token: string)
    ensures ParseMove(token).Some? ==> Name(ParseMove(token).value) == token
  {
  }

  /** Why the encoding works: the sum of two codes determines the pair of moves, whatever the order. */
  lemma CodeSumDeterminesPair(a: Move, b: Move, c: Move, d: Move)
    requires Code(a) + Code(b) == Code(c) + Code(d)
    ensures multiset{a, b} == multiset{c, d}
  {
    match a
    case Rock =>
    case Paper =>
    case Scissors =>
  }

  // ---------------------------------------------------------------------------
  // A single round
  // ---------------------------------------------------------------------------

  /** The encoded case analysis agrees with the rule of the game, in every direction. */
  lemma RoundWinnerRule(m1: Move, m2: Move)
    ensures RoundWinner(m1, m2) == 1 <==> Beats(m1, m2)
    ensures RoundWinner(m1, m2) == 2 <==> Beats(m2, m1)
    ensures RoundWinner(m1, m2) == 0 <==> m1 == m2
  {
  }

  /** Exchanging the players exchanges winners 1 and 2 and keeps a draw a draw. */
  lemma RoundWinnerSwap(m1: Move, m2: Move)
    ensures RoundWinner(m2, m1) == (if RoundWinner(m1, m2) == 0 then 0 else 3 - RoundWinner(m1, m2))
  {
    RoundWinnerRule(m1, m2);
    RoundWinnerRule(m2, m1);
  }

  /** A round's reward gives each of the two players one entry, and the entries cancel out. */
  lemma RoundRewardZeroSum(w: Winner)
    ensures RoundReward(w).PerAgent? && |RoundReward(w).values| == 2
    ensures RoundReward(w).values[0] + RoundReward(w).values[1] == 0
    ensures RoundReward(w).values[0] == (if w == 1 then 1 else if w == 2 then -1 else 0)
  {
  }

  /** `rps_engine` rejects an invalid first token, then an invalid second token, and otherwise succeeds. */
  lemma RpsEngineValidation(state: (), action: RpsAction)
    ensures RpsEngine(state, action).Failure? <==> ParseMove(action.p1).None? || ParseMove(action.p2).None?
    ensures ParseMove(action.p1).None? ==> RpsEngine(state, action) == Failure(InvalidAction(action.p1))
    ensures ParseMove(action.p1).Some? && ParseMove(action.p2).None? ==>
      RpsEngine(state, action) == Failure(InvalidAction(action.p2))
  {
  }

  /** On two valid moves `rps_engine` ends the round, names its winner and pays the matching zero-sum reward. */
  lemma RpsEngineRound(state: (), m1: Move, m2: Move)
    ensures var r := RpsEngine(state, RpsAction(Name(m1), Name(m2)));
      && r.Success?
      && r.value.done
      && (r.value.info.winner == 1 <==> Beats(m1, m2))
      && (r.value.info.winner == 2 <==> Beats(m2, m1))
      && (r.value.info.winner == 0 <==> m1 == m2)
      && r.value.reward == RoundReward(r.value.info.winner)
  {
    ParseMoveName(m1);
    ParseMoveName(m2);
    RoundWinnerRule(m1, m2);
  }

  /** An unknown token is refused; paper beats rock. */
  lemma RpsEngineExamples()
    ensures RpsEngine((), RpsAction("lizard", "rock")) == Failure(InvalidAction("lizard"))
    ensures RpsEngine((), RpsAction("rock", "paper")) == Success(Outcome((), PerAgent([-1, 1]), true, RoundInfo(2)))
  {
  }

  // ---------------------------------------------------------------------------
  // A best-of-N match
  // ---------------------------------------------------------------------------

  /** An invalid move fails the match step with the very error of the round, and only an invalid move does. */
  lemma MultiRpsPropagatesInvalid(state: RpsState, action: RpsAction)
    ensures MultiRpsEngine(state, action).Failure? <==> RpsEngine((), action).Failure?
    ensures MultiRpsEngine(state, action).Failure? ==> MultiRpsEngine(state, action).error == RpsEngine((), action).error
  {
  }

  /**
   * A match step keeps the match length and adds exactly one to the round
   * winner's counter, or nothing on a draw; the round winner is reported.
   */
  lemma MultiRpsTally(state: RpsState, action: RpsAction)
    requires RpsEngine((), action).Success?
    ensures var w := RpsEngine((), action).value.info.winner;
      var o := MultiRpsEngine(state, action).value;
      && MultiRpsEngine(state, action).Success?
      && o.state.bestOf == state.bestOf
      && o.state.p1Win == state.p1Win + (if w == 1 then 1 else 0)
      && o.state.p2Win == state.p2Win + (if w == 2 then 1 else 0)
      && o.info.roundWinner == w
  {
  }

  /**
   * How a match step ends: with a majority the round's winner and reward are
   * the match's and the match is over; without one there is no winner, no
   * reward, and the match is over exactly when the decisive rounds reach
   * `best_of`.
   */
  lemma MultiRpsVerdict(state: RpsState, action: RpsAction)
    requires MultiRpsEngine(state, action).Success?
    ensures var round := RpsEngine((), action).value;
      var o := MultiRpsEngine(state, action).value;
      && (HasMajority(o.state, state.bestOf) ==>
            o.done && o.info.winner == round.info.winner && o.reward == round.reward)
      && (!HasMajority(o.state, state.bestOf) ==>
            o.info.winner == 0 && o.reward == PerAgent([0, 0])
            && (o.done <==> o.state.p1Win + o.state.p2Win == state.bestOf))
  {
  }

  /** A drawn round leaves the match state exactly as it was: draws never bring the end closer. */
  lemma MultiRpsDrawChangesNothing(state: RpsState, action: RpsAction)
    requires RpsEngine((), action).Success? && RpsEngine((), action).value.info.winner == 0
    ensures MultiRpsEngine(state, action).Success?
    ensures MultiRpsEngine(state, action).value.state == state
    ensures MultiRpsEngine(state, action).value.done <==>
      HasMajority(state, state.bestOf) || state.p1Win + state.p2Win == state.bestOf
  {
  }

  /** A match still being played: nobody has a majority and the decisive rounds are short of `best_of`. */
  predicate InPlay(state: RpsState)
  {
    0 <= state.p1Win && 0 <= state.p2Win
    && !HasMajority(state, state.bestOf)
    && state.p1Win + state.p2Win < state.bestOf
  }

  /** The decisive rounds a match may still take at most. */
  function RoundsLeft(state: RpsState): int
  {
    state.bestOf - state.p1Win - state.p2Win
  }

  /**
   * A step from a match in play either ends it or leaves it in play; a
   * decisive round uses up one of the rounds left and a draw none, so a match
   * ends after at most `best_of` decisive rounds.
   */
  lemma MultiRpsKeepsInPlay(state: RpsState, action: RpsAction)
    requires InPlay(state)
    requires MultiRpsEngine(state, action).Success?
    ensures var o := MultiRpsEngine(state, action).value;
      && (!o.done ==> InPlay(o.state))
      && RoundsLeft(o.state) == RoundsLeft(state) - (if o.info.roundWinner == 0 then 0 else 1)
      && (RoundsLeft(state) == 1 && o.info.roundWinner != 0 ==> o.done)
  {
  }

  /**
   * From a match in play, a step that names a winner is the round that gave
   * that player a bare majority, while the other player has none.
   */
  lemma MultiRpsWinnerIsUnique(state: RpsState, action: RpsAction)
    requires InPlay(state)
    requires MultiRpsEngine(state, action).Success?
    ensures var o := MultiRpsEngine(state, action).value;
      && (o.info.winner == 1 ==> o.state.p1Win == state.bestOf / 2 + 1 && o.state.p2Win <= state.bestOf / 2)
      && (o.info.winner == 2 ==> o.state.p2Win == state.bestOf / 2 + 1 && o.state.p1Win <= state.bestOf / 2)
      && (o.info.winner != 0 ==> o.done && o.info.winner == o.info.roundWinner)
  {
  }

  /** A new best-of-N match with N at least one is in play. */
  lemma NewMatchInPlay(bestOf: int)
    requires bestOf >= 1
    ensures InPlay(NewMatch(bestOf))
  {
  }

  /** Best of three: the first player takes the match with the second of two won rounds; no third round is needed. */
  lemma BestOfThreeScenario()
    ensures var rs := RpsAction("rock", "scissors");
      var first := MultiRpsEngine(NewMatch(3), rs);
      && first == Success(Outcome(RpsState(3, 1, 0), PerAgent([0, 0]), false, MatchInfo(0, 1)))
      && MultiRpsEngine(first.value.state, rs) == Success(Outcome(RpsState(3, 2, 0), PerAgent([1, -1]), true, MatchInfo(1, 1)))
      && Replay(MultiRpsEngine, NewMatch(3), [rs, rs]) == Success(RpsState(3, 2, 0))
  {
    var rs := RpsAction("rock", "scissors");
    assert [rs, rs][1..] == [rs] && [rs][1..] == [];
    assert Replay(MultiRpsEngine, RpsState(3, 2, 0), []) == Success(RpsState(3, 2, 0));
  }

  /** Best of two: two drawn rounds count for nothing, so the match is not over and nobody has won. */
  lemma BestOfTwoDrawScenario()
    ensures var rr := RpsAction("rock", "rock");
      && MultiRpsEngine(NewMatch(2), rr) == Success(Outcome(NewMatch(2), PerAgent([0, 0]), false, MatchInfo(0, 0)))
      && Replay(MultiRpsEngine, NewMatch(2), [rr, rr]) == Success(NewMatch(2))
  {
    var rr := RpsAction("rock", "rock");
    assert [rr, rr][1..] == [rr] && [rr][1..] == [];
    assert Replay(MultiRpsEngine, NewMatch(2), []) == Success(NewMatch(2));
  }
}
