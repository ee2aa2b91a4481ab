/**
 The in-memory unit of work as the source writes it: maps of records that the
 operations update, one method per stretch of code between two awaits. Each is
 proved to be the transition of `GameStore` and to keep its invariant.
 */
module GameUnitOfWork {
  import opened Options
  import opened Scoring
  import opened GameStore
  import G = GameInvariant

  datatype DailyKey = DailyKey(challenge: Id, session: Id)

  class InMemoryGames {
    var games: map<Id, Game>
    var rounds: map<Id, Round>
    var roundIdByGameAndOrder: map<Slot, Id>
    var guesses: map<GuessKey, Guess>
    var dailyGameBySessionAndChallenge: map<DailyKey, Id>

    function State(): Store
      reads this
    {
      Store(games, rounds, roundIdByGameAndOrder, guesses)
    }

    constructor ()
      ensures State() == Store(map[], map[], map[], map[])
      ensures G.Inv(State())
    {
      games, rounds, roundIdByGameAndOrder, guesses := map[], map[], map[], map[];
      dailyGameBySessionAndChallenge := map[];
    }

    /** Every daily game is kept, and belongs to the session it was created for. */
    predicate DailyGamesOk()
      reads this
    {
      forall k | k in dailyGameBySessionAndChallenge ::
        dailyGameBySessionAndChallenge[k] in games && games[dailyGameBySessionAndChallenge[k]].session == k.session
    }

    /** A session has one game of a daily challenge: a second request finds the first one's. */
    method CreateOrResumeDailyGame(newId: Id, challenge: Id, session: Id, plan: seq<PlanEntry>, now: int)
      returns (gameId: Id, created: bool)
      requires newId !in games && DailyGamesOk()
      modifies this
      ensures DailyGamesOk() && DailyKey(challenge, session) in dailyGameBySessionAndChallenge
      ensures gameId == dailyGameBySessionAndChallenge[DailyKey(challenge, session)] && gameId in games
      ensures games[gameId].session == session && created == (DailyKey(challenge, session) !in old(dailyGameBySessionAndChallenge))
      ensures created ==>
        && gameId == newId && State() == CreateGame(old(State()), newId, session, plan, now)
        && dailyGameBySessionAndChallenge == old(dailyGameBySessionAndChallenge)[DailyKey(challenge, session) := newId]
      ensures !created ==>
        State() == old(State()) && dailyGameBySessionAndChallenge == old(dailyGameBySessionAndChallenge)
      ensures G.Inv(old(State())) && G.PlanOk(plan) ==> G.Inv(State())
    {
      var key := DailyKey(challenge, session);
      if key in dailyGameBySessionAndChallenge {
        return dailyGameBySessionAndChallenge[key], false;
      }
      if G.PlanOk(plan) && G.Inv(State()) {
        G.CreateGameKeepsInv(State(), newId, session, plan, now);
      }
      games := games[newId := Game(session, plan, |plan|, 0, 0, InProgress, None, now + GAME_EXPIRY_MS)];
      dailyGameBySessionAndChallenge := dailyGameBySessionAndChallenge[key := newId];
      gameId, created := newId, true;
    }

    method CreateFreeplayGame(gameId: Id, session: Id, plan: seq<PlanEntry>, now: int)
      requires gameId !in games
      modifies this
      ensures dailyGameBySessionAndChallenge == old(dailyGameBySessionAndChallenge)
      ensures State() == CreateGame(old(State()), gameId, session, plan, now)
      ensures G.Inv(old(State())) && G.PlanOk(plan) ==> G.Inv(State())
    {
      if G.PlanOk(plan) && G.Inv(State()) {
        G.CreateGameKeepsInv(State(), gameId, session, plan, now);
      }
      games := games[gameId := Game(session, plan, |plan|, 0, 0, InProgress, None, now + GAME_EXPIRY_MS)];
    }

    method FindOwned(gameId: Id, session: Id) returns (outcome: Outcome)
      ensures outcome == FindGame(State(), gameId, session)
    {
      if gameId !in games {
        return GameNotFound;
      }
      if games[gameId].session != session {
        return Forbidden;
      }
      return Ok;
    }

    method Expire(gameId: Id, roundId: Id, now: int)
      requires roundId in rounds && rounds[roundId].gameId == gameId && gameId in games
      modifies this
      ensures dailyGameBySessionAndChallenge == old(dailyGameBySessionAndChallenge)
      ensures State() == ExpireIfNeeded(old(State()), roundId, now)
      ensures G.Inv(old(State())) ==> G.Inv(State())
    {
      if G.Inv(State()) {
        G.ExpireKeepsInv(State(), roundId, now);
      }
      var game, round := games[gameId], rounds[roundId];
      if game.status == InProgress && now >= game.expiresAt {
        game := game.(status := Abandoned);
      }
      if round.status == Active && now >= round.expiresAt {
        round := round.(status := Expired, score := 0);
      }
      games, rounds := games[gameId := game], rounds[roundId := round];
    }

    method RevealNextHint(gameId: Id, roundId: Id, session: Id, now: int) returns (outcome: Outcome)
      modifies this
      ensures dailyGameBySessionAndChallenge == old(dailyGameBySessionAndChallenge)
      ensures (State(), outcome) == GameStore.RevealNextHint(old(State()), gameId, roundId, session, now)
      ensures G.Inv(old(State())) ==> G.Inv(State())
    {
      if G.Inv(State()) {
        G.RevealNextHintKeepsInv(State(), gameId, roundId, session, now);
      }
      outcome := FindOwned(gameId, session);
      if outcome != Ok {
        return;
      }
      if roundId !in rounds || rounds[roundId].gameId != gameId {
        return RoundNotFound;
      }
      Expire(gameId, roundId, now);
      if rounds[roundId].status != Active {
        return RoundNotActive;
      }
      var round := RevealPost(rounds[roundId]);
      rounds := rounds[roundId := round];
      games := games[gameId := games[gameId]];
      outcome := Ok;
    }

    static method RevealPost(before: Round) returns (round: Round)
      ensures round == RevealOne(before)
    {
      round := before;
      if round.hints < |round.posts| {
        var next := round.hints;
        round := round.(hints := round.hints + 1);
        if 0 <= next {
          round := round.(posts := round.posts[next := round.posts[next].(revealed := true)]);
        }
      }
    }

    method FindChoiceOf(choices: seq<Choice>, choiceId: Id) returns (choice: Option<Choice>)
      ensures choice == FindChoice(choices, choiceId)
      ensures choice.Some? ==> choice.value in choices && choice.value.choiceId == choiceId
      ensures choice.None? ==> forall c | c in choices :: c.choiceId != choiceId
    {
      for i := 0 to |choices|
        invariant FindChoice(choices, choiceId) == FindChoice(choices[i..], choiceId)
        invariant forall k | 0 <= k < i :: choices[k].choiceId != choiceId
      {
        if choices[i].choiceId == choiceId {
          return Some(choices[i]);
        }
        assert choices[i..][1..] == choices[i + 1..];
      }
      return None;
    }

    method SubmitGuess(gameId: Id, roundId: Id, session: Id, choiceId: Id, now: int) returns (outcome: Outcome)
      modifies this
      ensures dailyGameBySessionAndChallenge == old(dailyGameBySessionAndChallenge)
      ensures (State(), outcome) == GameStore.SubmitGuess(old(State()), gameId, roundId, session, choiceId, now)
      ensures G.Inv(old(State())) ==> G.Inv(State()) && outcome != ScoreRangeError
    {
      if G.Inv(State()) {
        G.SubmitGuessKeepsInv(State(), gameId, roundId, session, choiceId, now);
      }
      outcome := FindOwned(gameId, session);
      if outcome != Ok {
        return;
      }
      if roundId !in rounds || rounds[roundId].gameId != gameId {
        return RoundNotFound;
      }
      var guessKey := GuessKey(roundId, session, choiceId);
      if guessKey in guesses {
        return Ok;
      }
      Expire(gameId, roundId, now);
      if rounds[roundId].status != Active {
        return RoundNotActive;
      }
      var choice := FindChoiceOf(rounds[roundId].choices, choiceId);
      if choice.None? {
        return InvalidChoice;
      }
      outcome := StoreGuess(guessKey, choice.value.userId == rounds[roundId].target);
    }

    method StoreGuess(guessKey: GuessKey, isCorrect: bool) returns (outcome: Outcome)
      requires guessKey.roundId in rounds && rounds[guessKey.roundId].gameId in games
      modifies this
      ensures dailyGameBySessionAndChallenge == old(dailyGameBySessionAndChallenge)
      ensures (State(), outcome) == RecordGuess(old(State()), guessKey, isCorrect)
    {
      var roundId := guessKey.roundId;
      var round := rounds[roundId];
      var game := games[round.gameId];
      var attemptNumber := |set k | k in guesses && k.roundId == roundId| + 1;
      assert GuessesOf(guesses, roundId) == set k | k in guesses && k.roundId == roundId;
      guesses := guesses[guessKey := Guess(isCorrect, attemptNumber)];
      outcome := Ok;
      if isCorrect {
        round := round.(status := ResolvedCorrect);
        var available := NetScoreForRound(if round.hints < 1 then 1 else round.hints, round.wrong);
        if available.RangeError? {
          outcome := ScoreRangeError;
        } else {
          round := round.(score := available.points);
          game := game.(totalScore := game.totalScore + round.score);
        }
      } else {
        round := round.(wrong := round.wrong + 1);
        if IsRoundExhausted(round.wrong) {
          round := round.(status := ResolvedIncorrect, score := 0);
        }
      }
      rounds, games := rounds[roundId := round], games[round.gameId := game];
    }

    /** `advanceToNextRound` up to its await. */
    method BeginAdvance(gameId: Id, session: Id, now: int, shareToken: Id) returns (rest: Continuation)
      modifies this
      ensures dailyGameBySessionAndChallenge == old(dailyGameBySessionAndChallenge)
      ensures (State(), rest) == GameStore.BeginAdvance(old(State()), gameId, session, now, shareToken)
      ensures G.Inv(old(State())) ==> G.Inv(State())
    {
      if G.Inv(State()) {
        G.BeginAdvanceKeepsInv(State(), gameId, session, now, shareToken);
      }
      var found := FindOwned(gameId, session);
      if found != Ok {
        return Return(found);
      }
      var midRound := ExpireCurrent(gameId, now);
      if midRound {
        return Return(RoundNotActive);
      }
      rest := MoveToNext(gameId, shareToken);
    }

    /** Looks at the round of the current position, if there is one. */
    method ExpireCurrent(gameId: Id, now: int) returns (midRound: bool)
      requires gameId in games
      modifies this
      ensures dailyGameBySessionAndChallenge == old(dailyGameBySessionAndChallenge)
      ensures State() == ExpireCurrentRound(old(State()), gameId, now)
      ensures gameId in games && midRound == IsMidRound(State(), gameId)
    {
      midRound := false;
      var current := Slot(gameId, games[gameId].currentRoundIndex + 1);
      if current in roundIdByGameAndOrder && roundIdByGameAndOrder[current] in rounds
         && rounds[roundIdByGameAndOrder[current]].gameId == gameId {
        var roundId := roundIdByGameAndOrder[current];
        Expire(gameId, roundId, now);
        midRound := rounds[roundId].status == Active;
      }
    }

    method MoveToNext(gameId: Id, shareToken: Id) returns (rest: Continuation)
      requires gameId in games
      modifies this
      ensures dailyGameBySessionAndChallenge == old(dailyGameBySessionAndChallenge)
      ensures (State(), rest) == MoveToNextRound(old(State()), gameId, shareToken)
    {
      var game := games[gameId];
      game := game.(currentRoundIndex := game.currentRoundIndex + 1);
      if game.currentRoundIndex >= game.totalRounds {
        game := game.(status := Completed, shareToken := Some(shareToken));
        games := games[gameId := game];
        return Return(Ok);
      }
      games := games[gameId := game];
      rest := BeginMaterialize(gameId, game.currentRoundIndex + 1);
    }

    /** `materializeRound` up to its first await. */
    method BeginMaterialize(gameId: Id, order: int) returns (rest: Continuation)
      requires gameId in games
      ensures rest == LookForRound(State(), gameId, order)
    {
      var slot := Slot(gameId, order);
      if slot in roundIdByGameAndOrder {
        return Resume(roundIdByGameAndOrder[slot]);
      }
      if order < 1 || order > |games[gameId].plan| {
        return Return(RoundNotFound);
      }
      return Materialize(gameId, order);
    }

    /** The rest of `materializeRound`, once the content is there. */
    method FinishMaterialize(gameId: Id, order: int, roundId: Id, choiceIds: seq<Id>, now: int)
      requires gameId in games && 1 <= order <= |games[gameId].plan|
      requires |choiceIds| == |games[gameId].plan[order - 1].choiceUserIds|
      modifies this
      ensures dailyGameBySessionAndChallenge == old(dailyGameBySessionAndChallenge)
      ensures State() == GameStore.FinishMaterialize(old(State()), gameId, order, roundId, choiceIds, now)
    {
      var plan := games[gameId].plan[order - 1];
      var round := Round(gameId, order, plan.target, Active, 1, 0, 0, now + ROUND_EXPIRY_MS,
                         NewPosts(plan.postIds), NewChoices(choiceIds, plan.choiceUserIds));
      rounds := rounds[roundId := round];
      roundIdByGameAndOrder := roundIdByGameAndOrder[Slot(gameId, order) := roundId];
    }
  }
}
