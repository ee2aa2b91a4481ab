/**
 Which guesses are right, which operations are accepted, and when: what the transitions of `GameStore` do, said of the
 plan, the clock and the recorded guesses.
 */
module GameAnswers {
  import opened Options
  import opened GameStore
  import G = GameInvariant
  import H = GameHistory
  import S = GameSystem

  // --------------------------------------------------------------------
  // Right guesses, in every state of every run
  // --------------------------------------------------------------------

  /** The choice of that id: the first, should ids ever repeat. */
  predicate IsChoice(choices: seq<Choice>, i: int, choiceId: Id) {
    && 0 <= i < |choices| && choices[i].choiceId == choiceId
    && forall j | 0 <= j < i :: choices[j].choiceId != choiceId
  }

  /** The round offers the users of its plan, in the plan's order. */
  predicate OffersPlan(g: Game, r: Round) {
    && 1 <= r.order <= |g.plan| && |r.choices| == |g.plan[r.order - 1].choiceUserIds|
    && forall i | 0 <= i < |r.choices| :: r.choices[i].userId == g.plan[r.order - 1].choiceUserIds[i]
  }

  ghost predicate Chose(r: Round, choiceId: Id, userId: Id) {
    exists i :: IsChoice(r.choices, i, choiceId) && r.choices[i].userId == userId
  }

  ghost predicate Offers(r: Round, choiceId: Id) {
    exists i :: IsChoice(r.choices, i, choiceId)
  }

  ghost predicate GuessRight(r: Round, k: GuessKey, guess: Guess) {
    Offers(r, k.choiceId) && (guess.isCorrect <==> Chose(r, k.choiceId, r.target))
  }

  ghost predicate RoundRight(games: map<Id, Game>, r: Round) {
    r.gameId in games && OffersPlan(games[r.gameId], r)
  }

  ghost predicate GuessKnown(rounds: map<Id, Round>, k: GuessKey, guess: Guess) {
    k.roundId in rounds && GuessRight(rounds[k.roundId], k, guess)
  }

  ghost predicate AnswersOk(st: Store) {
    && (forall id | id in st.rounds :: RoundRight(st.games, st.rounds[id]))
    && (forall k | k in st.guesses :: GuessKnown(st.rounds, k, st.guesses[k]))
  }

  lemma {:induction false} FindChoiceFinds(choices: seq<Choice>, choiceId: Id)
    ensures match FindChoice(choices, choiceId)
      case None => forall i :: !IsChoice(choices, i, choiceId)
      case Some(c) => exists i :: IsChoice(choices, i, choiceId) && choices[i] == c
  {
    if choices != [] {
      if choices[0].choiceId == choiceId {
        assert IsChoice(choices, 0, choiceId);
      } else {
        FindChoiceFinds(choices[1..], choiceId);
        match FindChoice(choices[1..], choiceId)
        case None =>
          forall i ensures !IsChoice(choices, i, choiceId) {
            if IsChoice(choices, i, choiceId) {
              assert IsChoice(choices[1..], i - 1, choiceId);
            }
          }
        case Some(c) =>
          var i :| IsChoice(choices[1..], i, choiceId) && choices[1..][i] == c;
          assert IsChoice(choices, i + 1, choiceId);
      }
    }
  }

  lemma OneChoice(choices: seq<Choice>, i: int, j: int, choiceId: Id)
    requires IsChoice(choices, i, choiceId) && IsChoice(choices, j, choiceId)
    ensures i == j
  {
  }

  /** What is there stays right; only what is new has to be looked at. */
  lemma AnswersStay(st: Store, st': Store)
    requires AnswersOk(st) && H.Kept(st, st')
    requires forall id | id in st'.rounds && id !in st.rounds :: RoundRight(st'.games, st'.rounds[id])
    requires forall k | k in st'.guesses && k !in st.guesses :: GuessKnown(st'.rounds, k, st'.guesses[k])
    ensures AnswersOk(st')
  {
    forall id | id in st'.rounds ensures RoundRight(st'.games, st'.rounds[id]) {
      if id in st.rounds {
        assert RoundRight(st.games, st.rounds[id]) && H.KeptRound(st.rounds[id], st'.rounds[id]);
        assert H.KeptGame(st.games[st.rounds[id].gameId], st'.games[st.rounds[id].gameId]);
      }
    }
    forall k | k in st'.guesses ensures GuessKnown(st'.rounds, k, st'.guesses[k]) {
      if k in st.guesses {
        assert GuessKnown(st.rounds, k, st.guesses[k]) && H.KeptRound(st.rounds[k.roundId], st'.rounds[k.roundId]);
      }
    }
  }

  predicate NothingNew(st: Store, st': Store) {
    st'.guesses == st.guesses && st'.rounds.Keys == st.rounds.Keys
  }

  lemma RecordedIsRight(st: Store, k: GuessKey, choice: Choice)
    requires k.roundId in st.rounds && st.rounds[k.roundId].gameId in st.games
    requires FindChoice(st.rounds[k.roundId].choices, k.choiceId) == Some(choice)
    ensures var r := st.rounds[k.roundId]; var st' := RecordGuess(st, k, choice.userId == r.target).0;
      && st'.rounds.Keys == st.rounds.Keys && st'.guesses.Keys == st.guesses.Keys + {k}
      && st'.rounds[k.roundId].choices == r.choices && st'.rounds[k.roundId].target == r.target
      && GuessKnown(st'.rounds, k, st'.guesses[k])
  {
    var r := st.rounds[k.roundId];
    FindChoiceFinds(r.choices, k.choiceId);
    var i :| IsChoice(r.choices, i, k.choiceId) && r.choices[i] == choice;
    forall j | IsChoice(r.choices, j, k.choiceId) ensures j == i {
      OneChoice(r.choices, i, j, k.choiceId);
    }
  }

  lemma GuessKeepsAnswers(st: Store, gid: Id, id: Id, session: Id, choiceId: Id, now: int)
    requires G.Inv(st) && AnswersOk(st)
    ensures AnswersOk(SubmitGuess(st, gid, id, session, choiceId, now).0)
  {
    var st' := SubmitGuess(st, gid, id, session, choiceId, now).0;
    H.SubmitGuessIsKept(st, gid, id, session, choiceId, now);
    var k := GuessKey(id, session, choiceId);
    if FindRound(st, gid, id, session) == Ok && k !in st.guesses {
      var st0 := ExpireIfNeeded(st, id, now);
      var choice := FindChoice(st0.rounds[id].choices, choiceId);
      if st0.rounds[id].status == Active && choice.Some? {
        RecordedIsRight(st0, k, choice.value);
      }
    }
    AnswersStay(st, st');
  }

  lemma BeginKeepsAnswers(st: Store, op: S.Op, token: Id)
    requires G.Inv(st) && AnswersOk(st)
    ensures AnswersOk(S.Begin(st, op, token).0)
  {
    match op
    case GetCurrentRound(_, _, _) =>
    case RevealHint(gid, id, session, now) =>
      HintIsNothingNew(st, gid, id, session, now);
      S.BeginIsKept(st, op, token);
      AnswersStay(st, S.Begin(st, op, token).0);
    case Guessing(gid, id, session, choiceId, now) => GuessKeepsAnswers(st, gid, id, session, choiceId, now);
    case AdvanceToNextRound(gid, session, now) =>
      AdvanceIsNothingNew(st, gid, session, now, token);
      S.BeginIsKept(st, op, token);
      AnswersStay(st, S.Begin(st, op, token).0);
  }

  lemma HintIsNothingNew(st: Store, gid: Id, id: Id, session: Id, now: int)
    ensures NothingNew(st, RevealNextHint(st, gid, id, session, now).0)
  {
  }

  lemma AdvanceIsNothingNew(st: Store, gid: Id, session: Id, now: int, token: Id)
    ensures NothingNew(st, BeginAdvance(st, gid, session, now, token).0)
  {
  }

  lemma ArrivedKeepsAnswers(s: S.System, s': S.System, i: int, id: Id, choiceIds: seq<Id>)
    requires S.Inv(s) && AnswersOk(s.store) && S.ContentArrived(s, s', i, id, choiceIds)
    ensures AnswersOk(s'.store)
  {
    S.ContentArrivedIsKept(s, s', i, id, choiceIds);
    AnswersStay(s.store, s'.store);
  }

  lemma StepKeepsAnswers(s: S.System, s': S.System)
    requires S.Inv(s) && AnswersOk(s.store) && S.Step(s, s')
    ensures AnswersOk(s'.store)
  {
    if S.OpenGame(s, s') {
      OpenedKeepsAnswers(s, s');
    } else if i, token :| S.BeginCall(s, s', i, token) {
      BeginKeepsAnswers(s.store, s.calls[i].op, token);
    } else if i, id, choiceIds :| S.ContentArrived(s, s', i, id, choiceIds) {
      ArrivedKeepsAnswers(s, s', i, id, choiceIds);
    } else if i :| S.RoundReady(s, s', i) {
      ReadyKeepsAnswers(s, s', i);
    } else {
      assert s'.store == s.store;
    }
  }

  lemma OpenedKeepsAnswers(s: S.System, s': S.System)
    requires S.Inv(s) && AnswersOk(s.store) && S.OpenGame(s, s')
    ensures AnswersOk(s'.store)
  {
    S.OpenGameKeepsInv(s, s');
    AnswersStay(s.store, s'.store);
  }

  lemma ReadyKeepsAnswers(s: S.System, s': S.System, i: int)
    requires AnswersOk(s.store) && S.RoundReady(s, s', i)
    ensures AnswersOk(s'.store)
  {
    S.RoundReadyIsKept(s, s', i);
    assert NothingNew(s.store, s'.store);
    AnswersStay(s.store, s'.store);
  }

  lemma {:induction false} RunKeepsAnswers(run: seq<S.System>, i: nat)
    requires S.IsRun(run) && i < |run|
    ensures AnswersOk(run[i].store)
    decreases i
  {
    if i > 0 {
      RunKeepsAnswers(run, i - 1);
      RunStepKeepsAnswers(run, i);
    }
  }

  lemma RunStepKeepsAnswers(run: seq<S.System>, i: nat)
    requires S.IsRun(run) && 0 < i < |run| && AnswersOk(run[i - 1].store)
    ensures AnswersOk(run[i].store)
  {
    S.RunKeepsInv(run, i - 1);
    StepKeepsAnswers(run[i - 1], run[i]);
  }

  /**
   In every state of every run: a recorded guess is of a choice the round offers, each choice is the user the plan has
   in its place, and the guess is correct exactly when that user is the plan's target.
   */
  lemma CorrectIffTargetChosen(run: seq<S.System>, i: nat, k: GuessKey) returns (j: int)
    requires S.IsRun(run) && i < |run| && k in run[i].store.guesses
    ensures k.roundId in run[i].store.rounds && run[i].store.rounds[k.roundId].gameId in run[i].store.games
    ensures var st := run[i].store; var r := st.rounds[k.roundId]; var g := st.games[r.gameId];
      && OffersPlan(g, r) && IsChoice(r.choices, j, k.choiceId)
      && (st.guesses[k].isCorrect <==> g.plan[r.order - 1].choiceUserIds[j] == g.plan[r.order - 1].target)
  {
    S.RunKeepsInv(run, i);
    RunKeepsAnswers(run, i);
    var st := run[i].store;
    assert GuessKnown(st.rounds, k, st.guesses[k]);
    var r := st.rounds[k.roundId];
    assert RoundRight(st.games, r) && G.HasGame(st, r);
    j :| IsChoice(r.choices, j, k.choiceId);
    forall l | IsChoice(r.choices, l, k.choiceId) ensures l == j {
      OneChoice(r.choices, j, l, k.choiceId);
    }
  }

  /** Some guess on the round chose that user. */
  ghost predicate SomeoneChose(guesses: map<GuessKey, Guess>, id: Id, r: Round, userId: Id) {
    exists k | k in guesses && k.roundId == id :: Chose(r, k.choiceId, userId)
  }

  lemma CorrectIffSomeoneChose(rounds: map<Id, Round>, guesses: map<GuessKey, Guess>, id: Id)
    requires id in rounds && forall k | k in guesses :: GuessKnown(rounds, k, guesses[k])
    ensures G.HasCorrect(guesses, id) <==> SomeoneChose(guesses, id, rounds[id], rounds[id].target)
  {
    var r := rounds[id];
    if G.HasCorrect(guesses, id) {
      var k :| k in GuessesOf(guesses, id) && guesses[k].isCorrect;
      assert GuessKnown(rounds, k, guesses[k]) && Chose(r, k.choiceId, r.target);
    }
    if SomeoneChose(guesses, id, r, r.target) {
      var k :| k in guesses && k.roundId == id && Chose(r, k.choiceId, r.target);
      assert GuessKnown(rounds, k, guesses[k]) && k in GuessesOf(guesses, id);
    }
  }

  /** In every state of every run: a round is resolved correctly exactly when some guess on it chose the plan's target. */
  lemma ResolvedIffTargetChosen(run: seq<S.System>, i: nat, id: Id)
    requires S.IsRun(run) && i < |run| && id in run[i].store.rounds
    ensures var st := run[i].store; var r := st.rounds[id];
      && r.gameId in st.games && 1 <= r.order <= |st.games[r.gameId].plan|
      && (r.status == ResolvedCorrect
          <==> SomeoneChose(st.guesses, id, r, st.games[r.gameId].plan[r.order - 1].target))
  {
    S.RunKeepsInv(run, i);
    RunKeepsAnswers(run, i);
    ResolvedIffSomeoneChose(run[i].store, id);
  }

  lemma ResolvedIffSomeoneChose(st: Store, id: Id)
    requires G.RecordsOk(st) && G.AllGuessesOk(st) && AnswersOk(st) && id in st.rounds
    ensures var r := st.rounds[id];
      && r.gameId in st.games && 1 <= r.order <= |st.games[r.gameId].plan|
      && (r.status == ResolvedCorrect
          <==> SomeoneChose(st.guesses, id, r, st.games[r.gameId].plan[r.order - 1].target))
  {
    assert G.HasGame(st, st.rounds[id]) && G.GuessesOk(st.guesses, id, st.rounds[id]);
    CorrectIffSomeoneChose(st.rounds, st.guesses, id);
  }

  // --------------------------------------------------------------------
  // What is accepted, and when
  // --------------------------------------------------------------------

  /** The session's own round, in its own game. */
  predicate Owns(st: Store, gid: Id, id: Id, session: Id) {
    gid in st.games && st.games[gid].session == session && id in st.rounds && st.rounds[id].gameId == gid
  }

  /** The round still takes hints and guesses at that time. */
  predicate IsOpen(r: Round, now: int) {
    r.status == Active && now < r.expiresAt
  }

  /** The round, by the clock alone. */
  predicate ByClock(r: Round, r': Round, now: int) {
    r'.status == if r.status == Active && now >= r.expiresAt then Expired else r.status
  }

  predicate GameByClock(g: Game, g': Game, now: int) {
    g'.status == if g.status == InProgress && now >= g.expiresAt then Abandoned else g.status
  }

  /**
   A guess is accepted exactly on an own round, if it is there already, or the round is open and offers the choice.
   It is recorded exactly when it is accepted. An own round that is not open refuses it, whatever the choice.
   */
  lemma GuessAcceptedIff(st: Store, gid: Id, id: Id, session: Id, choiceId: Id, now: int)
    requires G.Inv(st)
    ensures var k := GuessKey(id, session, choiceId);
      var (st', outcome) := SubmitGuess(st, gid, id, session, choiceId, now);
      && (outcome == Ok <==>
            Owns(st, gid, id, session)
            && (k in st.guesses || (IsOpen(st.rounds[id], now) && Offers(st.rounds[id], choiceId))))
      && (outcome == RoundNotActive <==> Owns(st, gid, id, session) && k !in st.guesses && !IsOpen(st.rounds[id], now))
      && (outcome == InvalidChoice <==>
            Owns(st, gid, id, session) && k !in st.guesses && IsOpen(st.rounds[id], now) && !Offers(st.rounds[id], choiceId))
      && (outcome == GameNotFound <==> gid !in st.games)
      && (outcome == Forbidden <==> gid in st.games && st.games[gid].session != session)
      && (forall l :: l in st'.guesses <==> l in st.guesses || (l == k && outcome == Ok))
  {
    var k := GuessKey(id, session, choiceId);
    G.SubmitGuessKeepsInv(st, gid, id, session, choiceId, now);
    var (st', outcome) := SubmitGuess(st, gid, id, session, choiceId, now);
    if Owns(st, gid, id, session) && k !in st.guesses {
      var _, _ := NewGuess(st, gid, id, session, choiceId, now);
    } else {
      KnownOrForeignGuess(st, gid, id, session, choiceId, now);
    }
  }

  lemma KnownOrForeignGuess(st: Store, gid: Id, id: Id, session: Id, choiceId: Id, now: int)
    requires !Owns(st, gid, id, session) || GuessKey(id, session, choiceId) in st.guesses
    ensures var (st', outcome) := SubmitGuess(st, gid, id, session, choiceId, now);
      && st' == st && (outcome == Ok <==> Owns(st, gid, id, session))
      && (outcome == GameNotFound <==> gid !in st.games)
      && (outcome == Forbidden <==> gid in st.games && st.games[gid].session != session)
      && outcome != RoundNotActive && outcome != InvalidChoice
  {
  }

  /** A guess that is not there yet, on an own round. */
  lemma NewGuess(st: Store, gid: Id, id: Id, session: Id, choiceId: Id, now: int) returns (st': Store, outcome: Outcome)
    requires Owns(st, gid, id, session) && GuessKey(id, session, choiceId) !in st.guesses
    ensures (st', outcome) == SubmitGuess(st, gid, id, session, choiceId, now)
    ensures outcome == RoundNotActive <==> !IsOpen(st.rounds[id], now)
    ensures outcome == InvalidChoice <==> IsOpen(st.rounds[id], now) && !Offers(st.rounds[id], choiceId)
    ensures outcome == Ok || outcome == ScoreRangeError || outcome == RoundNotActive || outcome == InvalidChoice
    ensures forall l :: l in st'.guesses <==>
      l in st.guesses || (l == GuessKey(id, session, choiceId) && (outcome == Ok || outcome == ScoreRangeError))
    ensures gid in st'.games && GameByClock(st.games[gid], st'.games[gid], now) && id in st'.rounds
    ensures outcome == RoundNotActive || outcome == InvalidChoice ==>
      ByClock(st.rounds[id], st'.rounds[id], now) && st'.rounds[id].wrong == st.rounds[id].wrong
  {
    var (st1, outcome1) := SubmitGuess(st, gid, id, session, choiceId, now);
    st', outcome := st1, outcome1;
    FindChoiceFinds(st.rounds[id].choices, choiceId);
  }

  /** A new guess that is refused leaves the round to the clock; and the game is left to it always. */
  lemma RefusedGuessLeavesRound(st: Store, gid: Id, id: Id, session: Id, choiceId: Id, now: int)
    requires Owns(st, gid, id, session) && GuessKey(id, session, choiceId) !in st.guesses
    ensures var (st', outcome) := SubmitGuess(st, gid, id, session, choiceId, now);
      && gid in st'.games && GameByClock(st.games[gid], st'.games[gid], now) && id in st'.rounds
      && (outcome == RoundNotActive || outcome == InvalidChoice ==>
            ByClock(st.rounds[id], st'.rounds[id], now) && st'.rounds[id].wrong == st.rounds[id].wrong)
  {
    var st', outcome := NewGuess(st, gid, id, session, choiceId, now);
  }

  /** A hint is given exactly on an own open round; it shows one post more, unless all are shown. */
  lemma HintGivenIff(st: Store, gid: Id, id: Id, session: Id, now: int)
    requires G.Inv(st)
    ensures var (st', outcome) := RevealNextHint(st, gid, id, session, now);
      && (outcome == Ok <==> Owns(st, gid, id, session) && IsOpen(st.rounds[id], now))
      && (outcome == RoundNotActive <==> Owns(st, gid, id, session) && !IsOpen(st.rounds[id], now))
      && (Owns(st, gid, id, session) ==>
            var r, r' := st.rounds[id], st'.rounds[id];
            && ByClock(r, r', now) && GameByClock(st.games[gid], st'.games[gid], now)
            && r'.hints == if IsOpen(r, now) && r.hints < |r.posts| then r.hints + 1 else r.hints)
  {
  }

  /** The round at the game's current position is open. */
  ghost predicate IsPlaying(st: Store, gid: Id, now: int) {
    gid in st.games && exists id | id in st.rounds :: IsPlayed(st, gid, id, now)
  }

  predicate IsPlayed(st: Store, gid: Id, id: Id, now: int)
    requires gid in st.games && id in st.rounds
  {
    && st.rounds[id].gameId == gid && st.rounds[id].order == st.games[gid].currentRoundIndex + 1
    && IsOpen(st.rounds[id], now)
  }

  /**
   Advancing is refused exactly while the current round is open. Otherwise the position rises by one, and the game is
   completed, with the share token given, exactly when that leaves the last round behind.
   */
  lemma AdvanceMovesIff(st: Store, gid: Id, session: Id, now: int, token: Id)
    requires G.Inv(st) && gid in st.games && st.games[gid].session == session
    ensures var (st', rest) := BeginAdvance(st, gid, session, now, token);
      var g, g' := st.games[gid], st'.games[gid];
      && (rest == Return(RoundNotActive) <==> IsPlaying(st, gid, now))
      && (g'.currentRoundIndex == if IsPlaying(st, gid, now) then g.currentRoundIndex else g.currentRoundIndex + 1)
      && (!IsPlaying(st, gid, now) && g.currentRoundIndex + 1 >= g.totalRounds ==>
            g'.status == Completed && g'.shareToken == Some(token) && rest == Return(Ok))
      && (!IsPlaying(st, gid, now) && g.currentRoundIndex + 1 < g.totalRounds ==>
            g'.shareToken == g.shareToken && (g'.status == Completed <==> g.status == Completed) && !rest.Return?)
  {
    CurrentIsPlaying(st, gid, now);
    assert G.GameOk(st.games[gid]);
    ExpiryKeepsPlace(st, gid, now);
    if !IsPlaying(st, gid, now) {
      MovedOn(ExpireCurrentRound(st, gid, now), gid, token);
    }
  }

  lemma ExpiryKeepsPlace(st: Store, gid: Id, now: int)
    requires gid in st.games
    ensures gid in ExpireCurrentRound(st, gid, now).games
    ensures var g, g' := st.games[gid], ExpireCurrentRound(st, gid, now).games[gid];
      && g'.currentRoundIndex == g.currentRoundIndex && g'.totalRounds == g.totalRounds && g'.plan == g.plan
      && g'.shareToken == g.shareToken && (g'.status == Completed <==> g.status == Completed)
  {
  }

  lemma MovedOn(st: Store, gid: Id, token: Id)
    requires gid in st.games && st.games[gid].totalRounds == |st.games[gid].plan| && 0 <= st.games[gid].currentRoundIndex
    ensures var (st', rest) := MoveToNextRound(st, gid, token);
      && gid in st'.games
      && var g, g' := st.games[gid], st'.games[gid];
         && g'.currentRoundIndex == g.currentRoundIndex + 1
         && (g.currentRoundIndex + 1 >= g.totalRounds ==>
               g'.status == Completed && g'.shareToken == Some(token) && rest == Return(Ok))
         && (g.currentRoundIndex + 1 < g.totalRounds ==>
               g'.shareToken == g.shareToken && (g'.status == Completed <==> g.status == Completed) && !rest.Return?)
  {
  }

  lemma CurrentIsPlaying(st: Store, gid: Id, now: int)
    requires G.IndexOk(st) && gid in st.games
    ensures IsMidRound(ExpireCurrentRound(st, gid, now), gid) <==> IsPlaying(st, gid, now)
  {
    CurrentIsMidRound(st, gid, now);
    if HasCurrentRound(st, gid) {
      var id := st.slots[CurrentSlot(st, gid)];
      assert G.SlotOf(st.rounds[id]) == CurrentSlot(st, gid);
      assert IsPlayed(st, gid, id, now) <==> IsOpen(st.rounds[id], now);
    }
    if IsPlaying(st, gid, now) {
      var id :| id in st.rounds && IsPlayed(st, gid, id, now);
      assert G.SlotOf(st.rounds[id]) == CurrentSlot(st, gid);
    }
  }

  lemma CurrentIsMidRound(st: Store, gid: Id, now: int)
    requires gid in st.games
    ensures IsMidRound(ExpireCurrentRound(st, gid, now), gid)
       <==> HasCurrentRound(st, gid) && IsOpen(st.rounds[st.slots[CurrentSlot(st, gid)]], now)
  {
  }

  /** A round takes guesses for exactly two minutes from when it was created. */
  lemma RoundIsOpenForTwoMinutes(
      st: Store, gid: Id, order: int, id: Id, choiceIds: seq<Id>, created: int, session: Id, choiceId: Id, now: int)
    requires gid in st.games && 1 <= order <= |st.games[gid].plan| && id !in st.rounds
    requires |choiceIds| == |st.games[gid].plan[order - 1].choiceUserIds|
    requires G.Inv(FinishMaterialize(st, gid, order, id, choiceIds, created))
    requires G.Inv(st) && st.games[gid].session == session && choiceId in choiceIds
    ensures var st' := FinishMaterialize(st, gid, order, id, choiceIds, created);
      SubmitGuess(st', gid, id, session, choiceId, now).1 == Ok <==> now < created + 2 * 60 * 1000
  {
    var st' := FinishMaterialize(st, gid, order, id, choiceIds, created);
    GuessAcceptedIff(st', gid, id, session, choiceId, now);
    var i := FirstAt(choiceIds, choiceId);
    assert IsChoice(st'.rounds[id].choices, i, choiceId);
  }

  lemma {:induction false} FirstAt(ids: seq<Id>, choiceId: Id) returns (i: int)
    requires choiceId in ids
    ensures 0 <= i < |ids| && ids[i] == choiceId && forall j | 0 <= j < i :: ids[j] != choiceId
    decreases |ids|
  {
    i := 0;
    if ids[0] != choiceId {
      i := FirstAt(ids[1..], choiceId);
      i := i + 1;
    }
  }

  /** A game is left in progress for exactly a day from when it was opened. */
  lemma GameIsOpenForADay(
      st: Store, gid: Id, session: Id, plan: seq<PlanEntry>, start: int, id: Id, r: Round, now: int)
    requires r.gameId == gid
    ensures var st0 := CreateGame(st, gid, session, plan, start);
      var st' := ExpireIfNeeded(st0.(rounds := st0.rounds[id := r]), id, now);
      st'.games[gid].status == if now < start + 24 * 60 * 60 * 1000 then InProgress else Abandoned
  {
  }
}
