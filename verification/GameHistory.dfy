/** What no transition of the game store ever undoes. */
module GameHistory {
  import opened Options
  import opened Scoring
  import opened GameStore
  import opened GameInvariant

  /** A round that is no longer active never changes again; an active one only moves forward. */
  predicate KeptRound(r: Round, r': Round) {
    && (r.status != Active ==> r' == r)
    && SameRound(r, r') && r'.target == r.target && r'.choices == r.choices && r'.expiresAt == r.expiresAt
    && r.hints <= r'.hints && r.wrong <= r'.wrong
  }

  predicate KeptGame(g: Game, g': Game) {
    && g'.session == g.session && g'.plan == g.plan && g'.totalRounds == g.totalRounds && g'.expiresAt == g.expiresAt
    && g.currentRoundIndex <= g'.currentRoundIndex && g.totalScore <= g'.totalScore
    && (g.status == Completed ==> g'.status == Completed)
    && (g.status == Abandoned ==> g'.status != InProgress)
  }

  ghost predicate Kept(st: Store, st': Store) {
    && (forall gid | gid in st.games :: gid in st'.games && KeptGame(st.games[gid], st'.games[gid]))
    && (forall id | id in st.rounds :: id in st'.rounds && KeptRound(st.rounds[id], st'.rounds[id]))
    && (forall slot | slot in st.slots :: slot in st'.slots && st'.slots[slot] == st.slots[slot])
    && (forall k | k in st.guesses :: k in st'.guesses && st'.guesses[k] == st.guesses[k])
  }

  lemma KeptIsTransitive(st: Store, st': Store, st'': Store)
    requires Kept(st, st') && Kept(st', st'')
    ensures Kept(st, st'')
  {
  }

  lemma RewrittenIsKept(st: Store, id: Id, r: Round, g: Game)
    requires id in st.rounds && KeptRound(st.rounds[id], r)
    requires r.gameId in st.games && KeptGame(st.games[r.gameId], g)
    ensures Kept(st, Rewritten(st, id, r, g))
  {
  }

  lemma ExpireIsKept(st: Store, id: Id, now: int)
    requires id in st.rounds && st.rounds[id].gameId in st.games
    ensures Kept(st, ExpireIfNeeded(st, id, now))
  {
    var r := st.rounds[id];
    RewrittenIsKept(st, id, ExpireRound(r, now), ExpireGame(st.games[r.gameId], now));
  }

  lemma RevealNextHintIsKept(st: Store, gid: Id, id: Id, session: Id, now: int)
    ensures Kept(st, RevealNextHint(st, gid, id, session, now).0)
  {
    if FindRound(st, gid, id, session) == Ok {
      ExpireIsKept(st, id, now);
      var st' := ExpireIfNeeded(st, id, now);
      var r := st'.rounds[id];
      if r.status == Active {
        RewrittenIsKept(st', id, RevealOne(r), st'.games[gid]);
        KeptIsTransitive(st, st', Rewritten(st', id, RevealOne(r), st'.games[gid]));
      }
    }
  }

  lemma ResolvedIsKept(r: Round, isCorrect: bool)
    requires r.status == Active
    ensures KeptRound(r, ResolveGuess(r, isCorrect).0)
    ensures ResolveGuess(r, isCorrect).1.Points? ==> ResolveGuess(r, isCorrect).1.points >= 0
  {
  }

  lemma RecordGuessIsKept(st: Store, k: GuessKey, isCorrect: bool)
    requires k.roundId in st.rounds && st.rounds[k.roundId].gameId in st.games
    requires st.rounds[k.roundId].status == Active && k !in st.guesses
    ensures Kept(st, RecordGuess(st, k, isCorrect).0)
  {
    var st0 := WithGuess(st, k, isCorrect);
    var (r, score) := ResolveGuess(st.rounds[k.roundId], isCorrect);
    ResolvedIsKept(st.rounds[k.roundId], isCorrect);
    var g := st.games[r.gameId];
    RewrittenIsKept(st0, k.roundId, r, g);
    if score.Points? {
      RewrittenIsKept(st0, k.roundId, r, g.(totalScore := g.totalScore + score.points));
    }
    KeptIsTransitive(st, st0, RecordGuess(st, k, isCorrect).0);
  }

  lemma SubmitGuessIsKept(st: Store, gid: Id, id: Id, session: Id, choiceId: Id, now: int)
    ensures Kept(st, SubmitGuess(st, gid, id, session, choiceId, now).0)
  {
    var k := GuessKey(id, session, choiceId);
    if FindRound(st, gid, id, session) == Ok && k !in st.guesses {
      ExpireIsKept(st, id, now);
      var st' := ExpireIfNeeded(st, id, now);
      var r := st'.rounds[id];
      if r.status == Active && FindChoice(r.choices, choiceId).Some? {
        var isCorrect := FindChoice(r.choices, choiceId).value.userId == r.target;
        RecordGuessIsKept(st', k, isCorrect);
        KeptIsTransitive(st, st', RecordGuess(st', k, isCorrect).0);
      }
    }
  }

  lemma CreateGameIsKept(st: Store, gid: Id, session: Id, plan: seq<PlanEntry>, now: int)
    requires gid !in st.games
    ensures Kept(st, CreateGame(st, gid, session, plan, now))
  {
  }

  lemma FinishMaterializeIsKept(st: Store, gid: Id, order: int, id: Id, choiceIds: seq<Id>, now: int)
    requires gid in st.games && 1 <= order <= |st.games[gid].plan|
    requires Slot(gid, order) !in st.slots && id !in st.rounds
    requires |choiceIds| == |st.games[gid].plan[order - 1].choiceUserIds|
    ensures Kept(st, FinishMaterialize(st, gid, order, id, choiceIds, now))
  {
  }

  lemma MoveOnIsKept(st: Store, gid: Id, token: Id)
    requires gid in st.games
    ensures Kept(st, MoveToNextRound(st, gid, token).0)
  {
  }

  lemma BeginAdvanceIsKept(st: Store, gid: Id, session: Id, now: int, token: Id)
    ensures Kept(st, BeginAdvance(st, gid, session, now, token).0)
  {
    if FindGame(st, gid, session) == Ok {
      if HasCurrentRound(st, gid) {
        ExpireIsKept(st, st.slots[CurrentSlot(st, gid)], now);
      }
      var st' := ExpireCurrentRound(st, gid, now);
      if !IsMidRound(st', gid) {
        MoveOnIsKept(st', gid, token);
        KeptIsTransitive(st, st', MoveToNextRound(st', gid, token).0);
      }
    }
  }

  /** Sending a recorded guess again, at any later time, is accepted and changes nothing. */
  lemma ReplayedGuessChangesNothing(
      st: Store, gid: Id, id: Id, session: Id, choiceId: Id, now: int, later: Store, laterNow: int)
    requires SubmitGuess(st, gid, id, session, choiceId, now).1 == Ok
    requires Kept(SubmitGuess(st, gid, id, session, choiceId, now).0, later)
    ensures SubmitGuess(later, gid, id, session, choiceId, laterNow) == (later, Ok)
  {
    SubmitGuessIsKept(st, gid, id, session, choiceId, now);
    var st' := SubmitGuess(st, gid, id, session, choiceId, now).0;
    assert FindRound(st, gid, id, session) == Ok;
    assert KeptGame(st.games[gid], st'.games[gid]) && KeptRound(st.rounds[id], st'.rounds[id]);
    assert KeptGame(st'.games[gid], later.games[gid]) && KeptRound(st'.rounds[id], later.rounds[id]);
    assert GuessKey(id, session, choiceId) in st'.guesses;
  }
}
