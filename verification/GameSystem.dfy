/**
 The unit of work under concurrent requests: every operation waits for its
 key's mutex, runs to its first await, and may be interleaved with any number of
 other operations there. Opening a game takes no lock and is one step.
 */
module GameSystem {
  import opened Options
  import opened GameStore
  import G = GameInvariant
  import H = GameHistory
  import M = KeyedMutex

  datatype Op =
    | GetCurrentRound(gameId: Id, session: Id, now: int)
    | RevealHint(gameId: Id, roundId: Id, session: Id, now: int)
    | Guessing(gameId: Id, roundId: Id, session: Id, choiceId: Id, now: int)
    | AdvanceToNextRound(gameId: Id, session: Id, now: int)

  function KeyOf(op: Op): Id {
    if op.RevealHint? || op.Guessing? then op.roundId else op.gameId
  }

  datatype Work = NotBegun | Suspended(rest: Continuation) | Finished(outcome: Outcome)

  datatype Call = Call(op: Op, work: Work)

  datatype System = System(store: Store, mutex: M.Mutex, calls: seq<Call>)

  // --------------------------------------------------------------------
  // Steps
  // --------------------------------------------------------------------

  function AfterSync(k: Continuation): Work {
    if k.Return? then Finished(k.outcome) else Suspended(k)
  }

  /** The synchronous part of an operation; `token` is the id generated for a share link. */
  function Begin(st: Store, op: Op, token: Id): (Store, Work) {
    match op
    case GetCurrentRound(gid, session, _) => (st, AfterSync(BeginGetCurrentRound(st, gid, session)))
    case RevealHint(gid, id, session, now) =>
      var (st', outcome) := RevealNextHint(st, gid, id, session, now);
      (st', Finished(outcome))
    case Guessing(gid, id, session, choiceId, now) =>
      var (st', outcome) := SubmitGuess(st, gid, id, session, choiceId, now);
      (st', Finished(outcome))
    case AdvanceToNextRound(gid, session, now) =>
      var (st', k) := BeginAdvance(st, gid, session, now, token);
      (st', AfterSync(k))
  }

  function Put(s: System, i: int, store: Store, mutex: M.Mutex, work: Work): System
    requires 0 <= i < |s.calls|
  {
    System(store, mutex, s.calls[i := s.calls[i].(work := work)])
  }

  predicate IsSuspended(s: System, i: int) {
    0 <= i < |s.calls| && s.calls[i].work.Suspended?
  }

  ghost predicate OpenGame(s: System, s': System) {
    exists gid: Id, session: Id, plan: seq<PlanEntry>, now: int ::
      gid !in s.store.games && G.PlanOk(plan) && s' == s.(store := CreateGame(s.store, gid, session, plan, now))
  }

  ghost predicate Request(s: System, s': System) {
    exists op :: s' == System(s.store, M.Arrive(s.mutex, KeyOf(op)), s.calls + [Call(op, NotBegun)])
  }

  ghost predicate BeginCall(s: System, s': System, i: int, token: Id) {
    && 0 <= i < |s.calls| && M.CanEnter(s.mutex, i)
    && var (st, work) := Begin(s.store, s.calls[i].op, token);
       s' == Put(s, i, st, M.Enter(s.mutex, i), work)
  }

  /** The content lookups resolved: the round is written under fresh ids. */
  ghost predicate ContentArrived(s: System, s': System, i: int, id: Id, choiceIds: seq<Id>) {
    && IsSuspended(s, i) && s.calls[i].work.rest.Materialize?
    && var gid, order := s.calls[i].work.rest.gameId, s.calls[i].work.rest.order;
       && id !in s.store.rounds
       && gid in s.store.games && 1 <= order <= |s.store.games[gid].plan|
       && |choiceIds| == |s.store.games[gid].plan[order - 1].choiceUserIds|
       && var st := FinishMaterialize(s.store, gid, order, id, choiceIds, s.calls[i].op.now);
          s' == Put(s, i, st, s.mutex, Suspended(Resume(id)))
  }

  ghost predicate ContentFailed(s: System, s': System, i: int) {
    && IsSuspended(s, i) && s.calls[i].work.rest.Materialize?
    && s' == Put(s, i, s.store, s.mutex, Finished(Outcome.ContentFailed))
  }

  /** The continuation after `materializeRound`: only reading a round looks at the clock. */
  ghost predicate RoundReady(s: System, s': System, i: int) {
    && IsSuspended(s, i) && s.calls[i].work.rest.Resume?
    && var id := s.calls[i].work.rest.roundId;
       && id in s.store.rounds && s.store.rounds[id].gameId in s.store.games
       && var st := if s.calls[i].op.GetCurrentRound? then ExpireIfNeeded(s.store, id, s.calls[i].op.now) else s.store;
          s' == Put(s, i, st, s.mutex, Finished(Ok))
  }

  ghost predicate Leave(s: System, s': System, i: int) {
    && 0 <= i < |s.calls| && s.calls[i].work.Finished?
    && M.IsCall(s.mutex, i) && s.mutex.tickets[i].phase == M.Running
    && s' == s.(mutex := M.Release(s.mutex, i))
  }

  ghost predicate Step(s: System, s': System) {
    || OpenGame(s, s')
    || Request(s, s')
    || (exists i, token :: BeginCall(s, s', i, token))
    || (exists i, id, choiceIds :: ContentArrived(s, s', i, id, choiceIds))
    || (exists i :: ContentFailed(s, s', i))
    || (exists i :: RoundReady(s, s', i))
    || (exists i :: Leave(s, s', i))
  }

  const Start := System(Store(map[], map[], map[], map[]), M.Idle, [])

  ghost predicate IsRun(run: seq<System>) {
    && run != [] && run[0] == Start
    && forall i | 0 < i < |run| :: Step(run[i - 1], run[i])
  }

  // --------------------------------------------------------------------
  // The invariant
  // --------------------------------------------------------------------

  /** A call waiting for content holds the game's mutex, and its slot is still empty. */
  predicate WaitsForContent(st: Store, op: Op, gid: Id, order: int) {
    && (op.GetCurrentRound? || op.AdvanceToNextRound?) && op.gameId == gid && gid in st.games
    && order == st.games[gid].currentRoundIndex + 1 && 1 <= order <= |st.games[gid].plan|
    && Slot(gid, order) !in st.slots
  }

  predicate CallOk(st: Store, c: Call) {
    match c.work
    case NotBegun => true
    case Finished(outcome) => outcome != ScoreRangeError
    case Suspended(Return(_)) => false
    case Suspended(Resume(id)) => id in st.rounds && st.rounds[id].gameId in st.games
    case Suspended(Materialize(gid, order)) => WaitsForContent(st, c.op, gid, order)
  }

  predicate PhaseOk(c: Call, t: M.Ticket) {
    && t.key == KeyOf(c.op)
    && (c.work.NotBegun? <==> t.phase == M.Waiting)
    && (c.work.Suspended? ==> t.phase == M.Running)
  }

  ghost predicate Inv(s: System) {
    && G.Inv(s.store) && M.Inv(s.mutex) && |s.calls| == |s.mutex.tickets|
    && (forall i | 0 <= i < |s.calls| :: PhaseOk(s.calls[i], s.mutex.tickets[i]))
    && (forall i | 0 <= i < |s.calls| :: CallOk(s.store, s.calls[i]))
  }

  // --------------------------------------------------------------------
  // What a transition leaves to the calls that are suspended meanwhile
  // --------------------------------------------------------------------

  /** Nothing a call waiting on a game other than `gid` relies on has changed. */
  ghost predicate OthersUndisturbed(st: Store, st': Store, gid: Id) {
    && (forall g | g in st.games :: g in st'.games && st'.games[g].plan == st.games[g].plan)
    && (forall g | g in st.games && g != gid :: st'.games[g].currentRoundIndex == st.games[g].currentRoundIndex)
    && (forall slot | slot in st'.slots && slot !in st.slots :: slot.gameId == gid)
    && (forall id | id in st.rounds :: id in st'.rounds && st'.rounds[id].gameId == st.rounds[id].gameId)
  }

  /** Nothing any waiting call relies on has changed. */
  ghost predicate AllUndisturbed(st: Store, st': Store) {
    && st'.slots == st.slots
    && (forall g | g in st.games :: g in st'.games && st'.games[g].plan == st.games[g].plan
                                    && st'.games[g].currentRoundIndex == st.games[g].currentRoundIndex)
    && (forall id | id in st.rounds :: id in st'.rounds && st'.rounds[id].gameId == st.rounds[id].gameId)
  }

  lemma UndisturbedCall(st: Store, st': Store, c: Call)
    requires CallOk(st, c) && AllUndisturbed(st, st')
    ensures CallOk(st', c)
  {
  }

  lemma OtherCall(st: Store, st': Store, gid: Id, c: Call)
    requires CallOk(st, c) && OthersUndisturbed(st, st', gid)
    requires c.work.Suspended? && c.work.rest.Materialize? ==> c.op.gameId != gid
    ensures CallOk(st', c)
  {
  }

  lemma RewrittenDisturbsNothing(st: Store, id: Id, r: Round, g: Game)
    requires id in st.rounds && r.gameId == st.rounds[id].gameId && r.gameId in st.games
    requires g.plan == st.games[r.gameId].plan && g.currentRoundIndex == st.games[r.gameId].currentRoundIndex
    ensures AllUndisturbed(st, Rewritten(st, id, r, g))
  {
  }

  lemma ExpireDisturbsNothing(st: Store, id: Id, now: int)
    requires id in st.rounds && st.rounds[id].gameId in st.games
    ensures AllUndisturbed(st, ExpireIfNeeded(st, id, now))
  {
    var r := st.rounds[id];
    RewrittenDisturbsNothing(st, id, ExpireRound(r, now), ExpireGame(st.games[r.gameId], now));
  }

  lemma RevealDisturbsNothing(st: Store, gid: Id, id: Id, session: Id, now: int)
    ensures AllUndisturbed(st, RevealNextHint(st, gid, id, session, now).0)
  {
    if FindRound(st, gid, id, session) == Ok {
      ExpireDisturbsNothing(st, id, now);
      var st' := ExpireIfNeeded(st, id, now);
      RewrittenDisturbsNothing(st', id, RevealOne(st'.rounds[id]), st'.games[gid]);
    }
  }

  lemma RecordDisturbsNothing(st: Store, k: GuessKey, isCorrect: bool)
    requires k.roundId in st.rounds && st.rounds[k.roundId].gameId in st.games
    ensures AllUndisturbed(st, RecordGuess(st, k, isCorrect).0)
  {
    var st0 := WithGuess(st, k, isCorrect);
    var (r, score) := ResolveGuess(st.rounds[k.roundId], isCorrect);
    var g := st.games[r.gameId];
    RewrittenDisturbsNothing(st0, k.roundId, r, if score.Points? then g.(totalScore := g.totalScore + score.points) else g);
  }

  lemma GuessDisturbsNothing(st: Store, gid: Id, id: Id, session: Id, choiceId: Id, now: int)
    ensures AllUndisturbed(st, SubmitGuess(st, gid, id, session, choiceId, now).0)
  {
    var k := GuessKey(id, session, choiceId);
    if FindRound(st, gid, id, session) == Ok && k !in st.guesses {
      ExpireDisturbsNothing(st, id, now);
      var st' := ExpireIfNeeded(st, id, now);
      var choice := FindChoice(st'.rounds[id].choices, choiceId);
      if choice.Some? {
        RecordDisturbsNothing(st', k, choice.value.userId == st'.rounds[id].target);
      }
    }
  }

  lemma AdvanceDisturbsOneGame(st: Store, gid: Id, session: Id, now: int, token: Id)
    ensures OthersUndisturbed(st, BeginAdvance(st, gid, session, now, token).0, gid)
  {
    if FindGame(st, gid, session) == Ok {
      var st' := ExpireCurrentRound(st, gid, now);
      if HasCurrentRound(st, gid) {
        ExpireDisturbsNothing(st, st.slots[CurrentSlot(st, gid)], now);
      }
      assert AllUndisturbed(st, st');
    }
  }

  // --------------------------------------------------------------------
  // Every step keeps the invariant
  // --------------------------------------------------------------------

  /** The mutex before and after a step of call `i`. */
  ghost predicate OnlyTicket(m: M.Mutex, m': M.Mutex, i: int) {
    && |m'.tickets| == |m.tickets|
    && forall j | 0 <= j < |m.tickets| && j != i :: m'.tickets[j] == m.tickets[j]
  }

  lemma PutKeepsInv(s: System, i: int, st: Store, m: M.Mutex, work: Work)
    requires Inv(s) && 0 <= i < |s.calls| && G.Inv(st) && M.Inv(m) && OnlyTicket(s.mutex, m, i)
    requires PhaseOk(s.calls[i].(work := work), m.tickets[i]) && CallOk(st, s.calls[i].(work := work))
    requires forall j | 0 <= j < |s.calls| && j != i :: CallOk(st, s.calls[j])
    ensures Inv(Put(s, i, st, m, work))
  {
    var s' := Put(s, i, st, m, work);
    forall j | 0 <= j < |s'.calls|
      ensures PhaseOk(s'.calls[j], s'.mutex.tickets[j]) && CallOk(s'.store, s'.calls[j])
    {
      if j != i {
        assert PhaseOk(s.calls[j], s.mutex.tickets[j]);
      }
    }
  }

  lemma OthersUnharmed(s: System, i: int, st: Store)
    requires Inv(s) && AllUndisturbed(s.store, st)
    ensures forall j | 0 <= j < |s.calls| && j != i :: CallOk(st, s.calls[j])
  {
    forall j | 0 <= j < |s.calls| && j != i
      ensures CallOk(st, s.calls[j])
    {
      UndisturbedCall(s.store, st, s.calls[j]);
    }
  }

  /** The mutex keeps every other call on this game out of the way. */
  lemma OtherGamesUnharmed(s: System, i: int, m: M.Mutex, st: Store, gid: Id)
    requires Inv(s) && 0 <= i < |s.calls| && M.Inv(m) && OnlyTicket(s.mutex, m, i)
    requires m.tickets[i].phase == M.Running && m.tickets[i].key == gid
    requires OthersUndisturbed(s.store, st, gid)
    ensures forall j | 0 <= j < |s.calls| && j != i :: CallOk(st, s.calls[j])
  {
    forall j | 0 <= j < |s.calls| && j != i
      ensures CallOk(st, s.calls[j])
    {
      var c := s.calls[j];
      assert PhaseOk(c, s.mutex.tickets[j]) && CallOk(s.store, c);
      if c.work.Suspended? && c.work.rest.Materialize? && c.op.gameId == gid {
        M.MutualExclusion(m, i, j);
      }
      OtherCall(s.store, st, gid, c);
    }
  }

  lemma LookedForRound(st: Store, op: Op, gid: Id)
    requires G.IndexOk(st) && gid in st.games && (op.GetCurrentRound? || op.AdvanceToNextRound?) && op.gameId == gid
    ensures CallOk(st, Call(op, AfterSync(LookForRound(st, gid, st.games[gid].currentRoundIndex + 1))))
  {
  }

  ghost predicate BegunOk(st: Store, op: Op, st': Store, work: Work) {
    && G.Inv(st') && CallOk(st', Call(op, work)) && work != NotBegun
    && (if op.AdvanceToNextRound? then OthersUndisturbed(st, st', op.gameId) else AllUndisturbed(st, st'))
  }

  lemma GetBeginIsOk(st: Store, op: Op, token: Id)
    requires G.Inv(st) && op.GetCurrentRound?
    ensures BegunOk(st, op, Begin(st, op, token).0, Begin(st, op, token).1)
  {
    NothingDisturbsNothing(st);
    GetIsOk(st, op, token);
  }

  lemma NothingDisturbsNothing(st: Store)
    ensures AllUndisturbed(st, st)
  {
  }

  lemma GetIsOk(st: Store, op: Op, token: Id)
    requires G.IndexOk(st) && op.GetCurrentRound?
    ensures CallOk(st, Call(op, Begin(st, op, token).1))
  {
    if FindGame(st, op.gameId, op.session) == Ok {
      LookedForRound(st, op, op.gameId);
    }
  }

  lemma HintBeginIsOk(st: Store, op: Op, token: Id)
    requires G.Inv(st) && op.RevealHint?
    ensures BegunOk(st, op, Begin(st, op, token).0, Begin(st, op, token).1)
  {
    G.RevealNextHintKeepsInv(st, op.gameId, op.roundId, op.session, op.now);
    RevealDisturbsNothing(st, op.gameId, op.roundId, op.session, op.now);
  }

  lemma GuessBeginIsOk(st: Store, op: Op, token: Id)
    requires G.Inv(st) && op.Guessing?
    ensures BegunOk(st, op, Begin(st, op, token).0, Begin(st, op, token).1)
  {
    G.SubmitGuessKeepsInv(st, op.gameId, op.roundId, op.session, op.choiceId, op.now);
    GuessDisturbsNothing(st, op.gameId, op.roundId, op.session, op.choiceId, op.now);
  }

  lemma AdvanceBeginIsOk(st: Store, op: Op, token: Id)
    requires G.Inv(st) && op.AdvanceToNextRound?
    ensures BegunOk(st, op, Begin(st, op, token).0, Begin(st, op, token).1)
  {
    G.BeginAdvanceKeepsInv(st, op.gameId, op.session, op.now, token);
    AdvanceDisturbsOneGame(st, op.gameId, op.session, op.now, token);
    AdvanceIsOk(st, op, token);
  }

  /** What the synchronous part of a call leaves behind. */
  lemma BeginIsOk(st: Store, op: Op, token: Id)
    requires G.Inv(st)
    ensures BegunOk(st, op, Begin(st, op, token).0, Begin(st, op, token).1)
  {
    match op
    case GetCurrentRound(_, _, _) => GetBeginIsOk(st, op, token);
    case RevealHint(_, _, _, _) => HintBeginIsOk(st, op, token);
    case Guessing(_, _, _, _, _) => GuessBeginIsOk(st, op, token);
    case AdvanceToNextRound(_, _, _) => AdvanceBeginIsOk(st, op, token);
  }

  lemma MovedOnIsOk(st: Store, op: Op, token: Id)
    requires op.AdvanceToNextRound? && op.gameId in st.games
    requires G.IndexOk(MoveToNextRound(st, op.gameId, token).0)
    ensures var (st', rest) := MoveToNextRound(st, op.gameId, token); CallOk(st', Call(op, AfterSync(rest)))
  {
    LookedForRound(MoveToNextRound(st, op.gameId, token).0, op, op.gameId);
  }

  lemma AdvanceIsOk(st: Store, op: Op, token: Id)
    requires op.AdvanceToNextRound? && G.IndexOk(Begin(st, op, token).0)
    ensures CallOk(Begin(st, op, token).0, Call(op, Begin(st, op, token).1))
  {
    if FindGame(st, op.gameId, op.session) == Ok {
      var st' := ExpireCurrentRound(st, op.gameId, op.now);
      if !IsMidRound(st', op.gameId) {
        MovedOnIsOk(st', op, token);
      }
    }
  }

  lemma BeginKeepsInv(s: System, s': System, i: int, token: Id)
    requires Inv(s) && BeginCall(s, s', i, token)
    ensures Inv(s')
  {
    var (st, work) := Begin(s.store, s.calls[i].op, token);
    var m := M.Enter(s.mutex, i);
    BeginIsOk(s.store, s.calls[i].op, token);
    M.EnterKeepsInv(s.mutex, i);
    assert PhaseOk(s.calls[i], s.mutex.tickets[i]);
    BegunHarmsNobody(s, i, m, st, work);
    PutKeepsInv(s, i, st, m, work);
  }

  lemma BegunHarmsNobody(s: System, i: int, m: M.Mutex, st: Store, work: Work)
    requires Inv(s) && 0 <= i < |s.calls| && M.Inv(m) && OnlyTicket(s.mutex, m, i)
    requires m.tickets[i].phase == M.Running && m.tickets[i].key == KeyOf(s.calls[i].op)
    requires BegunOk(s.store, s.calls[i].op, st, work)
    ensures forall j | 0 <= j < |s.calls| && j != i :: CallOk(st, s.calls[j])
  {
    if s.calls[i].op.AdvanceToNextRound? {
      OtherGamesUnharmed(s, i, m, st, s.calls[i].op.gameId);
    } else {
      OthersUnharmed(s, i, st);
    }
  }

  lemma ContentArrivedKeepsInv(s: System, s': System, i: int, id: Id, choiceIds: seq<Id>)
    requires Inv(s) && ContentArrived(s, s', i, id, choiceIds)
    ensures Inv(s')
  {
    var c := s.calls[i];
    var gid, order := c.work.rest.gameId, c.work.rest.order;
    assert CallOk(s.store, c) && PhaseOk(c, s.mutex.tickets[i]);
    var st := FinishMaterialize(s.store, gid, order, id, choiceIds, c.op.now);
    G.FinishMaterializeKeepsInv(s.store, gid, order, id, choiceIds, c.op.now);
    OtherGamesUnharmed(s, i, s.mutex, st, gid);
    PutKeepsInv(s, i, st, s.mutex, Suspended(Resume(id)));
  }

  lemma RoundReadyKeepsInv(s: System, s': System, i: int)
    requires Inv(s) && RoundReady(s, s', i)
    ensures Inv(s')
  {
    var c := s.calls[i];
    var id := c.work.rest.roundId;
    assert PhaseOk(c, s.mutex.tickets[i]);
    var st := if c.op.GetCurrentRound? then ExpireIfNeeded(s.store, id, c.op.now) else s.store;
    G.ExpireKeepsInv(s.store, id, c.op.now);
    ExpireDisturbsNothing(s.store, id, c.op.now);
    OthersUnharmed(s, i, st);
    PutKeepsInv(s, i, st, s.mutex, Finished(Ok));
  }

  lemma ContentFailedKeepsInv(s: System, s': System, i: int)
    requires Inv(s) && ContentFailed(s, s', i)
    ensures Inv(s')
  {
    assert PhaseOk(s.calls[i], s.mutex.tickets[i]);
    OthersUnharmed(s, i, s.store);
    PutKeepsInv(s, i, s.store, s.mutex, Finished(Outcome.ContentFailed));
  }

  lemma LeaveKeepsInv(s: System, s': System, i: int)
    requires Inv(s) && Leave(s, s', i)
    ensures Inv(s')
  {
    M.ReleaseKeepsInv(s.mutex, i);
    forall j | 0 <= j < |s'.calls|
      ensures PhaseOk(s'.calls[j], s'.mutex.tickets[j])
    {
      assert PhaseOk(s.calls[j], s.mutex.tickets[j]);
    }
  }

  lemma RequestKeepsInv(s: System, s': System)
    requires Inv(s) && Request(s, s')
    ensures Inv(s')
  {
    var op :| s' == System(s.store, M.Arrive(s.mutex, KeyOf(op)), s.calls + [Call(op, NotBegun)]);
    M.ArriveKeepsInv(s.mutex, KeyOf(op));
    forall j | 0 <= j < |s'.calls|
      ensures PhaseOk(s'.calls[j], s'.mutex.tickets[j]) && CallOk(s'.store, s'.calls[j])
    {
      if j < |s.calls| {
        assert PhaseOk(s.calls[j], s.mutex.tickets[j]) && CallOk(s.store, s.calls[j]);
      }
    }
  }

  lemma NewGameKeepsInv(s: System, gid: Id, session: Id, plan: seq<PlanEntry>, now: int)
    requires Inv(s) && gid !in s.store.games && G.PlanOk(plan)
    ensures Inv(s.(store := CreateGame(s.store, gid, session, plan, now)))
  {
    var st := CreateGame(s.store, gid, session, plan, now);
    G.CreateGameKeepsInv(s.store, gid, session, plan, now);
    NewGameDisturbsNothing(s.store, gid, session, plan, now);
    OthersUnharmed(s, -1, st);
  }

  lemma NewGameDisturbsNothing(st: Store, gid: Id, session: Id, plan: seq<PlanEntry>, now: int)
    requires G.IndexOk(st) && gid !in st.games
    ensures AllUndisturbed(st, CreateGame(st, gid, session, plan, now))
  {
  }

  lemma OpenGameKeepsInv(s: System, s': System)
    requires Inv(s) && OpenGame(s, s')
    ensures Inv(s') && H.Kept(s.store, s'.store)
  {
    var gid: Id, session: Id, plan: seq<PlanEntry>, now: int :|
      gid !in s.store.games && G.PlanOk(plan) && s' == s.(store := CreateGame(s.store, gid, session, plan, now));
    NewGameKeepsInv(s, gid, session, plan, now);
    H.CreateGameIsKept(s.store, gid, session, plan, now);
  }

  lemma StepKeepsInv(s: System, s': System)
    requires Inv(s) && Step(s, s')
    ensures Inv(s')
  {
    if OpenGame(s, s') {
      OpenGameKeepsInv(s, s');
    } else if Request(s, s') {
      RequestKeepsInv(s, s');
    } else if i, token :| BeginCall(s, s', i, token) {
      BeginKeepsInv(s, s', i, token);
    } else if i, id, choiceIds :| ContentArrived(s, s', i, id, choiceIds) {
      ContentArrivedKeepsInv(s, s', i, id, choiceIds);
    } else if i :| ContentFailed(s, s', i) {
      ContentFailedKeepsInv(s, s', i);
    } else if i :| RoundReady(s, s', i) {
      RoundReadyKeepsInv(s, s', i);
    } else {
      var i :| Leave(s, s', i);
      LeaveKeepsInv(s, s', i);
    }
  }

  // --------------------------------------------------------------------
  // Over whole runs
  // --------------------------------------------------------------------

  lemma StartInv()
    ensures Inv(Start)
  {
    M.InitInv();
  }

  lemma {:induction false} RunKeepsInv(run: seq<System>, i: int)
    requires IsRun(run) && 0 <= i < |run|
    ensures Inv(run[i])
    decreases i
  {
    if i == 0 {
      StartInv();
    } else {
      RunKeepsInv(run, i - 1);
      StepKeepsInv(run[i - 1], run[i]);
    }
  }

  lemma KeptUnchanged(st: Store)
    ensures H.Kept(st, st)
  {
  }

  lemma ContentArrivedIsKept(s: System, s': System, i: int, id: Id, choiceIds: seq<Id>)
    requires Inv(s) && ContentArrived(s, s', i, id, choiceIds)
    ensures H.Kept(s.store, s'.store)
  {
    var rest := s.calls[i].work.rest;
    assert CallOk(s.store, s.calls[i]);
    H.FinishMaterializeIsKept(s.store, rest.gameId, rest.order, id, choiceIds, s.calls[i].op.now);
  }

  lemma RoundReadyIsKept(s: System, s': System, i: int)
    requires RoundReady(s, s', i)
    ensures H.Kept(s.store, s'.store)
  {
    H.ExpireIsKept(s.store, s.calls[i].work.rest.roundId, s.calls[i].op.now);
    KeptUnchanged(s.store);
  }

  lemma StepIsKept(s: System, s': System)
    requires Inv(s) && Step(s, s')
    ensures H.Kept(s.store, s'.store)
  {
    if OpenGame(s, s') {
      OpenGameKeepsInv(s, s');
    } else if i, token :| BeginCall(s, s', i, token) {
      BeginIsKept(s.store, s.calls[i].op, token);
    } else if i, id, choiceIds :| ContentArrived(s, s', i, id, choiceIds) {
      ContentArrivedIsKept(s, s', i, id, choiceIds);
    } else if i :| RoundReady(s, s', i) {
      RoundReadyIsKept(s, s', i);
    } else {
      assert s'.store == s.store;
      KeptUnchanged(s.store);
    }
  }

  lemma BeginIsKept(st: Store, op: Op, token: Id)
    ensures H.Kept(st, Begin(st, op, token).0)
  {
    match op
    case GetCurrentRound(_, _, _) =>
    case RevealHint(gid, id, session, now) => H.RevealNextHintIsKept(st, gid, id, session, now);
    case Guessing(gid, id, session, choiceId, now) => H.SubmitGuessIsKept(st, gid, id, session, choiceId, now);
    case AdvanceToNextRound(gid, session, now) => H.BeginAdvanceIsKept(st, gid, session, now, token);
  }

  /** Whatever happened by step `i` of a run still stands at every later step `j`. */
  lemma {:induction false} RunOnlyMovesForward(run: seq<System>, i: int, j: int)
    requires IsRun(run) && 0 <= i <= j < |run|
    ensures H.Kept(run[i].store, run[j].store)
    decreases j - i
  {
    if i < j {
      RunOnlyMovesForward(run, i, j - 1);
      RunStepIsKept(run, j);
      H.KeptIsTransitive(run[i].store, run[j - 1].store, run[j].store);
    } else {
      KeptUnchanged(run[i].store);
    }
  }

  lemma RunStepIsKept(run: seq<System>, j: int)
    requires IsRun(run) && 0 < j < |run|
    ensures H.Kept(run[j - 1].store, run[j].store)
  {
    RunKeepsInv(run, j - 1);
    StepIsKept(run[j - 1], run[j]);
  }

  /** A game's round at a position is created once, however many requests visit it at once. */
  lemma OneRoundPerSlot(run: seq<System>, i: int, j: int, id: Id, other: Id)
    requires IsRun(run) && 0 <= i <= j < |run|
    requires id in run[i].store.rounds && other in run[j].store.rounds
    requires G.SlotOf(run[i].store.rounds[id]) == G.SlotOf(run[j].store.rounds[other])
    ensures id == other
  {
    RunKeepsInv(run, i);
    RunKeepsInv(run, j);
    RunOnlyMovesForward(run, i, j);
  }

  /** No two calls are ever creating a round of the same game. */
  lemma NeverMaterializedTwice(s: System, i: int, j: int)
    requires Inv(s) && IsSuspended(s, i) && IsSuspended(s, j)
    requires s.calls[i].work.rest.Materialize? && s.calls[j].work.rest.Materialize?
    requires s.calls[i].work.rest.gameId == s.calls[j].work.rest.gameId
    ensures i == j
  {
    assert PhaseOk(s.calls[i], s.mutex.tickets[i]) && PhaseOk(s.calls[j], s.mutex.tickets[j]);
    assert CallOk(s.store, s.calls[i]) && CallOk(s.store, s.calls[j]);
    M.MutualExclusion(s.mutex, i, j);
  }

  /** In every reachable state: scores, statuses and limits of every game. */
  lemma ReachableGames(run: seq<System>, i: int, gid: Id)
    requires IsRun(run) && 0 <= i < |run| && gid in run[i].store.games
    ensures var st := run[i].store; var g := st.games[gid];
      && g.totalScore == G.ScoreSum(st.slots, st.rounds, gid, g.totalRounds)
      && 0 <= g.totalScore <= 100 * g.totalRounds
      && (g.shareToken.Some? <==> g.status == Completed)
      && (g.totalRounds >= 1 ==> (g.status == Completed <==> g.currentRoundIndex >= g.totalRounds))
  {
    RunKeepsInv(run, i);
    G.TotalScoreIsBounded(run[i].store, gid);
    assert G.GameOk(run[i].store.games[gid]);
  }

  /** In every reachable state: one active round per game, never at a position already left behind. */
  lemma ReachableRounds(run: seq<System>, i: int, id: Id)
    requires IsRun(run) && 0 <= i < |run| && id in run[i].store.rounds
    ensures var st := run[i].store; var r := st.rounds[id];
      && r.gameId in st.games && G.RoundOk(st.games[r.gameId], r) && G.GuessesOk(st.guesses, id, r)
      && (r.status == Active ==>
            forall other | other in st.rounds && st.rounds[other].gameId == r.gameId :: st.rounds[other].status == Active ==> other == id)
  {
    RunKeepsInv(run, i);
    var st := run[i].store;
    assert G.HasGame(st, st.rounds[id]);
    forall other | other in st.rounds && st.rounds[other].gameId == st.rounds[id].gameId
        && st.rounds[id].status == Active && st.rounds[other].status == Active
      ensures other == id
    {
      G.AtMostOneActiveRound(st, other, id);
    }
  }

  /** No request of any run ever ends in a score range error. */
  lemma NoRangeErrorInAnyRun(run: seq<System>, i: int, c: int)
    requires IsRun(run) && 0 <= i < |run| && 0 <= c < |run[i].calls|
    ensures run[i].calls[c].work != Finished(ScoreRangeError)
  {
    RunKeepsInv(run, i);
    assert CallOk(run[i].store, run[i].calls[c]);
  }
}
