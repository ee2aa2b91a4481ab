/** What every transition of the game store keeps, and what it never undoes. */
module GameInvariant {
  import opened Options
  import opened Scoring
  import opened GameStore

  // --------------------------------------------------------------------
  // The invariant
  // --------------------------------------------------------------------

  /** No round of the plan holds more posts than the score curve has prices. */
  predicate PlanOk(plan: seq<PlanEntry>) {
    forall i | 0 <= i < |plan| :: |plan[i].postIds| <= MAX_HINTS_REVEALED
  }

  predicate GameOk(g: Game) {
    && PlanOk(g.plan) && g.totalRounds == |g.plan| && 0 <= g.currentRoundIndex
    && (g.shareToken.Some? <==> g.status == Completed)
    && (g.totalRounds >= 1 ==> (g.status == Completed <==> g.currentRoundIndex >= g.totalRounds))
  }

  /** Status, wrong guesses and score of a round always fit together. */
  predicate ScoreOk(r: Round) {
    match r.status
    case Active => 0 <= r.wrong < MAX_WRONG_GUESSES && r.score == 0
    case Expired => 0 <= r.wrong < MAX_WRONG_GUESSES && r.score == 0
    case ResolvedIncorrect => r.wrong == MAX_WRONG_GUESSES && r.score == 0
    case ResolvedCorrect =>
      && 0 <= r.wrong < MAX_WRONG_GUESSES && 1 <= r.hints <= MAX_HINTS_REVEALED
      && r.score == SCORE_CURVE[r.hints - 1] - 10 * r.wrong
  }

  /** Exactly the first `hints` posts are revealed. */
  predicate PostsOk(r: Round, plan: PlanEntry) {
    && |r.posts| == |plan.postIds|
    && 1 <= r.hints && (r.hints == 1 || r.hints <= |r.posts|)
    && forall i | 0 <= i < |r.posts| :: r.posts[i] == Post(plan.postIds[i], i < r.hints)
  }

  predicate RoundOk(g: Game, r: Round) {
    && 1 <= r.order <= |g.plan| && r.order <= g.currentRoundIndex + 1
    && r.target == g.plan[r.order - 1].target
    && PostsOk(r, g.plan[r.order - 1])
    && ScoreOk(r)
    && (r.status == Active ==> r.order == g.currentRoundIndex + 1)
  }

  function SlotOf(r: Round): Slot {
    Slot(r.gameId, r.order)
  }

  /** Rounds and slots are in one-to-one correspondence. */
  ghost predicate IndexOk(st: Store) {
    && (forall s | s in st.slots :: st.slots[s] in st.rounds && SlotOf(st.rounds[st.slots[s]]) == s)
    && (forall id | id in st.rounds :: SlotOf(st.rounds[id]) in st.slots && st.slots[SlotOf(st.rounds[id])] == id)
    && (forall id | id in st.rounds :: st.rounds[id].gameId in st.games)
  }

  predicate HasGame(st: Store, r: Round) {
    r.gameId in st.games && RoundOk(st.games[r.gameId], r)
  }

  ghost predicate RecordsOk(st: Store) {
    && (forall gid | gid in st.games :: GameOk(st.games[gid]))
    && (forall id | id in st.rounds :: HasGame(st, st.rounds[id]))
  }

  function SlotScore(slots: map<Slot, Id>, rounds: map<Id, Round>, gid: Id, order: int): int {
    var slot := Slot(gid, order);
    if slot in slots && slots[slot] in rounds then rounds[slots[slot]].score else 0
  }

  /** The scores of the rounds at positions 1 to `n`. */
  function ScoreSum(slots: map<Slot, Id>, rounds: map<Id, Round>, gid: Id, n: int): int
    decreases n
  {
    if n <= 0 then 0 else ScoreSum(slots, rounds, gid, n - 1) + SlotScore(slots, rounds, gid, n)
  }

  ghost predicate TotalsOk(st: Store) {
    forall gid | gid in st.games :: st.games[gid].totalScore == ScoreSum(st.slots, st.rounds, gid, st.games[gid].totalRounds)
  }

  function WrongGuessesOf(guesses: map<GuessKey, Guess>, id: Id): set<GuessKey> {
    set k | k in guesses && k.roundId == id && !guesses[k].isCorrect
  }

  ghost predicate HasAttempt(guesses: map<GuessKey, Guess>, id: Id, a: int) {
    exists k | k in GuessesOf(guesses, id) :: guesses[k].attempt == a
  }

  ghost predicate HasCorrect(guesses: map<GuessKey, Guess>, id: Id) {
    exists k | k in GuessesOf(guesses, id) :: guesses[k].isCorrect
  }

  /** Attempt numbers of a round run from 1 to the number of guesses, without gaps or repeats. */
  ghost predicate AttemptsOk(guesses: map<GuessKey, Guess>, id: Id) {
    var ks := GuessesOf(guesses, id);
    && (forall k | k in ks :: 1 <= guesses[k].attempt <= |ks|)
    && (forall k, l | k in ks && l in ks && guesses[k].attempt == guesses[l].attempt :: k == l)
    && (forall a | 1 <= a <= |ks| :: HasAttempt(guesses, id, a))
  }

  ghost predicate GuessesOk(guesses: map<GuessKey, Guess>, id: Id, r: Round) {
    && r.wrong == |WrongGuessesOf(guesses, id)|
    && AttemptsOk(guesses, id)
    && (r.status == ResolvedCorrect <==> HasCorrect(guesses, id))
  }

  ghost predicate AllGuessesOk(st: Store) {
    && (forall k | k in st.guesses :: k.roundId in st.rounds)
    && (forall id | id in st.rounds :: GuessesOk(st.guesses, id, st.rounds[id]))
  }

  ghost predicate Inv(st: Store) {
    IndexOk(st) && RecordsOk(st) && TotalsOk(st) && AllGuessesOk(st)
  }

  // --------------------------------------------------------------------
  // Consequences
  // --------------------------------------------------------------------

  lemma AtMostOneActiveRound(st: Store, id: Id, other: Id)
    requires Inv(st) && id in st.rounds && other in st.rounds
    requires st.rounds[id].gameId == st.rounds[other].gameId
    requires st.rounds[id].status == Active && st.rounds[other].status == Active
    ensures id == other
  {
    assert HasGame(st, st.rounds[id]) && HasGame(st, st.rounds[other]);
    assert SlotOf(st.rounds[id]) == SlotOf(st.rounds[other]);
  }

  lemma {:induction false} SlotScoresAreBounded(st: Store, gid: Id, n: int)
    requires RecordsOk(st) && 0 <= n
    ensures 0 <= ScoreSum(st.slots, st.rounds, gid, n) <= 100 * n
    decreases n
  {
    if n > 0 {
      SlotScoresAreBounded(st, gid, n - 1);
      var slot := Slot(gid, n);
      if slot in st.slots && st.slots[slot] in st.rounds {
        var id := st.slots[slot];
        assert HasGame(st, st.rounds[id]);
      }
    }
  }

  lemma TotalScoreIsBounded(st: Store, gid: Id)
    requires Inv(st) && gid in st.games
    ensures 0 <= st.games[gid].totalScore <= 100 * st.games[gid].totalRounds
  {
    assert GameOk(st.games[gid]);
    SlotScoresAreBounded(st, gid, st.games[gid].totalRounds);
  }

  // --------------------------------------------------------------------
  // One round and its game rewritten in place
  // --------------------------------------------------------------------

  lemma {:induction false} ScoreSumFrame(st: Store, st': Store, gid: Id, n: int)
    requires forall order | 1 <= order <= n :: SlotScore(st'.slots, st'.rounds, gid, order) == SlotScore(st.slots, st.rounds, gid, order)
    ensures ScoreSum(st'.slots, st'.rounds, gid, n) == ScoreSum(st.slots, st.rounds, gid, n)
    decreases n
  {
    if n > 0 {
      ScoreSumFrame(st, st', gid, n - 1);
    }
  }

  lemma {:induction false} ScoreSumChange(st: Store, st': Store, gid: Id, n: int, at: int, p: int)
    requires 1 <= at <= n
    requires forall order | 1 <= order <= n ::
      SlotScore(st'.slots, st'.rounds, gid, order) == SlotScore(st.slots, st.rounds, gid, order) + (if order == at then p else 0)
    ensures ScoreSum(st'.slots, st'.rounds, gid, n) == ScoreSum(st.slots, st.rounds, gid, n) + p
    decreases n
  {
    if at == n {
      ScoreSumFrame(st, st', gid, n - 1);
    } else {
      ScoreSumChange(st, st', gid, n - 1, at, p);
    }
  }

  predicate SameRound(r: Round, r': Round) {
    r'.gameId == r.gameId && r'.order == r.order
  }

  predicate SameGame(g: Game, g': Game) {
    g'.plan == g.plan && g'.totalRounds == g.totalRounds && g'.currentRoundIndex == g.currentRoundIndex
  }

  lemma RewrittenIndex(st: Store, id: Id, r: Round, g: Game)
    requires IndexOk(st) && id in st.rounds && SameRound(st.rounds[id], r)
    ensures IndexOk(Rewritten(st, id, r, g))
  {
  }

  lemma RewrittenRecords(st: Store, id: Id, r: Round, g: Game)
    requires IndexOk(st) && RecordsOk(st) && id in st.rounds && SameRound(st.rounds[id], r)
    requires SameGame(st.games[r.gameId], g) && GameOk(g) && RoundOk(g, r)
    ensures RecordsOk(Rewritten(st, id, r, g))
  {
    var st' := Rewritten(st, id, r, g);
    forall i | i in st'.rounds
      ensures HasGame(st', st'.rounds[i])
    {
      if i != id {
        assert HasGame(st, st.rounds[i]);
      }
    }
  }

  lemma RewrittenTotals(st: Store, id: Id, r: Round, g: Game)
    requires IndexOk(st) && RecordsOk(st) && TotalsOk(st) && id in st.rounds && SameRound(st.rounds[id], r)
    requires SameGame(st.games[r.gameId], g)
    requires g.totalScore == st.games[r.gameId].totalScore + (r.score - st.rounds[id].score)
    ensures TotalsOk(Rewritten(st, id, r, g))
  {
    var st' := Rewritten(st, id, r, g);
    forall gid | gid in st'.games
      ensures st'.games[gid].totalScore == ScoreSum(st'.slots, st'.rounds, gid, st'.games[gid].totalRounds)
    {
      var n := st'.games[gid].totalRounds;
      forall order | 1 <= order <= n
        ensures SlotScore(st'.slots, st'.rounds, gid, order) == SlotScore(st.slots, st.rounds, gid, order)
                + (if gid == r.gameId && order == r.order then r.score - st.rounds[id].score else 0)
      {
        var slot := Slot(gid, order);
        if slot in st.slots && st.slots[slot] == id {
          assert st.rounds[id].gameId == gid;
        }
      }
      if gid == r.gameId {
        assert HasGame(st, st.rounds[id]) && GameOk(st.games[gid]);
        ScoreSumChange(st, st', gid, n, r.order, r.score - st.rounds[id].score);
      } else {
        ScoreSumFrame(st, st', gid, n);
      }
    }
  }

  lemma RewrittenGuesses(st: Store, id: Id, r: Round, g: Game)
    requires AllGuessesOk(st) && id in st.rounds
    requires r.wrong == st.rounds[id].wrong
    requires r.status == ResolvedCorrect <==> st.rounds[id].status == ResolvedCorrect
    ensures AllGuessesOk(Rewritten(st, id, r, g))
  {
    var st' := Rewritten(st, id, r, g);
    forall i | i in st'.rounds
      ensures GuessesOk(st'.guesses, i, st'.rounds[i])
    {
      assert GuessesOk(st.guesses, i, st.rounds[i]);
    }
  }

  lemma RewrittenKeepsInv(st: Store, id: Id, r: Round, g: Game)
    requires Inv(st) && id in st.rounds && SameRound(st.rounds[id], r)
    requires SameGame(st.games[r.gameId], g) && GameOk(g) && RoundOk(g, r)
    requires g.totalScore == st.games[r.gameId].totalScore && r.score == st.rounds[id].score
    requires r.wrong == st.rounds[id].wrong
    requires r.status == ResolvedCorrect <==> st.rounds[id].status == ResolvedCorrect
    ensures Inv(Rewritten(st, id, r, g))
  {
    RewrittenIndex(st, id, r, g);
    RewrittenRecords(st, id, r, g);
    RewrittenTotals(st, id, r, g);
    RewrittenGuesses(st, id, r, g);
  }

  // --------------------------------------------------------------------
  // Expiry and hints
  // --------------------------------------------------------------------

  lemma ExpireIsOk(g: Game, r: Round, now: int)
    requires GameOk(g) && RoundOk(g, r)
    ensures GameOk(ExpireGame(g, now)) && SameGame(g, ExpireGame(g, now))
    ensures RoundOk(ExpireGame(g, now), ExpireRound(r, now)) && SameRound(r, ExpireRound(r, now))
    ensures ExpireRound(r, now).score == r.score && ExpireRound(r, now).wrong == r.wrong
  {
  }

  lemma ExpireKeepsInv(st: Store, id: Id, now: int)
    requires Inv(st) && id in st.rounds
    ensures st.rounds[id].gameId in st.games
    ensures Inv(ExpireIfNeeded(st, id, now))
  {
    var r := st.rounds[id];
    assert HasGame(st, r) && GameOk(st.games[r.gameId]);
    ExpireIsOk(st.games[r.gameId], r, now);
    RewrittenKeepsInv(st, id, ExpireRound(r, now), ExpireGame(st.games[r.gameId], now));
  }

  lemma RevealOneIsOk(g: Game, r: Round)
    requires RoundOk(g, r) && r.status == Active
    ensures RoundOk(g, RevealOne(r))
  {
    assert PostsOk(RevealOne(r), g.plan[r.order - 1]);
  }

  lemma RevealNextHintKeepsInv(st: Store, gid: Id, id: Id, session: Id, now: int)
    requires Inv(st)
    ensures Inv(RevealNextHint(st, gid, id, session, now).0)
  {
    if FindRound(st, gid, id, session) == Ok {
      ExpireKeepsInv(st, id, now);
      var st' := ExpireIfNeeded(st, id, now);
      var r := st'.rounds[id];
      if r.status == Active {
        assert HasGame(st', r) && GameOk(st'.games[gid]);
        RevealOneIsOk(st'.games[gid], r);
        RewrittenKeepsInv(st', id, RevealOne(r), st'.games[gid]);
      }
    }
  }

  // --------------------------------------------------------------------
  // Guesses
  // --------------------------------------------------------------------

  lemma GuessCounted(guesses: map<GuessKey, Guess>, k: GuessKey, g: Guess)
    requires k !in guesses
    ensures GuessesOf(guesses[k := g], k.roundId) == GuessesOf(guesses, k.roundId) + {k}
    ensures |WrongGuessesOf(guesses[k := g], k.roundId)|
         == |WrongGuessesOf(guesses, k.roundId)| + if g.isCorrect then 0 else 1
  {
    var wrong := WrongGuessesOf(guesses, k.roundId);
    assert WrongGuessesOf(guesses[k := g], k.roundId) == if g.isCorrect then wrong else wrong + {k};
  }

  lemma AttemptAdded(guesses: map<GuessKey, Guess>, k: GuessKey, g: Guess)
    requires k !in guesses && AttemptsOk(guesses, k.roundId) && g.attempt == |GuessesOf(guesses, k.roundId)| + 1
    ensures AttemptsOk(guesses[k := g], k.roundId)
  {
    var id, guesses' := k.roundId, guesses[k := g];
    var ks, ks' := GuessesOf(guesses, id), GuessesOf(guesses', id);
    GuessCounted(guesses, k, g);
    assert |ks'| == |ks| + 1;
    AttemptStaysUnique(guesses, k, g);
    forall a | 1 <= a <= |ks'|
      ensures HasAttempt(guesses', id, a)
    {
      HasAttemptAfter(guesses, k, g, a);
    }
  }

  lemma AttemptStaysUnique(guesses: map<GuessKey, Guess>, k: GuessKey, g: Guess)
    requires k !in guesses && AttemptsOk(guesses, k.roundId) && g.attempt == |GuessesOf(guesses, k.roundId)| + 1
    ensures var guesses' := guesses[k := g];
      forall l, m | l in GuessesOf(guesses', k.roundId) && m in GuessesOf(guesses', k.roundId)
        && guesses'[l].attempt == guesses'[m].attempt :: l == m
  {
    GuessCounted(guesses, k, g);
  }

  lemma HasAttemptAfter(guesses: map<GuessKey, Guess>, k: GuessKey, g: Guess, a: int)
    requires k !in guesses
    requires a == g.attempt || HasAttempt(guesses, k.roundId, a)
    ensures HasAttempt(guesses[k := g], k.roundId, a)
  {
    var guesses' := guesses[k := g];
    var ks' := GuessesOf(guesses', k.roundId);
    if a == g.attempt {
      assert k in ks' && guesses'[k].attempt == a;
    } else {
      var l :| l in GuessesOf(guesses, k.roundId) && guesses[l].attempt == a;
      assert l in ks' && guesses'[l].attempt == a;
    }
  }

  lemma CorrectAdded(guesses: map<GuessKey, Guess>, k: GuessKey, g: Guess)
    requires k !in guesses
    ensures HasCorrect(guesses[k := g], k.roundId) <==> g.isCorrect || HasCorrect(guesses, k.roundId)
  {
    var id, guesses' := k.roundId, guesses[k := g];
    if HasCorrect(guesses, id) {
      var l :| l in GuessesOf(guesses, id) && guesses[l].isCorrect;
      assert l in GuessesOf(guesses', id) && guesses'[l].isCorrect;
    }
    if g.isCorrect {
      assert k in GuessesOf(guesses', id) && guesses'[k].isCorrect;
    }
  }

  lemma GuessAdded(guesses: map<GuessKey, Guess>, k: GuessKey, g: Guess, r: Round, r': Round)
    requires k !in guesses && g.attempt == |GuessesOf(guesses, k.roundId)| + 1
    requires GuessesOk(guesses, k.roundId, r) && r.status != ResolvedCorrect
    requires r'.wrong == r.wrong + if g.isCorrect then 0 else 1
    requires r'.status == ResolvedCorrect <==> g.isCorrect
    ensures GuessesOk(guesses[k := g], k.roundId, r')
  {
    GuessCounted(guesses, k, g);
    AttemptAdded(guesses, k, g);
    CorrectAdded(guesses, k, g);
  }

  lemma GuessesElsewhere(guesses: map<GuessKey, Guess>, k: GuessKey, g: Guess, id: Id, r: Round)
    requires k !in guesses && id != k.roundId && GuessesOk(guesses, id, r)
    ensures GuessesOk(guesses[k := g], id, r)
  {
    var guesses' := guesses[k := g];
    assert GuessesOf(guesses', id) == GuessesOf(guesses, id);
    assert WrongGuessesOf(guesses', id) == WrongGuessesOf(guesses, id);
    forall a | 1 <= a <= |GuessesOf(guesses, id)|
      ensures HasAttempt(guesses', id, a)
    {
      assert HasAttempt(guesses, id, a);
    }
  }

  /** The parts of the invariant that do not look at guesses. */
  lemma GuessAside(st: Store, k: GuessKey, isCorrect: bool)
    requires IndexOk(st) && RecordsOk(st) && TotalsOk(st)
    ensures IndexOk(WithGuess(st, k, isCorrect))
    ensures RecordsOk(WithGuess(st, k, isCorrect))
    ensures TotalsOk(WithGuess(st, k, isCorrect))
  {
    var st' := WithGuess(st, k, isCorrect);
    forall id | id in st'.rounds
      ensures HasGame(st', st'.rounds[id])
    {
      assert HasGame(st, st.rounds[id]);
    }
  }

  /** A guess on an active round: resolving it is always within the score curve. */
  lemma ResolveIsOk(g: Game, r: Round, isCorrect: bool)
    requires GameOk(g) && RoundOk(g, r) && r.status == Active
    ensures ResolveGuess(r, isCorrect).1.Points?
    ensures RoundOk(g, ResolveGuess(r, isCorrect).0) && SameRound(r, ResolveGuess(r, isCorrect).0)
    ensures ResolveGuess(r, isCorrect).0.score - r.score == ResolveGuess(r, isCorrect).1.points
    ensures ResolveGuess(r, isCorrect).0.wrong == r.wrong + if isCorrect then 0 else 1
    ensures ResolveGuess(r, isCorrect).0.status == ResolvedCorrect <==> isCorrect
  {
    assert |g.plan[r.order - 1].postIds| <= MAX_HINTS_REVEALED;
    FloorIsNeverReached(r.hints, r.wrong);
  }

  lemma OkWhateverTheTotal(g: Game, g': Game, r: Round)
    requires GameOk(g) && RoundOk(g, r) && g' == g.(totalScore := g'.totalScore)
    ensures GameOk(g') && RoundOk(g', r)
  {
  }

  lemma RecordsAfterGuess(st: Store, k: GuessKey, isCorrect: bool, r: Round, g: Game)
    requires IndexOk(st) && RecordsOk(st) && TotalsOk(st)
    requires k.roundId in st.rounds && SameRound(st.rounds[k.roundId], r)
    requires r.gameId in st.games && SameGame(st.games[r.gameId], g) && GameOk(g) && RoundOk(g, r)
    requires g.totalScore == st.games[r.gameId].totalScore + (r.score - st.rounds[k.roundId].score)
    ensures IndexOk(Rewritten(WithGuess(st, k, isCorrect), k.roundId, r, g))
    ensures RecordsOk(Rewritten(WithGuess(st, k, isCorrect), k.roundId, r, g))
    ensures TotalsOk(Rewritten(WithGuess(st, k, isCorrect), k.roundId, r, g))
  {
    var st0 := WithGuess(st, k, isCorrect);
    GuessAside(st, k, isCorrect);
    RewrittenIndex(st0, k.roundId, r, g);
    RewrittenRecords(st0, k.roundId, r, g);
    RewrittenTotals(st0, k.roundId, r, g);
  }

  lemma GuessesAfterRecord(st: Store, k: GuessKey, isCorrect: bool, r: Round, g: Game)
    requires AllGuessesOk(st) && k.roundId in st.rounds && k !in st.guesses && r.gameId in st.games
    requires st.rounds[k.roundId].status != ResolvedCorrect
    requires r.wrong == st.rounds[k.roundId].wrong + if isCorrect then 0 else 1
    requires r.status == ResolvedCorrect <==> isCorrect
    ensures AllGuessesOk(Rewritten(WithGuess(st, k, isCorrect), k.roundId, r, g))
  {
    var st' := Rewritten(WithGuess(st, k, isCorrect), k.roundId, r, g);
    var guess := st'.guesses[k];
    forall i | i in st'.rounds
      ensures GuessesOk(st'.guesses, i, st'.rounds[i])
    {
      assert GuessesOk(st.guesses, i, st.rounds[i]);
      if i == k.roundId {
        GuessAdded(st.guesses, k, guess, st.rounds[i], r);
      } else {
        GuessesElsewhere(st.guesses, k, guess, i, st.rounds[i]);
      }
    }
  }

  lemma AfterGuessKeepsInv(st: Store, k: GuessKey, isCorrect: bool, r: Round, g: Game)
    requires Inv(st) && k.roundId in st.rounds && k !in st.guesses && st.rounds[k.roundId].status != ResolvedCorrect
    requires SameRound(st.rounds[k.roundId], r) && r.gameId in st.games
    requires SameGame(st.games[r.gameId], g) && GameOk(g) && RoundOk(g, r)
    requires g.totalScore == st.games[r.gameId].totalScore + (r.score - st.rounds[k.roundId].score)
    requires r.wrong == st.rounds[k.roundId].wrong + if isCorrect then 0 else 1
    requires r.status == ResolvedCorrect <==> isCorrect
    ensures Inv(Rewritten(WithGuess(st, k, isCorrect), k.roundId, r, g))
  {
    RecordsAfterGuess(st, k, isCorrect, r, g);
    GuessesAfterRecord(st, k, isCorrect, r, g);
  }

  /** What an active round and its game become by a guess. */
  lemma GuessResolves(st: Store, k: GuessKey, isCorrect: bool) returns (r: Round, g: Game)
    requires RecordsOk(st) && k.roundId in st.rounds && st.rounds[k.roundId].status == Active
    ensures RecordGuess(st, k, isCorrect) == (Rewritten(WithGuess(st, k, isCorrect), k.roundId, r, g), Ok)
    ensures SameRound(st.rounds[k.roundId], r) && r.gameId in st.games
    ensures SameGame(st.games[r.gameId], g) && GameOk(g) && RoundOk(g, r)
    ensures g.totalScore == st.games[r.gameId].totalScore + (r.score - st.rounds[k.roundId].score)
    ensures r.wrong == st.rounds[k.roundId].wrong + if isCorrect then 0 else 1
    ensures r.status == ResolvedCorrect <==> isCorrect
  {
    var r0 := st.rounds[k.roundId];
    var g0 := st.games[r0.gameId];
    assert HasGame(st, r0) && GameOk(g0);
    ResolveIsOk(g0, r0, isCorrect);
    var (r1, score) := ResolveGuess(r0, isCorrect);
    r := r1;
    g := g0.(totalScore := g0.totalScore + score.points);
    OkWhateverTheTotal(g0, g, r);
  }

  lemma RecordGuessKeepsInv(st: Store, k: GuessKey, isCorrect: bool)
    requires Inv(st) && k.roundId in st.rounds && st.rounds[k.roundId].status == Active
    requires k !in st.guesses
    ensures st.rounds[k.roundId].gameId in st.games
    ensures Inv(RecordGuess(st, k, isCorrect).0)
    ensures RecordGuess(st, k, isCorrect).1 == Ok
  {
    var r, g := GuessResolves(st, k, isCorrect);
    AfterGuessKeepsInv(st, k, isCorrect, r, g);
  }

  /** No guess ever leaves the score curve, and every state it leads to is consistent. */
  lemma SubmitGuessKeepsInv(st: Store, gid: Id, id: Id, session: Id, choiceId: Id, now: int)
    requires Inv(st)
    ensures Inv(SubmitGuess(st, gid, id, session, choiceId, now).0)
    ensures SubmitGuess(st, gid, id, session, choiceId, now).1 != ScoreRangeError
  {
    var k := GuessKey(id, session, choiceId);
    if FindRound(st, gid, id, session) == Ok && k !in st.guesses {
      ExpireKeepsInv(st, id, now);
      var st' := ExpireIfNeeded(st, id, now);
      var r := st'.rounds[id];
      if r.status == Active && FindChoice(r.choices, choiceId).Some? {
        RecordGuessKeepsInv(st', k, FindChoice(r.choices, choiceId).value.userId == r.target);
      }
    }
  }

  // --------------------------------------------------------------------
  // Games, rounds and the way from one round to the next
  // --------------------------------------------------------------------

  lemma CreateGameKeepsInv(st: Store, gid: Id, session: Id, plan: seq<PlanEntry>, now: int)
    requires Inv(st) && gid !in st.games && PlanOk(plan)
    ensures Inv(CreateGame(st, gid, session, plan, now))
  {
    var st' := CreateGame(st, gid, session, plan, now);
    forall id | id in st'.rounds
      ensures HasGame(st', st'.rounds[id])
    {
      assert HasGame(st, st.rounds[id]);
    }
    forall i | i in st'.games
      ensures st'.games[i].totalScore == ScoreSum(st'.slots, st'.rounds, i, st'.games[i].totalRounds)
    {
      ScoreSumFrame(st, st', i, st'.games[i].totalRounds);
      if i == gid {
        NoSlotsNoScore(st, gid, |plan|);
      }
    }
  }

  lemma SlotHasGame(st: Store, slot: Slot)
    requires IndexOk(st) && slot in st.slots
    ensures slot.gameId in st.games
  {
    var id := st.slots[slot];
    assert SlotOf(st.rounds[id]) == slot;
  }

  lemma {:induction false} NoSlotsNoScore(st: Store, gid: Id, n: int)
    requires IndexOk(st) && gid !in st.games
    ensures ScoreSum(st.slots, st.rounds, gid, n) == 0
    decreases n
  {
    if n > 0 {
      NoSlotsNoScore(st, gid, n - 1);
      if Slot(gid, n) in st.slots {
        SlotHasGame(st, Slot(gid, n));
      }
    }
  }

  lemma FinishMaterializeKeepsInv(st: Store, gid: Id, order: int, id: Id, choiceIds: seq<Id>, now: int)
    requires Inv(st) && gid in st.games && order == st.games[gid].currentRoundIndex + 1 <= |st.games[gid].plan|
    requires Slot(gid, order) !in st.slots && id !in st.rounds && 1 <= order
    requires |choiceIds| == |st.games[gid].plan[order - 1].choiceUserIds|
    ensures Inv(FinishMaterialize(st, gid, order, id, choiceIds, now))
  {
    var r := NewRound(gid, order, st.games[gid].plan[order - 1], choiceIds, now);
    assert RoundOk(st.games[gid], r);
    AddedRound(st, id, r);
    AddedRoundGuesses(st, id, r);
  }

  ghost function Added(st: Store, id: Id, r: Round): Store {
    st.(rounds := st.rounds[id := r], slots := st.slots[SlotOf(r) := id])
  }

  lemma AddedRound(st: Store, id: Id, r: Round)
    requires IndexOk(st) && RecordsOk(st) && TotalsOk(st)
    requires id !in st.rounds && SlotOf(r) !in st.slots && HasGame(st, r) && r.score == 0
    ensures IndexOk(Added(st, id, r)) && RecordsOk(Added(st, id, r)) && TotalsOk(Added(st, id, r))
  {
    AddedRecords(st, id, r);
    AddedTotals(st, id, r);
  }

  lemma AddedRecords(st: Store, id: Id, r: Round)
    requires RecordsOk(st) && id !in st.rounds && HasGame(st, r)
    ensures RecordsOk(Added(st, id, r))
  {
    var st' := Added(st, id, r);
    forall i | i in st'.rounds
      ensures HasGame(st', st'.rounds[i])
    {
      if i != id {
        assert HasGame(st, st.rounds[i]);
      }
    }
  }

  lemma AddedTotals(st: Store, id: Id, r: Round)
    requires IndexOk(st) && TotalsOk(st) && id !in st.rounds && SlotOf(r) !in st.slots && r.score == 0
    ensures TotalsOk(Added(st, id, r))
  {
    var st' := Added(st, id, r);
    forall i | i in st'.games
      ensures st'.games[i].totalScore == ScoreSum(st'.slots, st'.rounds, i, st'.games[i].totalRounds)
    {
      ScoreSumFrame(st, st', i, st'.games[i].totalRounds);
    }
  }

  lemma AddedRoundGuesses(st: Store, id: Id, r: Round)
    requires AllGuessesOk(st) && id !in st.rounds && r.wrong == 0 && r.status == Active
    ensures AllGuessesOk(Added(st, id, r))
  {
    var st' := Added(st, id, r);
    forall i | i in st'.rounds
      ensures GuessesOk(st'.guesses, i, st'.rounds[i])
    {
      if i == id {
        assert GuessesOf(st.guesses, id) == {} && WrongGuessesOf(st.guesses, id) == {};
      } else {
        assert GuessesOk(st.guesses, i, st.rounds[i]);
      }
    }
  }

  ghost predicate NoActiveRound(st: Store, gid: Id) {
    forall id | id in st.rounds && st.rounds[id].gameId == gid :: st.rounds[id].status != Active
  }

  /** When the current round is not active, no round of the game is. */
  lemma CurrentRoundDecides(st: Store, gid: Id)
    requires IndexOk(st) && RecordsOk(st) && gid in st.games
    requires !IsMidRound(st, gid)
    ensures NoActiveRound(st, gid)
  {
    forall id | id in st.rounds && st.rounds[id].gameId == gid
      ensures st.rounds[id].status != Active
    {
      assert HasGame(st, st.rounds[id]);
    }
  }

  lemma MovedRoundIsOk(g: Game, token: Id, r: Round)
    requires RoundOk(g, r) && r.status != Active
    ensures RoundOk(MoveOn(g, token), r)
  {
  }

  lemma MovedRecords(st: Store, gid: Id, token: Id)
    requires RecordsOk(st) && gid in st.games && NoActiveRound(st, gid)
    ensures RecordsOk(st.(games := st.games[gid := MoveOn(st.games[gid], token)]))
  {
    var st' := st.(games := st.games[gid := MoveOn(st.games[gid], token)]);
    assert GameOk(st.games[gid]) && GameOk(st'.games[gid]);
    forall i | i in st'.rounds
      ensures HasGame(st', st'.rounds[i])
    {
      assert HasGame(st, st.rounds[i]);
      if st.rounds[i].gameId == gid {
        MovedRoundIsOk(st.games[gid], token, st.rounds[i]);
      }
    }
  }

  lemma MoveOnKeepsInv(st: Store, gid: Id, token: Id)
    requires Inv(st) && gid in st.games && NoActiveRound(st, gid)
    ensures Inv(st.(games := st.games[gid := MoveOn(st.games[gid], token)]))
  {
    MovedRecords(st, gid, token);
  }

  lemma ExpireCurrentKeepsInv(st: Store, gid: Id, now: int)
    requires Inv(st) && gid in st.games
    ensures Inv(ExpireCurrentRound(st, gid, now)) && gid in ExpireCurrentRound(st, gid, now).games
  {
    if HasCurrentRound(st, gid) {
      ExpireKeepsInv(st, st.slots[CurrentSlot(st, gid)], now);
    }
  }

  lemma BeginAdvanceKeepsInv(st: Store, gid: Id, session: Id, now: int, token: Id)
    requires Inv(st)
    ensures Inv(BeginAdvance(st, gid, session, now, token).0)
  {
    if FindGame(st, gid, session) == Ok {
      ExpireCurrentKeepsInv(st, gid, now);
      var st' := ExpireCurrentRound(st, gid, now);
      if !IsMidRound(st', gid) {
        CurrentRoundDecides(st', gid);
        MoveOnKeepsInv(st', gid, token);
      }
    }
  }
}
