/**
 The state of the in-memory game unit of work and its atomic transitions
 (apps/guess/src/game/unit-of-work.ts). A transition covers the code between two
 await points; what it throws is an `Outcome`, with the writes made before it.
 */
module GameStore {
  import opened Options
  import opened Scoring

  type Id = int

  datatype GameStatus = InProgress | Completed | Abandoned
  datatype RoundStatus = Active | ResolvedCorrect | ResolvedIncorrect | Expired

  datatype PlanEntry = PlanEntry(target: Id, postIds: seq<Id>, choiceUserIds: seq<Id>)

  datatype Game = Game(
    session: Id, plan: seq<PlanEntry>, totalRounds: int, currentRoundIndex: int, totalScore: int,
    status: GameStatus, shareToken: Option<Id>, expiresAt: int)

  datatype Post = Post(postId: Id, revealed: bool)
  datatype Choice = Choice(choiceId: Id, userId: Id)

  datatype Round = Round(
    gameId: Id, order: int, target: Id, status: RoundStatus, hints: int, wrong: int, score: int,
    expiresAt: int, posts: seq<Post>, choices: seq<Choice>)

  datatype Guess = Guess(isCorrect: bool, attempt: int)

  /** The map keys the source builds by joining ids with colons. */
  datatype Slot = Slot(gameId: Id, order: int)
  datatype GuessKey = GuessKey(roundId: Id, session: Id, choiceId: Id)

  datatype Store = Store(
    games: map<Id, Game>, rounds: map<Id, Round>, slots: map<Slot, Id>, guesses: map<GuessKey, Guess>)

  const ROUND_EXPIRY_MS := 120000
  const GAME_EXPIRY_MS := 86400000

  datatype Outcome =
    | Ok
    | GameNotFound
    | Forbidden
    | RoundNotFound
    | RoundNotActive
    | InvalidChoice
    | ScoreRangeError
    | ContentFailed            // a content lookup rejected

  // --------------------------------------------------------------------
  // Transitions
  // --------------------------------------------------------------------

  function NewGame(session: Id, plan: seq<PlanEntry>, now: int): Game {
    Game(session, plan, |plan|, 0, 0, InProgress, None, now + GAME_EXPIRY_MS)
  }

  function CreateGame(st: Store, gameId: Id, session: Id, plan: seq<PlanEntry>, now: int): Store {
    st.(games := st.games[gameId := NewGame(session, plan, now)])
  }

  function ExpireGame(g: Game, now: int): Game {
    if g.status == InProgress && now >= g.expiresAt then g.(status := Abandoned) else g
  }

  function ExpireRound(r: Round, now: int): Round {
    if r.status == Active && now >= r.expiresAt then r.(status := Expired, score := 0) else r
  }

  /** Round `id` and its game rewritten in place. */
  function Rewritten(st: Store, id: Id, r: Round, g: Game): Store {
    st.(rounds := st.rounds[id := r], games := st.games[r.gameId := g])
  }

  function ExpireIfNeeded(st: Store, roundId: Id, now: int): Store
    requires roundId in st.rounds && st.rounds[roundId].gameId in st.games
  {
    var r := st.rounds[roundId];
    Rewritten(st, roundId, ExpireRound(r, now), ExpireGame(st.games[r.gameId], now))
  }

  /** The lookups every operation starts with. */
  function FindGame(st: Store, gameId: Id, session: Id): Outcome {
    if gameId !in st.games then GameNotFound
    else if st.games[gameId].session != session then Forbidden
    else Ok
  }

  function FindRound(st: Store, gameId: Id, roundId: Id, session: Id): Outcome {
    var found := FindGame(st, gameId, session);
    if found != Ok then found
    else if roundId !in st.rounds || st.rounds[roundId].gameId != gameId then RoundNotFound
    else Ok
  }

  function RevealOne(r: Round): Round {
    if r.hints < |r.posts| then
      r.(hints := r.hints + 1, posts := if 0 <= r.hints then r.posts[r.hints := r.posts[r.hints].(revealed := true)] else r.posts)
    else r
  }

  function RevealNextHint(st: Store, gameId: Id, roundId: Id, session: Id, now: int): (Store, Outcome) {
    var found := FindRound(st, gameId, roundId, session);
    if found != Ok then (st, found)
    else
      var st' := ExpireIfNeeded(st, roundId, now);
      var r := st'.rounds[roundId];
      if r.status != Active then (st', RoundNotActive)
      else (Rewritten(st', roundId, RevealOne(r), st'.games[gameId]), Ok)
  }

  function GuessesOf(guesses: map<GuessKey, Guess>, roundId: Id): set<GuessKey> {
    set k | k in guesses && k.roundId == roundId
  }

  function FindChoice(choices: seq<Choice>, choiceId: Id): Option<Choice> {
    if choices == [] then None
    else if choices[0].choiceId == choiceId then Some(choices[0])
    else FindChoice(choices[1..], choiceId)
  }

  /** The round after a guess, and the points it adds to the game. */
  function ResolveGuess(r: Round, isCorrect: bool): (Round, Score) {
    if isCorrect then
      match NetScoreForRound(if r.hints < 1 then 1 else r.hints, r.wrong)
      case Points(p) => (r.(status := ResolvedCorrect, score := p), Points(p))
      case RangeError => (r.(status := ResolvedCorrect), RangeError)
    else
      var wrong := r.wrong + 1;
      (if IsRoundExhausted(wrong) then r.(wrong := wrong, status := ResolvedIncorrect, score := 0) else r.(wrong := wrong),
       Points(0))
  }

  function WithGuess(st: Store, k: GuessKey, isCorrect: bool): Store {
    st.(guesses := st.guesses[k := Guess(isCorrect, |GuessesOf(st.guesses, k.roundId)| + 1)])
  }

  /** A RangeError is thrown after the guess and the status are stored, before any score is. */
  function RecordGuess(st: Store, k: GuessKey, isCorrect: bool): (Store, Outcome)
    requires k.roundId in st.rounds && st.rounds[k.roundId].gameId in st.games
  {
    var (r, score) := ResolveGuess(st.rounds[k.roundId], isCorrect);
    var g := st.games[st.rounds[k.roundId].gameId];
    match score
    case Points(p) => (Rewritten(WithGuess(st, k, isCorrect), k.roundId, r, g.(totalScore := g.totalScore + p)), Ok)
    case RangeError => (Rewritten(WithGuess(st, k, isCorrect), k.roundId, r, g), ScoreRangeError)
  }

  function SubmitGuess(st: Store, gameId: Id, roundId: Id, session: Id, choiceId: Id, now: int): (Store, Outcome) {
    var found := FindRound(st, gameId, roundId, session);
    var k := GuessKey(roundId, session, choiceId);
    if found != Ok then (st, found)
    else if k in st.guesses then (st, Ok)
    else
      var st' := ExpireIfNeeded(st, roundId, now);
      var r := st'.rounds[roundId];
      if r.status != Active then (st', RoundNotActive)
      else
        match FindChoice(r.choices, choiceId)
        case None => (st', InvalidChoice)
        case Some(choice) => RecordGuess(st', k, choice.userId == r.target)
  }

  /** What is left to do after the synchronous part of an operation. */
  datatype Continuation =
    | Return(outcome: Outcome)
    | Resume(roundId: Id)           // the round exists; the await is still a scheduling point
    | Materialize(gameId: Id, order: int)

  /** `materializeRound` up to its first await on missing content. */
  function LookForRound(st: Store, gameId: Id, order: int): Continuation
    requires gameId in st.games
  {
    if Slot(gameId, order) in st.slots then Resume(st.slots[Slot(gameId, order)])
    else if 1 <= order <= |st.games[gameId].plan| then Materialize(gameId, order)
    else Return(RoundNotFound)
  }

  function BeginGetCurrentRound(st: Store, gameId: Id, session: Id): Continuation {
    var found := FindGame(st, gameId, session);
    if found != Ok then Return(found)
    else LookForRound(st, gameId, st.games[gameId].currentRoundIndex + 1)
  }

  function NewPosts(postIds: seq<Id>): (r: seq<Post>)
    ensures |r| == |postIds|
    ensures forall i | 0 <= i < |postIds| :: r[i] == Post(postIds[i], i == 0)
  {
    seq(|postIds|, i requires 0 <= i < |postIds| => Post(postIds[i], i == 0))
  }

  function NewChoices(choiceIds: seq<Id>, userIds: seq<Id>): (r: seq<Choice>)
    requires |choiceIds| == |userIds|
    ensures |r| == |userIds|
    ensures forall i | 0 <= i < |userIds| :: r[i] == Choice(choiceIds[i], userIds[i])
  {
    seq(|userIds|, i requires 0 <= i < |userIds| => Choice(choiceIds[i], userIds[i]))
  }

  function NewRound(gameId: Id, order: int, plan: PlanEntry, choiceIds: seq<Id>, now: int): Round
    requires |choiceIds| == |plan.choiceUserIds|
  {
    Round(gameId, order, plan.target, Active, 1, 0, 0, now + ROUND_EXPIRY_MS,
          NewPosts(plan.postIds), NewChoices(choiceIds, plan.choiceUserIds))
  }

  /** The end of `materializeRound`: it writes both maps without looking again. */
  function FinishMaterialize(st: Store, gameId: Id, order: int, roundId: Id, choiceIds: seq<Id>, now: int): Store
    requires gameId in st.games && 1 <= order <= |st.games[gameId].plan|
    requires |choiceIds| == |st.games[gameId].plan[order - 1].choiceUserIds|
  {
    st.(rounds := st.rounds[roundId := NewRound(gameId, order, st.games[gameId].plan[order - 1], choiceIds, now)],
        slots := st.slots[Slot(gameId, order) := roundId])
  }

  function MoveOn(g: Game, shareToken: Id): Game {
    var index := g.currentRoundIndex + 1;
    if index >= g.totalRounds then g.(currentRoundIndex := index, status := Completed, shareToken := Some(shareToken))
    else g.(currentRoundIndex := index)
  }

  function CurrentSlot(st: Store, gameId: Id): Slot
    requires gameId in st.games
  {
    Slot(gameId, st.games[gameId].currentRoundIndex + 1)
  }

  predicate HasCurrentRound(st: Store, gameId: Id)
    requires gameId in st.games
  {
    var slot := CurrentSlot(st, gameId);
    slot in st.slots && st.slots[slot] in st.rounds && st.rounds[st.slots[slot]].gameId == gameId
  }

  function ExpireCurrentRound(st: Store, gameId: Id, now: int): Store
    requires gameId in st.games
  {
    if HasCurrentRound(st, gameId) then ExpireIfNeeded(st, st.slots[CurrentSlot(st, gameId)], now) else st
  }

  predicate IsMidRound(st: Store, gameId: Id)
    requires gameId in st.games
  {
    HasCurrentRound(st, gameId) && st.rounds[st.slots[CurrentSlot(st, gameId)]].status == Active
  }

  function MoveToNextRound(st: Store, gameId: Id, shareToken: Id): (Store, Continuation)
    requires gameId in st.games
  {
    var g := MoveOn(st.games[gameId], shareToken);
    var st' := st.(games := st.games[gameId := g]);
    (st', if g.currentRoundIndex >= g.totalRounds then Return(Ok)
          else LookForRound(st', gameId, g.currentRoundIndex + 1))
  }

  /** `advanceToNextRound` up to the await in `materializeRound`. */
  function BeginAdvance(st: Store, gameId: Id, session: Id, now: int, shareToken: Id): (Store, Continuation) {
    var found := FindGame(st, gameId, session);
    if found != Ok then (st, Return(found))
    else
      var st' := ExpireCurrentRound(st, gameId, now);
      if IsMidRound(st', gameId) then (st', Return(RoundNotActive)) else MoveToNextRound(st', gameId, shareToken)
  }
}
