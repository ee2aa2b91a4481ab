/**
 Anonymous player sessions (apps/guess/src/http/session.ts): the in-memory repository and any
 number of `bootstrapSession` calls interleaved at their await points. As for admin sessions,
 hashing is taken to be collision-free and a generated token never to repeat.
 */
module PlayerSessions {
  import opened Options

  type Id = int
  type Token = int

  const DAY := 86_400_000
  const MAX_AGE := 180 * DAY
  const ROTATION_THRESHOLD := 30 * DAY

  datatype Session = Session(csrf: Token, created: int, lastSeen: int, expires: int, token: Token)

  datatype Store = Store(sessions: map<Id, Session>, byToken: map<Token, Id>)

  function Created(r: Store, id: Id, session: Session): Store {
    Store(r.sessions[id := session], r.byToken[session.token := id])
  }

  function Touched(r: Store, id: Id, now: int): Store {
    if id in r.sessions then r.(sessions := r.sessions[id := r.sessions[id].(lastSeen := now)]) else r
  }

  function Rotated(r: Store, id: Id, token: Token, expires: int): Store {
    if id !in r.sessions then r
    else
      Store(r.sessions[id := r.sessions[id].(token := token, expires := expires)],
            (r.byToken - {r.sessions[id].token})[token := id])
  }

  function CsrfRotated(r: Store, id: Id, csrf: Token): Store {
    if id in r.sessions then r.(sessions := r.sessions[id := r.sessions[id].(csrf := csrf)]) else r
  }

  class Repository {
    var sessions: map<Id, Session>
    var byToken: map<Token, Id>

    constructor ()
      ensures Now() == Store(map[], map[])
    {
      sessions, byToken := map[], map[];
    }

    function Now(): Store
      reads this
    {
      Store(sessions, byToken)
    }

    method CreateSession(id: Id, token: Token, csrf: Token, now: int, expires: int)
      modifies this
      ensures Now() == Created(old(Now()), id, Session(csrf, now, now, expires, token))
    {
      sessions := sessions[id := Session(csrf, now, now, expires, token)];
      byToken := byToken[token := id];
    }

    method TouchSession(id: Id, now: int)
      modifies this`sessions
      ensures Now() == Touched(old(Now()), id, now)
    {
      if id in sessions {
        sessions := sessions[id := sessions[id].(lastSeen := now)];
      }
    }

    method RotateSession(id: Id, token: Token, expires: int)
      modifies this
      ensures Now() == Rotated(old(Now()), id, token, expires)
    {
      if id !in sessions {
        return;
      }
      var record := sessions[id];
      byToken := byToken - {record.token};
      record := record.(token := token);
      record := record.(expires := expires);
      sessions := sessions[id := record];
      byToken := byToken[token := id];
    }

    method RotateCsrf(id: Id, csrf: Token)
      modifies this`sessions
      ensures Now() == CsrfRotated(old(Now()), id, csrf)
    {
      if id in sessions {
        sessions := sessions[id := sessions[id].(csrf := csrf)];
      }
    }
  }

  // --------------------------------------------------------------------
  // Bootstrap calls
  // --------------------------------------------------------------------

  datatype Result = Result(token: Token, csrf: Token, expires: int, rotated: bool, isNew: bool)

  /** Found: the look-up returned. Renewing: the session was live and its CSRF token is replaced. */
  datatype Phase = Arrived | Found(id: Id) | Fresh | Renewing(session: Id, rotates: bool) | Ended(result: Result)

  datatype Call = Call(existing: Option<Token>, csrf: Token, now: int, phase: Phase)

  datatype State = State(store: Store, issued: set<Token>, calls: map<int, Call>)

  datatype Action =
    | Arrive(c: int, existing: Option<Token>, csrf: Token, now: int)
    | LookUp(c: int)
    | Check(c: int)
    | Create(c: int, id: Id, token: Token)
    | Renew(c: int, token: Token)

  predicate ShouldRotate(s: Session, now: int) {
    now - s.created > ROTATION_THRESHOLD
  }

  predicate Enabled(s: State, act: Action) {
    match act
    case Arrive(c, _, _, _) => c !in s.calls
    case LookUp(c) => c in s.calls && s.calls[c].phase.Arrived?
    case Check(c) => c in s.calls && s.calls[c].phase.Found? && s.calls[c].phase.id in s.store.sessions
    case Create(c, id, token) =>
      c in s.calls && s.calls[c].phase.Fresh? && id !in s.store.sessions && token !in s.issued
    case Renew(c, token) =>
      c in s.calls && s.calls[c].phase.Renewing? && s.calls[c].phase.session in s.store.sessions && token !in s.issued
  }

  function Moved(s: State, c: int, phase: Phase): State
    requires c in s.calls
  {
    s.(calls := s.calls[c := s.calls[c].(phase := phase)])
  }

  function Next(s: State, act: Action): State
    requires Enabled(s, act)
  {
    match act
    case Arrive(c, existing, csrf, now) => s.(calls := s.calls[c := Call(existing, csrf, now, Arrived)])
    case LookUp(c) =>
      var existing := s.calls[c].existing;
      Moved(s, c, if existing.Some? && existing.value in s.store.byToken then Found(s.store.byToken[existing.value]) else Fresh)
    case Check(c) =>
      var q := s.calls[c];
      var session := s.store.sessions[q.phase.id];
      if session.expires > q.now then
        Moved(s.(store := CsrfRotated(s.store, q.phase.id, q.csrf)), c, Renewing(q.phase.id, ShouldRotate(session, q.now)))
      else Moved(s, c, Fresh)
    case Create(c, id, token) =>
      var q := s.calls[c];
      Moved(s.(store := Created(s.store, id, Session(q.csrf, q.now, q.now, q.now + MAX_AGE, token)),
               issued := s.issued + {token}), c,
            Ended(Result(token, q.csrf, q.now + MAX_AGE, false, true)))
    case Renew(c, token) =>
      var q := s.calls[c];
      var id := q.phase.session;
      if q.phase.rotates then
        Moved(s.(store := Rotated(s.store, id, token, q.now + MAX_AGE), issued := s.issued + {token}), c,
              Ended(Result(token, q.csrf, q.now + MAX_AGE, true, false)))
      else
        Moved(s.(store := Touched(s.store, id, q.now)), c,
              Ended(Result(if q.existing.Some? then q.existing.value else 0, q.csrf, s.store.sessions[id].expires, false, false)))
  }

  const INIT := State(Store(map[], map[]), {}, map[])

  ghost predicate IsRun(run: seq<State>) {
    run != [] && run[0] == INIT && forall i | 0 <= i < |run| - 1 :: IsStep(run, i)
  }

  ghost predicate IsStep(run: seq<State>, i: int)
    requires 0 <= i < |run| - 1
  {
    exists act :: Enabled(run[i], act) && run[i + 1] == Next(run[i], act)
  }

  // --------------------------------------------------------------------
  // The invariant
  // --------------------------------------------------------------------

  /** The index names exactly the sessions, each by its current token. */
  ghost predicate Indexed(r: Store) {
    && (forall h | h in r.byToken :: Names(r, h))
    && (forall id | id in r.sessions :: r.sessions[id].token in r.byToken && r.byToken[r.sessions[id].token] == id)
  }

  predicate Names(r: Store, h: Token)
    requires h in r.byToken
  {
    r.byToken[h] in r.sessions && r.sessions[r.byToken[h]].token == h
  }

  predicate CallOk(sessions: map<Id, Session>, q: Call) {
    && (q.phase.Found? ==> q.phase.id in sessions && q.existing.Some?)
    && (q.phase.Renewing? ==> q.phase.session in sessions && q.existing.Some?)
  }

  ghost predicate Inv(s: State) {
    && Indexed(s.store)
    && (forall h | h in s.store.byToken :: h in s.issued)
    && (forall c | c in s.calls :: CallOk(s.store.sessions, s.calls[c]))
  }

  /** Sessions stay, keep their creation time, and a retired token stays retired. */
  predicate Evolves(s: State, t: State) {
    && (forall id | id in s.store.sessions ::
          id in t.store.sessions && t.store.sessions[id].created == s.store.sessions[id].created)
    && s.issued <= t.issued
    && (forall h | h in s.issued && h !in s.store.byToken :: h !in t.store.byToken)
  }

  /** A step that leaves tokens alone and moves one call. */
  lemma TokensUntouched(s: State, store: Store, c: int, q: Call)
    requires Inv(s) && store.byToken == s.store.byToken
    requires forall id :: id in store.sessions <==> id in s.store.sessions
    requires forall id | id in s.store.sessions ::
      store.sessions[id].token == s.store.sessions[id].token && store.sessions[id].created == s.store.sessions[id].created
    requires CallOk(s.store.sessions, q)
    ensures var t := s.(store := store, calls := s.calls[c := q]); Inv(t) && Evolves(s, t)
  {
    var t := s.(store := store, calls := s.calls[c := q]);
    forall h | h in t.store.byToken ensures Names(t.store, h) {
      assert Names(s.store, h);
      var id := s.store.byToken[h];
      assert id in s.store.sessions;
    }
    forall d | d in t.calls ensures CallOk(t.store.sessions, t.calls[d]) {
      assert d != c ==> CallOk(s.store.sessions, s.calls[d]);
    }
  }

  lemma CreateKeepsInv(s: State, c: int, id: Id, token: Token)
    requires Inv(s) && Enabled(s, Create(c, id, token))
    ensures Inv(Next(s, Create(c, id, token))) && Evolves(s, Next(s, Create(c, id, token)))
  {
    var t := Next(s, Create(c, id, token));
    forall h | h in t.store.byToken ensures Names(t.store, h) {
      assert h != token ==> Names(s.store, h);
    }
    forall d | d in t.calls ensures CallOk(t.store.sessions, t.calls[d]) {
      assert CallOk(s.store.sessions, s.calls[d]);
    }
  }

  lemma RenewKeepsInv(s: State, c: int, token: Token)
    requires Inv(s) && Enabled(s, Renew(c, token))
    ensures Inv(Next(s, Renew(c, token))) && Evolves(s, Next(s, Renew(c, token)))
  {
    var t := Next(s, Renew(c, token));
    var q := s.calls[c];
    if q.phase.rotates {
      forall d | d in t.calls ensures CallOk(t.store.sessions, t.calls[d]) {
        assert CallOk(s.store.sessions, s.calls[d]);
      }
    } else {
      TokensUntouched(s, Touched(s.store, q.phase.session, q.now), c, t.calls[c]);
    }
  }

  lemma NextKeepsInv(s: State, act: Action)
    requires Inv(s) && Enabled(s, act)
    ensures Inv(Next(s, act)) && Evolves(s, Next(s, act))
  {
    match act
    case Arrive(c, existing, csrf, now) => TokensUntouched(s, s.store, c, Call(existing, csrf, now, Arrived));
    case LookUp(c) =>
      var q := s.calls[c];
      if q.existing.Some? && q.existing.value in s.store.byToken {
        assert Names(s.store, q.existing.value);
      }
      TokensUntouched(s, s.store, c, Next(s, act).calls[c]);
    case Check(c) => TokensUntouched(s, Next(s, act).store, c, Next(s, act).calls[c]);
    case Create(c, id, token) => CreateKeepsInv(s, c, id, token);
    case Renew(c, token) => RenewKeepsInv(s, c, token);
  }

  // --------------------------------------------------------------------
  // Every run
  // --------------------------------------------------------------------

  /** In every state the token index and the sessions are in bijection. */
  lemma {:induction false} RunKeepsInv(run: seq<State>, i: nat)
    requires IsRun(run) && i < |run|
    ensures Inv(run[i])
  {
    if i > 0 {
      RunKeepsInv(run, i - 1);
      assert IsStep(run, i - 1);
      var act :| Enabled(run[i - 1], act) && run[i] == Next(run[i - 1], act);
      NextKeepsInv(run[i - 1], act);
    }
  }

  lemma {:induction false} RunEvolves(run: seq<State>, i: nat, j: nat)
    requires IsRun(run) && i <= j < |run|
    ensures Evolves(run[i], run[j])
    decreases j
  {
    if i < j {
      RunEvolves(run, i, j - 1);
      RunKeepsInv(run, j - 1);
      assert IsStep(run, j - 1);
      var act :| Enabled(run[j - 1], act) && run[j] == Next(run[j - 1], act);
      NextKeepsInv(run[j - 1], act);
    }
  }

  /** A retired token finds no session again: a bootstrap with it starts a new one. */
  lemma RetiredTokenStartsAnew(run: seq<State>, i: nat, j: nat, c: int, token: Token)
    requires IsRun(run) && i <= j < |run| && token in run[i].issued && token !in run[i].store.byToken
    requires Enabled(run[j], LookUp(c)) && run[j].calls[c].existing == Some(token)
    ensures Next(run[j], LookUp(c)).calls[c].phase == Fresh
  {
    RunEvolves(run, i, j);
  }

  /**
   Since rotation does not renew the creation time, from thirty days on every bootstrap of the session
   rotates its token, and never before.
   */
  lemma RotatesExactlyWhenOld(run: seq<State>, i: nat, j: nat, c: int, id: Id)
    requires IsRun(run) && i <= j < |run| && id in run[i].store.sessions
    requires Enabled(run[j], Check(c)) && run[j].calls[c].phase.id == id
    requires run[j].store.sessions[id].expires > run[j].calls[c].now
    ensures Next(run[j], Check(c)).calls[c].phase
         == Renewing(id, run[j].calls[c].now - run[i].store.sessions[id].created > ROTATION_THRESHOLD)
  {
    RunEvolves(run, i, j);
  }

  /** Of two overlapping bootstraps of such a session the one that finishes first is left with a retired token. */
  lemma OverlapRetiresTheFirst(run: seq<State>, i: nat, c: int, d: int, first: Token, second: Token)
    requires IsRun(run) && i < |run| && c != d && first != second
    requires Enabled(run[i], Renew(c, first)) && run[i].calls[c].phase.rotates
    requires Enabled(run[i], Renew(d, second)) && run[i].calls[d].phase == run[i].calls[c].phase
    ensures Enabled(Next(run[i], Renew(c, first)), Renew(d, second))
    ensures var end := Next(Next(run[i], Renew(c, first)), Renew(d, second));
      && end.calls[c].phase.Ended? && end.calls[c].phase.result.token == first
      && first !in end.store.byToken && second in end.store.byToken
  {
    RunKeepsInv(run, i);
    NextKeepsInv(run[i], Renew(c, first));
    var s := Next(run[i], Renew(c, first));
  }

  // --------------------------------------------------------------------
  // What a bootstrap answers
  // --------------------------------------------------------------------

  /** In any state of any run a look-up finds the session whose current token was sent, and no other. */
  lemma FoundIff(run: seq<State>, i: nat, c: int, id: Id)
    requires IsRun(run) && i < |run| && Enabled(run[i], LookUp(c))
    ensures var s, t := run[i], Next(run[i], LookUp(c));
      && t.store == s.store
      && (t.calls[c].phase == Found(id)
          <==> id in s.store.sessions && s.calls[c].existing == Some(s.store.sessions[id].token))
      && (t.calls[c].phase == Fresh
          <==> forall k | k in s.store.sessions :: s.calls[c].existing != Some(s.store.sessions[k].token))
  {
    RunKeepsInv(run, i);
    var s := run[i];
    var existing := s.calls[c].existing;
    if existing.Some? && existing.value in s.store.byToken {
      assert Names(s.store, existing.value);
    }
  }

  /** A session that was found is taken up exactly when it has not expired, and then gets the call's CSRF token. */
  lemma TakenUpIff(s: State, c: int)
    requires Enabled(s, Check(c))
    ensures var t := Next(s, Check(c));
      var id := s.calls[c].phase.id;
      && (t.calls[c].phase.Renewing? <==> s.calls[c].now < s.store.sessions[id].expires)
      && (t.calls[c].phase.Renewing? ==>
            t.calls[c].phase.session == id && t.store.sessions[id] == s.store.sessions[id].(csrf := s.calls[c].csrf))
      && (!t.calls[c].phase.Renewing? ==> t.calls[c].phase == Fresh && t.store == s.store)
      && (forall k | k in s.store.sessions && k != id :: k in t.store.sessions && t.store.sessions[k] == s.store.sessions[k])
  {
  }

  /**
   A session taken up keeps its token and expiry and notes the visit, unless it is rotated: then it has the new token and
   180 days from now. The answer tells the client what the session now has.
   */
  lemma RenewalAnswers(run: seq<State>, i: nat, c: int, token: Token)
    requires IsRun(run) && i < |run| && Enabled(run[i], Renew(c, token))
    ensures var s, t := run[i], Next(run[i], Renew(c, token));
      var q, id := s.calls[c], s.calls[c].phase.session;
      var before, after := s.store.sessions[id], t.store.sessions[id];
      && t.calls[c].phase.Ended? && q.existing.Some?
      && t.calls[c].phase.result
         == Result(if q.phase.rotates then token else q.existing.value, q.csrf, after.expires, q.phase.rotates, false)
      && after == (if q.phase.rotates then before.(token := token, expires := q.now + MAX_AGE) else before.(lastSeen := q.now))
      && (q.phase.rotates ==> token in t.store.byToken && t.store.byToken[token] == id)
  {
    RunKeepsInv(run, i);
    assert CallOk(run[i].store.sessions, run[i].calls[c]);
  }

  /** A new session has what the client is told: a token that finds it, the call's CSRF token, and 180 days. */
  lemma NewSessionAnswers(s: State, c: int, id: Id, token: Token)
    requires Enabled(s, Create(c, id, token))
    ensures var t := Next(s, Create(c, id, token));
      && t.calls[c].phase.Ended? && t.calls[c].phase.result.isNew && !t.calls[c].phase.result.rotated
      && id in t.store.sessions && token in t.store.byToken && t.store.byToken[token] == id
      && t.calls[c].phase.result.token == t.store.sessions[id].token == token
      && t.calls[c].phase.result.csrf == t.store.sessions[id].csrf == s.calls[c].csrf
      && t.calls[c].phase.result.expires == t.store.sessions[id].expires == s.calls[c].now + MAX_AGE
      && t.store.sessions[id].created == t.store.sessions[id].lastSeen == s.calls[c].now
  {
  }
}
