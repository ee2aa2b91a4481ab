/**
 Admin sessions (apps/guess/src/http/admin-session.ts): the in-memory repository, and any
 number of logins, authenticated requests, logouts and deactivations interleaved at their
 await points. Tokens and hashes are one type here: hashing is taken to be collision-free
 and a generated token never to repeat. Times are milliseconds.
 */
module AdminSessions {
  import opened Options
  import opened Sets

  type Id = int
  type Admin = int
  type Token = int

  const HOUR := 3_600_000
  const MAX_AGE := 12 * HOUR
  const ABSOLUTE_MAX := 7 * 24 * HOUR
  const ROTATION_WINDOW := 3 * HOUR

  /** `active` is whether the admin's account was active when the session was last looked up. */
  datatype Session = Session(
    admin: Admin, csrf: Token, created: int, expires: int, revoked: Option<int>, token: Token, active: bool)

  /** The repository's two maps. */
  datatype Store = Store(sessions: map<Id, Session>, byToken: map<Token, Id>)

  function Created(r: Store, id: Id, session: Session): Store {
    Store(r.sessions[id := session], r.byToken[session.token := id])
  }

  /** Looking a session up refreshes what its record says of the admin, for every request that holds the record. */
  function Refreshed(r: Store, id: Id, active: set<Admin>): Store {
    if id in r.sessions then r.(sessions := r.sessions[id := r.sessions[id].(active := r.sessions[id].admin in active)]) else r
  }

  function LookedUp(r: Store, token: Token, active: set<Admin>): Store {
    if token in r.byToken then Refreshed(r, r.byToken[token], active) else r
  }

  function Extended(r: Store, id: Id, expires: int): Store {
    if id in r.sessions then r.(sessions := r.sessions[id := r.sessions[id].(expires := expires)]) else r
  }

  function Rotated(r: Store, id: Id, token: Token, expires: int): Store {
    if id !in r.sessions then r
    else
      Store(r.sessions[id := r.sessions[id].(token := token, expires := expires)],
            (r.byToken - {r.sessions[id].token})[token := id])
  }

  function Revoked(r: Store, id: Id, now: int): Store {
    if id in r.sessions then r.(sessions := r.sessions[id := r.sessions[id].(revoked := Some(now))]) else r
  }

  /** Whether a mass revocation for an admin reaches the session. */
  predicate Reached(id: Id, s: Session, admin: Admin, except: Option<Id>) {
    s.admin == admin && Some(id) != except && s.revoked.None?
  }

  function AllRevoked(r: Store, admin: Admin, now: int, except: Option<Id>): Store {
    r.(sessions := map id | id in r.sessions ::
         if Reached(id, r.sessions[id], admin, except) then r.sessions[id].(revoked := Some(now)) else r.sessions[id])
  }

  /** The sessions when all but those in `todo` have been looked at. */
  function Progressed(before: map<Id, Session>, todo: set<Id>, admin: Admin, now: int, except: Option<Id>): map<Id, Session> {
    map id | id in before ::
      if id !in todo && Reached(id, before[id], admin, except) then before[id].(revoked := Some(now)) else before[id]
  }

  function ReachedOutside(before: map<Id, Session>, todo: set<Id>, admin: Admin, except: Option<Id>): set<Id> {
    set id | id in before && id !in todo && Reached(id, before[id], admin, except)
  }

  lemma OneMoreRevoked(before: map<Id, Session>, todo: set<Id>, id: Id, admin: Admin, now: int, except: Option<Id>)
    requires id in todo && id in before
    ensures Progressed(before, todo, admin, now, except)[id] == before[id]
    ensures Progressed(before, todo - {id}, admin, now, except)
         == if Reached(id, before[id], admin, except)
            then Progressed(before, todo, admin, now, except)[id := before[id].(revoked := Some(now))]
            else Progressed(before, todo, admin, now, except)
    ensures |ReachedOutside(before, todo - {id}, admin, except)|
         == |ReachedOutside(before, todo, admin, except)| + if Reached(id, before[id], admin, except) then 1 else 0
  {
    var a, b := ReachedOutside(before, todo, admin, except), ReachedOutside(before, todo - {id}, admin, except);
    assert b == if Reached(id, before[id], admin, except) then a + {id} else a;
  }

  class Repository {
    var sessions: map<Id, Session>
    var byToken: map<Token, Id>

    constructor ()
      ensures Now() == Store(map[], map[])
    {
      sessions, byToken := map[], map[];
    }

    function Now(): Store
      reads this
    {
      Store(sessions, byToken)
    }

    method CreateSession(id: Id, admin: Admin, token: Token, csrf: Token, now: int, expires: int, active: set<Admin>)
      modifies this
      ensures Now() == Created(old(Now()), id, Session(admin, csrf, now, expires, None, token, admin in active))
    {
      sessions := sessions[id := Session(admin, csrf, now, expires, None, token, admin in active)];
      byToken := byToken[token := id];
    }

    method FindSessionByTokenHash(token: Token, active: set<Admin>) returns (found: Option<Id>)
      modifies this`sessions
      ensures Now() == LookedUp(old(Now()), token, active)
      ensures found == if token in byToken && byToken[token] in sessions then Some(byToken[token]) else None
    {
      if token !in byToken || byToken[token] !in sessions {
        return None;
      }
      var id := byToken[token];
      sessions := sessions[id := sessions[id].(active := sessions[id].admin in active)];
      found := Some(id);
    }

    method ExtendExpiry(id: Id, expires: int)
      modifies this`sessions
      ensures Now() == Extended(old(Now()), id, expires)
    {
      if id in sessions {
        sessions := sessions[id := sessions[id].(expires := expires)];
      }
    }

    method RotateToken(id: Id, token: Token, expires: int)
      modifies this
      ensures Now() == Rotated(old(Now()), id, token, expires)
    {
      if id !in sessions {
        return;
      }
      var record := sessions[id];
      byToken := byToken - {record.token};
      record := record.(token := token);
      record := record.(expires := expires);
      sessions := sessions[id := record];
      byToken := byToken[token := id];
    }

    method RevokeSession(id: Id, now: int)
      modifies this`sessions
      ensures Now() == Revoked(old(Now()), id, now)
    {
      if id in sessions {
        sessions := sessions[id := sessions[id].(revoked := Some(now))];
      }
    }

    method RevokeAllSessionsForAdmin(admin: Admin, now: int, except: Option<Id>) returns (count: int)
      modifies this`sessions
      ensures Now() == AllRevoked(old(Now()), admin, now, except)
      ensures count == |set id | id in old(sessions) && Reached(id, old(sessions)[id], admin, except)|
    {
      count := 0;
      ghost var before := sessions;
      var todo := sessions.Keys;
      assert Progressed(before, todo, admin, now, except) == before;
      assert ReachedOutside(before, todo, admin, except) == {};
      while todo != {}
        invariant todo <= before.Keys
        invariant sessions == Progressed(before, todo, admin, now, except)
        invariant count == |ReachedOutside(before, todo, admin, except)|
      {
        ghost var some := Member(todo);
        var id :| id in todo;
        OneMoreRevoked(before, todo, id, admin, now, except);
        todo := todo - {id};
        var record := sessions[id];
        if record.admin == admin && Some(id) != except && record.revoked.None? {
          sessions := sessions[id := record.(revoked := Some(now))];
          count := count + 1;
        }
      }
      assert sessions == AllRevoked(Store(before, byToken), admin, now, except).sessions;
      assert ReachedOutside(before, {}, admin, except) == set id | id in before && Reached(id, before[id], admin, except);
    }
  }

  // --------------------------------------------------------------------
  // Requests
  // --------------------------------------------------------------------

  datatype Answer = Unauthenticated | CsrfFailed | Granted(session: Id, rotated: Option<Token>)

  /** Arrived: before the look-up. Found: the look-up returned. Passed: the session was live at `now`. */
  datatype Phase = Arrived | Found(id: Id) | Passed(session: Id) | Ended(answer: Answer)

  datatype Request = Request(token: Token, csrf: Token, now: int, phase: Phase)

  datatype State = State(
    store: Store, active: set<Admin>, issued: set<Token>, requests: map<int, Request>)

  predicate IsLive(s: Session, now: int) {
    s.revoked.None? && s.expires > now && s.active
  }

  function ProposedExpiry(s: Session, now: int): int {
    if now + MAX_AGE < s.created + ABSOLUTE_MAX then now + MAX_AGE else s.created + ABSOLUTE_MAX
  }

  datatype Renewal = Rotate(expires: int) | Extend(until: int) | Keep

  function RenewalOf(s: Session, now: int): Renewal {
    if s.expires - now <= ROTATION_WINDOW && ProposedExpiry(s, now) > now then Rotate(ProposedExpiry(s, now))
    else if ProposedExpiry(s, now) > s.expires then Extend(ProposedExpiry(s, now))
    else Keep
  }

  datatype Action =
    | Login(id: Id, admin: Admin, token: Token, csrf: Token, now: int)
    | Arrive(r: int, token: Token, csrf: Token, now: int)
    | LookUp(r: int)
    | Check(r: int)
    | Act(r: int, token: Token)
    | Logout(id: Id, now: int)
    | LogoutAll(admin: Admin, now: int, except: Option<Id>)
    | SetActive(active: set<Admin>)

  predicate Enabled(s: State, act: Action) {
    match act
    case Login(id, _, token, _, _) => id !in s.store.sessions && token !in s.issued
    case Arrive(r, _, _, _) => r !in s.requests
    case LookUp(r) => r in s.requests && s.requests[r].phase.Arrived?
    case Check(r) => r in s.requests && s.requests[r].phase.Found? && s.requests[r].phase.id in s.store.sessions
    case Act(r, token) =>
      && r in s.requests && s.requests[r].phase.Passed? && s.requests[r].phase.session in s.store.sessions
      && token !in s.issued
    case Logout(_, _) => true
    case LogoutAll(_, _, _) => true
    case SetActive(_) => true
  }

  function Moved(s: State, r: int, phase: Phase): State
    requires r in s.requests
  {
    s.(requests := s.requests[r := s.requests[r].(phase := phase)])
  }

  /** Renewing the session of a request whose CSRF token matched. */
  function Renewed(s: State, r: int, id: Id, token: Token): State
    requires r in s.requests && id in s.store.sessions
  {
    match RenewalOf(s.store.sessions[id], s.requests[r].now)
    case Rotate(expires) =>
      Moved(s.(store := Rotated(s.store, id, token, expires), issued := s.issued + {token}), r,
            Ended(Granted(id, Some(token))))
    case Extend(until) => Moved(s.(store := Extended(s.store, id, until)), r, Ended(Granted(id, None)))
    case Keep => Moved(s, r, Ended(Granted(id, None)))
  }

  function Next(s: State, act: Action): State
    requires Enabled(s, act)
  {
    match act
    case Login(id, admin, token, csrf, now) =>
      s.(store := Created(s.store, id, Session(admin, csrf, now, now + MAX_AGE, None, token, admin in s.active)),
         issued := s.issued + {token})
    case Arrive(r, token, csrf, now) => s.(requests := s.requests[r := Request(token, csrf, now, Arrived)])
    case LookUp(r) =>
      var token := s.requests[r].token;
      Moved(s.(store := LookedUp(s.store, token, s.active)), r,
            if token in s.store.byToken then Found(s.store.byToken[token]) else Ended(Unauthenticated))
    case Check(r) =>
      var id := s.requests[r].phase.id;
      Moved(s, r, if IsLive(s.store.sessions[id], s.requests[r].now) then Passed(id) else Ended(Unauthenticated))
    case Act(r, token) =>
      var id := s.requests[r].phase.session;
      if s.requests[r].csrf != s.store.sessions[id].csrf then Moved(s, r, Ended(CsrfFailed))
      else Renewed(s, r, id, token)
    case Logout(id, now) => s.(store := Revoked(s.store, id, now))
    case LogoutAll(admin, now, except) => s.(store := AllRevoked(s.store, admin, now, except))
    case SetActive(active) => s.(active := active)
  }

  const INIT := State(Store(map[], map[]), {}, {}, map[])

  ghost predicate IsRun(run: seq<State>) {
    run != [] && run[0] == INIT && forall i | 0 <= i < |run| - 1 :: IsStep(run, i)
  }

  ghost predicate IsStep(run: seq<State>, i: int)
    requires 0 <= i < |run| - 1
  {
    exists act :: Enabled(run[i], act) && run[i + 1] == Next(run[i], act)
  }

  // --------------------------------------------------------------------
  // The invariant
  // --------------------------------------------------------------------

  /** The index names exactly the sessions, each by its current token. */
  ghost predicate Indexed(r: Store) {
    && (forall h | h in r.byToken :: Names(r, h))
    && (forall id | id in r.sessions :: r.sessions[id].token in r.byToken && r.byToken[r.sessions[id].token] == id)
  }

  predicate Names(r: Store, h: Token)
    requires h in r.byToken
  {
    r.byToken[h] in r.sessions && r.sessions[r.byToken[h]].token == h
  }

  predicate Capped(s: Session) {
    s.expires <= s.created + ABSOLUTE_MAX
  }

  predicate RequestOk(sessions: map<Id, Session>, q: Request) {
    && (q.phase.Found? ==> q.phase.id in sessions)
    && (q.phase.Passed? ==> q.phase.session in sessions && q.now < sessions[q.phase.session].created + ABSOLUTE_MAX)
  }

  ghost predicate Inv(s: State) {
    && Indexed(s.store)
    && (forall h | h in s.store.byToken :: h in s.issued)
    && (forall id | id in s.store.sessions :: Capped(s.store.sessions[id]))
    && (forall r | r in s.requests :: RequestOk(s.store.sessions, s.requests[r]))
  }

  /** What no step takes back. */
  predicate Follows(s: Session, t: Session) {
    && t.admin == s.admin && t.csrf == s.csrf && t.created == s.created
    && s.expires <= t.expires
    && (s.revoked.Some? ==> t.revoked.Some?)
  }

  predicate Evolves(s: State, t: State) {
    && (forall id | id in s.store.sessions :: id in t.store.sessions && Follows(s.store.sessions[id], t.store.sessions[id]))
    && s.issued <= t.issued
    && (forall h | h in s.issued && h !in s.store.byToken :: h !in t.store.byToken)
  }

  lemma RenewalNeverShortens(s: Session, now: int)
    requires Capped(s)
    ensures match RenewalOf(s, now)
      case Rotate(e) => s.expires <= e <= s.created + ABSOLUTE_MAX && now < e
      case Extend(e) => s.expires < e <= s.created + ABSOLUTE_MAX
      case Keep => true
  {
  }

  lemma RotatedStaysIndexed(r: Store, id: Id, token: Token, expires: int)
    requires Indexed(r) && id in r.sessions && token !in r.byToken
    ensures Indexed(Rotated(r, id, token, expires))
    ensures r.sessions[id].token !in Rotated(r, id, token, expires).byToken
  {
    var q := Rotated(r, id, token, expires);
    forall h | h in q.byToken ensures Names(q, h) {
      if h != token {
        assert Names(r, h);
        assert r.byToken[h] != id;
      }
    }
    forall i | i in q.sessions ensures q.sessions[i].token in q.byToken && q.byToken[q.sessions[i].token] == i {
      if i != id {
        assert r.byToken[r.sessions[i].token] == i;
      }
    }
  }

  /** A step that changes sessions only in ways a session may follow, and not their tokens. */
  lemma TokensUntouched(s: State, store: Store)
    requires Inv(s) && store.byToken == s.store.byToken
    requires forall id :: id in store.sessions <==> id in s.store.sessions
    requires forall id | id in s.store.sessions ::
      && store.sessions[id].token == s.store.sessions[id].token
      && Follows(s.store.sessions[id], store.sessions[id]) && Capped(store.sessions[id])
    ensures Inv(s.(store := store)) && Evolves(s, s.(store := store))
  {
    forall h | h in store.byToken ensures Names(store, h) {
      assert Names(s.store, h);
      var id := s.store.byToken[h];
      assert id in s.store.sessions;
    }
    forall r | r in s.requests ensures RequestOk(store.sessions, s.requests[r]) {
      assert RequestOk(s.store.sessions, s.requests[r]);
    }
  }

  lemma RequestMoves(s: State, r: int, q: Request)
    requires Inv(s) && RequestOk(s.store.sessions, q)
    ensures Inv(s.(requests := s.requests[r := q])) && Evolves(s, s.(requests := s.requests[r := q]))
  {
  }

  lemma LoginKeepsInv(s: State, id: Id, admin: Admin, token: Token, csrf: Token, now: int)
    requires Inv(s) && Enabled(s, Login(id, admin, token, csrf, now))
    ensures Inv(Next(s, Login(id, admin, token, csrf, now)))
    ensures Evolves(s, Next(s, Login(id, admin, token, csrf, now)))
  {
    var t := Next(s, Login(id, admin, token, csrf, now));
    forall r | r in s.requests ensures RequestOk(t.store.sessions, s.requests[r]) {
      assert RequestOk(s.store.sessions, s.requests[r]);
    }
  }

  lemma ActKeepsInv(s: State, r: int, token: Token)
    requires Inv(s) && Enabled(s, Act(r, token))
    ensures Inv(Next(s, Act(r, token))) && Evolves(s, Next(s, Act(r, token)))
  {
    var q := s.requests[r];
    var id := q.phase.session;
    var session := s.store.sessions[id];
    assert Capped(session);
    if q.csrf != session.csrf {
      RequestMoves(s, r, q.(phase := Ended(CsrfFailed)));
    } else {
      RenewalNeverShortens(session, q.now);
      match RenewalOf(session, q.now)
      case Rotate(expires) =>
        var t := s.(store := Rotated(s.store, id, token, expires), issued := s.issued + {token});
        RequestMoves(t, r, q.(phase := Ended(Granted(id, Some(token)))));
      case Extend(until) =>
        TokensUntouched(s, Extended(s.store, id, until));
        RequestMoves(s.(store := Extended(s.store, id, until)), r, q.(phase := Ended(Granted(id, None))));
      case Keep => RequestMoves(s, r, q.(phase := Ended(Granted(id, None))));
    }
  }

  lemma NextKeepsInv(s: State, act: Action)
    requires Inv(s) && Enabled(s, act)
    ensures Inv(Next(s, act)) && Evolves(s, Next(s, act))
  {
    match act
    case Login(id, admin, token, csrf, now) => LoginKeepsInv(s, id, admin, token, csrf, now);
    case Arrive(r, token, csrf, now) => RequestMoves(s, r, Request(token, csrf, now, Arrived));
    case LookUp(r) =>
      var q := s.requests[r];
      TokensUntouched(s, LookedUp(s.store, q.token, s.active));
      RequestMoves(s.(store := LookedUp(s.store, q.token, s.active)), r, q.(phase :=
        if q.token in s.store.byToken then Found(s.store.byToken[q.token]) else Ended(Unauthenticated)));
    case Check(r) =>
      var q := s.requests[r];
      var session := s.store.sessions[q.phase.id];
      assert Capped(session);
      RequestMoves(s, r, q.(phase := if IsLive(session, q.now) then Passed(q.phase.id) else Ended(Unauthenticated)));
    case Act(r, token) => ActKeepsInv(s, r, token);
    case Logout(id, now) => TokensUntouched(s, Revoked(s.store, id, now));
    case LogoutAll(admin, now, except) => TokensUntouched(s, AllRevoked(s.store, admin, now, except));
    case SetActive(active) =>
  }

  // --------------------------------------------------------------------
  // Every run
  // --------------------------------------------------------------------

  /** In every state the token index and the sessions are in bijection, and no session outlives its cap. */
  lemma {:induction false} RunKeepsInv(run: seq<State>, i: nat)
    requires IsRun(run) && i < |run|
    ensures Inv(run[i])
  {
    if i > 0 {
      RunKeepsInv(run, i - 1);
      assert IsStep(run, i - 1);
      var act :| Enabled(run[i - 1], act) && run[i] == Next(run[i - 1], act);
      NextKeepsInv(run[i - 1], act);
    }
  }

  /** Over any stretch of a run expiry never decreases, revocation is permanent and retired tokens stay retired. */
  lemma {:induction false} RunEvolves(run: seq<State>, i: nat, j: nat)
    requires IsRun(run) && i <= j < |run|
    ensures Evolves(run[i], run[j])
    decreases j
  {
    if i < j {
      RunEvolves(run, i, j - 1);
      RunKeepsInv(run, j - 1);
      assert IsStep(run, j - 1);
      var act :| Enabled(run[j - 1], act) && run[j] == Next(run[j - 1], act);
      NextKeepsInv(run[j - 1], act);
    }
  }

  /** A token that was issued and is no session's any more never authenticates a request again. */
  lemma RetiredTokenNeverAuthenticates(run: seq<State>, i: nat, j: nat, r: int)
    requires IsRun(run) && i <= j < |run| && Enabled(run[j], LookUp(r))
    requires run[j].requests[r].token in run[i].issued && run[j].requests[r].token !in run[i].store.byToken
    ensures Next(run[j], LookUp(r)).requests[r].phase == Ended(Unauthenticated)
  {
    RunEvolves(run, i, j);
  }

  /** Rotation retires the token the session had before. */
  lemma RotationRetires(run: seq<State>, i: nat, r: int, token: Token)
    requires IsRun(run) && i < |run| && Enabled(run[i], Act(r, token))
    requires Next(run[i], Act(r, token)).requests[r].phase == Ended(Granted(run[i].requests[r].phase.session, Some(token)))
    ensures var before, after := run[i], Next(run[i], Act(r, token));
      var old' := before.store.sessions[before.requests[r].phase.session].token;
      old' in after.issued && old' !in after.store.byToken && old' != token
  {
    RunKeepsInv(run, i);
    var s := run[i];
    var id := s.requests[r].phase.session;
    assert s.store.sessions[id].token in s.store.byToken;
    match RenewalOf(s.store.sessions[id], s.requests[r].now)
    case Rotate(expires) => RotatedStaysIndexed(s.store, id, token, expires);
    case Extend(_) =>
    case Keep =>
  }

  /** A revoked session, or one past seven days, never passes the check again. */
  lemma RevokedNeverPasses(run: seq<State>, i: nat, j: nat, r: int, id: Id)
    requires IsRun(run) && i <= j < |run| && id in run[i].store.sessions
    requires Enabled(run[j], Check(r)) && run[j].requests[r].phase.id == id
    requires run[i].store.sessions[id].revoked.Some?
          || run[j].requests[r].now >= run[i].store.sessions[id].created + ABSOLUTE_MAX
    ensures Next(run[j], Check(r)).requests[r].phase == Ended(Unauthenticated)
  {
    RunEvolves(run, i, j);
    RunKeepsInv(run, j);
    assert Follows(run[i].store.sessions[id], run[j].store.sessions[id]);
    assert Capped(run[j].store.sessions[id]);
  }

  /** The guard on the proposed expiry always holds: a renewal never sets an expiry in the past. */
  lemma GuardAlwaysHolds(run: seq<State>, i: nat, r: int, token: Token)
    requires IsRun(run) && i < |run| && Enabled(run[i], Act(r, token))
    ensures ProposedExpiry(run[i].store.sessions[run[i].requests[r].phase.session], run[i].requests[r].now)
          > run[i].requests[r].now
  {
    RunKeepsInv(run, i);
    assert RequestOk(run[i].store.sessions, run[i].requests[r]);
  }

  /** While an admin's account stays inactive, a session whose record says so passes no check. */
  lemma {:induction false} DeactivatedNeverPasses(run: seq<State>, i: nat, j: nat, r: int, id: Id)
    requires IsRun(run) && i <= j < |run| && id in run[i].store.sessions && !run[i].store.sessions[id].active
    requires forall k | i <= k <= j :: run[i].store.sessions[id].admin !in run[k].active
    ensures id in run[j].store.sessions && !run[j].store.sessions[id].active
    ensures Enabled(run[j], Check(r)) && run[j].requests[r].phase.id == id ==>
      Next(run[j], Check(r)).requests[r].phase == Ended(Unauthenticated)
    decreases j
  {
    if i < j {
      DeactivatedNeverPasses(run, i, j - 1, r, id);
      RunEvolves(run, i, j - 1);
      assert IsStep(run, j - 1);
      var act :| Enabled(run[j - 1], act) && run[j] == Next(run[j - 1], act);
      StaysInactive(run[j - 1], act, id);
    }
  }

  lemma StaysInactive(s: State, act: Action, id: Id)
    requires Enabled(s, act) && id in s.store.sessions && !s.store.sessions[id].active
    requires s.store.sessions[id].admin !in s.active
    ensures id in Next(s, act).store.sessions && !Next(s, act).store.sessions[id].active
  {
  }

  // --------------------------------------------------------------------
  // Overlapping requests
  // --------------------------------------------------------------------

  /** In any state of any run: exactly when a request that passed the check retires the session's current token. */
  lemma RetiresIff(run: seq<State>, i: nat, r: int, token: Token)
    requires IsRun(run) && i < |run| && Enabled(run[i], Act(r, token))
    ensures var s, t := run[i], Next(run[i], Act(r, token));
      var q, session := s.requests[r], s.store.sessions[s.requests[r].phase.session];
      session.token !in t.store.byToken <==> q.csrf == session.csrf && session.expires - q.now <= ROTATION_WINDOW
  {
    RunKeepsInv(run, i);
    GuardAlwaysHolds(run, i, r, token);
    var s := run[i];
    var id := s.requests[r].phase.session;
    assert s.store.sessions[id].token in s.store.byToken;
    match RenewalOf(s.store.sessions[id], s.requests[r].now)
    case Rotate(expires) => RotatedStaysIndexed(s.store, id, token, expires);
    case Extend(_) =>
    case Keep =>
  }

  /**
   Two requests passed the check on one session, and the first has just been answered with a new token. The second
   retires that token exactly when its CSRF token matches and little is left of the expiry the first obtained.
   */
  lemma SecondRotationIff(run: seq<State>, i: nat, r: int, first: Token, q: int, second: Token)
    requires IsRun(run) && i < |run| && r != q && first != second
    requires Enabled(run[i], Act(r, first)) && Enabled(run[i], Act(q, second))
    requires run[i].requests[q].phase == run[i].requests[r].phase
    requires Next(run[i], Act(r, first)).requests[r].phase
          == Ended(Granted(run[i].requests[r].phase.session, Some(first)))
    ensures Enabled(Next(run[i], Act(r, first)), Act(q, second))
    ensures var session := run[i].store.sessions[run[i].requests[r].phase.session];
      var now, later := run[i].requests[r].now, run[i].requests[q].now;
      var end := Next(Next(run[i], Act(r, first)), Act(q, second));
      first !in end.store.byToken
      <==> run[i].requests[q].csrf == session.csrf
           && (later >= now + MAX_AGE - ROTATION_WINDOW || later >= session.created + ABSOLUTE_MAX - ROTATION_WINDOW)
  {
    var t := Next(run[i], Act(r, first));
    var longer := run[..i + 1] + [t];
    forall k | 0 <= k < |longer| - 1 ensures IsStep(longer, k) {
      if k < i {
        assert IsStep(run, k);
        var act :| Enabled(run[k], act) && run[k + 1] == Next(run[k], act);
        assert Enabled(longer[k], act) && longer[k + 1] == Next(longer[k], act);
      } else {
        assert Enabled(longer[k], Act(r, first)) && longer[k + 1] == Next(longer[k], Act(r, first));
      }
    }
    assert longer[i + 1] == t;
    RetiresIff(longer, i + 1, q, second);
  }

  // --------------------------------------------------------------------
  // What a request is answered
  // --------------------------------------------------------------------

  /**
   In any state of any run a look-up finds the session whose current token it is, and no other, and brings its record
   up to date with whether the account is active.
   */
  lemma FoundIff(run: seq<State>, i: nat, r: int, id: Id)
    requires IsRun(run) && i < |run| && Enabled(run[i], LookUp(r))
    ensures var s, t := run[i], Next(run[i], LookUp(r));
      && (t.requests[r].phase == Found(id) <==> id in s.store.sessions && s.store.sessions[id].token == s.requests[r].token)
      && (t.requests[r].phase == Ended(Unauthenticated)
          <==> forall k | k in s.store.sessions :: s.store.sessions[k].token != s.requests[r].token)
      && (t.requests[r].phase == Found(id) ==>
            t.store.sessions[id] == s.store.sessions[id].(active := s.store.sessions[id].admin in s.active))
      && (forall k | k in s.store.sessions && t.requests[r].phase != Found(k) :: t.store.sessions[k] == s.store.sessions[k])
  {
    RunKeepsInv(run, i);
    var s := run[i];
    var token := s.requests[r].token;
    if token in s.store.byToken {
      assert Names(s.store, token);
    }
  }

  /** A session just logged in is found by its token and passes for twelve hours, while the account is active. */
  lemma LoginLastsTwelveHours(run: seq<State>, i: nat, id: Id, admin: Admin, token: Token, csrf: Token, now: int, r: int)
    requires IsRun(run) && i < |run| && Enabled(run[i], Login(id, admin, token, csrf, now))
    requires r in run[i].requests && run[i].requests[r].phase.Arrived? && run[i].requests[r].token == token
    ensures var found := Next(Next(run[i], Login(id, admin, token, csrf, now)), LookUp(r));
      && found.requests[r].phase == Found(id)
      && (Next(found, Check(r)).requests[r].phase == Passed(id)
          <==> run[i].requests[r].now < now + MAX_AGE && admin in run[i].active)
  {
    var s := Next(run[i], Login(id, admin, token, csrf, now));
    RunKeepsInv(run, i);
    assert s.requests[r] == run[i].requests[r];
    var found := Next(s, LookUp(r));
    assert found.store.sessions[id].active == (admin in s.active);
    assert found.store.sessions[id].expires == now + MAX_AGE;
  }

  /**
   A request that passed the check is refused exactly when its CSRF token is not the session's, and then nothing
   changes. Otherwise the session lasts for twelve hours from now, or until seven days after its login, and never
   for less than before; and it has a new token exactly when at most three hours were left.
   */
  lemma ActAnswersIff(run: seq<State>, i: nat, r: int, token: Token)
    requires IsRun(run) && i < |run| && Enabled(run[i], Act(r, token))
    ensures var s, t := run[i], Next(run[i], Act(r, token));
      var q, id := s.requests[r], s.requests[r].phase.session;
      var before, after := s.store.sessions[id], t.store.sessions[id];
      && (t.requests[r].phase == Ended(CsrfFailed) <==> q.csrf != before.csrf)
      && (q.csrf != before.csrf ==> t.store == s.store)
      && (q.csrf == before.csrf ==>
            && t.requests[r].phase == Ended(Granted(id, if before.expires - q.now <= ROTATION_WINDOW then Some(token) else None))
            && after.expires >= before.expires && after.expires >= Sooner(q.now + MAX_AGE, before.created + ABSOLUTE_MAX)
            && (after.expires == before.expires || after.expires == Sooner(q.now + MAX_AGE, before.created + ABSOLUTE_MAX))
            && after.token == if before.expires - q.now <= ROTATION_WINDOW then token else before.token)
  {
    RunKeepsInv(run, i);
    GuardAlwaysHolds(run, i, r, token);
    assert Capped(run[i].store.sessions[run[i].requests[r].phase.session]);
    RenewalNeverShortens(run[i].store.sessions[run[i].requests[r].phase.session], run[i].requests[r].now);
  }

  function Sooner(a: int, b: int): int {
    if a < b then a else b
  }

  // --------------------------------------------------------------------
  // Who is logged out
  // --------------------------------------------------------------------

  /** The step logs the session out: by itself, or with all of its admin's sessions but one other. */
  predicate LogsOut(s: State, act: Action, id: Id) {
    id in s.store.sessions
    && match act
       case Logout(i, _) => i == id
       case LogoutAll(admin, _, except) => admin == s.store.sessions[id].admin && except != Some(id)
       case _ => false
  }

  ghost predicate LoggedOutAt(run: seq<State>, k: int, id: Id) {
    0 <= k < |run| - 1 && exists act :: Enabled(run[k], act) && run[k + 1] == Next(run[k], act) && LogsOut(run[k], act, id)
  }

  lemma RevokedBy(s: State, act: Action, id: Id)
    requires Enabled(s, act) && id in Next(s, act).store.sessions
    ensures Next(s, act).store.sessions[id].revoked.Some?
       <==> LogsOut(s, act, id) || (id in s.store.sessions && s.store.sessions[id].revoked.Some?)
  {
  }

  /** A session is revoked exactly when some step so far logged it out. */
  lemma {:induction false} RevokedIffLoggedOut(run: seq<State>, i: nat, id: Id)
    requires IsRun(run) && i < |run| && id in run[i].store.sessions
    ensures run[i].store.sessions[id].revoked.Some? <==> exists k | 0 <= k < i :: LoggedOutAt(run, k, id)
  {
    if i > 0 {
      var s := run[i - 1];
      assert IsStep(run, i - 1);
      var act :| Enabled(s, act) && run[i] == Next(s, act);
      RevokedBy(s, act, id);
      if LogsOut(s, act, id) {
        assert LoggedOutAt(run, i - 1, id);
      }
      if LoggedOutAt(run, i - 1, id) {
        var other :| Enabled(s, other) && run[i] == Next(s, other) && LogsOut(s, other, id);
        RevokedBy(s, other, id);
      }
      if id in s.store.sessions {
        RevokedIffLoggedOut(run, i - 1, id);
      } else {
        forall k | 0 <= k < i - 1 ensures !LoggedOutAt(run, k, id) {
          RunEvolves(run, k, i - 1);
        }
      }
    }
  }

  /** In any state of any run a request passes the check on its session exactly when no step logged the session out, it
      has not expired, and the account was active at the last look-up. */
  lemma PassesIff(run: seq<State>, i: nat, r: int)
    requires IsRun(run) && i < |run| && Enabled(run[i], Check(r))
    ensures var s, t := run[i], Next(run[i], Check(r));
      var id := s.requests[r].phase.id;
      && (t.requests[r].phase == Passed(id)
          <==> && !(exists k | 0 <= k < i :: LoggedOutAt(run, k, id))
               && s.requests[r].now < s.store.sessions[id].expires && s.store.sessions[id].active)
      && (t.requests[r].phase == Passed(id) || t.requests[r].phase == Ended(Unauthenticated))
  {
    RevokedIffLoggedOut(run, i, run[i].requests[r].phase.id);
  }
}
