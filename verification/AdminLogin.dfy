/**
 Account lockout (attemptAdminLogin of apps/guess/src/admin/auth-service.ts over the in-memory
 repository of apps/guess/src/admin/admin-user-repository.ts).

 An attempt reads a copy of the account, verifies the password, and writes what follows from the
 copy: any number of attempts may be between the two. Password verification is an input; an
 attempt's time is that of its request. Times are milliseconds.
 */
module AdminLogin {
  import opened Options
  import opened Sets

  type Id = int
  type Email = int

  const MAX_FAILED_ATTEMPTS := 5
  const LOCKOUT := 15 * 60 * 1000

  datatype Account = Account(email: Email, active: bool, failed: int, lockedUntil: Option<int>, lastLogin: Option<int>)

  predicate IsLocked(a: Account, now: int) {
    a.lockedUntil.Some? && a.lockedUntil.value > now
  }

  predicate Granted(a: Account, now: int, passwordOk: bool) {
    !IsLocked(a, now) && a.active && passwordOk
  }

  /** A failure that is counted: the account was not locked. */
  predicate Counted(a: Account, now: int, passwordOk: bool) {
    !IsLocked(a, now) && !(a.active && passwordOk)
  }

  /** What is written to the stored account, given the copy that was read before the password was verified. */
  function Written(stored: Account, read: Account, now: int, passwordOk: bool): Account {
    if Granted(read, now, passwordOk) then stored.(failed := 0, lockedUntil := None, lastLogin := Some(now))
    else if Counted(read, now, passwordOk) then
      var failed := read.failed + 1;
      stored.(failed := failed, lockedUntil := if failed >= MAX_FAILED_ATTEMPTS then Some(now + LOCKOUT) else None)
    else stored
  }

  class AdminUsers {
    var users: map<Id, Account>

    constructor (users: map<Id, Account>)
      ensures this.users == users
    {
      this.users := users;
    }

    method FindByEmail(email: Email) returns (id: Option<Id>)
      ensures match id
        case None => forall i | i in users :: users[i].email != email
        case Some(i) => i in users && users[i].email == email
    {
      var todo := users.Keys;
      while todo != {}
        invariant todo <= users.Keys
        invariant forall i | i in users && i !in todo :: users[i].email != email
      {
        ghost var some := Member(todo);
        var i :| i in todo;
        if users[i].email == email {
          return Some(i);
        }
        todo := todo - {i};
      }
      id := None;
    }

    method RecordFailedLogin(id: Id, failed: int, lockedUntil: Option<int>)
      modifies this
      ensures users == if id in old(users)
        then old(users)[id := old(users)[id].(failed := failed, lockedUntil := lockedUntil)] else old(users)
    {
      if id in users {
        users := users[id := users[id].(failed := failed, lockedUntil := lockedUntil)];
      }
    }

    method RecordSuccessfulLogin(id: Id, now: int)
      modifies this
      ensures users == if id in old(users)
        then old(users)[id := old(users)[id].(failed := 0, lockedUntil := None, lastLogin := Some(now))] else old(users)
    {
      if id in users {
        users := users[id := users[id].(failed := 0, lockedUntil := None, lastLogin := Some(now))];
      }
    }

    /** An attempt up to the verification of the password: a copy of the account, if there is one. */
    method BeginLogin(email: Email) returns (found: Option<(Id, Account)>)
      ensures match found
        case None => forall i | i in users :: users[i].email != email
        case Some((i, read)) => i in users && read == users[i] && read.email == email
    {
      var id := FindByEmail(email);
      if id.None? {
        return None;
      }
      found := Some((id.value, users[id.value]));
    }

    /** The rest of the attempt, on whatever the account has become meanwhile. */
    method FinishLogin(id: Id, read: Account, passwordOk: bool, now: int) returns (granted: bool)
      modifies this
      ensures granted == Granted(read, now, passwordOk)
      ensures users == if id in old(users)
        then old(users)[id := Written(old(users)[id], read, now, passwordOk)] else old(users)
    {
      var isLocked := read.lockedUntil.Some? && read.lockedUntil.value > now;
      if isLocked || !read.active || !passwordOk {
        if !isLocked {
          var failed := read.failed + 1;
          RecordFailedLogin(id, failed, if failed >= MAX_FAILED_ATTEMPTS then Some(now + LOCKOUT) else None);
        }
        return false;
      }
      RecordSuccessfulLogin(id, now);
      granted := true;
    }

    /** One attempt that no other overlaps. */
    method AttemptAdminLogin(email: Email, passwordOk: bool, now: int) returns (granted: Option<Id>)
      modifies this
      ensures match granted
        case None =>
          (users == old(users) && forall i | i in users :: users[i].email != email)
          || exists i | i in old(users) :: old(users)[i].email == email && !Granted(old(users)[i], now, passwordOk)
               && users == old(users)[i := Written(old(users)[i], old(users)[i], now, passwordOk)]
        case Some(i) =>
          i in old(users) && old(users)[i].email == email && Granted(old(users)[i], now, passwordOk)
          && users == old(users)[i := Written(old(users)[i], old(users)[i], now, passwordOk)]
    {
      var found := BeginLogin(email);
      if found.None? {
        return None;
      }
      var (id, read) := found.value;
      var ok := FinishLogin(id, read, passwordOk, now);
      granted := if ok then Some(id) else None;
    }
  }

  // --------------------------------------------------------------------
  // Attempts on one account, interleaved
  // --------------------------------------------------------------------

  type Caller = int

  /** `seen` is how often the account had been written when the copy was taken. */
  datatype Attempt = Attempt(read: Account, seen: int, now: int, passwordOk: bool)

  /**
   `writes` counts the writes of the account. `clock` is the latest request time among the attempts so far, and
   `wrote` what it was at the last write. Attempts may begin in any order of their request times: a request's time
   is taken before its body is read and its session and rate are checked.
   */
  datatype State = State(account: Account, writes: int, wrote: int, clock: int, open: map<Caller, Attempt>)

  datatype Action =
    | Begin(caller: Caller, now: int, passwordOk: bool)
    | Finish(caller: Caller)

  predicate Enabled(s: State, act: Action) {
    match act
    case Begin(c, _, _) => c !in s.open
    case Finish(c) => c in s.open
  }

  function Finished(s: State, c: Caller): State
    requires c in s.open
  {
    var a := s.open[c];
    var t := s.(account := Written(s.account, a.read, a.now, a.passwordOk), open := s.open - {c});
    if IsLocked(a.read, a.now) then t else t.(writes := s.writes + 1, wrote := s.clock)
  }

  function Next(s: State, act: Action): State
    requires Enabled(s, act)
  {
    match act
    case Begin(c, now, ok) =>
      s.(clock := if s.clock < now then now else s.clock, open := s.open[c := Attempt(s.account, s.writes, now, ok)])
    case Finish(c) => Finished(s, c)
  }

  /** Another attempt wrote the account after this one read it. */
  predicate Overtaken(s: State, a: Attempt) {
    a.seen != s.writes
  }

  predicate Counts(s: State, act: Action) {
    act.Finish? && act.caller in s.open
    && Counted(s.open[act.caller].read, s.open[act.caller].now, s.open[act.caller].passwordOk)
  }

  predicate Grants(s: State, act: Action) {
    act.Finish? && act.caller in s.open
    && Granted(s.open[act.caller].read, s.open[act.caller].now, s.open[act.caller].passwordOk)
  }

  predicate IsRun(s: State, acts: seq<Action>)
    decreases |acts|
  {
    acts == [] || (Enabled(s, acts[0]) && IsRun(Next(s, acts[0]), acts[1..]))
  }

  function After(s: State, acts: seq<Action>): State
    requires IsRun(s, acts)
    decreases |acts|
  {
    if acts == [] then s else After(Next(s, acts[0]), acts[1..])
  }

  /** The failures counted over a run. */
  function CountedFailures(s: State, acts: seq<Action>): int
    requires IsRun(s, acts)
    decreases |acts|
  {
    if acts == [] then 0
    else (if Counts(s, acts[0]) then 1 else 0) + CountedFailures(Next(s, acts[0]), acts[1..])
  }

  /** Those among them that were overtaken. */
  function OvertakenFailures(s: State, acts: seq<Action>): int
    requires IsRun(s, acts)
    decreases |acts|
  {
    if acts == [] then 0
    else
      (if Counts(s, acts[0]) && Overtaken(s, s.open[acts[0].caller]) then 1 else 0)
      + OvertakenFailures(Next(s, acts[0]), acts[1..])
  }

  predicate NoneGranted(s: State, acts: seq<Action>)
    requires IsRun(s, acts)
    decreases |acts|
  {
    acts == [] || (!Grants(s, acts[0]) && NoneGranted(Next(s, acts[0]), acts[1..]))
  }

  // --------------------------------------------------------------------
  // What every step keeps
  // --------------------------------------------------------------------

  /** A lock is set exactly from the fifth failure on. */
  predicate Consistent(a: Account) {
    0 <= a.failed && (a.lockedUntil.Some? <==> a.failed >= MAX_FAILED_ATTEMPTS)
  }

  /** An attempt nobody overtook holds the account as it is. */
  predicate AttemptOk(s: State, a: Attempt) {
    0 <= a.read.failed && a.seen <= s.writes && (!Overtaken(s, a) ==> a.read == s.account)
  }

  ghost predicate Inv(s: State) {
    Consistent(s.account) && forall c | c in s.open :: AttemptOk(s, s.open[c])
  }

  /** An account that nobody is logging in to. */
  function Start(account: Account, now: int): State {
    State(account, 0, now, now, map[])
  }

  lemma StartInv(account: Account, now: int)
    requires Consistent(account)
    ensures Inv(Start(account, now))
  {
  }

  lemma NextKeepsInv(s: State, act: Action)
    requires Inv(s) && Enabled(s, act)
    ensures Inv(Next(s, act)) && s.clock <= Next(s, act).clock
  {
    var t := Next(s, act);
    forall c | c in t.open ensures AttemptOk(t, t.open[c]) {
      assert c in s.open ==> AttemptOk(s, s.open[c]);
    }
  }

  lemma {:induction false} RunKeepsInv(s: State, acts: seq<Action>)
    requires Inv(s) && IsRun(s, acts)
    ensures Inv(After(s, acts))
    decreases |acts|
  {
    if acts != [] {
      NextKeepsInv(s, acts[0]);
      RunKeepsInv(Next(s, acts[0]), acts[1..]);
    }
  }

  /** Every state any attempts lead to, from an account that nobody is logging in to. */
  lemma ReachableInv(account: Account, now: int, acts: seq<Action>)
    requires Consistent(account) && IsRun(Start(account, now), acts)
    ensures Inv(After(Start(account, now), acts))
  {
    StartInv(account, now);
    RunKeepsInv(Start(account, now), acts);
  }

  /** The count rises exactly when a failure is counted whose copy was not behind the stored count. */
  lemma CountRisesIff(s: State, c: Caller)
    requires Inv(s) && c in s.open
    ensures var a, t := s.open[c], Next(s, Finish(c));
      && (t.account.failed > s.account.failed <==> Counts(s, Finish(c)) && a.read.failed >= s.account.failed)
      && (Counts(s, Finish(c)) && !Overtaken(s, a) ==> t.account.failed == s.account.failed + 1)
  {
    assert AttemptOk(s, s.open[c]);
  }

  /** A locked account is left alone by an attempt nobody overtook, even with the right password. */
  lemma LockHoldsUnlessOvertaken(s: State, c: Caller)
    requires Inv(s) && c in s.open && IsLocked(s.account, s.open[c].now) && !Overtaken(s, s.open[c])
    ensures Next(s, Finish(c)).account == s.account && !Grants(s, Finish(c))
  {
    assert AttemptOk(s, s.open[c]);
  }

  /**
   What an attempt does to a locked account: it unlocks it exactly when its copy was not locked, and with it
   the password was right, or the failure it records is below the fifth, or a lock from its own time is over by then.
   */
  lemma UnlocksIff(s: State, c: Caller, t: int)
    requires Inv(s) && c in s.open && IsLocked(s.account, t)
    ensures var a := s.open[c];
      !IsLocked(Next(s, Finish(c)).account, t)
      <==> !IsLocked(a.read, a.now)
           && (Grants(s, Finish(c)) || a.read.failed + 1 < MAX_FAILED_ATTEMPTS || a.now + LOCKOUT <= t)
  {
  }

  // --------------------------------------------------------------------
  // How many failures are counted
  // --------------------------------------------------------------------

  /** Whole lockouts in a span. */
  function Lockouts(span: int): int {
    span / LOCKOUT
  }

  lemma LockoutsGrow(x: int, y: int)
    requires x <= y
    ensures Lockouts(x) <= Lockouts(y)
  {
  }

  lemma OneMoreLockout(x: int)
    ensures Lockouts(x) == 1 + Lockouts(x - LOCKOUT)
  {
  }

  lemma NoLockoutYet(x: int)
    requires 0 <= x < LOCKOUT
    ensures Lockouts(x) == 0
  {
  }

  /** From when on an account with five failures can count another. */
  function OpensAt(a: Account, from: int): int {
    if a.lockedUntil.Some? && a.lockedUntil.value > from then a.lockedUntil.value else from
  }

  /** How many more failures, stamped from `from` to `to`, attempts that nobody overtakes can count. */
  function Allowance(a: Account, from: int, to: int): int {
    if a.failed < MAX_FAILED_ATTEMPTS then MAX_FAILED_ATTEMPTS - a.failed + Lockouts(to - from)
    else if OpensAt(a, from) > to then 0
    else 1 + Lockouts(to - OpensAt(a, from))
  }

  /** The account with a failure stamped `now` on top of a copy with so many. */
  predicate FailedOn(a: Account, failed: int, now: int) {
    a.failed == failed + 1
    && a.lockedUntil == if failed + 1 >= MAX_FAILED_ATTEMPTS then Some(now + LOCKOUT) else None
  }

  /** A failure leaves at most what a fresh account has, less one. */
  lemma AllowanceAfter(a: Account, failed: int, now: int, from: int, to: int)
    requires FailedOn(a, failed, now) && 0 <= failed && now <= to && from <= to
    ensures failed + 1 < MAX_FAILED_ATTEMPTS ==>
      Allowance(a, from, to) == MAX_FAILED_ATTEMPTS - failed - 1 + Lockouts(to - from)
    ensures failed + 1 >= MAX_FAILED_ATTEMPTS ==> Allowance(a, from, to) <= Lockouts(to - now)
  {
    if failed + 1 >= MAX_FAILED_ATTEMPTS {
      OneMoreLockout(to - now);
      if OpensAt(a, from) > to {
        LockoutsGrow(0, to - now);
      } else {
        LockoutsGrow(to - OpensAt(a, from), to - now - LOCKOUT);
      }
    }
  }

  /** A failure that nobody overtook uses up one; `from` may move forward meanwhile. */
  lemma FreshFailureUses(a: Account, b: Account, now: int, from: int, later: int, to: int)
    requires Consistent(a) && FailedOn(b, a.failed, now) && !IsLocked(a, now)
    requires from <= now <= to && from <= later <= to
    ensures 1 + Allowance(b, later, to) <= Allowance(a, from, to)
  {
    AllowanceAfter(b, a.failed, now, later, to);
    LockoutsGrow(to - later, to - from);
    if a.failed < MAX_FAILED_ATTEMPTS {
      LockoutsGrow(to - now, to - from);
    } else {
      LockoutsGrow(to - now, to - OpensAt(a, from));
    }
  }

  /** Whatever is overtaken leaves no more than this. */
  lemma OvertakenFailureLeaves(b: Account, failed: int, now: int, from: int, to: int)
    requires FailedOn(b, failed, now) && 0 <= failed && from <= to && now <= to
    ensures failed + 1 < MAX_FAILED_ATTEMPTS || from <= now ==>
      1 + Allowance(b, from, to) <= MAX_FAILED_ATTEMPTS + Lockouts(to - from)
  {
    AllowanceAfter(b, failed, now, from, to);
    if from <= now {
      LockoutsGrow(to - now, to - from);
    }
  }

  lemma AllowanceIsSome(a: Account, from: int, to: int)
    requires 0 <= a.failed && from <= to
    ensures 0 <= Allowance(a, from, to) <= MAX_FAILED_ATTEMPTS + Lockouts(to - from)
  {
    LockoutsGrow(0, to - from);
    if a.failed >= MAX_FAILED_ATTEMPTS && OpensAt(a, from) <= to {
      LockoutsGrow(0, to - OpensAt(a, from));
      LockoutsGrow(to - OpensAt(a, from), to - from);
    }
  }

  /** The counted failures of a run are stamped from `lo` to `hi`, in whatever order. */
  predicate Stamped(s: State, acts: seq<Action>, lo: int, hi: int)
    requires IsRun(s, acts)
    decreases |acts|
  {
    acts == [] ||
    ((Counts(s, acts[0]) ==> lo <= s.open[acts[0].caller].now <= hi) && Stamped(Next(s, acts[0]), acts[1..], lo, hi))
  }

  /** Each counted failure uses up one; an overtaken one gives a fresh account's allowance back at most. */
  lemma FailureUsesAllowance(s: State, c: Caller, lo: int, hi: int)
    requires Inv(s) && c in s.open && Counts(s, Finish(c)) && lo <= s.open[c].now <= hi
    ensures 1 + Allowance(Next(s, Finish(c)).account, lo, hi)
         <= Allowance(s.account, lo, hi) + if Overtaken(s, s.open[c]) then MAX_FAILED_ATTEMPTS + Lockouts(hi - lo) else 0
  {
    var a := s.open[c];
    assert AttemptOk(s, a);
    var b := Next(s, Finish(c)).account;
    if Overtaken(s, a) {
      OvertakenFailureLeaves(b, a.read.failed, a.now, lo, hi);
      AllowanceIsSome(s.account, lo, hi);
    } else {
      FreshFailureUses(s.account, b, a.now, lo, lo, hi);
    }
  }

  lemma {:induction false} CountedWithinAllowance(s: State, acts: seq<Action>, lo: int, hi: int, most: int)
    requires Inv(s) && IsRun(s, acts) && NoneGranted(s, acts) && Stamped(s, acts, lo, hi) && lo <= hi
    requires most == MAX_FAILED_ATTEMPTS + Lockouts(hi - lo)
    ensures CountedFailures(s, acts) <= Allowance(s.account, lo, hi) + most * OvertakenFailures(s, acts)
    decreases |acts|
  {
    if acts == [] {
      AllowanceIsSome(s.account, lo, hi);
    } else {
      var t := Next(s, acts[0]);
      NextKeepsInv(s, acts[0]);
      CountedWithinAllowance(t, acts[1..], lo, hi, most);
      if Counts(s, acts[0]) {
        FailureUsesAllowance(s, acts[0].caller, lo, hi);
        OneMoreTime(most, OvertakenFailures(t, acts[1..]));
      }
    }
  }

  lemma OneMoreTime(most: int, n: int)
    ensures most * (n + 1) == most * n + most
  {
  }

  /**
   While nobody is let in, however attempts overlap and in whatever order their requests were stamped: of failures
   stamped in a span, an account counts at most five and one for every quarter of an hour in the span, if none was
   overtaken, and at most as many again for every one that was.
   */
  lemma LockoutBound(s: State, acts: seq<Action>, lo: int, hi: int)
    requires Inv(s) && IsRun(s, acts) && NoneGranted(s, acts) && Stamped(s, acts, lo, hi) && lo <= hi
    ensures CountedFailures(s, acts)
         <= (MAX_FAILED_ATTEMPTS + Lockouts(hi - lo)) * (1 + OvertakenFailures(s, acts))
    ensures OvertakenFailures(s, acts) == 0 ==> CountedFailures(s, acts) <= MAX_FAILED_ATTEMPTS + Lockouts(hi - lo)
  {
    var most := MAX_FAILED_ATTEMPTS + Lockouts(hi - lo);
    CountedWithinAllowance(s, acts, lo, hi, most);
    AllowanceIsSome(s.account, lo, hi);
    OneMoreTime(most, OvertakenFailures(s, acts));
  }

  // --------------------------------------------------------------------
  // Requests that reach the account in the order of their times
  // --------------------------------------------------------------------

  predicate InOrder(s: State, acts: seq<Action>)
    requires IsRun(s, acts)
    decreases |acts|
  {
    acts == [] || ((acts[0].Begin? ==> s.clock <= acts[0].now) && InOrder(Next(s, acts[0]), acts[1..]))
  }

  predicate AttemptTimely(s: State, a: Attempt) {
    a.now <= s.clock && (!Overtaken(s, a) ==> s.wrote <= a.now)
  }

  /** No attempt is ahead of the clock, and one that nobody overtook began after the last write. */
  ghost predicate Timely(s: State) {
    && s.wrote <= s.clock
    && (s.account.lockedUntil.Some? ==> s.account.lockedUntil.value <= s.wrote + LOCKOUT)
    && (forall c | c in s.open :: AttemptTimely(s, s.open[c]))
  }

  lemma NextStaysTimely(s: State, act: Action)
    requires Timely(s) && Inv(s) && Enabled(s, act) && (act.Begin? ==> s.clock <= act.now)
    ensures Timely(Next(s, act))
  {
    var t := Next(s, act);
    forall c | c in t.open ensures AttemptTimely(t, t.open[c]) {
      assert c in s.open ==> AttemptTimely(s, s.open[c]) && AttemptOk(s, s.open[c]);
    }
    if act.Finish? {
      assert AttemptTimely(s, s.open[act.caller]);
    }
  }

  /** Every state attempts in order lead to, from an account whose lock, if any, was set no later than now. */
  lemma ReachableTimely(account: Account, now: int, acts: seq<Action>)
    requires Consistent(account) && IsRun(Start(account, now), acts) && InOrder(Start(account, now), acts)
    requires account.lockedUntil.Some? ==> account.lockedUntil.value <= now + LOCKOUT
    ensures Timely(After(Start(account, now), acts))
  {
    StartInv(account, now);
    RunStaysTimely(Start(account, now), acts);
  }

  lemma {:induction false} RunStaysTimely(s: State, acts: seq<Action>)
    requires Timely(s) && Inv(s) && IsRun(s, acts) && InOrder(s, acts)
    ensures Timely(After(s, acts))
    decreases |acts|
  {
    if acts != [] {
      NextKeepsInv(s, acts[0]);
      NextStaysTimely(s, acts[0]);
      RunStaysTimely(Next(s, acts[0]), acts[1..]);
    }
  }

  /** In order, an overtaken failure gives five back at most: its stamp lies before the span that is left. */
  lemma OrderedFailureUsesAllowance(s: State, c: Caller, to: int)
    requires Inv(s) && Timely(s) && c in s.open && Counts(s, Finish(c)) && s.clock <= to
    ensures var t := Next(s, Finish(c));
      1 + Allowance(t.account, t.wrote, to)
      <= Allowance(s.account, s.wrote, to) + if Overtaken(s, s.open[c]) then MAX_FAILED_ATTEMPTS else 0
  {
    var a, t := s.open[c], Next(s, Finish(c));
    assert AttemptOk(s, a) && AttemptTimely(s, a);
    if Overtaken(s, a) {
      OvertakenAfterWrite(t.account, a.read.failed, a.now, t.wrote, to);
      AllowanceAfterWrite(s.account, s.wrote, to);
      LockoutsGrow(to - t.wrote, to - s.wrote);
    } else {
      FreshFailureUses(s.account, t.account, a.now, s.wrote, t.wrote, to);
    }
  }

  lemma OvertakenAfterWrite(b: Account, failed: int, now: int, wrote: int, to: int)
    requires FailedOn(b, failed, now) && 0 <= failed && now <= wrote <= to
    ensures 1 + Allowance(b, wrote, to) <= MAX_FAILED_ATTEMPTS + Lockouts(to - wrote)
  {
    AllowanceAfter(b, failed, now, wrote, to);
    if failed + 1 >= MAX_FAILED_ATTEMPTS && OpensAt(b, wrote) <= to {
      LockoutsGrow(to - OpensAt(b, wrote), to - wrote);
    } else {
      LockoutsGrow(0, to - wrote);
    }
  }

  /** A lock set at the last write leaves all but one of the lockouts since. */
  lemma AllowanceAfterWrite(a: Account, wrote: int, to: int)
    requires Consistent(a) && wrote <= to && (a.lockedUntil.Some? ==> a.lockedUntil.value <= wrote + LOCKOUT)
    ensures Lockouts(to - wrote) <= Allowance(a, wrote, to)
  {
    if a.failed >= MAX_FAILED_ATTEMPTS {
      if OpensAt(a, wrote) > to {
        NoLockoutYet(to - wrote);
      } else {
        OneMoreLockout(to - wrote);
        LockoutsGrow(to - wrote - LOCKOUT, to - OpensAt(a, wrote));
      }
    }
  }

  lemma {:induction false} OrderedWithinAllowance(s: State, acts: seq<Action>, to: int)
    requires Inv(s) && Timely(s) && IsRun(s, acts) && InOrder(s, acts) && NoneGranted(s, acts)
    requires After(s, acts).clock <= to
    ensures s.clock <= to
    ensures CountedFailures(s, acts)
         <= Allowance(s.account, s.wrote, to) + MAX_FAILED_ATTEMPTS * OvertakenFailures(s, acts)
    decreases |acts|
  {
    if acts == [] {
      AllowanceIsSome(s.account, s.wrote, to);
    } else {
      NextKeepsInv(s, acts[0]);
      NextStaysTimely(s, acts[0]);
      OrderedWithinAllowance(Next(s, acts[0]), acts[1..], to);
      if Counts(s, acts[0]) {
        OrderedFailureUsesAllowance(s, acts[0].caller, to);
      }
    }
  }

  /**
   When requests reach the account in the order of their times, an overtaken failure adds five and no more, and
   the span need only be measured from the last write.
   */
  lemma OrderedOverlapBound(s: State, acts: seq<Action>, to: int)
    requires Inv(s) && Timely(s) && IsRun(s, acts) && InOrder(s, acts) && NoneGranted(s, acts)
    requires After(s, acts).clock <= to
    ensures CountedFailures(s, acts)
         <= MAX_FAILED_ATTEMPTS * (1 + OvertakenFailures(s, acts)) + Lockouts(to - s.wrote)
  {
    OrderedWithinAllowance(s, acts, to);
    AllowanceIsSome(s.account, s.wrote, to);
  }

  /**
   Then, from one successful login to the next: at most five, and one more for every quarter of an hour, if no
   counted failure was overtaken. Attempts that were open at the login may end in any order after it.
   */
  lemma OrderedLockoutBound(s: State, c: Caller, acts: seq<Action>, to: int)
    requires Inv(s) && Timely(s) && c in s.open && Grants(s, Finish(c))
    requires IsRun(Next(s, Finish(c)), acts) && InOrder(Next(s, Finish(c)), acts)
    requires NoneGranted(Next(s, Finish(c)), acts) && OvertakenFailures(Next(s, Finish(c)), acts) == 0
    requires After(Next(s, Finish(c)), acts).clock <= to
    ensures CountedFailures(Next(s, Finish(c)), acts) <= MAX_FAILED_ATTEMPTS + Lockouts(to - s.clock)
  {
    NextKeepsInv(s, Finish(c));
    NextStaysTimely(s, Finish(c));
    OrderedOverlapBound(Next(s, Finish(c)), acts, to);
  }

  // --------------------------------------------------------------------
  // The bound is reached
  // --------------------------------------------------------------------

  /** One wrong attempt, begun and finished alone. */
  function Alone(c: Caller, now: int): seq<Action> {
    [Begin(c, now, false), Finish(c)]
  }

  /** The state after it, at an account that is not locked. */
  function AloneEnd(s: State, c: Caller, now: int): State
    requires c !in s.open
  {
    Next(Next(s, Begin(c, now, false)), Finish(c))
  }

  /** A run that begins with a wrong attempt alone. */
  lemma AloneCounts(s: State, c: Caller, now: int, rest: seq<Action>, lo: int, hi: int)
    requires c !in s.open && !IsLocked(s.account, now) && lo <= now <= hi
    requires IsRun(AloneEnd(s, c, now), rest) && NoneGranted(AloneEnd(s, c, now), rest)
    requires OvertakenFailures(AloneEnd(s, c, now), rest) == 0 && Stamped(AloneEnd(s, c, now), rest, lo, hi)
    ensures var acts := Alone(c, now) + rest;
      && IsRun(s, acts) && NoneGranted(s, acts) && OvertakenFailures(s, acts) == 0 && Stamped(s, acts, lo, hi)
      && CountedFailures(s, acts) == 1 + CountedFailures(AloneEnd(s, c, now), rest)
      && After(s, acts) == After(AloneEnd(s, c, now), rest)
  {
    var acts := Alone(c, now) + rest;
    assert acts[1..] == [Finish(c)] + rest && acts[1..][1..] == rest;
    var t := Next(s, acts[0]);
    assert Next(t, acts[1..][0]) == AloneEnd(s, c, now);
    assert IsRun(t, acts[1..]);
  }

  /** The n-th of a row of wrong attempts: five at once, then one for every lockout. */
  function StampOf(n: int, lo: int): int {
    if n < MAX_FAILED_ATTEMPTS then lo else lo + (n - MAX_FAILED_ATTEMPTS + 1) * LOCKOUT
  }

  function InARow(k: int, n: int, lo: int): seq<Action>
    decreases n - k
  {
    if k >= n then [] else Alone(k, StampOf(k, lo)) + InARow(k + 1, n, lo)
  }

  /** So many failures in, with the lock the last of them set. */
  predicate RowReached(s: State, k: int, lo: int) {
    && s.open == map[] && s.account.failed == k
    && s.account.lockedUntil == if k < MAX_FAILED_ATTEMPTS then None else Some(StampOf(k, lo))
  }

  lemma RowGoesOn(s: State, k: int, lo: int)
    requires 0 <= k && RowReached(s, k, lo)
    ensures !IsLocked(s.account, StampOf(k, lo)) && RowReached(AloneEnd(s, k, StampOf(k, lo)), k + 1, lo)
  {
    assert AloneEnd(s, k, StampOf(k, lo)).open == map[];
  }

  lemma {:induction false} RowCounts(s: State, k: int, n: int, lo: int, hi: int)
    requires 0 <= k <= n && RowReached(s, k, lo) && lo <= hi && (n > 0 ==> StampOf(n - 1, lo) <= hi)
    ensures IsRun(s, InARow(k, n, lo)) && NoneGranted(s, InARow(k, n, lo)) && Stamped(s, InARow(k, n, lo), lo, hi)
    ensures OvertakenFailures(s, InARow(k, n, lo)) == 0 && CountedFailures(s, InARow(k, n, lo)) == n - k
    ensures hi <= s.clock ==> After(s, InARow(k, n, lo)).clock == s.clock
    decreases n - k
  {
    if k < n {
      RowGoesOn(s, k, lo);
      var t := AloneEnd(s, k, StampOf(k, lo));
      RowCounts(t, k + 1, n, lo, hi);
      AloneCounts(s, k, StampOf(k, lo), InARow(k + 1, n, lo), lo, hi);
    }
  }

  /** The bound without overtaken failures is reached in every span, by attempts one after the other. */
  lemma LockoutBoundIsReached(account: Account, lo: int, hi: int) returns (acts: seq<Action>)
    requires account.failed == 0 && account.lockedUntil.None? && lo <= hi
    ensures var s := Start(account, lo);
      && IsRun(s, acts) && NoneGranted(s, acts) && Stamped(s, acts, lo, hi) && OvertakenFailures(s, acts) == 0
      && CountedFailures(s, acts) == MAX_FAILED_ATTEMPTS + Lockouts(hi - lo)
  {
    LockoutsGrow(0, hi - lo);
    var n := MAX_FAILED_ATTEMPTS + Lockouts(hi - lo);
    acts := InARow(0, n, lo);
    RowCounts(Start(account, lo), 0, n, lo, hi);
  }

  /**
   Why the span is measured in request times: a login stamped `now` is followed by five failures whose requests were
   stamped a quarter of an hour before and one stamped `now`. All six are counted, one after the other, none is
   overtaken, and the latest request is no later than the login.
   */
  lemma SixFailuresAtOnce(account: Account, now: int) returns (acts: seq<Action>)
    requires account.failed == 0 && account.lockedUntil.None?
    ensures var s := Start(account, now);
      && IsRun(s, acts) && NoneGranted(s, acts) && OvertakenFailures(s, acts) == 0 && After(s, acts).clock == now
      && CountedFailures(s, acts) == MAX_FAILED_ATTEMPTS + 1
  {
    var lo := now - LOCKOUT;
    acts := InARow(0, 6, lo);
    RowCounts(Start(account, now), 0, 6, lo, now);
  }

  // --------------------------------------------------------------------
  // What overlapping attempts get away with
  // --------------------------------------------------------------------

  function Begins(k: int, n: int, now: int): seq<Action>
    decreases n - k
  {
    if k >= n then [] else [Begin(k, now, false)] + Begins(k + 1, n, now)
  }

  function Finishes(k: int, n: int): seq<Action>
    decreases n - k
  {
    if k >= n then [] else [Finish(k)] + Finishes(k + 1, n)
  }

  /** The attempts from k to n - 1 are open, and all hold the copy `read`. */
  predicate AllHold(s: State, k: int, n: int, read: Account, now: int) {
    forall c | k <= c < n :: c in s.open && s.open[c].read == read && s.open[c].now == now && !s.open[c].passwordOk
  }

  lemma {:induction false} AllFinish(s: State, k: int, n: int, read: Account, now: int)
    requires k <= n && AllHold(s, k, n, read, now)
    requires !IsLocked(read, now) && read.failed + 1 < MAX_FAILED_ATTEMPTS
    ensures IsRun(s, Finishes(k, n)) && CountedFailures(s, Finishes(k, n)) == n - k
    ensures k < n ==>
      var end := After(s, Finishes(k, n)).account; end.failed == read.failed + 1 && end.lockedUntil.None?
    decreases n - k
  {
    if k < n {
      var rest := Finishes(k + 1, n);
      assert ([Finish(k)] + rest)[1..] == rest;
      AllFinish(Next(s, Finish(k)), k + 1, n, read, now);
      assert Finishes(n, n) == [];
    }
  }

  lemma {:induction false} BeginsThenFinishes(s: State, k: int, n: int)
    requires 0 <= k <= n && n > 0 && AllHold(s, 0, k, s.account, s.clock) && forall c | c in s.open :: c < k
    requires !IsLocked(s.account, s.clock) && s.account.failed + 1 < MAX_FAILED_ATTEMPTS
    ensures var acts := Begins(k, n, s.clock) + Finishes(0, n);
      && IsRun(s, acts) && CountedFailures(s, acts) == n
      && After(s, acts).account.failed == s.account.failed + 1 && After(s, acts).account.lockedUntil.None?
    decreases n - k
  {
    if k == n {
      assert Begins(k, n, s.clock) + Finishes(0, n) == Finishes(0, n);
      AllFinish(s, 0, n, s.account, s.clock);
    } else {
      var act := Begin(k, s.clock, false);
      var rest := Begins(k + 1, n, s.clock) + Finishes(0, n);
      assert Begins(k, n, s.clock) + Finishes(0, n) == [act] + rest;
      assert ([act] + rest)[1..] == rest;
      BeginsThenFinishes(Next(s, act), k + 1, n);
    }
  }

  /**
   Without the term for overtaken failures there is no bound: any number of attempts that overlap are
   counted one by one in no time, and leave the count where a single failure would and the account unlocked.
   */
  lemma OverlappingFailuresCountOnce(account: Account, now: int, n: int) returns (acts: seq<Action>)
    requires n > 0 && !IsLocked(account, now) && account.failed + 1 < MAX_FAILED_ATTEMPTS
    ensures var s := Start(account, now);
      && IsRun(s, acts) && CountedFailures(s, acts) == n
      && After(s, acts).account.failed == account.failed + 1 && After(s, acts).account.lockedUntil.None?
  {
    acts := Begins(0, n, now) + Finishes(0, n);
    BeginsThenFinishes(Start(account, now), 0, n);
  }

  /**
   A state every account with three failures can reach at once: it is locked, yet one open attempt with the
   right password will be let in, and another with a wrong password will unlock it.
   */
  lemma LockIsPassedByOvertaken(account: Account, now: int) returns (acts: seq<Action>)
    requires account.active && account.failed == 3 && account.lockedUntil.None?
    ensures var start := Start(account, now);
      && IsRun(start, acts)
      && var s := After(start, acts);
         && IsLocked(s.account, now) && Grants(s, Finish(0)) && 1 in s.open
         && !IsLocked(Next(s, Finish(1)).account, now)
  {
    var s0 := Start(account, now);
    acts := [Begin(0, now, true), Begin(1, now, false), Begin(2, now, false), Finish(2), Begin(3, now, false), Finish(3)];
    var s1 := Next(s0, acts[0]);
    var s2 := Next(s1, acts[1]);
    var s3 := Next(s2, acts[2]);
    var s4 := Next(s3, acts[3]);
    var s5 := Next(s4, acts[4]);
    var s6 := Next(s5, acts[5]);
    OneStep(s5, acts[5..], s6);
    OneStep(s4, acts[4..], s6);
    OneStep(s3, acts[3..], s6);
    OneStep(s2, acts[2..], s6);
    OneStep(s1, acts[1..], s6);
    OneStep(s0, acts, s6);
  }

  lemma OneStep(s: State, acts: seq<Action>, end: State)
    requires acts != [] && Enabled(s, acts[0]) && IsRun(Next(s, acts[0]), acts[1..])
    requires After(Next(s, acts[0]), acts[1..]) == end
    ensures IsRun(s, acts) && After(s, acts) == end
  {
  }

  /** The last login is the last attempt that was let in. */
  lemma LastLoginMovesIff(s: State, c: Caller)
    requires Enabled(s, Finish(c))
    ensures var a, t := s.open[c], Next(s, Finish(c));
      t.account.lastLogin == if Granted(a.read, a.now, a.passwordOk) then Some(a.now) else s.account.lastLogin
  {
  }
}
