/**
 The promise-chain mutex of the game unit of work
 (apps/guess/src/game/unit-of-work.ts), as interleaved steps of its callers.

 A call that finds a chain for its key keeps it as `prior`, replaces it by a
 chain that also waits for the call's own gate, and suspends until `prior` has
 settled. A caller is known by its place in the order of arrival.
 */
module KeyedMutex {
  import opened Options

  datatype Phase = Waiting | Running | Released

  datatype Ticket = Ticket(key: int, prior: Option<int>, phase: Phase)

  /** `queues` maps a key to the call whose chain is stored for it. */
  datatype Mutex = Mutex(tickets: seq<Ticket>, queues: map<int, int>)

  const Idle := Mutex([], map[])

  function Arrive(m: Mutex, key: int): Mutex {
    var prior := if key in m.queues then Some(m.queues[key]) else None;
    Mutex(m.tickets + [Ticket(key, prior, Waiting)], m.queues[key := |m.tickets|])
  }

  predicate IsCall(m: Mutex, i: int) {
    0 <= i < |m.tickets|
  }

  /** The chain stored by call `i` has settled: its gate is open and so is all before it. */
  predicate Settled(m: Mutex, i: int)
    decreases i
  {
    && IsCall(m, i) && m.tickets[i].phase == Released
    && match m.tickets[i].prior
       case None => true
       case Some(j) => 0 <= j < i && Settled(m, j)
  }

  predicate CanEnter(m: Mutex, i: int) {
    && IsCall(m, i) && m.tickets[i].phase == Waiting
    && match m.tickets[i].prior
       case None => true
       case Some(j) => Settled(m, j)
  }

  function Enter(m: Mutex, i: int): Mutex
    requires IsCall(m, i)
  {
    m.(tickets := m.tickets[i := m.tickets[i].(phase := Running)])
  }

  /** The `finally` block: reached when the body returns and when it throws. */
  function Release(m: Mutex, i: int): Mutex
    requires IsCall(m, i)
  {
    m.(tickets := m.tickets[i := m.tickets[i].(phase := Released)])
  }

  ghost predicate Step(m: Mutex, m': Mutex) {
    || (exists key :: m' == Arrive(m, key))
    || (exists i :: CanEnter(m, i) && m' == Enter(m, i))
    || (exists i :: IsCall(m, i) && m.tickets[i].phase == Running && m' == Release(m, i))
  }

  // --------------------------------------------------------------------
  // The queue of a key
  // --------------------------------------------------------------------

  /** `j` is the last call for `key` before call `n`. */
  predicate IsLatest(m: Mutex, key: int, n: int, j: int) {
    && 0 <= j < n <= |m.tickets| && m.tickets[j].key == key
    && forall k | j < k < n :: m.tickets[k].key != key
  }

  predicate LinkedTo(m: Mutex, key: int, n: int, link: Option<int>)
    requires n <= |m.tickets|
  {
    match link
    case None => forall k | 0 <= k < n :: m.tickets[k].key != key
    case Some(j) => IsLatest(m, key, n, j)
  }

  /** Whoever has entered has seen every earlier caller of the same key leave. */
  predicate EnteredInTurn(m: Mutex) {
    forall i, j | 0 <= j < i < |m.tickets| && m.tickets[j].key == m.tickets[i].key && m.tickets[i].phase != Waiting ::
      m.tickets[j].phase == Released
  }

  ghost predicate Inv(m: Mutex) {
    && (forall key :: LinkedTo(m, key, |m.tickets|, if key in m.queues then Some(m.queues[key]) else None))
    && (forall i | 0 <= i < |m.tickets| :: LinkedTo(m, m.tickets[i].key, i, m.tickets[i].prior))
    && EnteredInTurn(m)
  }

  lemma {:induction false} SettledMeansAllLeft(m: Mutex, i: int, k: int)
    requires Inv(m) && Settled(m, i) && 0 <= k <= i && m.tickets[k].key == m.tickets[i].key
    ensures m.tickets[k].phase == Released
    decreases i
  {
    assert LinkedTo(m, m.tickets[i].key, i, m.tickets[i].prior);
    if k < i {
      match m.tickets[i].prior
      case None =>
      case Some(j) => SettledMeansAllLeft(m, j, k);
    }
  }

  lemma {:induction false} AllLeftMeansSettled(m: Mutex, i: int)
    requires Inv(m) && IsCall(m, i)
    requires forall k | 0 <= k <= i && m.tickets[k].key == m.tickets[i].key :: m.tickets[k].phase == Released
    ensures Settled(m, i)
    decreases i
  {
    assert LinkedTo(m, m.tickets[i].key, i, m.tickets[i].prior);
    match m.tickets[i].prior
    case None =>
    case Some(j) => AllLeftMeansSettled(m, j);
  }

  lemma InitInv()
    ensures Inv(Idle)
  {
  }

  lemma ArriveKeepsInv(m: Mutex, key: int)
    requires Inv(m)
    ensures Inv(Arrive(m, key))
  {
    var m' := Arrive(m, key);
    forall k
      ensures LinkedTo(m', k, |m'.tickets|, if k in m'.queues then Some(m'.queues[k]) else None)
    {
      assert LinkedTo(m, k, |m.tickets|, if k in m.queues then Some(m.queues[k]) else None);
    }
    forall i | 0 <= i < |m'.tickets|
      ensures LinkedTo(m', m'.tickets[i].key, i, m'.tickets[i].prior)
    {
      if i < |m.tickets| {
        assert LinkedTo(m, m.tickets[i].key, i, m.tickets[i].prior);
      } else {
        assert LinkedTo(m, key, |m.tickets|, if key in m.queues then Some(m.queues[key]) else None);
      }
    }
  }

  lemma LinksIgnorePhases(m: Mutex, m': Mutex)
    requires Inv(m) && m'.queues == m.queues && |m'.tickets| == |m.tickets|
    requires forall i | 0 <= i < |m.tickets| ::
      m'.tickets[i].key == m.tickets[i].key && m'.tickets[i].prior == m.tickets[i].prior
    requires EnteredInTurn(m')
    ensures Inv(m')
  {
    forall k
      ensures LinkedTo(m', k, |m'.tickets|, if k in m'.queues then Some(m'.queues[k]) else None)
    {
      assert LinkedTo(m, k, |m.tickets|, if k in m.queues then Some(m.queues[k]) else None);
    }
    forall i | 0 <= i < |m'.tickets|
      ensures LinkedTo(m', m'.tickets[i].key, i, m'.tickets[i].prior)
    {
      assert LinkedTo(m, m.tickets[i].key, i, m.tickets[i].prior);
    }
  }

  lemma EnterKeepsInv(m: Mutex, i: int)
    requires Inv(m) && CanEnter(m, i)
    ensures Inv(Enter(m, i))
  {
    assert LinkedTo(m, m.tickets[i].key, i, m.tickets[i].prior);
    forall k | 0 <= k < i && m.tickets[k].key == m.tickets[i].key
      ensures m.tickets[k].phase == Released
    {
      SettledMeansAllLeft(m, m.tickets[i].prior.value, k);
    }
    LinksIgnorePhases(m, Enter(m, i));
  }

  lemma ReleaseKeepsInv(m: Mutex, i: int)
    requires Inv(m) && IsCall(m, i) && m.tickets[i].phase == Running
    ensures Inv(Release(m, i))
  {
    LinksIgnorePhases(m, Release(m, i));
  }

  lemma StepKeepsInv(m: Mutex, m': Mutex)
    requires Inv(m) && Step(m, m')
    ensures Inv(m')
  {
    if key :| m' == Arrive(m, key) {
      ArriveKeepsInv(m, key);
    } else if i :| CanEnter(m, i) && m' == Enter(m, i) {
      EnterKeepsInv(m, i);
    } else {
      var i :| IsCall(m, i) && m.tickets[i].phase == Running && m' == Release(m, i);
      ReleaseKeepsInv(m, i);
    }
  }

  // --------------------------------------------------------------------
  // What the mutex guarantees
  // --------------------------------------------------------------------

  /** At most one caller per key runs. */
  lemma MutualExclusion(m: Mutex, i: int, j: int)
    requires Inv(m) && IsCall(m, i) && IsCall(m, j) && m.tickets[i].key == m.tickets[j].key
    requires m.tickets[i].phase == Running && m.tickets[j].phase == Running
    ensures i == j
  {
  }

  /** A caller may go on exactly when everyone who asked for the key before has left. */
  lemma EntersExactlyInTurn(m: Mutex, i: int)
    requires Inv(m) && IsCall(m, i) && m.tickets[i].phase == Waiting
    ensures CanEnter(m, i)
       <==> forall k | 0 <= k < i && m.tickets[k].key == m.tickets[i].key :: m.tickets[k].phase == Released
  {
    assert LinkedTo(m, m.tickets[i].key, i, m.tickets[i].prior);
    match m.tickets[i].prior
    case None =>
    case Some(j) =>
      if Settled(m, j) {
        forall k | 0 <= k < i && m.tickets[k].key == m.tickets[i].key
          ensures m.tickets[k].phase == Released
        {
          SettledMeansAllLeft(m, j, k);
        }
      } else if forall k | 0 <= k < i && m.tickets[k].key == m.tickets[i].key :: m.tickets[k].phase == Released {
        AllLeftMeansSettled(m, j);
      }
  }

  /** No key is ever stuck: while someone waits for it, someone runs or the first in line may enter. */
  lemma {:induction false} NeverStuck(m: Mutex, i: int) returns (j: int)
    requires Inv(m) && IsCall(m, i) && m.tickets[i].phase == Waiting
    ensures 0 <= j <= i && m.tickets[j].key == m.tickets[i].key
    ensures m.tickets[j].phase == Running || CanEnter(m, j)
    decreases i
  {
    EntersExactlyInTurn(m, i);
    j := i;
    if !CanEnter(m, i) {
      var k :| 0 <= k < i && m.tickets[k].key == m.tickets[i].key && m.tickets[k].phase != Released;
      j := k;
      if m.tickets[k].phase == Waiting {
        j := NeverStuck(m, k);
      }
    }
  }

  // --------------------------------------------------------------------
  // Every run
  // --------------------------------------------------------------------

  ghost predicate IsRun(run: seq<Mutex>) {
    run != [] && run[0] == Idle && forall n | 0 < n < |run| :: Step(run[n - 1], run[n])
  }

  lemma {:induction false} EveryStateKeepsInv(run: seq<Mutex>, n: nat)
    requires IsRun(run) && n < |run|
    ensures Inv(run[n])
    decreases n
  {
    if n > 0 {
      EveryStateKeepsInv(run, n - 1);
      StepKeepsInv(run[n - 1], run[n]);
    }
  }

  /** A caller that has left stays away, and nobody's key or place changes. */
  predicate Continues(m: Mutex, m': Mutex) {
    |m.tickets| <= |m'.tickets| && forall i | 0 <= i < |m.tickets| :: TicketContinues(m.tickets[i], m'.tickets[i])
  }

  predicate TicketContinues(t: Ticket, t': Ticket) {
    t'.key == t.key && (t.phase != Waiting ==> t'.phase != Waiting) && (t.phase == Released ==> t'.phase == Released)
  }

  lemma StepContinues(m: Mutex, m': Mutex)
    requires Step(m, m')
    ensures Continues(m, m')
  {
  }

  lemma {:induction false} RunContinues(run: seq<Mutex>, n: nat, l: nat)
    requires IsRun(run) && n <= l < |run|
    ensures Continues(run[n], run[l])
    decreases l
  {
    if n < l {
      RunContinues(run, n, l - 1);
      StepContinues(run[l - 1], run[l]);
      forall i | 0 <= i < |run[n].tickets| ensures TicketContinues(run[n].tickets[i], run[l].tickets[i]) {
        assert TicketContinues(run[n].tickets[i], run[l - 1].tickets[i]);
        assert TicketContinues(run[l - 1].tickets[i], run[l].tickets[i]);
      }
    }
  }

  /**
   In every run of any callers: once a caller has entered, everyone who asked for its key before has left, then and
   at every later step; so callers of a key run one at a time and in the order in which they asked.
   */
  lemma AdmittedInOrder(run: seq<Mutex>, n: nat, l: nat, i: int, j: int)
    requires IsRun(run) && n <= l < |run| && 0 <= j < i && IsCall(run[n], i)
    requires run[n].tickets[j].key == run[n].tickets[i].key && run[n].tickets[i].phase != Waiting
    ensures IsCall(run[l], j) && run[l].tickets[j].phase == Released
  {
    EveryStateKeepsInv(run, n);
    RunContinues(run, n, l);
    assert TicketContinues(run[n].tickets[j], run[l].tickets[j]);
  }

  /** In every run: while someone waits for a key, someone runs or the first in line may enter. */
  lemma SomeoneGoesOn(run: seq<Mutex>, n: nat, i: int) returns (j: int)
    requires IsRun(run) && n < |run| && IsCall(run[n], i) && run[n].tickets[i].phase == Waiting
    ensures 0 <= j <= i && run[n].tickets[j].key == run[n].tickets[i].key
    ensures run[n].tickets[j].phase == Running || CanEnter(run[n], j)
  {
    EveryStateKeepsInv(run, n);
    j := NeverStuck(run[n], i);
  }

  // --------------------------------------------------------------------
  // Everyone gets in
  // --------------------------------------------------------------------

  /** Steps one after the other, from any state. */
  ghost predicate IsPath(path: seq<Mutex>) {
    path != [] && forall n | 0 < n < |path| :: Step(path[n - 1], path[n])
  }

  /** How many steps these callers have before them. */
  function Ahead(tickets: seq<Ticket>): nat {
    if tickets == [] then 0
    else
      var n := |tickets| - 1;
      Ahead(tickets[..n]) + if tickets[n].phase == Waiting then 2 else if tickets[n].phase == Running then 1 else 0
  }

  lemma {:induction false} OneStepLess(tickets: seq<Ticket>, j: int, t: Ticket)
    requires 0 <= j < |tickets|
    requires (tickets[j].phase == Waiting && t.phase == Running) || (tickets[j].phase == Running && t.phase == Released)
    ensures Ahead(tickets[j := t]) == Ahead(tickets) - 1
  {
    var n := |tickets| - 1;
    if j < n {
      OneStepLess(tickets[..n], j, t);
      assert tickets[j := t][..n] == tickets[..n][j := t];
    } else {
      assert tickets[j := t][..n] == tickets[..n];
    }
  }

  /** The next step on the way of a caller that cannot enter yet: an earlier caller of its key enters or leaves. */
  lemma StepAhead(m: Mutex, i: int) returns (m': Mutex)
    requires Inv(m) && IsCall(m, i) && m.tickets[i].phase == Waiting && !CanEnter(m, i)
    ensures Step(m, m') && Inv(m') && |m'.tickets| == |m.tickets| && Ahead(m'.tickets) == Ahead(m.tickets) - 1
    ensures m'.tickets[i] == m.tickets[i]
  {
    var j := NeverStuck(m, i);
    if m.tickets[j].phase == Running {
      m' := Release(m, j);
      OneStepLess(m.tickets, j, m'.tickets[j]);
    } else {
      m' := Enter(m, j);
      OneStepLess(m.tickets, j, m'.tickets[j]);
    }
    StepKeepsInv(m, m');
  }

  /** From any such state every waiting caller can be let in: those before it come in and leave, and then it enters. */
  lemma {:induction false} EveryoneGetsIn(m: Mutex, i: int) returns (path: seq<Mutex>)
    requires Inv(m) && IsCall(m, i) && m.tickets[i].phase == Waiting
    ensures IsPath(path) && path[0] == m
    ensures IsCall(path[|path| - 1], i) && path[|path| - 1].tickets[i] == m.tickets[i].(phase := Running)
    decreases Ahead(m.tickets)
  {
    if CanEnter(m, i) {
      path := [m, Enter(m, i)];
    } else {
      var next := StepAhead(m, i);
      var rest := EveryoneGetsIn(next, i);
      path := [m] + rest;
      PathBefore(m, rest);
    }
  }

  lemma PathBefore(m: Mutex, rest: seq<Mutex>)
    requires IsPath(rest) && Step(m, rest[0])
    ensures IsPath([m] + rest)
  {
    var path := [m] + rest;
    forall n | 0 < n < |path| ensures Step(path[n - 1], path[n]) {
      if n > 1 {
        assert Step(rest[n - 2], rest[n - 1]);
      }
    }
  }

  /** Every run goes on, for each caller that waits in its last state, to a state in which that caller runs. */
  lemma EveryoneCanStillEnter(run: seq<Mutex>, i: int) returns (longer: seq<Mutex>)
    requires IsRun(run) && IsCall(run[|run| - 1], i) && run[|run| - 1].tickets[i].phase == Waiting
    ensures IsRun(longer) && run <= longer
    ensures IsCall(longer[|longer| - 1], i) && longer[|longer| - 1].tickets[i].phase == Running
  {
    EveryStateKeepsInv(run, |run| - 1);
    var path := EveryoneGetsIn(run[|run| - 1], i);
    longer := run + path[1..];
    forall n | 0 < n < |longer| ensures Step(longer[n - 1], longer[n]) {
      if n >= |run| {
        var k := n - |run| + 1;
        assert longer[n] == path[k] && longer[n - 1] == path[k - 1];
      }
    }
  }
}
