/**
 No request is stuck: from every state of every run each request can be brought to its end, whatever else is under way.
 (The unit of work of apps/guess/src/game/unit-of-work.ts.)
 */
module GameProgress {
  import opened GameStore
  import opened Options
  import opened Sets
  import M = KeyedMutex
  import S = GameSystem

  // --------------------------------------------------------------------
  // Who waits for whom
  // --------------------------------------------------------------------

  /** Reading and advancing lock the game, hints and guesses the round. */
  function LockOf(op: S.Op): Id {
    match op
    case GetCurrentRound(gameId, _, _) => gameId
    case AdvanceToNextRound(gameId, _, _) => gameId
    case RevealHint(_, roundId, _, _) => roundId
    case Guessing(_, roundId, _, _, _) => roundId
  }

  predicate HasLeft(s: S.System, i: int) {
    0 <= i < |s.calls| == |s.mutex.tickets| && s.mutex.tickets[i].phase == M.Released
  }

  /** A request may begin exactly when every earlier one with the same lock has left. */
  lemma BeginsIff(s: S.System, i: int)
    requires S.Inv(s) && 0 <= i < |s.calls| && s.calls[i].work.NotBegun?
    ensures M.CanEnter(s.mutex, i)
       <==> forall k | 0 <= k < i && LockOf(s.calls[k].op) == LockOf(s.calls[i].op) :: HasLeft(s, k)
  {
    assert S.PhaseOk(s.calls[i], s.mutex.tickets[i]);
    M.EntersExactlyInTurn(s.mutex, i);
    forall k | 0 <= k < i ensures s.mutex.tickets[k].key == LockOf(s.calls[k].op) {
      assert S.PhaseOk(s.calls[k], s.mutex.tickets[k]);
    }
    if forall k | 0 <= k < i && LockOf(s.calls[k].op) == LockOf(s.calls[i].op) :: HasLeft(s, k) {
      forall k | 0 <= k < i && s.mutex.tickets[k].key == s.mutex.tickets[i].key
        ensures s.mutex.tickets[k].phase == M.Released
      {
        assert HasLeft(s, k);
      }
    }
  }

  // --------------------------------------------------------------------
  // The next step of a request
  // --------------------------------------------------------------------

  /** How many steps a request still takes, at most. */
  function StepsLeft(c: S.Call, t: M.Ticket): nat {
    if t.phase == M.Released then 0
    else
      match c.work
      case NotBegun => 4
      case Suspended(rest) => if rest.Materialize? then 3 else 2
      case Finished(_) => 1
  }

  function AllLeft(calls: seq<S.Call>, tickets: seq<M.Ticket>): nat
    requires |calls| == |tickets|
  {
    if calls == [] then 0
    else
      var n := |calls| - 1;
      AllLeft(calls[..n], tickets[..n]) + StepsLeft(calls[n], tickets[n])
  }

  lemma {:induction false} OneLess(calls: seq<S.Call>, tickets: seq<M.Ticket>, j: int, c: S.Call, t: M.Ticket)
    requires |calls| == |tickets| && 0 <= j < |calls| && StepsLeft(c, t) < StepsLeft(calls[j], tickets[j])
    ensures AllLeft(calls[j := c], tickets[j := t]) < AllLeft(calls, tickets)
  {
    var n := |calls| - 1;
    var calls', tickets' := calls[j := c], tickets[j := t];
    if j < n {
      OneLess(calls[..n], tickets[..n], j, c, t);
      assert calls'[..n] == calls[..n][j := c] && tickets'[..n] == tickets[..n][j := t];
    } else {
      assert calls'[..n] == calls[..n] && tickets'[..n] == tickets[..n];
    }
  }

  /** The step that only moves request j, to fewer steps left. */
  ghost predicate Moves(s: S.System, s': S.System, j: int) {
    && S.Step(s, s') && 0 <= j < |s.calls| == |s'.calls| && |s.mutex.tickets| == |s.calls| && |s'.mutex.tickets| == |s.calls|
    && s'.calls == s.calls[j := s'.calls[j]] && s'.mutex.tickets == s.mutex.tickets[j := s'.mutex.tickets[j]]
    && s'.calls[j].op == s.calls[j].op
    && StepsLeft(s'.calls[j], s'.mutex.tickets[j]) < StepsLeft(s.calls[j], s.mutex.tickets[j])
  }

  lemma BeginMoves(s: S.System, j: int) returns (s': S.System)
    requires 0 <= j < |s.calls| == |s.mutex.tickets| && M.CanEnter(s.mutex, j) && s.calls[j].work.NotBegun?
    ensures Moves(s, s', j)
  {
    var (st, work) := S.Begin(s.store, s.calls[j].op, 0);
    s' := S.Put(s, j, st, M.Enter(s.mutex, j), work);
    assert S.BeginCall(s, s', j, 0);
    BegunIsNotNew(s.store, s.calls[j].op, 0);
  }

  lemma BegunIsNotNew(st: Store, op: S.Op, token: Id)
    ensures !S.Begin(st, op, token).1.NotBegun?
  {
  }

  lemma {:induction false} Fresh(used: set<Id>) returns (id: Id)
    ensures forall x | x in used :: x < id
    decreases |used|
  {
    id := 0;
    if used != {} {
      var x := Member(used);
      id := Fresh(used - {x});
      id := if x < id then id else x + 1;
      forall y | y in used ensures y < id {
        assert y == x || y in used - {x};
      }
    }
  }

  lemma ContentMoves(s: S.System, j: int) returns (s': S.System)
    requires S.IsSuspended(s, j) && s.calls[j].work.rest.Materialize? && S.CallOk(s.store, s.calls[j])
    requires |s.calls| == |s.mutex.tickets| && s.mutex.tickets[j].phase == M.Running
    ensures Moves(s, s', j)
  {
    var gid, order := s.calls[j].work.rest.gameId, s.calls[j].work.rest.order;
    var id := Fresh(s.store.rounds.Keys);
    var choiceIds := seq(|s.store.games[gid].plan[order - 1].choiceUserIds|, i => 0);
    var st := FinishMaterialize(s.store, gid, order, id, choiceIds, s.calls[j].op.now);
    s' := S.Put(s, j, st, s.mutex, S.Suspended(Resume(id)));
    assert S.ContentArrived(s, s', j, id, choiceIds);
  }

  lemma RoundMoves(s: S.System, j: int) returns (s': S.System)
    requires S.IsSuspended(s, j) && !s.calls[j].work.rest.Materialize? && S.CallOk(s.store, s.calls[j])
    requires |s.calls| == |s.mutex.tickets| && s.mutex.tickets[j].phase == M.Running
    ensures Moves(s, s', j)
  {
    var id := s.calls[j].work.rest.roundId;
    var st := if s.calls[j].op.GetCurrentRound? then ExpireIfNeeded(s.store, id, s.calls[j].op.now) else s.store;
    s' := S.Put(s, j, st, s.mutex, S.Finished(Ok));
    assert S.RoundReady(s, s', j);
  }

  lemma LeaveMoves(s: S.System, j: int) returns (s': S.System)
    requires 0 <= j < |s.calls| == |s.mutex.tickets|
    requires s.calls[j].work.Finished? && s.mutex.tickets[j].phase == M.Running
    ensures Moves(s, s', j)
  {
    s' := s.(mutex := M.Release(s.mutex, j));
    assert S.Leave(s, s', j);
  }

  /** A request that is running moves; one that waits has another before it that moves, or begins. */
  lemma SomeoneMoves(s: S.System, i: int) returns (s': S.System, j: int)
    requires S.Inv(s) && 0 <= i < |s.calls| && !HasLeft(s, i)
    ensures Moves(s, s', j)
  {
    j := i;
    assert S.PhaseOk(s.calls[i], s.mutex.tickets[i]);
    if s.mutex.tickets[i].phase == M.Waiting {
      j := M.NeverStuck(s.mutex, i);
    }
    assert S.PhaseOk(s.calls[j], s.mutex.tickets[j]) && S.CallOk(s.store, s.calls[j]);
    if s.mutex.tickets[j].phase == M.Waiting {
      s' := BeginMoves(s, j);
    } else if s.calls[j].work.Finished? {
      s' := LeaveMoves(s, j);
    } else if s.calls[j].work.rest.Materialize? {
      s' := ContentMoves(s, j);
    } else {
      s' := RoundMoves(s, j);
    }
  }

  // --------------------------------------------------------------------
  // Every request can finish
  // --------------------------------------------------------------------

  ghost predicate IsPath(path: seq<S.System>) {
    path != [] && forall n | 0 < n < |path| :: S.Step(path[n - 1], path[n])
  }

  lemma PathBefore(s: S.System, rest: seq<S.System>)
    requires IsPath(rest) && S.Step(s, rest[0])
    ensures IsPath([s] + rest)
  {
    var path := [s] + rest;
    forall n | 0 < n < |path| ensures S.Step(path[n - 1], path[n]) {
      if n > 1 {
        assert S.Step(rest[n - 2], rest[n - 1]);
      }
    }
  }

  /** From every such state some steps bring the request to its end, with an answer, its lock released. */
  lemma {:induction false} EveryRequestCanFinish(s: S.System, i: int) returns (path: seq<S.System>)
    requires S.Inv(s) && 0 <= i < |s.calls|
    ensures IsPath(path) && path[0] == s
    ensures HasLeft(path[|path| - 1], i) && path[|path| - 1].calls[i].op == s.calls[i].op
    ensures path[|path| - 1].calls[i].work.Finished?
    decreases AllLeft(s.calls, s.mutex.tickets)
  {
    if HasLeft(s, i) {
      path := [s];
      LeftIsFinished(s, i);
    } else {
      var next, j := SomeoneMoves(s, i);
      S.StepKeepsInv(s, next);
      OneLess(s.calls, s.mutex.tickets, j, next.calls[j], next.mutex.tickets[j]);
      var rest := EveryRequestCanFinish(next, i);
      path := [s] + rest;
      PathBefore(s, rest);
    }
  }

  lemma LeftIsFinished(s: S.System, i: int)
    requires S.Inv(s) && HasLeft(s, i)
    ensures s.calls[i].work.Finished?
  {
    assert S.PhaseOk(s.calls[i], s.mutex.tickets[i]);
  }

  /** Every run goes on to a state in which the request has been answered and has left. */
  lemma EveryRunCanFinish(run: seq<S.System>, i: int) returns (longer: seq<S.System>)
    requires S.IsRun(run) && 0 <= i < |run[|run| - 1].calls|
    ensures S.IsRun(longer) && run <= longer
    ensures HasLeft(longer[|longer| - 1], i) && longer[|longer| - 1].calls[i].work.Finished?
  {
    S.RunKeepsInv(run, |run| - 1);
    var path := EveryRequestCanFinish(run[|run| - 1], i);
    longer := run + path[1..];
    forall n | 0 < n < |longer| ensures S.Step(longer[n - 1], longer[n]) {
      if n >= |run| {
        var k := n - |run| + 1;
        assert longer[n] == path[k] && longer[n - 1] == path[k - 1];
      }
    }
  }
}
