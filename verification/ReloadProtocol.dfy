/**
 The reload protocol between one agent and any number of bridges: every interleaving of
 connecting, sending, delivering, acknowledging, timing out and disconnecting.

 Each connection is an ordered pipe in both directions. One action is one atomic step
 of one of the two programs, or something the world does.
 */
module ReloadProtocol {
  import opened Options
  import opened Sets
  import opened PipeServer
  import opened ExtensionBridge

  /** A connection as seen from the browser; `acked` are the nonces its bridge has honoured and acknowledged. */
  datatype Link = Link(bridge: Bridge, toBridge: seq<ToBridge>, toAgent: seq<ToAgent>, acked: set<Nonce>)

  datatype System = System(agent: Agent, links: map<Conn, Link>, ended: set<Conn>)

  datatype Action =
    | Connect(c: Conn, project: Project, autoReload: bool, running: Version, posts: bool)
    | Report(c: Conn, status: bool, stated: Option<Version>)       // the bridge writes a status or another report
    | Receive(c: Conn, posts: bool)                                // the bridge reads one message
    | Close(c: Conn)                                               // the bridge loses its port, or it throws
    | Handle(c: Conn, now: int, draw: Nonce)                      // the agent reads one message
    | End(c: Conn)                                                 // the agent's handler of c ends
    | Request(project: Project, version: Version, now: int, draw: Nonce)
    | Clear(project: Project)
    | Write(n: Nonce, c: Conn, ok: bool)
    | FinishSending(n: Nonce)
    | Expire(n: Nonce)
    | Wake(n: Nonce)

  predicate InPhase(a: Agent, n: Nonce, phase: Phase) {
    n in a.broadcasts && a.broadcasts[n].phase == phase
  }

  predicate Enabled(s: System, act: Action) {
    match act
    case Connect(c, _, _, _, _) => c !in s.links && c !in s.ended
    case Report(c, _, _) => c in s.links && s.links[c].bridge.connected
    case Receive(c, _) => c in s.links && s.links[c].toBridge != []
    case Close(c) => c in s.links
    case Handle(c, _, draw) => c in s.links && c !in s.ended && s.links[c].toAgent != [] && draw !in s.agent.broadcasts
    case End(c) => c in s.links && c !in s.ended
    case Request(_, _, _, draw) => draw !in s.agent.broadcasts
    case Clear(_) => true
    case Write(n, c, _) => InPhase(s.agent, n, Sending) && c in s.agent.broadcasts[n].todo && c in s.links
    case FinishSending(n) => InPhase(s.agent, n, Sending) && s.agent.broadcasts[n].todo == {}
    case Expire(n) => InPhase(s.agent, n, Waiting)
    case Wake(n) => InPhase(s.agent, n, Waiting) && s.agent.broadcasts[n].completed.Some?
  }

  function NewLink(project: Project, autoReload: bool, running: Version, posts: bool): Link {
    Link(Bridge(project, autoReload, posts, None, 0), [], if posts then [Register(Some(project), Some(running))] else [], {})
  }

  function Reported(l: Link, status: bool, running: Option<Version>): Link {
    var p := Some(l.bridge.project);
    l.(toAgent := l.toAgent + [if status then Register(p, running) else OtherReport(p)])
  }

  function Received(l: Link, posts: bool): Link
    requires l.toBridge != []
  {
    var msg := l.toBridge[0];
    var n := Honoured(l.bridge, msg);
    Link(Answered(l.bridge, msg, posts).0, l.toBridge[1..], l.toAgent + Answered(l.bridge, msg, posts).1,
         if n.Some? && l.bridge.connected && posts then l.acked + {n.value} else l.acked)
  }

  function Delivered(l: Link, b: Broadcast, n: Nonce): Link {
    l.(toBridge := l.toBridge + [ReloadReady(Some(b.project), Some(n), b.version)])
  }

  function Next(s: System, act: Action): System
    requires Enabled(s, act)
  {
    match act
    case Connect(c, project, autoReload, running, posts) =>
      s.(links := s.links[c := NewLink(project, autoReload, running, posts)])
    case Report(c, status, running) => s.(links := s.links[c := Reported(s.links[c], status, running)])
    case Receive(c, posts) => s.(links := s.links[c := Received(s.links[c], posts)])
    case Close(c) => s.(links := s.links[c := s.links[c].(bridge := s.links[c].bridge.(connected := false))])
    case Handle(c, now, draw) =>
      System(Handled(s.agent, c, s.links[c].toAgent[0], now, draw),
             s.links[c := s.links[c].(toAgent := s.links[c].toAgent[1..])], s.ended)
    case End(c) => System(Ended(s.agent, c), s.links, s.ended + {c})
    case Request(p, v, now, draw) => s.(agent := Requested(s.agent, p, v, now, draw))
    case Clear(p) => s.(agent := Cleared(s.agent, p))
    case Write(n, c, ok) =>
      System(SentTo(s.agent, n, c, ok),
             if ok then s.links[c := Delivered(s.links[c], s.agent.broadcasts[n], n)] else s.links, s.ended)
    case FinishSending(n) => s.(agent := SendingDone(s.agent, n))
    case Expire(n) => s.(agent := TimedOut(s.agent, n))
    case Wake(n) => s.(agent := Woken(s.agent, n))
  }

  const INIT := System(START, map[], {})

  ghost predicate IsRun(run: seq<System>) {
    && run != [] && run[0] == INIT
    && forall i | 0 <= i < |run| - 1 :: IsStep(run, i)
  }

  ghost predicate IsStep(run: seq<System>, i: nat)
    requires i < |run| - 1
  {
    exists act :: Enabled(run[i], act) && run[i + 1] == Next(run[i], act)
  }

  // --------------------------------------------------------------------
  // The invariant
  // --------------------------------------------------------------------

  /** n was written to c, for the project c's bridge serves. */
  predicate WasSent(bs: map<Nonce, Broadcast>, c: Conn, p: Project, n: Nonce) {
    n in bs && bs[n].project == p && c !in bs[n].todo && bs[n].delivered > 0
  }

  predicate ReadyOk(bs: map<Nonce, Broadcast>, c: Conn, p: Project, msg: ToBridge) {
    msg.ReloadReady? && msg.nonce.Some? ==> WasSent(bs, c, p, msg.nonce.value)
  }

  predicate ReportOk(l: Link, msg: ToAgent) {
    && msg.project == Some(l.bridge.project)
    && (msg.ReloadAck? && msg.nonce.Some? ==> msg.nonce.value in l.acked)
  }

  predicate LinkOk(bs: map<Nonce, Broadcast>, c: Conn, l: Link) {
    && (forall i | 0 <= i < |l.toBridge| :: ReadyOk(bs, c, l.bridge.project, l.toBridge[i]))
    && (forall i | 0 <= i < |l.toAgent| :: ReportOk(l, l.toAgent[i]))
    && (forall n | n in l.acked :: WasSent(bs, c, l.bridge.project, n))
  }

  predicate Serves(links: map<Conn, Link>, c: Conn, p: Project) {
    c in links && links[c].bridge.project == p
  }

  predicate ListedOk(s: System, p: Project) {
    p in s.agent.byProject ==>
      && s.agent.byProject[p] != {}
      && forall c | c in s.agent.byProject[p] ::
           Serves(s.links, c, p) && c !in s.ended && c in s.agent.projectOf
  }

  predicate RoundOk(pending: set<Nonce>, n: Nonce, b: Broadcast) {
    && b.delivered >= 0
    && (n in pending ==> !b.phase.Finished? && b.completed != Some(true))
    && (!b.phase.Finished? && b.completed.None? ==> n in pending)
    && (b.phase.Finished? ==> b.todo == {} && (b.phase.result <==> b.completed == Some(true)))
    && (b.phase == Waiting ==> b.todo == {} && b.delivered > 0)
    && (b.phase == Sending ==> b.completed != Some(false))
  }

  predicate AckedBySomeone(links: map<Conn, Link>, n: Nonce) {
    exists c | c in links :: n in links[c].acked
  }

  ghost predicate Agree(s: System) {
    && (forall p :: ListedOk(s, p))
    && (forall c | c in s.agent.projectOf :: Serves(s.links, c, s.agent.projectOf[c]))
  }

  predicate Rounds(s: System) {
    && s.agent.pendingReloads <= s.agent.broadcasts.Keys
    && (forall n | n in s.agent.broadcasts :: RoundOk(s.agent.pendingReloads, n, s.agent.broadcasts[n]))
    && (forall n | n in s.agent.broadcasts && s.agent.broadcasts[n].completed == Some(true) ::
          AckedBySomeone(s.links, n))
  }

  predicate Targets(s: System) {
    forall n | n in s.agent.broadcasts :: TargetsOk(s.links, s.agent.broadcasts[n])
  }

  predicate TargetsOk(links: map<Conn, Link>, b: Broadcast) {
    forall c | c in b.todo :: Serves(links, c, b.project)
  }

  predicate Pipes(s: System) {
    forall c | c in s.links :: LinkOk(s.agent.broadcasts, c, s.links[c])
  }

  /** Whether the last event about p is a connection. */
  predicate Listening(events: seq<Event>, p: Project) {
    if events == [] then false
    else
      var last := events[|events| - 1];
      if last.project == p then last.BridgeConnected? else Listening(events[..|events| - 1], p)
  }

  ghost predicate EventsTell(a: Agent) {
    forall p :: p in a.byProject <==> Listening(a.events, p)
  }

  ghost predicate Inv(s: System) {
    Agree(s) && Rounds(s) && Targets(s) && Pipes(s) && EventsTell(s.agent)
  }

  // --------------------------------------------------------------------
  // What a broadcast never takes back
  // --------------------------------------------------------------------

  predicate Follows(b: Broadcast, b': Broadcast) {
    && b'.project == b.project && b'.version == b.version
    && b'.todo <= b.todo && b.delivered <= b'.delivered
    && (b.completed.Some? ==> b'.completed == b.completed)
    && (b.phase.Finished? ==> b' == b)
  }

  predicate Grown(bs: map<Nonce, Broadcast>, bs': map<Nonce, Broadcast>) {
    forall n | n in bs :: n in bs' && Follows(bs[n], bs'[n])
  }

  // --------------------------------------------------------------------
  // The agent's steps keep it
  // --------------------------------------------------------------------

  lemma RemovedKeepsInv(s: System, p: Project, c: Conn)
    requires Inv(s)
    ensures Inv(s.(agent := Removed(s.agent, p, c)))
  {
    var t := s.(agent := Removed(s.agent, p, c));
    forall q ensures ListedOk(t, q) {
      assert ListedOk(s, q);
    }
  }

  lemma StartedKeepsInv(s: System, p: Project, v: Version, n: Nonce)
    requires Inv(s) && p in s.agent.byProject && n !in s.agent.broadcasts
    ensures Inv(s.(agent := Started(s.agent, p, v, n)))
  {
    var t := s.(agent := Started(s.agent, p, v, n));
    assert ListedOk(s, p);
    forall q ensures ListedOk(t, q) {
      assert ListedOk(s, q);
    }
  }

  lemma RequestedKeepsInv(s: System, p: Project, v: Version, now: int, n: Nonce)
    requires Inv(s) && n !in s.agent.broadcasts
    ensures Inv(s.(agent := Requested(s.agent, p, v, now, n)))
  {
    var q := s.(agent := s.agent.(pendingByProject := s.agent.pendingByProject[p := PendingReload(v, now)]));
    QueueIsFree(s, q.agent.pendingByProject);
    if p in q.agent.byProject && q.agent.byProject[p] != {} {
      StartedKeepsInv(q, p, v, n);
    }
  }

  /** The invariant does not depend on the queue. */
  lemma QueueIsFree(s: System, queue: map<Project, PendingReload>)
    requires Inv(s)
    ensures Inv(s.(agent := s.agent.(pendingByProject := queue)))
  {
    var t := s.(agent := s.agent.(pendingByProject := queue));
    forall q ensures ListedOk(t, q) {
      assert ListedOk(s, q);
    }
  }

  lemma FlushedKeepsInv(s: System, p: Project, running: Option<Version>, now: int, n: Nonce)
    requires Inv(s) && p in s.agent.byProject && n !in s.agent.broadcasts
    ensures Inv(s.(agent := Flushed(s.agent, p, running, now, n)))
  {
    if p in s.agent.pendingByProject {
      var pend := s.agent.pendingByProject[p];
      QueueIsFree(s, s.agent.pendingByProject - {p});
      var queue := s.agent.pendingByProject[p := pend.(lastAttempt := now)];
      QueueIsFree(s, queue);
      StartedKeepsInv(s.(agent := s.agent.(pendingByProject := queue)), p, pend.version, n);
    }
  }

  lemma RememberedKeepsInv(s: System, c: Conn, p: Option<Project>)
    requires Inv(s) && (p.Some? ==> Serves(s.links, c, p.value))
    ensures Inv(s.(agent := Remembered(s.agent, c, p)))
  {
    var t := s.(agent := Remembered(s.agent, c, p));
    forall q ensures ListedOk(t, q) {
      assert ListedOk(s, q);
    }
  }

  lemma RegisteredKeepsInv(s: System, c: Conn, p: Project)
    requires Inv(s) && Serves(s.links, c, p) && c !in s.ended && c in s.agent.projectOf
    ensures Inv(s.(agent := Registered(s.agent, c, p)))
  {
    var t := s.(agent := Registered(s.agent, c, p));
    forall q ensures ListedOk(t, q) {
      assert ListedOk(s, q);
    }
  }

  lemma PipesStay(s: System, a: Agent)
    requires Pipes(s) && Grown(s.agent.broadcasts, a.broadcasts)
    ensures Pipes(s.(agent := a))
  {
  }

  /** A step that changes one broadcast, and perhaps the outstanding nonces or the queue. */
  lemma OneBroadcastChanges(s: System, a: Agent, n: Nonce)
    requires Inv(s) && n in s.agent.broadcasts && n in a.broadcasts
    requires a.byProject == s.agent.byProject && a.projectOf == s.agent.projectOf && a.events == s.agent.events
    requires a.broadcasts == s.agent.broadcasts[n := a.broadcasts[n]]
    requires a.pendingReloads == s.agent.pendingReloads || a.pendingReloads == s.agent.pendingReloads - {n}
    requires Follows(s.agent.broadcasts[n], a.broadcasts[n]) && RoundOk(a.pendingReloads, n, a.broadcasts[n])
    requires a.broadcasts[n].completed == Some(true) ==> AckedBySomeone(s.links, n)
    ensures Inv(s.(agent := a))
  {
    var t := s.(agent := a);
    forall q ensures ListedOk(t, q) {
      assert ListedOk(s, q);
    }
    PipesStay(s, a);
    forall m | m in a.broadcasts ensures TargetsOk(t.links, a.broadcasts[m]) {
      assert TargetsOk(s.links, s.agent.broadcasts[m]);
    }
    forall m | m in a.broadcasts ensures RoundOk(a.pendingReloads, m, a.broadcasts[m]) {
      assert RoundOk(s.agent.pendingReloads, m, s.agent.broadcasts[m]);
    }
  }

  lemma AcknowledgedKeepsInv(s: System, n: Nonce, c: Conn)
    requires Inv(s) && c in s.links && n in s.links[c].acked
    ensures Inv(s.(agent := Acknowledged(s.agent, n)))
  {
    if n in s.agent.pendingReloads && n in s.agent.broadcasts {
      assert RoundOk(s.agent.pendingReloads, n, s.agent.broadcasts[n]);
      OneBroadcastChanges(s, Acknowledged(s.agent, n), n);
    }
  }

  lemma FinishedSendingKeepsInv(s: System, n: Nonce)
    requires Inv(s) && Enabled(s, FinishSending(n))
    ensures Inv(Next(s, FinishSending(n)))
  {
    var b := s.agent.broadcasts[n];
    assert RoundOk(s.agent.pendingReloads, n, b);
    OneBroadcastChanges(s, SendingDone(s.agent, n), n);
  }

  lemma ExpiredKeepsInv(s: System, n: Nonce)
    requires Inv(s) && Enabled(s, Expire(n))
    ensures Inv(Next(s, Expire(n)))
  {
    assert RoundOk(s.agent.pendingReloads, n, s.agent.broadcasts[n]);
    OneBroadcastChanges(s, TimedOut(s.agent, n), n);
  }

  lemma WokenKeepsInv(s: System, n: Nonce)
    requires Inv(s) && Enabled(s, Wake(n))
    ensures Inv(Next(s, Wake(n)))
  {
    assert RoundOk(s.agent.pendingReloads, n, s.agent.broadcasts[n]);
    OneBroadcastChanges(s, Woken(s.agent, n), n);
  }

  lemma HandledKeepsInv(s: System, c: Conn, msg: ToAgent, now: int, n: Nonce)
    requires Inv(s) && c in s.links && c !in s.ended && n !in s.agent.broadcasts && ReportOk(s.links[c], msg)
    ensures Inv(s.(agent := Handled(s.agent, c, msg, now, n)))
  {
    var p := s.links[c].bridge.project;
    RememberedKeepsInv(s, c, Some(p));
    var r := s.(agent := Remembered(s.agent, c, Some(p)));
    match msg
    case Register(_, running) =>
      RegisteredKeepsInv(r, c, p);
      FlushedKeepsInv(r.(agent := Registered(r.agent, c, p)), p, running, now, n);
    case ReloadAck(_, nonce) =>
      if nonce.Some? {
        AcknowledgedKeepsInv(r, nonce.value, c);
      }
    case OtherReport(_) =>
  }

  // --------------------------------------------------------------------
  // The pipes' steps keep it
  // --------------------------------------------------------------------

  predicate Extends(l: Link, l': Link) {
    l'.bridge.project == l.bridge.project && l.acked <= l'.acked
  }

  lemma LinkChanges(s: System, c: Conn, l: Link)
    requires Inv(s) && (c in s.links ==> Extends(s.links[c], l)) && LinkOk(s.agent.broadcasts, c, l)
    ensures Inv(s.(links := s.links[c := l]))
  {
    var t := s.(links := s.links[c := l]);
    forall q ensures ListedOk(t, q) {
      assert ListedOk(s, q);
    }
    forall n | n in s.agent.broadcasts ensures TargetsOk(t.links, s.agent.broadcasts[n]) {
      assert TargetsOk(s.links, s.agent.broadcasts[n]);
    }
    forall n | n in s.agent.broadcasts && s.agent.broadcasts[n].completed == Some(true)
      ensures AckedBySomeone(t.links, n)
    {
      assert AckedBySomeone(s.links, n);
      var d :| d in s.links && n in s.links[d].acked;
      assert n in t.links[d].acked;
    }
  }

  lemma ReceivedIsOk(bs: map<Nonce, Broadcast>, c: Conn, l: Link, posts: bool)
    requires LinkOk(bs, c, l) && l.toBridge != []
    ensures LinkOk(bs, c, Received(l, posts))
  {
    var m := Received(l, posts);
    assert ReadyOk(bs, c, l.bridge.project, l.toBridge[0]);
    forall i | 0 <= i < |m.toBridge| ensures ReadyOk(bs, c, m.bridge.project, m.toBridge[i]) {
      assert ReadyOk(bs, c, l.bridge.project, l.toBridge[i + 1]);
    }
    forall i | 0 <= i < |m.toAgent| ensures ReportOk(m, m.toAgent[i]) {
      if i < |l.toAgent| {
        assert ReportOk(l, l.toAgent[i]);
      }
    }
  }

  lemma WroteKeepsInv(s: System, n: Nonce, c: Conn, ok: bool)
    requires Inv(s) && Enabled(s, Write(n, c, ok))
    ensures Inv(Next(s, Write(n, c, ok)))
  {
    var b := s.agent.broadcasts[n];
    assert RoundOk(s.agent.pendingReloads, n, b) && TargetsOk(s.links, b);
    var after := b.(todo := b.todo - {c}, delivered := if ok then b.delivered + 1 else b.delivered);
    var t := s.(agent := s.agent.(broadcasts := s.agent.broadcasts[n := after]));
    OneBroadcastChanges(s, t.agent, n);
    if ok {
      var l := Delivered(s.links[c], b, n);
      assert LinkOk(t.agent.broadcasts, c, t.links[c]);
      forall i | 0 <= i < |l.toBridge| ensures ReadyOk(t.agent.broadcasts, c, l.bridge.project, l.toBridge[i]) {
        if i < |s.links[c].toBridge| {
          assert ReadyOk(t.agent.broadcasts, c, l.bridge.project, t.links[c].toBridge[i]);
        }
      }
      LinkChanges(t, c, l);
    } else {
      RemovedKeepsInv(t, b.project, c);
    }
  }

  lemma EndedKeepsInv(s: System, c: Conn)
    requires Inv(s) && Enabled(s, End(c))
    ensures Inv(Next(s, End(c)))
  {
    if c in s.agent.projectOf {
      RemovedKeepsInv(s, s.agent.projectOf[c], c);
    }
    var r := s.(agent := Ended(s.agent, c));
    var t := Next(s, End(c));
    forall q ensures ListedOk(t, q) {
      assert ListedOk(r, q) && ListedOk(s, q);
    }
  }

  lemma HandleKeepsInv(s: System, c: Conn, now: int, draw: Nonce)
    requires Inv(s) && Enabled(s, Handle(c, now, draw))
    ensures Inv(Next(s, Handle(c, now, draw)))
  {
    var l := s.links[c];
    assert LinkOk(s.agent.broadcasts, c, l) && ReportOk(l, l.toAgent[0]);
    HandledKeepsInv(s, c, l.toAgent[0], now, draw);
    var t := s.(agent := Handled(s.agent, c, l.toAgent[0], now, draw));
    assert LinkOk(t.agent.broadcasts, c, t.links[c]);
    LinkChanges(t, c, l.(toAgent := l.toAgent[1..]));
  }

  lemma NextKeepsInv(s: System, act: Action)
    requires Inv(s) && Enabled(s, act)
    ensures Inv(Next(s, act))
  {
    match act
    case Connect(c, project, autoReload, running, posts) =>
      LinkChanges(s, c, NewLink(project, autoReload, running, posts));
    case Report(c, status, running) =>
      assert LinkOk(s.agent.broadcasts, c, s.links[c]);
      LinkChanges(s, c, Reported(s.links[c], status, running));
    case Receive(c, posts) =>
      ReceivedIsOk(s.agent.broadcasts, c, s.links[c], posts);
      LinkChanges(s, c, Received(s.links[c], posts));
    case Close(c) =>
      assert LinkOk(s.agent.broadcasts, c, s.links[c]);
      LinkChanges(s, c, s.links[c].(bridge := s.links[c].bridge.(connected := false)));
    case Handle(c, now, draw) => HandleKeepsInv(s, c, now, draw);
    case End(c) => EndedKeepsInv(s, c);
    case Request(p, v, now, draw) => RequestedKeepsInv(s, p, v, now, draw);
    case Clear(p) => QueueIsFree(s, s.agent.pendingByProject - {p});
    case Write(n, c, ok) => WroteKeepsInv(s, n, c, ok);
    case FinishSending(n) => FinishedSendingKeepsInv(s, n);
    case Expire(n) => ExpiredKeepsInv(s, n);
    case Wake(n) => WokenKeepsInv(s, n);
  }

  // --------------------------------------------------------------------
  // Every run
  // --------------------------------------------------------------------

  lemma {:induction false} RunKeepsInv(run: seq<System>, i: nat)
    requires IsRun(run) && i < |run|
    ensures Inv(run[i])
  {
    if i > 0 {
      RunKeepsInv(run, i - 1);
      assert IsStep(run, i - 1);
      var act :| Enabled(run[i - 1], act) && run[i] == Next(run[i - 1], act);
      NextKeepsInv(run[i - 1], act);
    }
  }

  /**
   A broadcast that has returned returned true exactly when its task was completed by an acknowledgement,
   and then some bridge of its project was sent its nonce and wrote an acknowledgement of it to its port.
   */
  lemma TrueMeansAcknowledged(run: seq<System>, i: nat, n: Nonce)
    requires IsRun(run) && i < |run| && n in run[i].agent.broadcasts && run[i].agent.broadcasts[n].phase.Finished?
    ensures var b := run[i].agent.broadcasts[n];
      && (b.phase.result <==> b.completed == Some(true))
      && (b.phase.result ==> b.delivered > 0 && AckedByBridgeOf(run[i].links, b.project, n))
  {
    RunKeepsInv(run, i);
    var s := run[i];
    assert RoundOk(s.agent.pendingReloads, n, s.agent.broadcasts[n]);
    if s.agent.broadcasts[n].phase.result {
      CompletedMeansAcknowledged(s, n);
    }
  }

  ghost predicate AckedByBridgeOf(links: map<Conn, Link>, p: Project, n: Nonce) {
    exists c | c in links :: links[c].bridge.project == p && n in links[c].acked
  }

  lemma CompletedMeansAcknowledged(s: System, n: Nonce)
    requires Inv(s) && n in s.agent.broadcasts && s.agent.broadcasts[n].completed == Some(true)
    ensures s.agent.broadcasts[n].delivered > 0 && AckedByBridgeOf(s.links, s.agent.broadcasts[n].project, n)
  {
    assert AckedBySomeone(s.links, n);
    var c :| c in s.links && n in s.links[c].acked;
    assert LinkOk(s.agent.broadcasts, c, s.links[c]);
    assert WasSent(s.agent.broadcasts, c, s.links[c].bridge.project, n);
  }

  lemma OneBroadcastGrows(s: System, n: Nonce, b: Broadcast, after: map<Nonce, Broadcast>)
    requires n in s.agent.broadcasts && Follows(s.agent.broadcasts[n], b) && after == s.agent.broadcasts[n := b]
    ensures Grown(s.agent.broadcasts, after)
  {
  }

  lemma AcknowledgedOnlyGrows(s: System, n: Nonce)
    requires Inv(s)
    ensures Grown(s.agent.broadcasts, Acknowledged(s.agent, n).broadcasts)
  {
    if n in s.agent.pendingReloads && n in s.agent.broadcasts {
      assert RoundOk(s.agent.pendingReloads, n, s.agent.broadcasts[n]);
      var after := Acknowledged(s.agent, n).broadcasts;
      OneBroadcastGrows(s, n, after[n], after);
    }
  }

  lemma WrittenOnlyGrows(s: System, n: Nonce, c: Conn, ok: bool)
    requires Inv(s) && InPhase(s.agent, n, Sending)
    ensures Grown(s.agent.broadcasts, SentTo(s.agent, n, c, ok).broadcasts)
  {
    var after := SentTo(s.agent, n, c, ok).broadcasts;
    assert RoundOk(s.agent.pendingReloads, n, s.agent.broadcasts[n]);
    OneBroadcastGrows(s, n, after[n], after);
  }

  lemma FlushedOnlyGrows(a: Agent, p: Project, running: Option<Version>, now: int, n: Nonce)
    requires p in a.byProject && n !in a.broadcasts
    ensures Grown(a.broadcasts, Flushed(a, p, running, now, n).broadcasts)
  {
  }

  lemma HandledOnlyGrows(s: System, c: Conn, msg: ToAgent, now: int, draw: Nonce)
    requires Inv(s) && draw !in s.agent.broadcasts
    ensures Grown(s.agent.broadcasts, Handled(s.agent, c, msg, now, draw).broadcasts)
  {
    if msg.ReloadAck? && msg.nonce.Some? {
      AcknowledgedOnlyGrows(s, msg.nonce.value);
    }
    var p := ProjectOf(s.agent, c, msg);
    if msg.Register? && p.Some? {
      FlushedOnlyGrows(Registered(Remembered(s.agent, c, p), c, p.value), p.value, msg.running, now, draw);
    }
  }

  lemma NextOnlyGrows(s: System, act: Action)
    requires Inv(s) && Enabled(s, act)
    ensures Grown(s.agent.broadcasts, Next(s, act).agent.broadcasts)
  {
    match act
    case Handle(c, now, draw) => HandledOnlyGrows(s, c, s.links[c].toAgent[0], now, draw);
    case FinishSending(n) => assert RoundOk(s.agent.pendingReloads, n, s.agent.broadcasts[n]);
    case Write(n, c, ok) => WrittenOnlyGrows(s, n, c, ok);
    case Expire(n) => assert RoundOk(s.agent.pendingReloads, n, s.agent.broadcasts[n]);
    case Wake(n) => assert RoundOk(s.agent.pendingReloads, n, s.agent.broadcasts[n]);
    case _ =>
  }

  lemma StepOnlyGrows(run: seq<System>, i: nat)
    requires IsRun(run) && i + 1 < |run|
    ensures Grown(run[i].agent.broadcasts, run[i + 1].agent.broadcasts)
  {
    RunKeepsInv(run, i);
    assert IsStep(run, i);
    var act :| Enabled(run[i], act) && run[i + 1] == Next(run[i], act);
    NextOnlyGrows(run[i], act);
  }

  /**
   Nonces are fresh, completed at most once and never outlive their broadcast: a broadcast keeps its
   project and version, a completed task keeps its outcome, a returned broadcast changes no more,
   and no returned broadcast's nonce is outstanding.
   */
  lemma {:induction false} NoncesCompleteOnce(run: seq<System>, i: nat, j: nat, n: Nonce)
    requires IsRun(run) && i <= j < |run| && n in run[i].agent.broadcasts
    ensures n in run[j].agent.broadcasts && Follows(run[i].agent.broadcasts[n], run[j].agent.broadcasts[n])
    ensures run[j].agent.broadcasts[n].phase.Finished? ==> n !in run[j].agent.pendingReloads
    decreases j - i
  {
    if i < j {
      NoncesCompleteOnce(run, i, j - 1, n);
      StepOnlyGrows(run, j - 1);
      FollowsOn(run[i].agent.broadcasts[n], run[j - 1].agent.broadcasts[n], run[j].agent.broadcasts[n]);
    }
    RunKeepsInv(run, j);
    assert RoundOk(run[j].agent.pendingReloads, n, run[j].agent.broadcasts[n]);
  }

  lemma FollowsOn(a: Broadcast, b: Broadcast, c: Broadcast)
    requires Follows(a, b) && Follows(b, c)
    ensures Follows(a, c)
  {
  }

  /** In every state a project has a connection exactly when its last event was a connection. */
  lemma ConnectedIffLastEventSaysSo(run: seq<System>, i: nat, p: Project)
    requires IsRun(run) && i < |run|
    ensures (p in run[i].agent.byProject && run[i].agent.byProject[p] != {}) <==> Listening(run[i].agent.events, p)
    ensures forall c :: p in run[i].agent.byProject && c in run[i].agent.byProject[p] ==>
              Serves(run[i].links, c, p) && c !in run[i].ended
  {
    RunKeepsInv(run, i);
    assert ListedOk(run[i], p);
  }

  predicate JustLost(a: Agent, b: Agent, p: Project) {
    p in a.byProject && p !in b.byProject
  }

  predicate Announced(a: Agent, b: Agent, e: Event) {
    |b.events| == |a.events| + 1 && b.events[..|a.events|] == a.events && b.events[|a.events|] == e
  }

  /** A disconnection is announced by a step exactly when the step removes the project's last connection. */
  lemma DisconnectedExactlyWhenLastLeaves(s: System, act: Action, p: Project)
    requires Inv(s) && Enabled(s, act)
    ensures var a, b := s.agent, Next(s, act).agent;
      && (b.events == a.events || exists e :: Announced(a, b, e))
      && (Announced(a, b, BridgeDisconnected(p)) <==> JustLost(a, b, p))
  {
    match act
    case Handle(c, now, draw) => HandledEvents(s, c, now, draw);
    case Write(n, c, ok) => WriteEvents(s.agent, n, c, ok, p);
    case End(c) =>
      if c in s.agent.projectOf {
        RemovedEvents(s.agent, s.agent.projectOf[c], c, p);
      }
    case _ =>
  }

  lemma RemovedEvents(a: Agent, q: Project, c: Conn, p: Project)
    ensures var b := Removed(a, q, c);
      && (b.events == a.events || Announced(a, b, BridgeDisconnected(q)))
      && (Announced(a, b, BridgeDisconnected(p)) <==> JustLost(a, b, p))
  {
  }

  lemma WriteEvents(a: Agent, n: Nonce, c: Conn, ok: bool, p: Project)
    requires n in a.broadcasts
    ensures var b := SentTo(a, n, c, ok);
      && (b.events == a.events || exists e :: Announced(a, b, e))
      && (Announced(a, b, BridgeDisconnected(p)) <==> JustLost(a, b, p))
  {
    var r := a.broadcasts[n];
    var after := r.(todo := r.todo - {c}, delivered := if ok then r.delivered + 1 else r.delivered);
    var b := a.(broadcasts := a.broadcasts[n := after]);
    if !ok {
      RemovedEvents(b, r.project, c, p);
      assert SentTo(a, n, c, ok) == Removed(b, r.project, c);
      if r.project in b.byProject && SentTo(a, n, c, ok).events != a.events {
        assert Announced(a, SentTo(a, n, c, ok), BridgeDisconnected(r.project));
      }
    }
  }

  lemma HandledEvents(s: System, c: Conn, now: int, draw: Nonce)
    requires Inv(s) && Enabled(s, Handle(c, now, draw))
    ensures var a, b := s.agent, Next(s, Handle(c, now, draw)).agent;
      && a.byProject.Keys <= b.byProject.Keys
      && (b.events == a.events || Announced(a, b, BridgeConnected(s.links[c].bridge.project)))
  {
    var l := s.links[c];
    assert LinkOk(s.agent.broadcasts, c, l) && ReportOk(l, l.toAgent[0]);
  }

  // --------------------------------------------------------------------
  // Who is connected
  // --------------------------------------------------------------------

  predicate IsListed(a: Agent, p: Project, c: Conn) {
    p in a.byProject && c in a.byProject[p]
  }

  /** The connection's handler ends, or a write to it for its project fails. */
  predicate Loses(s: System, act: Action, p: Project, c: Conn) {
    match act
    case End(d) => d == c
    case Write(n, d, ok) => d == c && !ok && n in s.agent.broadcasts && s.agent.broadcasts[n].project == p
    case _ => false
  }

  /** The agent reads a registration of the connection. */
  predicate Registers(s: System, act: Action, p: Project, c: Conn) {
    && act.Handle? && act.c == c && c in s.links && s.links[c].toAgent != []
    && s.links[c].toAgent[0].Register? && s.links[c].bridge.project == p
  }

  lemma RemovedTakesOne(a: Agent, q: Project, d: Conn, p: Project, c: Conn)
    ensures IsListed(Removed(a, q, d), p, c) <==> IsListed(a, p, c) && !(p == q && c == d)
  {
    if q in a.byProject && c in a.byProject[q] && c != d {
      assert c in a.byProject[q] - {d};
    }
  }

  /** A connection is listed after a step exactly when it was and is not lost, or registers. */
  lemma ListedIff(s: System, act: Action, p: Project, c: Conn)
    requires Inv(s) && Enabled(s, act)
    ensures IsListed(Next(s, act).agent, p, c)
       <==> (IsListed(s.agent, p, c) && !Loses(s, act, p, c)) || Registers(s, act, p, c)
  {
    assert ListedOk(s, p);
    match act
    case Handle(d, now, draw) =>
      assert LinkOk(s.agent.broadcasts, d, s.links[d]) && ReportOk(s.links[d], s.links[d].toAgent[0]);
      HandledLists(s.agent, d, s.links[d].toAgent[0], now, draw, s.links[d].bridge.project, p, c);
    case End(d) =>
      if d in s.agent.projectOf {
        RemovedTakesOne(s.agent, s.agent.projectOf[d], d, p, c);
      }
    case Write(n, d, ok) =>
      if !ok {
        WrittenLists(s.agent, n, d, p, c);
      }
    case _ =>
  }

  lemma HandledLists(a: Agent, d: Conn, msg: ToAgent, now: int, draw: Nonce, q: Project, p: Project, c: Conn)
    requires msg.project == Some(q)
    ensures IsListed(Handled(a, d, msg, now, draw), p, c) <==> IsListed(a, p, c) || (msg.Register? && p == q && c == d)
  {
  }

  lemma WrittenLists(a: Agent, n: Nonce, d: Conn, p: Project, c: Conn)
    requires n in a.broadcasts
    ensures IsListed(SentTo(a, n, d, false), p, c) <==> IsListed(a, p, c) && !(p == a.broadcasts[n].project && c == d)
  {
    var b := a.broadcasts[n];
    RemovedTakesOne(a.(broadcasts := a.broadcasts[n := b.(todo := b.todo - {d})]), b.project, d, p, c);
  }

  /** A listed connection leaves the list exactly by its own end or a failed write to it for its project. */
  lemma LeavesIff(s: System, act: Action, p: Project, c: Conn)
    requires Inv(s) && Enabled(s, act) && IsListed(s.agent, p, c)
    ensures !IsListed(Next(s, act).agent, p, c) <==> Loses(s, act, p, c)
  {
    ListedIff(s, act, p, c);
  }

  /** A connection enters the list exactly by its own registration. */
  lemma EntersIff(s: System, act: Action, p: Project, c: Conn)
    requires Inv(s) && Enabled(s, act) && !IsListed(s.agent, p, c)
    ensures IsListed(Next(s, act).agent, p, c) <==> Registers(s, act, p, c)
  {
    ListedIff(s, act, p, c);
  }

  /** A disconnection is announced exactly when the project's connections were the one that leaves, and no other. */
  lemma DisconnectedIffOnlyOneLeft(s: System, act: Action, p: Project)
    requires Inv(s) && Enabled(s, act)
    ensures Announced(s.agent, Next(s, act).agent, BridgeDisconnected(p))
       <==> exists c :: IsListed(s.agent, p, c) && Loses(s, act, p, c) && s.agent.byProject[p] == {c}
  {
    var t := Next(s, act);
    DisconnectedExactlyWhenLastLeaves(s, act, p);
    NextKeepsInv(s, act);
    assert ListedOk(s, p) && ListedOk(t, p);
    if JustLost(s.agent, t.agent, p) {
      var c := Member(s.agent.byProject[p]);
      LeavesIff(s, act, p, c);
      forall d | d in s.agent.byProject[p] ensures d == c {
        LeavesIff(s, act, p, d);
      }
      assert s.agent.byProject[p] == {c};
    }
    if c :| IsListed(s.agent, p, c) && Loses(s, act, p, c) && s.agent.byProject[p] == {c} {
      LeavesIff(s, act, p, c);
      if p in t.agent.byProject {
        var d := Member(t.agent.byProject[p]);
        ListedIff(s, act, p, d);
      }
    }
  }

  /** A connection is announced exactly by each registration for its project. */
  lemma ConnectedIffRegisters(s: System, act: Action, p: Project)
    requires Inv(s) && Enabled(s, act)
    ensures Announced(s.agent, Next(s, act).agent, BridgeConnected(p)) <==> exists c :: Registers(s, act, p, c)
  {
    match act
    case Handle(c, now, draw) =>
      var l := s.links[c];
      assert LinkOk(s.agent.broadcasts, c, l) && ReportOk(l, l.toAgent[0]);
      if l.toAgent[0].Register? && l.bridge.project == p {
        assert Registers(s, act, p, c);
      }
    case _ =>
  }

  // --------------------------------------------------------------------
  // Broadcasts begin with every connection, and end
  // --------------------------------------------------------------------

  /** A new broadcast is for all connections its project then has, and none of them has been written to. */
  lemma BeginsWithEveryone(s: System, act: Action, n: Nonce)
    requires Enabled(s, act) && n !in s.agent.broadcasts && n in Next(s, act).agent.broadcasts
    ensures var t := Next(s, act).agent; var b := t.broadcasts[n];
      && b.project in t.byProject && b.todo == t.byProject[b.project]
      && b.delivered == 0 && b.completed.None? && b.phase == Sending && n in t.pendingReloads
  {
    match act
    case Handle(c, now, draw) => HandledBegins(s.agent, c, s.links[c].toAgent[0], now, draw, n);
    case Request(_, _, _, _) =>
    case _ =>
  }

  lemma HandledBegins(a: Agent, c: Conn, msg: ToAgent, now: int, draw: Nonce, n: Nonce)
    requires n !in a.broadcasts && n in Handled(a, c, msg, now, draw).broadcasts
    ensures var t := Handled(a, c, msg, now, draw); var b := t.broadcasts[n];
      && b.project in t.byProject && b.todo == t.byProject[b.project]
      && b.delivered == 0 && b.completed.None? && b.phase == Sending && n in t.pendingReloads
  {
  }

  /** A request queues its version, and is broadcast at once exactly when the project has a connection. */
  lemma BroadcastIffConnected(s: System, p: Project, v: Version, now: int, draw: Nonce)
    requires Inv(s) && Enabled(s, Request(p, v, now, draw))
    ensures var t := Next(s, Request(p, v, now, draw)).agent;
      && p in t.pendingByProject && t.pendingByProject[p] == PendingReload(v, now)
      && (draw in t.broadcasts <==> exists c :: IsListed(s.agent, p, c))
      && (draw in t.broadcasts ==> t.broadcasts[draw].project == p && t.broadcasts[draw].version == v)
  {
    assert ListedOk(s, p);
    if p in s.agent.byProject {
      var c := Member(s.agent.byProject[p]);
      assert IsListed(s.agent, p, c);
    }
  }

  predicate CanPlay(s: System, acts: seq<Action>)
    decreases |acts|
  {
    acts == [] || (Enabled(s, acts[0]) && CanPlay(Next(s, acts[0]), acts[1..]))
  }

  function Played(s: System, acts: seq<Action>): System
    requires CanPlay(s, acts)
    decreases |acts|
  {
    if acts == [] then s else Played(Next(s, acts[0]), acts[1..])
  }

  lemma PlayedFirst(s: System, act: Action, rest: seq<Action>)
    requires Enabled(s, act) && CanPlay(Next(s, act), rest)
    ensures CanPlay(s, [act] + rest) && Played(s, [act] + rest) == Played(Next(s, act), rest)
  {
    assert ([act] + rest)[1..] == rest;
  }

  predicate EndsWith(s: System, acts: seq<Action>, n: Nonce, result: bool) {
    CanPlay(s, acts) && InPhase(Played(s, acts).agent, n, Finished(result))
  }

  /** From every state a broadcast under way can end, and then returns whether it was acknowledged. */
  lemma {:induction false} EveryBroadcastCanEnd(s: System, n: Nonce) returns (acts: seq<Action>)
    requires Inv(s) && InFlight(s, n)
    ensures EndsWith(s, acts, n, s.agent.broadcasts[n].completed == Some(true))
    decreases |s.agent.broadcasts[n].todo|
  {
    var b := s.agent.broadcasts[n];
    assert RoundOk(s.agent.pendingReloads, n, b) && TargetsOk(s.links, b);
    if b.phase == Waiting {
      acts := WaitingCanEnd(s, n);
    } else if b.todo == {} {
      acts := SentCanEnd(s, n);
    } else {
      var c := Member(b.todo);
      var act := Write(n, c, true);
      NextKeepsInv(s, act);
      LessToDo(s, n, c);
      var rest := EveryBroadcastCanEnd(Next(s, act), n);
      PlayedFirst(s, act, rest);
      acts := [act] + rest;
    }
  }

  lemma LessToDo(s: System, n: Nonce, c: Conn)
    requires Enabled(s, Write(n, c, true))
    ensures InFlight(Next(s, Write(n, c, true)), n)
    ensures var b := Next(s, Write(n, c, true)).agent.broadcasts[n];
      |b.todo| < |s.agent.broadcasts[n].todo| && b.completed == s.agent.broadcasts[n].completed
  {
  }

  lemma SentCanEnd(s: System, n: Nonce) returns (acts: seq<Action>)
    requires Inv(s) && InPhase(s.agent, n, Sending) && s.agent.broadcasts[n].todo == {}
    ensures EndsWith(s, acts, n, s.agent.broadcasts[n].completed == Some(true))
  {
    var act := FinishSending(n);
    NextKeepsInv(s, act);
    if s.agent.broadcasts[n].completed == Some(true) {
      CompletedMeansAcknowledged(s, n);
    }
    if s.agent.broadcasts[n].delivered == 0 {
      acts := [act];
      PlayedFirst(s, act, []);
    } else {
      assert RoundOk(s.agent.pendingReloads, n, s.agent.broadcasts[n]);
      var rest := WaitingCanEnd(Next(s, act), n);
      PlayedFirst(s, act, rest);
      acts := [act] + rest;
    }
  }

  lemma WaitingCanEnd(s: System, n: Nonce) returns (acts: seq<Action>)
    requires InPhase(s.agent, n, Waiting)
    ensures EndsWith(s, acts, n, s.agent.broadcasts[n].completed == Some(true))
  {
    if s.agent.broadcasts[n].completed.Some? {
      acts := [Wake(n)];
      PlayedFirst(s, Wake(n), []);
    } else {
      var t := Next(s, Expire(n));
      PlayedFirst(t, Wake(n), []);
      PlayedFirst(s, Expire(n), [Wake(n)]);
      acts := [Expire(n)] + [Wake(n)];
    }
  }

  /** An acknowledgement that is read while its broadcast waits lets the broadcast return true, and empties the queue. */
  lemma AckedInTimeReturnsTrue(s: System, c: Conn, now: int, draw: Nonce, n: Nonce)
    requires Inv(s) && Enabled(s, Handle(c, now, draw)) && s.links[c].toAgent[0].ReloadAck?
    requires s.links[c].toAgent[0].nonce == Some(n)
    requires InPhase(s.agent, n, Waiting) && s.agent.broadcasts[n].completed.None?
    ensures var t := Next(s, Handle(c, now, draw)); Enabled(t, Wake(n))
    ensures var end := Next(Next(s, Handle(c, now, draw)), Wake(n)).agent;
      InPhase(end, n, Finished(true)) && s.agent.broadcasts[n].project !in end.pendingByProject
  {
    assert RoundOk(s.agent.pendingReloads, n, s.agent.broadcasts[n]);
  }

  // --------------------------------------------------------------------
  // The queue
  // --------------------------------------------------------------------

  predicate Queued(s: System, p: Project, v: Version) {
    p in s.agent.pendingByProject && s.agent.pendingByProject[p].version == v
  }

  /** What may take a queued version away. */
  predicate Drops(s: System, act: Action, p: Project, v: Version) {
    match act
    case Wake(n) =>
      InPhase(s.agent, n, Waiting) && s.agent.broadcasts[n].completed == Some(true) && s.agent.broadcasts[n].project == p
    case Handle(c, _, _) =>
      c in s.links && s.links[c].toAgent != [] && s.links[c].toAgent[0] == Register(Some(p), Some(v))
    case Request(q, w, _, _) => q == p && w != v
    case Clear(q) => q == p
    case _ => false
  }

  /**
   A queued version leaves the queue exactly by an acknowledgement for the project, a registration
   that already runs it, a request for another version, or an explicit clear.
   */
  lemma QueueDropCauses(s: System, act: Action, p: Project, v: Version)
    requires Inv(s) && Enabled(s, act) && Queued(s, p, v)
    ensures !Queued(Next(s, act), p, v) <==> Drops(s, act, p, v)
  {
    match act
    case Handle(c, now, draw) =>
      var l := s.links[c];
      assert LinkOk(s.agent.broadcasts, c, l) && ReportOk(l, l.toAgent[0]);
    case _ =>
  }

  /** The acknowledgement that empties the queue confirms another version than the one it drops. */
  predicate DropsUnconfirmed(s: System, n: Nonce) {
    && Enabled(s, Wake(n)) && s.agent.broadcasts[n].completed == Some(true)
    && s.agent.broadcasts[n].project in s.agent.pendingByProject
    && !Queued(s, s.agent.broadcasts[n].project, s.agent.broadcasts[n].version)
  }

  /** Every broadcast still under way for a project carries the version queued for it. */
  predicate InStep(s: System, p: Project) {
    forall n | n in s.agent.broadcasts ::
      Current(s, p, s.agent.broadcasts[n])
  }

  predicate Current(s: System, p: Project, b: Broadcast) {
    b.project == p && !b.phase.Finished? && p in s.agent.pendingByProject ==> b.version == s.agent.pendingByProject[p].version
  }

  /** Whether a caller may ask for v: no broadcast for the project is under way for another version. */
  predicate Settled(s: System, p: Project, v: Version) {
    forall n | n in s.agent.broadcasts ::
      Agrees(s.agent.broadcasts[n], p, v)
  }

  predicate Agrees(b: Broadcast, p: Project, v: Version) {
    b.project == p && !b.phase.Finished? ==> b.version == v
  }

  /** Requests made only when settled keep acknowledgements and the queue in step. */
  lemma SettledRequestsStayInStep(s: System, act: Action, p: Project)
    requires Inv(s) && Enabled(s, act) && InStep(s, p)
    requires act.Request? && act.project == p ==> Settled(s, p, act.version)
    ensures InStep(Next(s, act), p)
  {
    var t := Next(s, act);
    forall n | n in t.agent.broadcasts ensures Current(t, p, t.agent.broadcasts[n]) {
      if p in t.agent.pendingByProject {
        StaysCurrent(s, act, p, n, t.agent.pendingByProject[p].version);
      }
    }
  }

  /** One broadcast under way stays in step with the queue. */
  lemma StaysCurrent(s: System, act: Action, p: Project, n: Nonce, v: Version)
    requires Inv(s) && Enabled(s, act) && InStep(s, p)
    requires act.Request? && act.project == p ==> Settled(s, p, act.version)
    requires n in Next(s, act).agent.broadcasts && Queued(Next(s, act), p, v)
    ensures var b := Next(s, act).agent.broadcasts[n]; b.project == p && !b.phase.Finished? ==> b.version == v
  {
    NextOnlyGrows(s, act);
    if n !in s.agent.broadcasts {
      StartsWithTheQueued(s, act, n);
    } else {
      assert Follows(s.agent.broadcasts[n], Next(s, act).agent.broadcasts[n]);
      assert Current(s, p, s.agent.broadcasts[n]);
      if !Queued(s, p, v) {
        QueueGains(s, act, p, v);
        assert Agrees(s.agent.broadcasts[n], p, v);
      }
    }
  }

  /** A run together with what was done at each step. */
  ghost predicate IsPlay(run: seq<System>, acts: seq<Action>) {
    |run| == |acts| + 1 && run[0] == INIT && forall i | 0 <= i < |acts| :: IsPlayed(run, acts, i)
  }

  predicate IsPlayed(run: seq<System>, acts: seq<Action>, i: int)
    requires 0 <= i < |acts| && |run| == |acts| + 1
  {
    Enabled(run[i], acts[i]) && run[i + 1] == Next(run[i], acts[i])
  }

  lemma PlayIsRun(run: seq<System>, acts: seq<Action>)
    requires IsPlay(run, acts)
    ensures IsRun(run)
  {
    forall i | 0 <= i < |run| - 1 ensures IsStep(run, i) {
      assert IsPlayed(run, acts, i);
    }
  }

  predicate InFlight(s: System, n: Nonce) {
    n in s.agent.broadcasts && !s.agent.broadcasts[n].phase.Finished?
  }

  predicate QueuedFrom(run: seq<System>, j: int, i: int, p: Project, v: Version)
    requires 0 <= j && i < |run|
  {
    forall k | j <= k <= i :: Queued(run[k], p, v)
  }

  /** Step j requested another version for n's project while n was under way, and it has been queued ever since. */
  predicate Supersedes(run: seq<System>, acts: seq<Action>, j: int, i: int, n: Nonce)
    requires 0 <= j < i < |run| && |run| == |acts| + 1 && n in run[i].agent.broadcasts
  {
    var b := run[i].agent.broadcasts[n];
    && acts[j].Request? && acts[j].project == b.project && acts[j].version != b.version
    && InFlight(run[j], n) && QueuedFrom(run, j + 1, i, b.project, acts[j].version)
  }

  /** Only a request puts a version into the queue. */
  lemma QueueGains(s: System, act: Action, p: Project, v: Version)
    requires Enabled(s, act) && !Queued(s, p, v) && Queued(Next(s, act), p, v)
    ensures act.Request? && act.project == p && act.version == v
  {
  }

  /** A broadcast starts with the version that is queued. */
  lemma StartsWithTheQueued(s: System, act: Action, n: Nonce)
    requires Enabled(s, act) && n !in s.agent.broadcasts && n in Next(s, act).agent.broadcasts
    ensures var b := Next(s, act).agent.broadcasts[n]; Queued(Next(s, act), b.project, b.version)
  {
    match act
    case Handle(c, now, draw) => HandledStarts(s.agent, c, s.links[c].toAgent[0], now, draw, n);
    case Request(_, _, _, _) =>
    case _ =>
  }

  lemma HandledStarts(a: Agent, c: Conn, msg: ToAgent, now: int, draw: Nonce, n: Nonce)
    requires n !in a.broadcasts && n in Handled(a, c, msg, now, draw).broadcasts
    ensures var t := Handled(a, c, msg, now, draw); var b := t.broadcasts[n];
      b.project in t.pendingByProject && t.pendingByProject[b.project].version == b.version
  {
  }

  /** The step that requested what is queued at step i. */
  lemma {:induction false} RequestedAt(run: seq<System>, acts: seq<Action>, i: nat, p: Project, v: Version) returns (j: int)
    requires IsPlay(run, acts) && i < |run| && Queued(run[i], p, v)
    ensures 0 <= j < i && acts[j].Request? && acts[j].project == p && acts[j].version == v
    ensures QueuedFrom(run, j + 1, i, p, v)
    decreases i
  {
    assert i > 0;
    j := i - 1;
    assert IsPlayed(run, acts, j);
    PlayIsRun(run, acts);
    RunKeepsInv(run, j);
    if Queued(run[j], p, v) && !(acts[j].Request? && acts[j].project == p && acts[j].version == v) {
      j := RequestedAt(run, acts, j, p, v);
    } else if !Queued(run[j], p, v) {
      QueueGains(run[j], acts[j], p, v);
    }
  }

  /** A broadcast of another version than the one queued since step j was there before. */
  lemma {:induction false} WasThereBefore(run: seq<System>, acts: seq<Action>, j: nat, i: nat, n: Nonce, v: Version)
    requires IsPlay(run, acts) && j < i < |run| && n in run[i].agent.broadcasts
    requires run[i].agent.broadcasts[n].version != v
    requires QueuedFrom(run, j + 1, i, run[i].agent.broadcasts[n].project, v)
    ensures n in run[j].agent.broadcasts
    decreases i
  {
    var k := i - 1;
    assert IsPlayed(run, acts, k);
    PlayIsRun(run, acts);
    RunKeepsInv(run, k);
    if n !in run[k].agent.broadcasts {
      StartsWithTheQueued(run[k], acts[k], n);
    } else if j < k {
      NoncesCompleteOnce(run, k, i, n);
      WasThereBefore(run, acts, j, k, n, v);
    }
  }

  /**
   Exactly when an acknowledgement drops a version it does not confirm, at any step of any run: another version
   was requested while the acknowledged broadcast was under way, and has been queued from then on.
   */
  lemma DropsUnconfirmedIff(run: seq<System>, acts: seq<Action>, i: nat, n: Nonce)
    requires IsPlay(run, acts) && i < |run| && Enabled(run[i], Wake(n))
    requires run[i].agent.broadcasts[n].completed == Some(true)
    ensures DropsUnconfirmed(run[i], n) <==> exists j | 0 <= j < i :: Supersedes(run, acts, j, i, n)
  {
    var b := run[i].agent.broadcasts[n];
    if DropsUnconfirmed(run[i], n) {
      var v := run[i].agent.pendingByProject[b.project].version;
      var j := RequestedAt(run, acts, i, b.project, v);
      WasThereBefore(run, acts, j, i, n, v);
      PlayIsRun(run, acts);
      NoncesCompleteOnce(run, j, i, n);
      assert Supersedes(run, acts, j, i, n);
    }
    if j :| 0 <= j < i && Supersedes(run, acts, j, i, n) {
      assert Queued(run[i], b.project, acts[j].version);
    }
  }

  ghost predicate SettledRun(run: seq<System>, acts: seq<Action>, p: Project) {
    IsPlay(run, acts) && forall i | 0 <= i < |acts| :: SettledStep(run[i], acts[i], p)
  }

  predicate SettledStep(s: System, act: Action, p: Project) {
    act.Request? && act.project == p ==> Settled(s, p, act.version)
  }

  lemma {:induction false} SettledRunStaysInStep(run: seq<System>, acts: seq<Action>, p: Project, i: nat)
    requires SettledRun(run, acts, p) && i < |run|
    ensures Inv(run[i]) && InStep(run[i], p)
  {
    if i > 0 {
      SettledRunStaysInStep(run, acts, p, i - 1);
      assert IsPlayed(run, acts, i - 1) && SettledStep(run[i - 1], acts[i - 1], p);
      NextKeepsInv(run[i - 1], acts[i - 1]);
      SettledRequestsStayInStep(run[i - 1], acts[i - 1], p);
    }
  }

  /**
   If every request for a project is made while no broadcast for it is under way for another version,
   then no acknowledgement in the whole run takes a version away that it does not confirm.
   */
  lemma SettledRunLosesNothing(run: seq<System>, acts: seq<Action>, p: Project, i: nat, n: Nonce)
    requires SettledRun(run, acts, p) && i < |run| && DropsUnconfirmed(run[i], n)
    ensures run[i].agent.broadcasts[n].project != p
  {
    DropsUnconfirmedIff(run, acts, i, n);
    var j :| 0 <= j < i && Supersedes(run, acts, j, i, n);
    PlayIsRun(run, acts);
    NoncesCompleteOnce(run, j, i, n);
    assert SettledStep(run[j], acts[j], p);
    assert run[i].agent.broadcasts[n].project == p ==> Agrees(run[j].agent.broadcasts[n], p, acts[j].version);
  }

  lemma RunGoesOn(run: seq<System>, act: Action)
    requires IsRun(run) && Enabled(run[|run| - 1], act)
    ensures IsRun(run + [Next(run[|run| - 1], act)])
  {
    var longer := run + [Next(run[|run| - 1], act)];
    forall i | 0 <= i < |longer| - 1 ensures IsStep(longer, i) {
      if i < |run| - 1 {
        assert IsStep(run, i);
        var a :| Enabled(run[i], a) && run[i + 1] == Next(run[i], a);
        assert longer[i + 1] == Next(longer[i], a);
      } else {
        assert longer[i + 1] == Next(longer[i], act);
      }
    }
  }

  // Version 11 is requested while the bridge sleeps; on its return it is offered and the bridge
  // acknowledges it. Before the acknowledgement is read, version 12 is requested; the bridge is
  // reloading, so the write fails and that request returns false, version 12 being queued.

  const ASLEEP := System(Agent(map[], {}, map[1 := PendingReload(11, 0)], map[], map[], []), map[], {})

  const RETURNED := ASLEEP.(links := map[1 := NewLink(1, true, 10, true)])

  const OFFERING := System(
    Agent(map[1 := {1}], {101}, map[1 := PendingReload(11, 20)],
          map[101 := Broadcast(1, 11, {1}, 0, None, Sending)], map[1 := 1], [BridgeConnected(1)]),
    map[1 := Link(Bridge(1, true, true, None, 0), [], [], {})], {})

  const OFFERED := System(
    OFFERING.agent.(broadcasts := map[101 := Broadcast(1, 11, {}, 1, None, Sending)]),
    map[1 := Link(Bridge(1, true, true, None, 0), [ReloadReady(Some(1), Some(101), 11)], [], {})], {})

  const AWAITING := OFFERED.(agent := OFFERED.agent.(broadcasts := map[101 := Broadcast(1, 11, {}, 1, None, Waiting)]))

  const ANSWERED := AWAITING.(links :=
    map[1 := Link(Bridge(1, true, true, Some(101), 1), [], [ReloadAck(Some(1), Some(101))], {101})])

  const RENEWED := ANSWERED.(agent := ANSWERED.agent.(
    pendingReloads := {101, 102}, pendingByProject := map[1 := PendingReload(12, 21)],
    broadcasts := map[101 := Broadcast(1, 11, {}, 1, None, Waiting), 102 := Broadcast(1, 12, {1}, 0, None, Sending)]))

  const UNREACHED := RENEWED.(agent := RENEWED.agent.(
    byProject := map[], events := [BridgeConnected(1), BridgeDisconnected(1)],
    broadcasts := map[101 := Broadcast(1, 11, {}, 1, None, Waiting), 102 := Broadcast(1, 12, {}, 0, None, Sending)]))

  const QUEUED := UNREACHED.(agent := UNREACHED.agent.(
    pendingReloads := {101},
    broadcasts := map[101 := Broadcast(1, 11, {}, 1, None, Waiting), 102 := Broadcast(1, 12, {}, 0, None, Finished(false))]))

  const ACKED := System(
    QUEUED.agent.(
      pendingReloads := {},
      broadcasts := map[101 := Broadcast(1, 11, {}, 1, Some(true), Waiting), 102 := Broadcast(1, 12, {}, 0, None, Finished(false))]),
    map[1 := Link(Bridge(1, true, true, Some(101), 1), [], [], {101})], {})

  lemma OneElement<T>(x: T)
    ensures [x][1..] == [] && [] + [x] == [x]
    ensures {x} - {x} == {} && {} + {x} == {x}
  {
  }

  lemma ReturnsAndIsOffered()
    ensures Next(INIT, Request(1, 11, 0, 100)) == ASLEEP
    ensures Next(ASLEEP, Connect(1, 1, true, 10, true)) == RETURNED
    ensures Enabled(RETURNED, Handle(1, 20, 101)) && Next(RETURNED, Handle(1, 20, 101)) == OFFERING
  {
    OneElement(Register(Some(1), Some(10)));
    OneElement(1);
    var t := Next(RETURNED, Handle(1, 20, 101));
    assert t.links == OFFERING.links;
    assert t.agent.byProject == OFFERING.agent.byProject;
    assert t.agent.pendingByProject == OFFERING.agent.pendingByProject;
    assert t.agent.broadcasts == OFFERING.agent.broadcasts;
    assert t.agent.projectOf == OFFERING.agent.projectOf;
  }

  lemma IsWritten()
    ensures Enabled(OFFERING, Write(101, 1, true)) && Next(OFFERING, Write(101, 1, true)) == OFFERED
    ensures Enabled(OFFERED, FinishSending(101)) && Next(OFFERED, FinishSending(101)) == AWAITING
  {
    OneElement(1);
    OneElement(ReloadReady(Some(1), Some(101), 11));
    assert Next(OFFERING, Write(101, 1, true)).links == OFFERED.links;
    assert Next(OFFERING, Write(101, 1, true)).agent.broadcasts == OFFERED.agent.broadcasts;
    assert Next(OFFERED, FinishSending(101)).agent.broadcasts == AWAITING.agent.broadcasts;
  }

  lemma IsAnswered()
    ensures Enabled(AWAITING, Receive(1, true)) && Next(AWAITING, Receive(1, true)) == ANSWERED
  {
    OneElement(101);
    OneElement(ReloadReady(Some(1), Some(101), 11));
    OneElement(ReloadAck(Some(1), Some(101)));
    assert Next(AWAITING, Receive(1, true)).links == ANSWERED.links;
  }

  lemma NewerIsQueued()
    ensures Enabled(RENEWED, Write(102, 1, false)) && Next(RENEWED, Write(102, 1, false)) == UNREACHED
    ensures Enabled(UNREACHED, FinishSending(102)) && Next(UNREACHED, FinishSending(102)) == QUEUED
  {
    assert Next(RENEWED, Write(102, 1, false)).agent.broadcasts == UNREACHED.agent.broadcasts;
    assert Next(RENEWED, Write(102, 1, false)).agent.byProject == map[];
    assert Next(UNREACHED, FinishSending(102)).agent.broadcasts == QUEUED.agent.broadcasts;
  }

  lemma OlderAckIsHandled()
    ensures Handled(QUEUED.agent, 1, ReloadAck(Some(1), Some(101)), 22, 103) == ACKED.agent
  {
    var t := Handled(QUEUED.agent, 1, ReloadAck(Some(1), Some(101)), 22, 103);
    OneElement(101);
    assert t.broadcasts == ACKED.agent.broadcasts;
    assert t.projectOf == ACKED.agent.projectOf;
  }

  lemma OlderAckIsRead()
    ensures Enabled(QUEUED, Handle(1, 22, 103)) && Next(QUEUED, Handle(1, 22, 103)) == ACKED
  {
    OneElement(ReloadAck(Some(1), Some(101)));
    OlderAckIsHandled();
    assert Next(QUEUED, Handle(1, 22, 103)).links == ACKED.links;
  }

  lemma UpToTheAnswer() returns (run: seq<System>)
    ensures IsRun(run) && run[|run| - 1] == ANSWERED
  {
    ReturnsAndIsOffered();
    IsWritten();
    IsAnswered();
    run := [INIT];
    run := Appended(run, Request(1, 11, 0, 100), ASLEEP);
    run := Appended(run, Connect(1, 1, true, 10, true), RETURNED);
    run := Appended(run, Handle(1, 20, 101), OFFERING);
    run := Appended(run, Write(101, 1, true), OFFERED);
    run := Appended(run, FinishSending(101), AWAITING);
    run := Appended(run, Receive(1, true), ANSWERED);
  }

  /**
   An acknowledgement of an older version takes a newer one out of the queue: in this run version 12 was
   queued, nobody was ever sent it, and after the last step it is forgotten.
   */
  lemma OlderAckDropsNewerVersion() returns (run: seq<System>)
    ensures IsRun(run) && DropsUnconfirmed(run[|run| - 1], 101) && Queued(run[|run| - 1], 1, 12)
    ensures var end := Next(run[|run| - 1], Wake(101));
      && 1 !in end.agent.pendingByProject
      && forall n | n in end.agent.broadcasts && end.agent.broadcasts[n].version == 12 ::
           end.agent.broadcasts[n].delivered == 0 && end.agent.broadcasts[n].phase == Finished(false)
  {
    run := UpToTheAck();
    NewerIsForgotten();
  }

  lemma UpToTheAck() returns (run: seq<System>)
    ensures IsRun(run) && run[|run| - 1] == ACKED
  {
    run := UpToTheAnswer();
    NewerIsRequested();
    NewerIsQueued();
    OlderAckIsRead();
    run := Appended(run, Request(1, 12, 21, 102), RENEWED);
    run := Appended(run, Write(102, 1, false), UNREACHED);
    run := Appended(run, FinishSending(102), QUEUED);
    run := Appended(run, Handle(1, 22, 103), ACKED);
  }

  lemma NewerIsRequested()
    ensures Enabled(ANSWERED, Request(1, 12, 21, 102)) && Next(ANSWERED, Request(1, 12, 21, 102)) == RENEWED
  {
    var t := Next(ANSWERED, Request(1, 12, 21, 102));
    assert t.agent.pendingReloads == RENEWED.agent.pendingReloads;
    assert t.agent.pendingByProject == RENEWED.agent.pendingByProject;
    assert t.agent.broadcasts == RENEWED.agent.broadcasts;
  }

  lemma NewerIsForgotten()
    ensures DropsUnconfirmed(ACKED, 101) && Queued(ACKED, 1, 12)
    ensures var end := Next(ACKED, Wake(101)).agent;
      && 1 !in end.pendingByProject
      && forall n | n in end.broadcasts && end.broadcasts[n].version == 12 ::
           end.broadcasts[n].delivered == 0 && end.broadcasts[n].phase == Finished(false)
  {
  }

  lemma Appended(run: seq<System>, act: Action, t: System) returns (longer: seq<System>)
    requires IsRun(run) && Enabled(run[|run| - 1], act) && Next(run[|run| - 1], act) == t
    ensures IsRun(longer) && longer[|longer| - 1] == t
  {
    RunGoesOn(run, act);
    longer := run + [t];
  }

  // --------------------------------------------------------------------
  // Reconnecting and acknowledging
  // --------------------------------------------------------------------

  /**
   A bridge that registers is offered the queued version exactly when it does not run it already and
   15 seconds have passed since the last attempt; the first attempt counts from the request itself.
   */
  lemma OfferedOnRegistration(s: System, c: Conn, now: int, draw: Nonce, p: Project, running: Option<Version>, v: Version)
    requires Inv(s) && Enabled(s, Handle(c, now, draw)) && s.links[c].toAgent[0] == Register(Some(p), running)
    requires Queued(s, p, v)
    ensures var t := Next(s, Handle(c, now, draw)).agent;
      && (draw in t.broadcasts <==> running != Some(v) && now - s.agent.pendingByProject[p].lastAttempt >= RETRY_SECONDS)
      && (draw in t.broadcasts ==>
            && t.broadcasts[draw].version == v && t.broadcasts[draw].project == p && c in t.broadcasts[draw].todo
            && draw in t.pendingReloads)
  {
  }

  /** The acknowledgement is written before the extension reloads, and also when it does not reload. */
  lemma AcknowledgesWithoutReloading(b: Bridge, msg: ToBridge, n: Nonce)
    requires b.connected && Honoured(b, msg) == Some(n)
    ensures Answered(b, msg, true).1 == [ReloadAck(Some(b.project), Some(n))]
    ensures forall posts :: Answered(b, msg, posts).0.reloads == b.reloads <==> !b.autoReload
  {
  }
}
