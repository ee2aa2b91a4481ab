/**
 The agent's end of the reload protocol (ExtSync.Agent/Services/PipeServer.cs).

 One value of `Agent` is the server between two of its atomic steps: handling one
 message, one write to one connection, one removal, one wake-up of a waiting broadcast.
 The class below performs those steps on the server's own dictionaries.
 */
module PipeServer {
  import opened Options

  type Conn = int
  type Project = int
  type Version = int
  type Nonce = int

  const RETRY_SECONDS := 15

  /** What a bridge writes to its pipe. The project may be left out. */
  datatype ToAgent =
    | Register(project: Option<Project>, running: Option<Version>)
    | ReloadAck(project: Option<Project>, nonce: Option<Nonce>)
    | OtherReport(project: Option<Project>)

  datatype PendingReload = PendingReload(version: Version, lastAttempt: int)

  datatype Phase = Sending | Waiting | Finished(result: bool)

  /** One call of `BroadcastReloadAsync`; `completed` is its task completion source. */
  datatype Broadcast = Broadcast(
    project: Project, version: Version, todo: set<Conn>, delivered: int, completed: Option<bool>, phase: Phase)

  datatype Event = BridgeConnected(project: Project) | BridgeDisconnected(project: Project)

  datatype Agent = Agent(
    byProject: map<Project, set<Conn>>,
    pendingReloads: set<Nonce>,
    pendingByProject: map<Project, PendingReload>,
    broadcasts: map<Nonce, Broadcast>,       // every broadcast so far, by its nonce
    projectOf: map<Conn, Project>,           // the project each connection's handler remembers
    events: seq<Event>)

  const START := Agent(map[], {}, map[], map[], map[], [])

  function Removed(a: Agent, p: Project, c: Conn): Agent {
    if p !in a.byProject then a
    else if a.byProject[p] - {c} == {} then
      a.(byProject := a.byProject - {p}, events := a.events + [BridgeDisconnected(p)])
    else a.(byProject := a.byProject[p := a.byProject[p] - {c}])
  }

  /** `BroadcastReloadAsync` up to its first write, with the fresh nonce n. */
  function Started(a: Agent, p: Project, v: Version, n: Nonce): Agent
    requires p in a.byProject
  {
    a.(pendingReloads := a.pendingReloads + {n},
       broadcasts := a.broadcasts[n := Broadcast(p, v, a.byProject[p], 0, None, Sending)])
  }

  function Flushed(a: Agent, p: Project, running: Option<Version>, now: int, n: Nonce): Agent
    requires p in a.byProject
  {
    if p !in a.pendingByProject then a
    else
      var pend := a.pendingByProject[p];
      if running == Some(pend.version) then a.(pendingByProject := a.pendingByProject - {p})
      else if now - pend.lastAttempt < RETRY_SECONDS then a
      else Started(a.(pendingByProject := a.pendingByProject[p := pend.(lastAttempt := now)]), p, pend.version, n)
  }

  function Registered(a: Agent, c: Conn, p: Project): Agent {
    a.(byProject := a.byProject[p := (if p in a.byProject then a.byProject[p] else {}) + {c}],
       events := a.events + [BridgeConnected(p)])
  }

  function Acknowledged(a: Agent, n: Nonce): Agent {
    if n !in a.pendingReloads || n !in a.broadcasts then a
    else
      var b := a.broadcasts[n];
      a.(pendingReloads := a.pendingReloads - {n},
         broadcasts := a.broadcasts[n := if b.completed.None? then b.(completed := Some(true)) else b])
  }

  /** The project a message is about: its own, or the one the handler remembers. */
  function ProjectOf(a: Agent, c: Conn, msg: ToAgent): Option<Project> {
    if msg.project.Some? then msg.project else if c in a.projectOf then Some(a.projectOf[c]) else None
  }

  function Remembered(a: Agent, c: Conn, p: Option<Project>): Agent {
    if p.Some? then a.(projectOf := a.projectOf[c := p.value]) else a
  }

  /** One message handled; n is the nonce a broadcast started by it would draw. */
  function Handled(a: Agent, c: Conn, msg: ToAgent, now: int, n: Nonce): Agent {
    var p := ProjectOf(a, c, msg);
    var r := Remembered(a, c, p);
    match msg
    case Register(_, running) =>
      if p.None? then r else Flushed(Registered(r, c, p.value), p.value, running, now, n)
    case ReloadAck(_, nonce) => if nonce.None? then r else Acknowledged(r, nonce.value)
    case OtherReport(_) => r
  }

  /** The connection's handler ends. */
  function Ended(a: Agent, c: Conn): Agent {
    if c in a.projectOf then Removed(a, a.projectOf[c], c) else a
  }

  function Requested(a: Agent, p: Project, v: Version, now: int, n: Nonce): Agent {
    var q := a.(pendingByProject := a.pendingByProject[p := PendingReload(v, now)]);
    if p !in q.byProject || q.byProject[p] == {} then q else Started(q, p, v, n)
  }

  function Cleared(a: Agent, p: Project): Agent {
    a.(pendingByProject := a.pendingByProject - {p})
  }

  /** One write of a broadcast; a failed one drops the connection. */
  function SentTo(a: Agent, n: Nonce, c: Conn, ok: bool): Agent
    requires n in a.broadcasts
  {
    var b := a.broadcasts[n];
    var after := b.(todo := b.todo - {c}, delivered := if ok then b.delivered + 1 else b.delivered);
    var s := a.(broadcasts := a.broadcasts[n := after]);
    if ok then s else Removed(s, b.project, c)
  }

  function SendingDone(a: Agent, n: Nonce): Agent
    requires n in a.broadcasts
  {
    var b := a.broadcasts[n];
    if b.delivered == 0 then
      a.(pendingReloads := a.pendingReloads - {n}, broadcasts := a.broadcasts[n := b.(phase := Finished(false))])
    else a.(broadcasts := a.broadcasts[n := b.(phase := Waiting)])
  }

  function TimedOut(a: Agent, n: Nonce): Agent
    requires n in a.broadcasts
  {
    var b := a.broadcasts[n];
    if b.completed.Some? then a else a.(broadcasts := a.broadcasts[n := b.(completed := Some(false))])
  }

  /** A waiting broadcast whose task has completed goes on and returns. */
  function Woken(a: Agent, n: Nonce): Agent
    requires n in a.broadcasts && a.broadcasts[n].completed.Some?
  {
    var b := a.broadcasts[n];
    var acked := b.completed.value;
    a.(pendingReloads := a.pendingReloads - {n},
       pendingByProject := if acked then a.pendingByProject - {b.project} else a.pendingByProject,
       broadcasts := a.broadcasts[n := b.(phase := Finished(acked))])
  }

  /** A message that names a project makes its connection one of that project. */
  lemma HandledRemembers(a: Agent, c: Conn, msg: ToAgent, now: int, n: Nonce)
    requires msg.project.Some?
    ensures var b := Handled(a, c, msg, now, n); c in b.projectOf && b.projectOf[c] == msg.project.value
  {
    var p := ProjectOf(a, c, msg);
    RememberedStays(a, c, p, msg, now, n);
  }

  lemma RememberedStays(a: Agent, c: Conn, p: Option<Project>, msg: ToAgent, now: int, n: Nonce)
    requires p == ProjectOf(a, c, msg)
    ensures Handled(a, c, msg, now, n).projectOf == Remembered(a, c, p).projectOf
  {
  }

  /** A registration that names no project is for the one its connection named last, and for none before that. */
  lemma RegistersForLastNamed(a: Agent, c: Conn, msg: ToAgent, now: int, n: Nonce)
    requires msg.Register? && msg.project.None?
    ensures c in a.projectOf ==>
      var b := Handled(a, c, msg, now, n); a.projectOf[c] in b.byProject && c in b.byProject[a.projectOf[c]]
    ensures c !in a.projectOf ==> Handled(a, c, msg, now, n) == a
  {
    if c in a.projectOf {
      FlushKeepsLists(Registered(a, c, a.projectOf[c]), a.projectOf[c], msg.running, now, n);
      assert Remembered(a, c, Some(a.projectOf[c])) == a;
    }
  }

  lemma FlushKeepsLists(a: Agent, p: Project, running: Option<Version>, now: int, n: Nonce)
    requires p in a.byProject
    ensures Flushed(a, p, running, now, n).byProject == a.byProject
  {
  }

  // --------------------------------------------------------------------
  // The server
  // --------------------------------------------------------------------

  class Server {
    var byProject: map<Project, set<Conn>>
    var pendingReloads: set<Nonce>
    var pendingByProject: map<Project, PendingReload>
    var broadcasts: map<Nonce, Broadcast>
    var projectOf: map<Conn, Project>
    var events: seq<Event>

    constructor ()
      ensures Now() == START
    {
      byProject, pendingReloads, pendingByProject := map[], {}, map[];
      broadcasts, projectOf, events := map[], map[], [];
    }

    function Now(): Agent
      reads this
    {
      Agent(byProject, pendingReloads, pendingByProject, broadcasts, projectOf, events)
    }

    method RemoveConnection(p: Project, c: Conn)
      modifies this
      ensures Now() == Removed(old(Now()), p, c)
    {
      if p in byProject {
        var connections := byProject[p] - {c};
        if connections == {} {
          byProject := byProject - {p};
          events := events + [BridgeDisconnected(p)];
        } else {
          byProject := byProject[p := connections];
        }
      }
    }

    method BeginBroadcast(p: Project, v: Version, n: Nonce)
      requires p in byProject
      modifies this
      ensures Now() == Started(old(Now()), p, v, n)
    {
      pendingReloads := pendingReloads + {n};
      broadcasts := broadcasts[n := Broadcast(p, v, byProject[p], 0, None, Sending)];
    }

    method TryFlushPendingReload(p: Project, running: Option<Version>, now: int, n: Nonce)
      requires p in byProject
      modifies this
      ensures Now() == Flushed(old(Now()), p, running, now, n)
    {
      if p !in pendingByProject {
        return;
      }
      var pend := pendingByProject[p];
      if running == Some(pend.version) {
        pendingByProject := pendingByProject - {p};
        return;
      }
      if now - pend.lastAttempt < RETRY_SECONDS {
        return;
      }
      pendingByProject := pendingByProject[p := pend.(lastAttempt := now)];
      BeginBroadcast(p, pend.version, n);
    }

    method AddConnection(p: Project, c: Conn)
      modifies this
      ensures Now() == Registered(old(Now()), c, p) && p in byProject
    {
      if p !in byProject {
        byProject := byProject[p := {}];
      }
      byProject := byProject[p := byProject[p] + {c}];
      events := events + [BridgeConnected(p)];
    }

    method Acknowledge(n: Nonce)
      modifies this
      ensures Now() == Acknowledged(old(Now()), n)
    {
      if n in pendingReloads && n in broadcasts {
        pendingReloads := pendingReloads - {n};
        var b := broadcasts[n];
        if b.completed.None? {
          b := b.(completed := Some(true));
        }
        broadcasts := broadcasts[n := b];
      }
    }

    method HandleMessage(c: Conn, msg: ToAgent, now: int, n: Nonce)
      modifies this
      ensures Now() == Handled(old(Now()), c, msg, now, n)
    {
      var p := msg.project;
      if p.None? && c in projectOf {
        p := Some(projectOf[c]);
      }
      if p.Some? {
        projectOf := projectOf[c := p.value];
      }
      assert Now() == Remembered(old(Now()), c, p);
      match msg
      case Register(_, running) =>
        if p.Some? {
          AddConnection(p.value, c);
          TryFlushPendingReload(p.value, running, now, n);
        }
      case ReloadAck(_, nonce) =>
        if nonce.Some? {
          Acknowledge(nonce.value);
        }
      case OtherReport(_) =>
    }

    method EndConnection(c: Conn)
      modifies this
      ensures Now() == Ended(old(Now()), c)
    {
      if c in projectOf {
        RemoveConnection(projectOf[c], c);
      }
    }

    method RequestReload(p: Project, v: Version, now: int, n: Nonce)
      modifies this
      ensures Now() == Requested(old(Now()), p, v, now, n)
    {
      pendingByProject := pendingByProject[p := PendingReload(v, now)];
      if p in byProject && byProject[p] != {} {
        BeginBroadcast(p, v, n);
      }
    }

    method ClearPendingReload(p: Project)
      modifies this
      ensures Now() == Cleared(old(Now()), p)
    {
      pendingByProject := pendingByProject - {p};
    }

    method Write(n: Nonce, c: Conn, ok: bool)
      requires n in broadcasts
      modifies this
      ensures Now() == SentTo(old(Now()), n, c, ok)
    {
      var b := broadcasts[n];
      broadcasts := broadcasts[n := b.(todo := b.todo - {c}, delivered := if ok then b.delivered + 1 else b.delivered)];
      if !ok {
        RemoveConnection(b.project, c);
      }
    }

    method FinishSending(n: Nonce)
      requires n in broadcasts
      modifies this
      ensures Now() == SendingDone(old(Now()), n)
    {
      var b := broadcasts[n];
      if b.delivered == 0 {
        pendingReloads := pendingReloads - {n};
        broadcasts := broadcasts[n := b.(phase := Finished(false))];
      } else {
        broadcasts := broadcasts[n := b.(phase := Waiting)];
      }
    }

    method Expire(n: Nonce)
      requires n in broadcasts
      modifies this
      ensures Now() == TimedOut(old(Now()), n)
    {
      var b := broadcasts[n];
      if b.completed.None? {
        broadcasts := broadcasts[n := b.(completed := Some(false))];
      }
    }

    method Wake(n: Nonce)
      requires n in broadcasts && broadcasts[n].completed.Some?
      modifies this
      ensures Now() == Woken(old(Now()), n)
    {
      var b := broadcasts[n];
      pendingReloads := pendingReloads - {n};
      if b.completed.value {
        pendingByProject := pendingByProject - {b.project};
      }
      broadcasts := broadcasts[n := b.(phase := Finished(b.completed.value))];
    }
  }
}
