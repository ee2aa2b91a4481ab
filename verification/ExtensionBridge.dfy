/** The browser's end of the reload protocol (packages/extension-bridge/src/core.ts). */
module ExtensionBridge {
  import opened Options
  import opened PipeServer

  /** `update.reload_ready` and the other messages the agent may send. */
  datatype ToBridge =
    | ReloadReady(project: Option<Project>, nonce: Option<Nonce>, version: Version)
    | OtherNotice(project: Option<Project>)

  datatype Bridge = Bridge(
    project: Project, autoReload: bool, connected: bool, pendingNonce: Option<Nonce>, reloads: int)

  predicate Addressed(b: Bridge, msg: ToBridge) {
    msg.project.None? || msg.project == Some(b.project)
  }

  /** Whether the message is a reload request the bridge honours, and with which nonce. */
  function Honoured(b: Bridge, msg: ToBridge): Option<Nonce> {
    if Addressed(b, msg) && msg.ReloadReady? then msg.nonce else None
  }

  /** The bridge after one message, and what it writes to its port meanwhile; `posts` is false if the port throws. */
  function Answered(b: Bridge, msg: ToBridge, posts: bool): (Bridge, seq<ToAgent>) {
    var n := Honoured(b, msg);
    if n.None? then (b, [])
    else
      (b.(connected := b.connected && posts, pendingNonce := n,
          reloads := if b.autoReload then b.reloads + 1 else b.reloads),
       if b.connected && posts then [ReloadAck(Some(b.project), n)] else [])
  }

  /** The request is for this project, or for none in particular, and names a nonce. */
  predicate IsRequestFor(b: Bridge, msg: ToBridge) {
    msg.ReloadReady? && msg.nonce.Some? && (msg.project.None? || msg.project == Some(b.project))
  }

  /**
   A request for this project is acknowledged with its nonce exactly when the port is there and does not throw, and
   followed by one reload exactly when that is configured. Everything else is ignored.
   */
  lemma AnswersIff(b: Bridge, msg: ToBridge, posts: bool)
    ensures var (after, sent) := Answered(b, msg, posts);
      && (sent != [] <==> IsRequestFor(b, msg) && b.connected && posts)
      && (sent != [] ==> sent == [ReloadAck(Some(b.project), msg.nonce)])
      && (!IsRequestFor(b, msg) ==> after == b)
      && (IsRequestFor(b, msg) ==> after.pendingNonce == msg.nonce && (after.connected <==> b.connected && posts))
      && (after.reloads != b.reloads <==> IsRequestFor(b, msg) && b.autoReload)
      && b.reloads <= after.reloads <= b.reloads + 1 && after.project == b.project && after.autoReload == b.autoReload
  {
  }

  class ExtSyncBridge {
    const project: Project
    const autoReload: bool
    var connected: bool
    var pendingNonce: Option<Nonce>
    var reloads: int
    var sent: seq<ToAgent>        // what went through the native port

    constructor (project: Project, autoReload: bool)
      ensures Now() == Bridge(project, autoReload, false, None, 0) && sent == []
    {
      this.project, this.autoReload := project, autoReload;
      connected, pendingNonce, reloads, sent := false, None, 0, [];
    }

    function Now(): Bridge
      reads this
    {
      Bridge(project, autoReload, connected, pendingNonce, reloads)
    }

    /** Registers at once; a port that throws on its first message is given up. */
    method Connect(installed: bool, running: Version, posts: bool)
      modifies this
      ensures Now() == old(Now()).(connected := installed && posts)
      ensures sent == old(sent) + if installed && posts then [Register(Some(project), Some(running))] else []
    {
      if !installed {
        HandleDisconnect();
        return;
      }
      connected := true;
      Send(Register(Some(project), Some(running)), posts);
    }

    /** A message goes through a port that is there and does not throw; one that throws is given up. */
    method Send(msg: ToAgent, posts: bool)
      modifies this`sent, this`connected
      ensures sent == old(sent) + if old(connected) && posts then [msg] else []
      ensures connected == (old(connected) && posts)
    {
      if !connected {
        return;
      }
      if posts {
        sent := sent + [msg];
      } else {
        HandleDisconnect();
      }
    }

    method HandleDisconnect()
      modifies this`connected
      ensures !connected
    {
      connected := false;
    }

    method HandleMessage(msg: ToBridge, posts: bool)
      modifies this
      ensures Now() == Answered(old(Now()), msg, posts).0
      ensures sent == old(sent) + Answered(old(Now()), msg, posts).1
    {
      if msg.project.Some? && msg.project.value != project {
        return;
      }
      match msg
      case ReloadReady(_, nonce, _) => HandleReloadReady(nonce, posts);
      case OtherNotice(_) =>
    }

    method HandleReloadReady(nonce: Option<Nonce>, posts: bool)
      modifies this
      ensures Now() == Answered(old(Now()), ReloadReady(None, nonce, 0), posts).0
      ensures sent == old(sent) + Answered(old(Now()), ReloadReady(None, nonce, 0), posts).1
    {
      if nonce.None? {
        return;
      }
      pendingNonce := nonce;
      Send(ReloadAck(Some(project), nonce), posts);
      if autoReload {
        Reload(nonce);
      }
    }

    /** Refuses a nonce that is not the last one requested. */
    method Reload(nonce: Option<Nonce>)
      modifies this`reloads
      ensures reloads == old(reloads) + if nonce.Some? && nonce != pendingNonce then 0 else 1
    {
      if nonce.Some? && nonce != pendingNonce {
        return;
      }
      reloads := reloads + 1;
    }
  }
}
