/**
 Replacing the active extension folder (ExtSync.Agent/Services/FolderSwap.cs).

 A folder is the map from relative paths to file contents. What Windows decides
 at run time is in an `Env`: the active files another process holds open, whether
 each rename succeeds, and which files of an old snapshot cannot be removed.
 */
module FolderSwap {
  import opened Options
  import opened Sets

  type Path = int
  type Content = int
  type Tree = map<Path, Content>

  /** The journal's name, which the clean-up pass never deletes inside the active folder. */
  const UPDATE_LOG: Path := 0

  datatype Folders = Folders(
    active: Option<Tree>, staging: Option<Tree>, rollback: Option<Tree>, failed: Option<Tree>)

  datatype Env = Env(
    locked: set<Path>,        // files of the active folder that cannot be overwritten or deleted
    leftover: set<Path>,      // files of the old snapshot a recursive delete leaves behind
    moveActive: bool,         // the rename active -> rollback goes through
    moveStaging: bool)        // the rename staging -> active goes through

  datatype StepResult = Success | PendingRestart | Threw

  // --------------------------------------------------------------------
  // What the operations do to the folders
  // --------------------------------------------------------------------

  function Leftover(t: Tree, leftover: set<Path>): Tree {
    map p | p in t && p in leftover :: t[p]
  }

  function SafeDeleted(folder: Option<Tree>, leftover: set<Path>): Option<Tree> {
    match folder
    case None => None
    case Some(t) => if Leftover(t, leftover) == map[] then None else Some(Leftover(t, leftover))
  }

  /** `CopyDir`: files of `src` land on top of what `dst` holds. */
  function CopiedOver(src: Tree, dst: Option<Tree>): Tree {
    (if dst.Some? then dst.value else map[]) + src
  }

  predicate Blocked(active: Tree, locked: set<Path>, p: Path) {
    p in active && p in locked
  }

  /** Staging copied into active file by file, skipping what is held open. */
  function Overwritten(active: Tree, staging: Tree, locked: set<Path>): Tree {
    active + Done(active, staging, locked, {})
  }

  /** What has been copied when all but the files in `todo` have been visited. */
  function Done(active: Tree, staging: Tree, locked: set<Path>, todo: set<Path>): Tree {
    map p | p in staging && p !in todo && !Blocked(active, locked, p) :: staging[p]
  }

  /** Files that staging does not have are removed, unless held open or called update.log. */
  function Cleaned(tree: Tree, staging: Tree, locked: set<Path>): Tree {
    map p | p in tree && (p in staging || p in locked || p == UPDATE_LOG) :: tree[p]
  }

  predicate AnyLocked(active: Tree, staging: Tree, locked: set<Path>) {
    exists p | p in staging :: Blocked(active, locked, p)
  }

  function JournaledCopied(f: Folders, env: Env): (Folders, StepResult) {
    var snapshot := SafeDeleted(f.rollback, env.leftover);
    if f.active.None? then (f.(rollback := Some(CopiedOver(map[], snapshot))), Threw)
    else
      var rollback := Some(CopiedOver(f.active.value, snapshot));
      if f.staging.None? then (f.(rollback := rollback), Threw)
      else
        var active, staging := f.active.value, f.staging.value;
        var tree := Cleaned(Overwritten(active, staging, env.locked), staging, env.locked);
        (f.(active := Some(tree), staging := None, rollback := rollback),
         if AnyLocked(active, staging, env.locked) then PendingRestart else Success)
  }

  function Replaced(f: Folders, env: Env): (Folders, StepResult) {
    if f.active.None? then
      if f.staging.None? then (f, Threw) else (f.(active := f.staging, staging := None), Success)
    else
      var g := f.(rollback := SafeDeleted(f.rollback, env.leftover));
      if g.rollback.Some? || !env.moveActive then JournaledCopied(g, env)
      else
        var h := g.(active := None, rollback := g.active);
        if h.staging.Some? && env.moveStaging then (h.(active := h.staging, staging := None), Success)
        else JournaledCopied(h, env.(leftover := env.locked))
  }

  /** The files of the snapshot copied before one that cannot be overwritten ends the copy. */
  function CopiedBefore(snapshot: Tree, reached: set<Path>, active: Tree, locked: set<Path>): Tree {
    map p | p in snapshot && p in reached && !Blocked(active, locked, p) :: snapshot[p]
  }

  /** `moved`: the rename active -> failed goes through; `reached`: how far a copy that fails gets. */
  function Restored(f: Folders, locked: set<Path>, moved: bool, reached: set<Path>): (Folders, bool) {
    if f.rollback.None? then (f, false)
    else
      var snapshot := f.rollback.value;
      var g :=
        if f.active.None? then f.(failed := None)
        else if moved then f.(active := None, failed := f.active)
        else f.(failed := Some(CopiedOver(f.active.value, None)), active := SafeDeleted(f.active, locked));
      if g.active.Some? && AnyLocked(g.active.value, snapshot, locked) then
        (g.(active := Some(CopiedOver(CopiedBefore(snapshot, reached, g.active.value, locked), g.active))), false)
      else
        (g.(active := Some(CopiedOver(snapshot, g.active))), true)
  }

  // --------------------------------------------------------------------
  // The procedures
  // --------------------------------------------------------------------

  class Disk {
    var active: Option<Tree>
    var staging: Option<Tree>
    var rollback: Option<Tree>
    var failed: Option<Tree>

    constructor (f: Folders)
      ensures State() == f
    {
      active, staging, rollback, failed := f.active, f.staging, f.rollback, f.failed;
    }

    function State(): Folders
      reads this
    {
      Folders(active, staging, rollback, failed)
    }

    /** File by file, in whatever order the directory is enumerated. */
    static method CopyDir(src: Tree, dst: Option<Tree>) returns (result: Tree)
      ensures result == CopiedOver(src, dst)
    {
      result := if dst.Some? then dst.value else map[];
      var before := result;
      var todo := src.Keys;
      while todo != {}
        invariant todo <= src.Keys
        invariant result == before + map p | p in src && p !in todo :: src[p]
      {
        ghost var some := Member(todo);
        var p :| p in todo;
        todo := todo - {p};
        result := result[p := src[p]];
      }
    }

    /** The overwrite pass of the journaled copy. */
    static method Overwrite(active: Tree, staging: Tree, locked: set<Path>) returns (result: Tree, anyLocked: bool)
      ensures result == Overwritten(active, staging, locked)
      ensures anyLocked == AnyLocked(active, staging, locked)
    {
      result, anyLocked := active, false;
      var todo := staging.Keys;
      while todo != {}
        invariant todo <= staging.Keys
        invariant result == active + Done(active, staging, locked, todo)
        invariant anyLocked == exists p | p in staging && p !in todo :: Blocked(active, locked, p)
      {
        ghost var some := Member(todo);
        var p :| p in todo;
        todo := todo - {p};
        if p in result && p in locked {
          anyLocked := true;
        } else {
          result := result[p := staging[p]];
        }
      }
    }

    /** The clean-up pass of the journaled copy. */
    static method CleanUp(tree: Tree, staging: Tree, locked: set<Path>) returns (result: Tree)
      ensures result == Cleaned(tree, staging, locked)
    {
      result := tree;
      var todo := tree.Keys;
      while todo != {}
        invariant todo <= tree.Keys
        invariant result == map p | p in tree && (p in todo || p in staging || p in locked || p == UPDATE_LOG) :: tree[p]
      {
        ghost var some := Member(todo);
        var p :| p in todo;
        todo := todo - {p};
        if p != UPDATE_LOG && p !in staging {
          if p !in locked {
            result := result - {p};
          }
        }
      }
    }

    method JournaledCopy(env: Env) returns (result: StepResult)
      modifies this
      ensures (State(), result) == JournaledCopied(old(State()), env)
    {
      rollback := SafeDeleted(rollback, env.leftover);
      if active.None? {
        // The snapshot's directory is created before the missing folder is noticed.
        CopiedFromNothing(rollback);
        rollback := Some(if rollback.Some? then rollback.value else map[]);
        return Threw;
      }
      var snapshot := CopyDir(active.value, rollback);
      rollback := Some(snapshot);
      if staging.None? {
        return Threw;
      }
      var tree, anyLocked := Overwrite(active.value, staging.value, env.locked);
      tree := CleanUp(tree, staging.value, env.locked);
      active, staging := Some(tree), None;
      result := if anyLocked then PendingRestart else Success;
    }

    method Replace(env: Env) returns (result: StepResult)
      modifies this
      ensures (State(), result) == Replaced(old(State()), env)
    {
      if active.None? {
        if staging.None? {
          return Threw;
        }
        active, staging := staging, None;
        return Success;
      }
      rollback := SafeDeleted(rollback, env.leftover);
      if rollback.None? && env.moveActive {
        rollback, active := active, None;
        if staging.Some? && env.moveStaging {
          active, staging := staging, None;
          return Success;
        }
        result := JournaledCopy(env.(leftover := env.locked));
      } else {
        result := JournaledCopy(env);
      }
    }

    method RestoreFromRollback(locked: set<Path>, moved: bool, reached: set<Path>) returns (ok: bool)
      modifies this
      ensures (State(), ok) == Restored(old(State()), locked, moved, reached)
    {
      if rollback.None? {
        return false;
      }
      failed := None;
      if active.Some? {
        if moved {
          active, failed := None, active;
        } else {
          var copy := CopyDir(active.value, None);
          failed := Some(copy);
        }
      }
      active := SafeDeleted(active, locked);
      if active.Some? && AnyLocked(active.value, rollback.value, locked) {
        var part := CopyDir(CopiedBefore(rollback.value, reached, active.value, locked), active);
        active := Some(part);
        return false;
      }
      var tree := CopyDir(rollback.value, active);
      active := Some(tree);
      ok := true;
    }
  }

  // --------------------------------------------------------------------
  // What a replacement leaves behind
  // --------------------------------------------------------------------

  /** The old snapshot can be removed, and a first rename is not left without its second. */
  predicate Undisturbed(f: Folders, env: Env) {
    && SafeDeleted(f.rollback, env.leftover).None?
    && (env.moveActive ==> env.moveStaging)
  }

  /** Whether the copy path is taken. */
  predicate CopiesFiles(env: Env) {
    !env.moveActive
  }

  lemma CopyOntoNothing(t: Tree)
    ensures CopiedOver(t, None) == t
  {
  }

  lemma ReplaceOutcome(f: Folders, env: Env)
    requires f.active.Some? && f.staging.Some? && Undisturbed(f, env)
    ensures var (g, result) := Replaced(f, env);
      && result != Threw && g.active.Some? && g.staging.None? && g.rollback == f.active && g.failed == f.failed
      && (result == PendingRestart <==>
            CopiesFiles(env) && AnyLocked(f.active.value, f.staging.value, env.locked))
      && (CopiesFiles(env) ==>
            g.active.value == Cleaned(Overwritten(f.active.value, f.staging.value, env.locked), f.staging.value, env.locked))
      && (!CopiesFiles(env) ==> g.active == f.staging)
  {
    CopyOntoNothing(f.active.value);
  }

  /**
   File by file: new content where nothing was held open, old content where something was.
   (Nothing inside a folder that could be renamed is held open.)
   */
  lemma ReplaceContents(f: Folders, env: Env, p: Path)
    requires f.active.Some? && f.staging.Some? && Undisturbed(f, env)
    requires CopiesFiles(env) || !Blocked(f.active.value, env.locked, p)
    ensures Replaced(f, env).0.active.Some?
    ensures var before, after := f.active.value, f.staging.value;
      var result := Replaced(f, env).0.active.value;
      if Blocked(before, env.locked, p) then p in result && result[p] == before[p]
      else if p in after then p in result && result[p] == after[p]
      else (p in result <==> p in before && p == UPDATE_LOG && CopiesFiles(env))
  {
    ReplaceOutcome(f, env);
  }

  /** A replacement fails exactly when there is no new folder, or when a first rename is left without its second. */
  lemma ThrowsIff(f: Folders, env: Env)
    ensures Replaced(f, env).1 == Threw
       <==> f.staging.None?
            || (f.active.Some? && SafeDeleted(f.rollback, env.leftover).None? && env.moveActive && !env.moveStaging)
  {
  }

  /** The first installation moves the new folder in, and touches no other. */
  lemma FirstInstall(f: Folders, env: Env)
    requires f.active.None?
    ensures var (g, result) := Replaced(f, env);
      && g.active == f.staging && g.staging.None? && g.rollback == f.rollback && g.failed == f.failed
      && (result == Success <==> f.staging.Some?)
  {
  }

  /** Without a new folder the active one stays, and has been copied to the snapshot, unless it was renamed to it first. */
  lemma MissingStaging(f: Folders, env: Env)
    requires f.active.Some? && f.staging.None? && SafeDeleted(f.rollback, env.leftover).None?
    ensures var (g, result) := Replaced(f, env);
      && result == Threw && g.staging.None? && g.failed == f.failed
      && (!env.moveActive ==> g.active == f.active && g.rollback == f.active)
      && (env.moveActive ==> g.active.None?)
  {
    CopyOntoNothing(f.active.value);
  }

  /** With nothing held open the new tree arrives whole, unless a stray update.log survives. */
  lemma WholeNewTree(f: Folders, env: Env)
    requires f.active.Some? && f.staging.Some? && Undisturbed(f, env) && env.locked == {}
    ensures Replaced(f, env).0.active == f.staging <==> !KeepsStrayLog(f, env)
  {
    ReplaceOutcome(f, env);
    var before, after := f.active.value, f.staging.value;
    var result := Replaced(f, env).0.active.value;
    if KeepsStrayLog(f, env) {
      assert UPDATE_LOG in result;
    } else if CopiesFiles(env) {
      assert result == after;
    }
  }

  /** A file named update.log inside the active folder outlives a copying update. */
  predicate KeepsStrayLog(f: Folders, env: Env)
    requires f.active.Some? && f.staging.Some?
  {
    CopiesFiles(env) && UPDATE_LOG in f.active.value && UPDATE_LOG !in f.staging.value
  }

  /**
   The old tree survives as the snapshot exactly when a first rename was not left
   without its second, or every one of its files was held open meanwhile.
   */
  lemma SnapshotSurvives(f: Folders, env: Env)
    requires f.active.Some? && f.staging.Some? && SafeDeleted(f.rollback, env.leftover).None?
    ensures Replaced(f, env).0.rollback == f.active
       <==> (env.moveActive ==> env.moveStaging) || f.active.value.Keys <= env.locked
  {
    var t := f.active.value;
    if env.moveActive && !env.moveStaging {
      var rest := Leftover(t, env.locked);
      assert rest.Keys == t.Keys * env.locked;
      CopiedFromNothing(SafeDeleted(Some(t), env.locked));
      if t.Keys <= env.locked {
        assert rest == t;
      }
    } else {
      ReplaceOutcome(f, env);
    }
  }

  lemma CopiedFromNothing(rest: Option<Tree>)
    ensures CopiedOver(map[], rest) == if rest.Some? then rest.value else map[]
  {
  }

  /**
   A first rename left without its second, with nothing held open: the only copy of the
   old tree is deleted, and the restore that follows reports success on an empty folder.
   */
  lemma LostSnapshotRestoresNothing(f: Folders, env: Env, moved: bool, reached: set<Path>)
    requires f.active.Some? && f.staging.Some? && SafeDeleted(f.rollback, env.leftover).None?
    requires env.moveActive && !env.moveStaging && env.locked == {}
    ensures var (g, result) := Replaced(f, env);
      && result == Threw && g.active.None? && g.rollback == Some(map[])
      && Restored(g, {}, moved, reached).1
      && Restored(g, {}, moved, reached).0.active == Some(map[])
  {
    CopyOntoNothing(map[]);
  }

  /** A snapshot that could not be removed is merged into; it is the old tree only if it has no file of its own. */
  lemma SnapshotOverLeftover(f: Folders, env: Env)
    requires f.active.Some? && f.staging.Some? && SafeDeleted(f.rollback, env.leftover).Some?
    ensures Replaced(f, env).0.rollback == f.active
       <==> f.rollback.value.Keys * env.leftover <= f.active.value.Keys
  {
    var t, l := f.rollback.value, env.leftover;
    var rest := SafeDeleted(f.rollback, l).value;
    assert rest.Keys == t.Keys * l;
    var again := SafeDeleted(Some(rest), l);
    assert Leftover(rest, l) == rest;
    assert again == Some(rest);
    var merged := CopiedOver(f.active.value, again);
    assert merged.Keys == rest.Keys + f.active.value.Keys;
    if rest.Keys <= f.active.value.Keys {
      assert merged == f.active.value;
    }
  }

  // --------------------------------------------------------------------
  // Going back
  // --------------------------------------------------------------------

  /** With nothing held open, restoring brings the snapshot back exactly, by either strategy. */
  lemma RestoreIsExact(f: Folders, moved: bool, reached: set<Path>)
    ensures var (g, ok) := Restored(f, {}, moved, reached);
      && (ok <==> f.rollback.Some?) && g.rollback == f.rollback && g.staging == f.staging
      && (ok ==> g.active == f.rollback && g.failed == f.active)
      && (!ok ==> g == f)
  {
    if f.rollback.Some? && f.active.Some? {
      CopyOntoNothing(f.active.value);
    }
    if f.rollback.Some? {
      CopyOntoNothing(f.rollback.value);
    }
  }

  /**
   Under any locks every file of the active folder is then the snapshot's, or an old one that
   was held open; and a restore that reports success has every snapshot file in place.
   */
  lemma RestoreUnderLocks(f: Folders, locked: set<Path>, moved: bool, reached: set<Path>, p: Path)
    requires f.rollback.Some? && f.active.Some?
    ensures var (g, ok) := Restored(f, locked, moved, reached);
      && g.active.Some?
      && (p in g.active.value ==>
            || (p in f.rollback.value && g.active.value[p] == f.rollback.value[p])
            || (p in f.active.value && p in locked && g.active.value[p] == f.active.value[p]))
      && (ok && p in f.rollback.value ==> p in g.active.value && g.active.value[p] == f.rollback.value[p])
  {
  }

  /**
   A restore succeeds exactly when there is a snapshot and no file it has is held open in an active folder that could
   not be moved away; and what was active is then kept as the failed version.
   */
  lemma RestoreSucceedsIff(f: Folders, locked: set<Path>, moved: bool, reached: set<Path>)
    ensures var (g, ok) := Restored(f, locked, moved, reached);
      && (ok <==> f.rollback.Some? && (f.active.None? || moved || !AnyLocked(f.active.value, f.rollback.value, locked)))
      && g.rollback == f.rollback && g.staging == f.staging
      && g.failed == (if f.rollback.Some? then f.active else f.failed)
      && (f.rollback.Some? && (f.active.None? || moved) ==> g.active == f.rollback)
      && (f.rollback.None? ==> g.active == f.active)
  {
    if f.rollback.Some? {
      CopyOntoNothing(f.rollback.value);
      if f.active.Some? {
        CopyOntoNothing(f.active.value);
        HeldStay(f.active, locked, f.rollback.value);
      }
    }
  }

  /** What a recursive delete leaves behind are the files held open. */
  lemma HeldStay(folder: Option<Tree>, locked: set<Path>, snapshot: Tree)
    requires folder.Some?
    ensures AnyLocked(folder.value, snapshot, locked)
       <==> SafeDeleted(folder, locked).Some? && AnyLocked(SafeDeleted(folder, locked).value, snapshot, locked)
  {
    var rest := Leftover(folder.value, locked);
    if AnyLocked(folder.value, snapshot, locked) {
      var p :| p in snapshot && Blocked(folder.value, locked, p);
      assert p in rest;
      assert Blocked(rest, locked, p);
    }
    if rest != map[] && AnyLocked(rest, snapshot, locked) {
      var p :| p in snapshot && Blocked(rest, locked, p);
      assert Blocked(folder.value, locked, p);
    }
  }

  /** Whatever was held open during a replacement, an unlocked restore undoes it. */
  lemma RestoreUndoesReplace(f: Folders, env: Env, moved: bool, reached: set<Path>)
    requires f.active.Some? && f.staging.Some? && Undisturbed(f, env)
    ensures Restored(Replaced(f, env).0, {}, moved, reached).1
    ensures Restored(Replaced(f, env).0, {}, moved, reached).0.active == f.active
  {
    ReplaceOutcome(f, env);
    RestoreIsExact(Replaced(f, env).0, moved, reached);
  }
}
