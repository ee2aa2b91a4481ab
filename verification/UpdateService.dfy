/**
 Applying one release to one installation (ExtSync.Agent/Services/UpdateService.cs).

 Everything the agent does not decide itself is in a `World`: what was downloaded,
 where an exception strikes, how Windows treats each file, and whether the browser
 acknowledged the reload. Applications of one installation are serialised by a gate,
 so a run is a sequence of applications.
 */
module UpdateService {
  import opened Options
  import opened FolderSwap

  datatype Status = AwaitingManualLoad | Updating | UpToDate | ReloadRequired | RollbackInProgress | Broken

  datatype ErrorCode =
    | ProjectIdMismatch | AgentUpdateRequired | PermissionApprovalRequired | InvalidSignature
    | SizeExceeded | HashMismatch | InvalidManifest | InvalidArchive | DownloadFailed

  datatype LastError = NoError | Rejected(code: ErrorCode) | RolledBackAfterFailure | RollbackFailed

  datatype Installation = Installation(
    project: int, version: int, sequence: int, hasBridge: bool, status: Status, lastError: LastError)

  datatype Release = Release(
    project: int, version: int, sequence: int, rollback: bool, requiresApproval: bool,
    agentSupported: bool,     // this agent is at least the release's minimum version
    signed: bool)             // the metadata's signature verifies

  /** Where an exception strikes, if one does. A swap can also fail by itself. */
  datatype Fault = NoFault | BeforeExtraction | DuringExtraction | AfterSwap

  datatype World = World(
    fault: Fault,
    oversized: bool, hashMatches: bool,          // about the downloaded file
    archive: Tree, extracted: Tree,              // its contents; what was unpacked when extraction failed
    invalid: Option<ErrorCode>,                  // the verdict of the local validation
    env: Env, reloaded: bool,
    restoreLocked: set<Path>, restoreMoved: bool, restoreReached: set<Path>)

  datatype Result = Success | PendingRestart | RolledBack | Failed
  datatype Outcome = Outcome(result: Result, code: Option<ErrorCode>)

  datatype State = State(inst: Installation, stored: Installation, folders: Folders)

  // --------------------------------------------------------------------
  // One application
  // --------------------------------------------------------------------

  predicate Stale(inst: Installation, r: Release) {
    !r.rollback && r.sequence <= inst.sequence
  }

  function Refused(s: State, code: ErrorCode): (State, Outcome) {
    var inst := s.inst.(
      status := if s.inst.sequence > 0 then UpToDate else AwaitingManualLoad, lastError := Rejected(code));
    (State(inst, inst, s.folders), Outcome(Failed, Some(code)))
  }

  function Recovered(s: State, w: World): (State, Outcome) {
    var (folders, ok) := Restored(s.folders, w.restoreLocked, w.restoreMoved, w.restoreReached);
    var inst := s.inst.(
      status := if ok then UpToDate else Broken, lastError := if ok then RolledBackAfterFailure else RollbackFailed);
    (State(inst, inst, folders), Outcome(if ok then RolledBack else Failed, Some(DownloadFailed)))
  }

  function Labelled(inst: Installation, r: Release): Installation {
    inst.(version := r.version, sequence := r.sequence)
  }

  function SwappedIn(s: State, r: Release, w: World): (State, Outcome) {
    var (folders, swap) := Replaced(s.folders, w.env);
    if swap == Threw then Recovered(s.(folders := folders), w)
    else
      var inst := Labelled(s.inst, r);
      if w.fault == AfterSwap then Recovered(s.(inst := inst, folders := folders), w)
      else
        var done := inst.(status :=
          if swap == StepResult.Success && inst.hasBridge && w.reloaded then UpToDate else ReloadRequired);
        (State(done, done, folders),
         Outcome(if swap == StepResult.PendingRestart then Result.PendingRestart else Result.Success, None))
  }

  function Fetched(s: State, r: Release, w: World): (State, Outcome) {
    if w.fault == BeforeExtraction then Recovered(s, w)
    else if w.oversized then Refused(s, SizeExceeded)
    else if !w.hashMatches then Refused(s, HashMismatch)
    else if w.fault == DuringExtraction then Recovered(s.(folders := s.folders.(staging := Some(w.extracted))), w)
    else
      var t := s.(folders := s.folders.(staging := Some(w.archive)));
      if w.invalid.Some? then Refused(t, w.invalid.value) else SwappedIn(t, r, w)
  }

  function Applied(s: State, r: Release, approved: bool, w: World): (State, Outcome) {
    if Stale(s.inst, r) then (s, Outcome(Result.Success, None))
    else if r.project != s.inst.project then Refused(s, ProjectIdMismatch)
    else if !r.agentSupported then Refused(s, AgentUpdateRequired)
    else if r.requiresApproval && !approved then (s, Outcome(Failed, Some(PermissionApprovalRequired)))
    else if !r.signed then Refused(s, InvalidSignature)
    else
      var inst := s.inst.(status := Updating, lastError := NoError);
      Fetched(State(inst, inst, s.folders), r, w)
  }

  class Updater {
    const disk: Disk
    var inst: Installation
    var stored: Installation

    constructor (s: State)
      ensures fresh(disk) && Now() == s
    {
      disk := new Disk(s.folders);
      inst, stored := s.inst, s.stored;
    }

    function Now(): State
      reads this, disk
    {
      State(inst, stored, disk.State())
    }

    method Upsert()
      modifies this`stored
      ensures Now() == old(Now()).(stored := inst)
    {
      stored := inst;
    }

    method Fail(code: ErrorCode) returns (o: Outcome)
      modifies this
      ensures (Now(), o) == Refused(old(Now()), code)
    {
      inst := inst.(status := if inst.sequence > 0 then UpToDate else AwaitingManualLoad);
      inst := inst.(lastError := Rejected(code));
      Upsert();
      o := Outcome(Failed, Some(code));
    }

    method TryRollback(w: World) returns (o: Outcome)
      modifies this, disk
      ensures (Now(), o) == Recovered(old(Now()), w)
    {
      inst := inst.(status := RollbackInProgress);
      Upsert();
      var ok := disk.RestoreFromRollback(w.restoreLocked, w.restoreMoved, w.restoreReached);
      inst := inst.(status := if ok then UpToDate else Broken);
      inst := inst.(lastError := if ok then RolledBackAfterFailure else RollbackFailed);
      Upsert();
      o := Outcome(if ok then RolledBack else Failed, Some(DownloadFailed));
    }

    method Swap(r: Release, w: World) returns (o: Outcome)
      modifies this, disk
      ensures (Now(), o) == SwappedIn(old(Now()), r, w)
    {
      var swap := disk.Replace(w.env);
      if swap == Threw {
        o := TryRollback(w);
        return;
      }
      inst := inst.(version := r.version);
      inst := inst.(sequence := r.sequence);
      if w.fault == AfterSwap {
        o := TryRollback(w);
        return;
      }
      var reloaded := false;
      if swap == StepResult.Success && inst.hasBridge {
        reloaded := w.reloaded;
      }
      inst := inst.(status := if swap == StepResult.Success && reloaded then UpToDate else ReloadRequired);
      Upsert();
      o := Outcome(if swap == StepResult.PendingRestart then Result.PendingRestart else Result.Success, None);
    }

    method ApplyUpdate(r: Release, approved: bool, w: World) returns (o: Outcome)
      modifies this, disk
      ensures (Now(), o) == Applied(old(Now()), r, approved, w)
    {
      if !r.rollback && r.sequence <= inst.sequence {
        return Outcome(Result.Success, None);
      }
      if r.project != inst.project {
        o := Fail(ProjectIdMismatch);
        return;
      }
      if !r.agentSupported {
        o := Fail(AgentUpdateRequired);
        return;
      }
      if r.requiresApproval && !approved {
        return Outcome(Failed, Some(PermissionApprovalRequired));
      }
      if !r.signed {
        o := Fail(InvalidSignature);
        return;
      }
      inst := inst.(status := Updating, lastError := NoError);
      Upsert();
      if w.fault == BeforeExtraction {
        o := TryRollback(w);
      } else if w.oversized {
        o := Fail(SizeExceeded);
      } else if !w.hashMatches {
        o := Fail(HashMismatch);
      } else {
        disk.staging := Some(map[]);
        if w.fault == DuringExtraction {
          disk.staging := Some(w.extracted);
          o := TryRollback(w);
        } else {
          disk.staging := Some(w.archive);
          if w.invalid.Some? {
            o := Fail(w.invalid.value);
          } else {
            o := Swap(r, w);
          }
        }
      }
    }
  }

  // --------------------------------------------------------------------
  // When a release takes effect
  // --------------------------------------------------------------------

  /** The checks made before anything is downloaded. */
  predicate Admitted(inst: Installation, r: Release, approved: bool) {
    && !Stale(inst, r) && r.project == inst.project && r.agentSupported
    && (r.requiresApproval ==> approved) && r.signed
  }

  /** The checks made on what was downloaded. */
  predicate Sound(w: World) {
    !w.oversized && w.hashMatches && w.invalid.None?
  }

  predicate FailsBeforeSwap(w: World) {
    w.fault == BeforeExtraction || (w.fault == DuringExtraction && !w.oversized && w.hashMatches)
  }

  predicate ReachesSwap(inst: Installation, r: Release, approved: bool, w: World) {
    Admitted(inst, r, approved) && Sound(w) && !FailsBeforeSwap(w)
  }

  /** What `Replace` is given: staging holds the complete, validated archive. */
  function Staged(s: State, w: World): Folders {
    s.folders.(staging := Some(w.archive))
  }

  /** The recorded version moves exactly when every check passed and the folders were exchanged. */
  lemma RecordMovesOnlyAfterChecks(s: State, r: Release, approved: bool, w: World)
    ensures var t := Applied(s, r, approved, w).0;
      var swapped := ReachesSwap(s.inst, r, approved, w) && Replaced(Staged(s, w), w.env).1 != Threw;
      && (swapped ==> t.inst.version == r.version && t.inst.sequence == r.sequence)
      && (!swapped ==> t.inst.version == s.inst.version && t.inst.sequence == s.inst.sequence)
  {
  }

  // --------------------------------------------------------------------
  // Which tree is active afterwards
  // --------------------------------------------------------------------

  /** No file is held open, no rename is left half done, no update.log lies in the active folder. */
  predicate QuietDisk(s: State, w: World) {
    && w.env.locked == {} && w.restoreLocked == {} && Undisturbed(Staged(s, w), w.env)
    && (s.folders.active.Some? ==> !KeepsStrayLog(Staged(s, w), w.env))
  }

  lemma QuietSwap(s: State, w: World)
    requires QuietDisk(s, w)
    ensures var (g, swap) := Replaced(Staged(s, w), w.env);
      && swap != Threw && g.active == Some(w.archive)
      && g.rollback == if s.folders.active.Some? then s.folders.active else s.folders.rollback
  {
    if s.folders.active.Some? {
      ReplaceOutcome(Staged(s, w), w.env);
      WholeNewTree(Staged(s, w), w.env);
    }
  }

  /** A refusal leaves every folder but staging alone. */
  lemma RefusalKeepsFolders(s: State, r: Release, approved: bool, w: World)
    requires !Admitted(s.inst, r, approved) || (!Sound(w) && !FailsBeforeSwap(w))
    ensures var (t, o) := Applied(s, r, approved, w);
      && t.folders == s.folders.(staging := t.folders.staging)
      && t.inst.sequence == s.inst.sequence
      && (o.result == Result.Success <==> !r.rollback && r.sequence <= s.inst.sequence)
  {
  }

  /** The first check that fails says why the release is refused; one that is not newer is no failure and changes nothing. */
  lemma RefusalSaysWhy(s: State, r: Release, approved: bool, w: World)
    ensures var (t, o) := Applied(s, r, approved, w);
      var newer := r.rollback || r.sequence > s.inst.sequence;
      var mine := newer && r.project == s.inst.project;
      var allowed := mine && r.agentSupported && (r.requiresApproval ==> approved);
      var fetched := allowed && r.signed && w.fault != BeforeExtraction;
      var unpacked := fetched && !w.oversized && w.hashMatches && w.fault != DuringExtraction;
      && (!newer ==> (t, o) == (s, Outcome(Result.Success, None)))
      && (newer && !mine ==> o == Outcome(Failed, Some(ProjectIdMismatch)))
      && (mine && !r.agentSupported ==> o == Outcome(Failed, Some(AgentUpdateRequired)))
      && (mine && r.agentSupported && !allowed ==> (t, o) == (s, Outcome(Failed, Some(PermissionApprovalRequired))))
      && (allowed && !r.signed ==> o == Outcome(Failed, Some(InvalidSignature)))
      && (fetched && w.oversized ==> o == Outcome(Failed, Some(SizeExceeded)))
      && (fetched && !w.oversized && !w.hashMatches ==> o == Outcome(Failed, Some(HashMismatch)))
      && (unpacked && w.invalid.Some? ==> o == Outcome(Failed, w.invalid))
      && (o.result == Failed && o.code.Some? && o.code != Some(PermissionApprovalRequired) && o.code != Some(DownloadFailed) ==>
            t.inst.lastError == Rejected(o.code.value) && t.stored == t.inst
            && t.inst.status == if s.inst.sequence > 0 then UpToDate else AwaitingManualLoad)
  {
  }

  /** A release that passes every check on a quiet disk becomes the active tree, and the old one the snapshot. */
  lemma SuccessInstallsNewTree(s: State, r: Release, approved: bool, w: World)
    requires QuietDisk(s, w) && ReachesSwap(s.inst, r, approved, w) && w.fault != AfterSwap
    ensures var (t, o) := Applied(s, r, approved, w);
      && o.code.None? && t.folders.active == Some(w.archive) && t.inst.sequence == r.sequence
      && (s.folders.active.Some? ==> t.folders.rollback == s.folders.active)
      && (t.inst.status == UpToDate ==> s.inst.hasBridge && w.reloaded && o.result == Result.Success)
  {
    QuietSwap(s, w);
  }

  /**
   Under any locks an exchange that is not taken back moves the label, and asks for a restart exactly when a file was
   held open while copying; the installation is up to date exactly when its bridge acknowledged the reload.
   */
  lemma ExchangeOutcome(s: State, r: Release, approved: bool, w: World)
    requires ReachesSwap(s.inst, r, approved, w) && w.fault != AfterSwap
    requires s.folders.active.Some? && Undisturbed(Staged(s, w), w.env)
    ensures var (t, o) := Applied(s, r, approved, w);
      var held := CopiesFiles(w.env) && AnyLocked(s.folders.active.value, w.archive, w.env.locked);
      && o == Outcome(if held then Result.PendingRestart else Result.Success, None)
      && t.inst == s.inst.(version := r.version, sequence := r.sequence, lastError := NoError,
                           status := if !held && s.inst.hasBridge && w.reloaded then UpToDate else ReloadRequired)
      && t.stored == t.inst && t.folders.rollback == s.folders.active && t.folders.staging.None?
  {
    ReplaceOutcome(Staged(s, w), w.env);
  }

  /** A recovery succeeds exactly when the restore does; it reports the failure in either case and keeps the label. */
  lemma RecoveryOutcome(s: State, w: World)
    ensures var (t, o) := Recovered(s, w);
      var ok := s.folders.rollback.Some?
        && (s.folders.active.None? || w.restoreMoved
            || !AnyLocked(s.folders.active.value, s.folders.rollback.value, w.restoreLocked));
      && o == Outcome(if ok then RolledBack else Failed, Some(DownloadFailed))
      && t.inst == s.inst.(status := if ok then UpToDate else Broken, lastError := if ok then RolledBackAfterFailure else RollbackFailed)
      && t.stored == t.inst && t.folders.staging == s.folders.staging
  {
    RestoreSucceedsIff(s.folders, w.restoreLocked, w.restoreMoved, w.restoreReached);
  }

  /** A first rename left without its second empties the active folder, while a successful rollback is reported. */
  lemma HalfExchangeEmptiesActive(s: State, r: Release, approved: bool, w: World)
    requires ReachesSwap(s.inst, r, approved, w) && s.folders.active.Some?
    requires SafeDeleted(s.folders.rollback, w.env.leftover).None? && w.env.moveActive && !w.env.moveStaging
    requires w.env.locked == {} && w.restoreLocked == {}
    ensures var (t, o) := Applied(s, r, approved, w);
      && o.result == RolledBack && t.folders.active == Some(map[]) && t.folders.rollback == Some(map[])
      && t.inst.version == s.inst.version && t.inst.sequence == s.inst.sequence && t.inst.status == UpToDate
  {
    LostSnapshotRestoresNothing(Staged(s, w), w.env, w.restoreMoved, w.restoreReached);
    RestoreSucceedsIff(Replaced(Staged(s, w), w.env).0, {}, w.restoreMoved, w.restoreReached);
  }

  /**
   A download or extraction that fails puts the snapshot of the version before the current one
   in place: the active tree stays what it was exactly when there is no such snapshot, or it is the same tree.
   */
  lemma EarlyFailureDowngrades(s: State, r: Release, approved: bool, w: World)
    requires QuietDisk(s, w) && Admitted(s.inst, r, approved) && FailsBeforeSwap(w)
    ensures var t := Applied(s, r, approved, w).0;
      && t.folders.active == (if s.folders.rollback.Some? then s.folders.rollback else s.folders.active)
      && t.folders.rollback == s.folders.rollback
      && (t.folders.active == s.folders.active <==> s.folders.rollback.None? || s.folders.rollback == s.folders.active)
      && t.inst.version == s.inst.version && t.inst.sequence == s.inst.sequence
      && (s.folders.rollback.None? ==> t.inst.status == Broken)
      && t.folders.staging == (if w.fault == DuringExtraction then Some(w.extracted) else s.folders.staging)
  {
    RestoreIsExact(s.folders, w.restoreMoved, w.restoreReached);
    RestoreIsExact(s.folders.(staging := Some(w.extracted)), w.restoreMoved, w.restoreReached);
  }

  /**
   An exception after the exchange brings the old tree back but leaves the new label on it,
   so the same release is from then on skipped as not newer and never arrives.
   */
  lemma LateFailureMislabels(s: State, r: Release, approved: bool, w: World, again: bool, later: World)
    requires QuietDisk(s, w) && ReachesSwap(s.inst, r, approved, w) && w.fault == AfterSwap
    requires s.folders.active.Some?
    ensures var (t, o) := Applied(s, r, approved, w);
      && o.result == RolledBack && t.folders.active == s.folders.active
      && t.inst.version == r.version && t.inst.sequence == r.sequence
      && (!r.rollback ==> Applied(t, r, again, later) == (t, Outcome(Result.Success, None)))
  {
    QuietSwap(s, w);
    RestoreIsExact(Replaced(Staged(s, w), w.env).0, w.restoreMoved, w.restoreReached);
  }

  /** On a quiet disk the active tree is always one whole tree: the old, the new, or the previous one. */
  lemma ActiveIsWhole(s: State, r: Release, approved: bool, w: World)
    requires QuietDisk(s, w)
    ensures var t := Applied(s, r, approved, w).0;
      || t.folders.active == s.folders.active
      || t.folders.active == s.folders.rollback
      || (t.folders.active == Some(w.archive) && ReachesSwap(s.inst, r, approved, w))
    ensures var t := Applied(s, r, approved, w).0;
      t.folders.rollback == s.folders.rollback || t.folders.rollback == s.folders.active
  {
    if !Admitted(s.inst, r, approved) || (!Sound(w) && !FailsBeforeSwap(w)) {
      RefusalKeepsFolders(s, r, approved, w);
    } else if FailsBeforeSwap(w) {
      EarlyFailureDowngrades(s, r, approved, w);
    } else {
      QuietSwap(s, w);
      RestoreIsExact(Replaced(Staged(s, w), w.env).0, w.restoreMoved, w.restoreReached);
    }
  }

  // --------------------------------------------------------------------
  // When the recorded version is that of the active tree
  // --------------------------------------------------------------------

  /** A version, and the tree it was recorded for. */
  datatype Label = Label(version: int, sequence: int, tree: Option<Tree>)

  /** An exchange records a new label; nothing else does. */
  function Relabelled(l: Label, s: State, r: Release, approved: bool, w: World): Label {
    if ReachesSwap(s.inst, r, approved, w) then Label(r.version, r.sequence, Some(w.archive)) else l
  }

  /** The installation records the label's version. */
  predicate Records(inst: Installation, l: Label) {
    inst.version == l.version && inst.sequence == l.sequence
  }

  /** The snapshot an exchange leaves. */
  function SnapshotAfter(s: State): Option<Tree> {
    if s.folders.active.Some? then s.folders.active else s.folders.rollback
  }

  /** An exchange whose tree is taken back, or a failure before one that restores another tree. */
  predicate Mislabels(s: State, r: Release, approved: bool, w: World) {
    || (ReachesSwap(s.inst, r, approved, w) && w.fault == AfterSwap
        && SnapshotAfter(s).Some? && SnapshotAfter(s) != Some(w.archive))
    || (Admitted(s.inst, r, approved) && FailsBeforeSwap(w)
        && s.folders.rollback.Some? && s.folders.rollback != s.folders.active)
  }

  /** What makes the label right afterwards, whether or not it was right before. */
  predicate RightAfter(l: Label, s: State, r: Release, approved: bool, w: World) {
    if ReachesSwap(s.inst, r, approved, w) then !Mislabels(s, r, approved, w)
    else if Admitted(s.inst, r, approved) && FailsBeforeSwap(w) && s.folders.rollback.Some? then s.folders.rollback == l.tree
    else s.folders.active == l.tree
  }

  /** On a quiet disk: exactly when the recorded version is that of the active tree. */
  lemma LabelIsRightIff(l: Label, s: State, r: Release, approved: bool, w: World)
    requires QuietDisk(s, w) && Records(s.inst, l)
    ensures var t, l' := Applied(s, r, approved, w).0, Relabelled(l, s, r, approved, w);
      && Records(t.inst, l')
      && (t.folders.active == l'.tree <==> RightAfter(l, s, r, approved, w))
      && (s.folders.active == l.tree ==> (t.folders.active == l'.tree <==> !Mislabels(s, r, approved, w)))
  {
    if !Admitted(s.inst, r, approved) || (!Sound(w) && !FailsBeforeSwap(w)) {
      RefusalKeepsFolders(s, r, approved, w);
    } else if FailsBeforeSwap(w) {
      EarlyFailureDowngrades(s, r, approved, w);
    } else {
      QuietSwap(s, w);
      RestoreIsExact(Replaced(Staged(s, w), w.env).0, w.restoreMoved, w.restoreReached);
    }
    RecordMovesOnlyAfterChecks(s, r, approved, w);
  }

  // --------------------------------------------------------------------
  // Whole runs
  // --------------------------------------------------------------------

  datatype Attempt = Attempt(release: Release, approved: bool, world: World)

  function Run(s: State, attempts: seq<Attempt>): State
    decreases |attempts|
  {
    if attempts == [] then s
    else
      var a := attempts[|attempts| - 1];
      Applied(Run(s, attempts[..|attempts| - 1]), a.release, a.approved, a.world).0
  }

  /** The stored record always is the one in memory. */
  lemma {:induction false} StoreAgrees(s: State, attempts: seq<Attempt>)
    requires s.stored == s.inst
    ensures Run(s, attempts).stored == Run(s, attempts).inst
    decreases |attempts|
  {
    if attempts != [] {
      StoreAgrees(s, attempts[..|attempts| - 1]);
    }
  }

  /** Without rollback releases the recorded sequence never falls, in any run. */
  lemma {:induction false} SequenceNeverFalls(s: State, attempts: seq<Attempt>, n: nat)
    requires n <= |attempts|
    requires forall i | 0 <= i < |attempts| :: !attempts[i].release.rollback
    ensures Run(s, attempts[..n]).inst.sequence <= Run(s, attempts).inst.sequence
    decreases |attempts|
  {
    if n == |attempts| {
      assert attempts[..n] == attempts;
    } else {
      var before := attempts[..|attempts| - 1];
      assert before[..n] == attempts[..n];
      SequenceNeverFalls(s, before, n);
      var a := attempts[|attempts| - 1];
      RecordMovesOnlyAfterChecks(Run(s, before), a.release, a.approved, a.world);
    }
  }

  /** Where a file may come from: the two trees there at the start, or an archive that passed every check. */
  ghost predicate Known(s: State, attempts: seq<Attempt>, p: Path, c: Content) {
    || FileOf(s.folders.active, p, c)
    || FileOf(s.folders.rollback, p, c)
    || exists i | 0 <= i < |attempts| :: Delivers(attempts[i], p, c)
  }

  predicate FileOf(t: Option<Tree>, p: Path, c: Content) {
    t.Some? && p in t.value && t.value[p] == c
  }

  predicate Delivers(a: Attempt, p: Path, c: Content) {
    && a.release.signed && a.release.agentSupported && (a.release.requiresApproval ==> a.approved)
    && Sound(a.world) && FileOf(Some(a.world.archive), p, c)
  }

  lemma RestoreInventsNothing(f: Folders, locked: set<Path>, moved: bool, reached: set<Path>, p: Path, c: Content)
    ensures var g := Restored(f, locked, moved, reached).0;
      && (FileOf(g.active, p, c) ==> FileOf(f.active, p, c) || FileOf(f.rollback, p, c))
      && g.rollback == f.rollback
  {
  }

  lemma ApplyInventsNothing(s: State, a: Attempt, p: Path, c: Content)
    ensures var t := Applied(s, a.release, a.approved, a.world).0;
      FileOf(t.folders.active, p, c) || FileOf(t.folders.rollback, p, c) ==>
        FileOf(s.folders.active, p, c) || FileOf(s.folders.rollback, p, c) || Delivers(a, p, c)
  {
    var w := a.world;
    if ReachesSwap(s.inst, a.release, a.approved, w) {
      RestoreInventsNothing(Replaced(Staged(s, w), w.env).0, w.restoreLocked, w.restoreMoved, w.restoreReached, p, c);
    } else if Admitted(s.inst, a.release, a.approved) && FailsBeforeSwap(w) {
      RestoreInventsNothing(s.folders, w.restoreLocked, w.restoreMoved, w.restoreReached, p, c);
      RestoreInventsNothing(
        s.folders.(staging := Some(w.extracted)), w.restoreLocked, w.restoreMoved, w.restoreReached, p, c);
    } else {
      RefusalKeepsFolders(s, a.release, a.approved, w);
    }
  }

  /**
   Whatever is held open, renamed or interrupted, in any run: every active file and every
   snapshot file has the content it had at the start or in an archive that passed every check.
   */
  lemma {:induction false} NoForeignFiles(s: State, attempts: seq<Attempt>, p: Path, c: Content)
    requires FileOf(Run(s, attempts).folders.active, p, c) || FileOf(Run(s, attempts).folders.rollback, p, c)
    ensures Known(s, attempts, p, c)
    decreases |attempts|
  {
    if attempts != [] {
      var before, a := attempts[..|attempts| - 1], attempts[|attempts| - 1];
      ApplyInventsNothing(Run(s, before), a, p, c);
      if !Delivers(a, p, c) {
        NoForeignFiles(s, before, p, c);
        if i :| 0 <= i < |before| && Delivers(before[i], p, c) {
          assert Delivers(attempts[i], p, c);
        }
      } else {
        assert Delivers(attempts[|attempts| - 1], p, c);
      }
    }
  }

  ghost predicate WholeTree(s: State, attempts: seq<Attempt>, tree: Option<Tree>) {
    || tree == s.folders.active
    || tree == s.folders.rollback
    || exists i | 0 <= i < |attempts| :: tree == Some(attempts[i].world.archive) && Sound(attempts[i].world)
  }

  ghost predicate QuietRun(s: State, attempts: seq<Attempt>) {
    forall i | 0 <= i < |attempts| :: QuietDisk(Run(s, attempts[..i]), attempts[i].world)
  }

  /** In any run on a quiet disk, whatever fails, the active tree is whole: never a mixture. */
  lemma {:induction false} ActiveIsWholeInAnyRun(s: State, attempts: seq<Attempt>)
    requires QuietRun(s, attempts)
    ensures WholeTree(s, attempts, Run(s, attempts).folders.active)
    ensures WholeTree(s, attempts, Run(s, attempts).folders.rollback)
    decreases |attempts|
  {
    if attempts != [] {
      var n := |attempts| - 1;
      var before, a := attempts[..n], attempts[n];
      QuietBefore(s, attempts);
      ActiveIsWholeInAnyRun(s, before);
      ActiveIsWhole(Run(s, before), a.release, a.approved, a.world);
    }
  }

  /** The label that stands after a run that began with `l`. */
  function LabelAfter(l: Label, s: State, attempts: seq<Attempt>): Label
    decreases |attempts|
  {
    if attempts == [] then l
    else
      var n := |attempts| - 1;
      var a := attempts[n];
      Relabelled(LabelAfter(l, s, attempts[..n]), Run(s, attempts[..n]), a.release, a.approved, a.world)
  }

  predicate LabelRight(l: Label, s: State, attempts: seq<Attempt>) {
    Run(s, attempts).folders.active == LabelAfter(l, s, attempts).tree
  }

  predicate MislabelsAt(s: State, attempts: seq<Attempt>, i: int)
    requires 0 <= i < |attempts|
  {
    Mislabels(Run(s, attempts[..i]), attempts[i].release, attempts[i].approved, attempts[i].world)
  }

  /** In any run on a quiet disk the installation records the label, and its last attempt decides whether that is right. */
  lemma {:induction false} LastAttemptDecidesLabel(l: Label, s: State, attempts: seq<Attempt>)
    requires QuietRun(s, attempts) && Records(s.inst, l)
    ensures Records(Run(s, attempts).inst, LabelAfter(l, s, attempts))
    ensures attempts != [] ==>
      var n := |attempts| - 1; var a := attempts[n]; var before := attempts[..n];
      && (LabelRight(l, s, attempts)
          <==> RightAfter(LabelAfter(l, s, before), Run(s, before), a.release, a.approved, a.world))
      && (LabelRight(l, s, before) ==> (LabelRight(l, s, attempts) <==> !MislabelsAt(s, attempts, n)))
    decreases |attempts|
  {
    if attempts != [] {
      var n := |attempts| - 1;
      var before, a := attempts[..n], attempts[n];
      QuietBefore(s, attempts);
      LastAttemptDecidesLabel(l, s, before);
      LabelIsRightIff(LabelAfter(l, s, before), Run(s, before), a.release, a.approved, a.world);
    }
  }

  predicate AlwaysRight(l: Label, s: State, attempts: seq<Attempt>) {
    forall n | 0 <= n <= |attempts| :: LabelRight(l, s, attempts[..n])
  }

  predicate NoneMislabels(s: State, attempts: seq<Attempt>) {
    forall i | 0 <= i < |attempts| :: !MislabelsAt(s, attempts, i)
  }

  lemma AlwaysRightStep(l: Label, s: State, attempts: seq<Attempt>)
    requires attempts != []
    ensures AlwaysRight(l, s, attempts) <==> AlwaysRight(l, s, attempts[..|attempts| - 1]) && LabelRight(l, s, attempts)
  {
    var before := attempts[..|attempts| - 1];
    assert attempts[..|attempts|] == attempts;
    forall n | 0 <= n < |attempts| ensures before[..n] == attempts[..n] {
    }
  }

  lemma NoneMislabelsStep(s: State, attempts: seq<Attempt>)
    requires attempts != []
    ensures NoneMislabels(s, attempts)
       <==> NoneMislabels(s, attempts[..|attempts| - 1]) && !MislabelsAt(s, attempts, |attempts| - 1)
  {
    var before := attempts[..|attempts| - 1];
    forall i | 0 <= i < |before| ensures MislabelsAt(s, before, i) == MislabelsAt(s, attempts, i) {
      assert before[..i] == attempts[..i];
    }
  }

  lemma QuietBefore(s: State, attempts: seq<Attempt>)
    requires QuietRun(s, attempts) && attempts != []
    ensures QuietRun(s, attempts[..|attempts| - 1])
  {
    var before := attempts[..|attempts| - 1];
    forall i | 0 <= i < |before| ensures QuietDisk(Run(s, before[..i]), before[i].world) {
      assert before[..i] == attempts[..i];
    }
  }

  /** The recorded version is that of the active tree throughout a run exactly when no attempt mislabels. */
  lemma {:induction false} LabelAlwaysRightIff(l: Label, s: State, attempts: seq<Attempt>)
    requires QuietRun(s, attempts) && Records(s.inst, l) && s.folders.active == l.tree
    ensures AlwaysRight(l, s, attempts) <==> NoneMislabels(s, attempts)
    decreases |attempts|
  {
    if attempts != [] {
      var before := attempts[..|attempts| - 1];
      QuietBefore(s, attempts);
      LabelAlwaysRightIff(l, s, before);
      LastAttemptDecidesLabel(l, s, attempts);
      AlwaysRightStep(l, s, attempts);
      NoneMislabelsStep(s, attempts);
      if AlwaysRight(l, s, before) {
        LastIsRight(l, s, before);
      }
    }
  }

  lemma LastIsRight(l: Label, s: State, attempts: seq<Attempt>)
    requires AlwaysRight(l, s, attempts)
    ensures LabelRight(l, s, attempts)
  {
    assert attempts[..|attempts|] == attempts;
  }
}
