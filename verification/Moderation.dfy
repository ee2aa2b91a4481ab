/**
 The stored posts and their moderation: the admin operations of
 apps/guess/src/admin/moderation-repository.ts and the importer's writes of
 apps/guess/src/importer/repository.ts, in any mix. Each operation is one atomic step.
 */
module Moderation {
  import opened Options

  type PostId = int
  type Content = int
  type Hash = int
  type AdminId = int

  datatype Status = Pending | Approved | Rejected | NeedsReview

  datatype Row = Row(
    raw: Content, hash: Hash, clean: Option<Content>, status: Status, version: int, diverged: bool)

  datatype Revision = Revision(post: PostId, previous: Option<Content>, editor: AdminId)

  type Rows = map<PostId, Row>

  datatype Action =
    | Insert(post: PostId, raw: Content, hash: Hash, clean: Content, flagged: bool)
    | MarkDiverged(post: PostId)
    | Approve(post: PostId, expected: int)
    | Reject(post: PostId, expected: int)
    | Edit(post: PostId, text: Content, expected: int, editor: AdminId)

  datatype Answer = Done | NotFound | Conflict(current: int) | AlreadyKnown

  /** An operation of an admin, made with the version the admin last read. */
  predicate IsModeration(act: Action) {
    act.Approve? || act.Reject? || act.Edit?
  }

  function Verdict(rows: Rows, act: Action): Answer {
    match act
    case Insert(post, _, _, _, _) => if post in rows then AlreadyKnown else Done
    case MarkDiverged(post) => if post in rows then Done else NotFound
    case _ =>
      if act.post !in rows then NotFound
      else if rows[act.post].version != act.expected then Conflict(rows[act.post].version)
      else Done
  }

  function Inserted(raw: Content, hash: Hash, clean: Content, flagged: bool): Row {
    Row(raw, hash, Some(clean), if flagged then NeedsReview else Pending, 0, false)
  }

  function Diverged(row: Row): Row {
    row.(diverged := true, status := if row.status == Approved then NeedsReview else row.status)
  }

  /** The row after an accepted operation. */
  function Changed(rows: Rows, act: Action): Row
    requires Verdict(rows, act) == Done
  {
    match act
    case Insert(_, raw, hash, clean, flagged) => Inserted(raw, hash, clean, flagged)
    case MarkDiverged(post) => Diverged(rows[post])
    case Approve(post, _) => rows[post].(status := Approved, version := rows[post].version + 1)
    case Reject(post, _) => rows[post].(status := Rejected, version := rows[post].version + 1)
    case Edit(post, text, _, _) => rows[post].(clean := Some(text), version := rows[post].version + 1)
  }

  class Repository {
    var rows: Rows
    var revisions: seq<Revision>

    constructor ()
      ensures rows == map[] && revisions == []
    {
      rows, revisions := map[], [];
    }

    method ApprovePost(post: PostId, expected: int) returns (a: Answer)
      modifies this`rows
      ensures a == Verdict(old(rows), Approve(post, expected))
      ensures rows == if a == Done then old(rows)[post := Changed(old(rows), Approve(post, expected))] else old(rows)
    {
      if post !in rows {
        return NotFound;
      }
      if rows[post].version != expected {
        return Conflict(rows[post].version);
      }
      var row := rows[post];
      row := row.(status := Approved);
      row := row.(version := row.version + 1);
      rows := rows[post := row];
      a := Done;
    }

    method RejectPost(post: PostId, expected: int) returns (a: Answer)
      modifies this`rows
      ensures a == Verdict(old(rows), Reject(post, expected))
      ensures rows == if a == Done then old(rows)[post := Changed(old(rows), Reject(post, expected))] else old(rows)
    {
      if post !in rows {
        return NotFound;
      }
      if rows[post].version != expected {
        return Conflict(rows[post].version);
      }
      var row := rows[post];
      row := row.(status := Rejected);
      row := row.(version := row.version + 1);
      rows := rows[post := row];
      a := Done;
    }

    method EditCleanContent(post: PostId, text: Content, expected: int, editor: AdminId) returns (a: Answer)
      modifies this
      ensures a == Verdict(old(rows), Edit(post, text, expected, editor))
      ensures a == Done ==>
        && rows == old(rows)[post := Changed(old(rows), Edit(post, text, expected, editor))]
        && revisions == old(revisions) + [Revision(post, old(rows)[post].clean, editor)]
      ensures a != Done ==> rows == old(rows) && revisions == old(revisions)
    {
      if post !in rows {
        return NotFound;
      }
      if rows[post].version != expected {
        return Conflict(rows[post].version);
      }
      var row := rows[post];
      revisions := revisions + [Revision(post, row.clean, editor)];
      row := row.(clean := Some(text));
      row := row.(version := row.version + 1);
      rows := rows[post := row];
      a := Done;
    }

    /** Never an upsert: a known post is the caller's mistake. */
    method InsertForumPost(post: PostId, raw: Content, hash: Hash, clean: Content, flagged: bool) returns (a: Answer)
      modifies this`rows
      ensures a == Verdict(old(rows), Insert(post, raw, hash, clean, flagged))
      ensures rows == if a == Done then old(rows)[post := Inserted(raw, hash, clean, flagged)] else old(rows)
    {
      if post in rows {
        return AlreadyKnown;
      }
      rows := rows[post := Row(raw, hash, Some(clean), if flagged then NeedsReview else Pending, 0, false)];
      a := Done;
    }

    method MarkSourceDiverged(post: PostId) returns (a: Answer)
      modifies this`rows
      ensures a == Verdict(old(rows), Action.MarkDiverged(post))
      ensures rows == if a == Done then old(rows)[post := Diverged(old(rows)[post])] else old(rows)
    {
      if post !in rows {
        return NotFound;
      }
      var row := rows[post].(diverged := true);
      if row.status == Approved {
        row := row.(status := NeedsReview);
      }
      rows := rows[post := row];
      a := Done;
    }
  }

  // --------------------------------------------------------------------
  // Runs
  // --------------------------------------------------------------------

  datatype State = State(rows: Rows, revisions: seq<Revision>)

  function Next(s: State, act: Action): State {
    if Verdict(s.rows, act) != Done then s
    else
      State(s.rows[act.post := Changed(s.rows, act)],
            if act.Edit? then s.revisions + [Revision(act.post, s.rows[act.post].clean, act.editor)] else s.revisions)
  }

  const EMPTY := State(map[], [])

  /** The state after operations, accepted or not, one after the other. */
  function After(acts: seq<Action>): State {
    if acts == [] then EMPTY else Next(After(acts[..|acts| - 1]), acts[|acts| - 1])
  }

  /** Whether the i-th operation was accepted, and concerned the post. */
  predicate Accepted(acts: seq<Action>, i: int, post: PostId) {
    0 <= i < |acts| && acts[i].post == post && Verdict(After(acts[..i]).rows, acts[i]) == Done
  }

  lemma AcceptedBefore(acts: seq<Action>, n: int, i: int, post: PostId)
    requires 0 <= i < n <= |acts|
    ensures Accepted(acts[..n], i, post) <==> Accepted(acts, i, post)
  {
    assert acts[..n][..i] == acts[..i];
  }

  /** Raw content and its hash never change, a known post stays known, and versions never fall. */
  lemma {:induction false} RawContentIsImmutable(acts: seq<Action>, n: int, post: PostId)
    requires 0 <= n <= |acts| && post in After(acts[..n]).rows
    ensures var before, after := After(acts[..n]).rows, After(acts).rows;
      && post in after && after[post].raw == before[post].raw && after[post].hash == before[post].hash
      && after[post].version >= before[post].version
      && (before[post].diverged ==> after[post].diverged)
    decreases |acts|
  {
    if n == |acts| {
      assert acts[..n] == acts;
    } else {
      var init := acts[..|acts| - 1];
      assert init[..n] == acts[..n];
      RawContentIsImmutable(init, n, post);
    }
  }

  // Versions

  /** How many operations of admins on the post were accepted. */
  function Moderations(acts: seq<Action>, post: PostId): int {
    if acts == [] then 0
    else
      var n := |acts| - 1;
      Moderations(acts[..n], post) + if Accepted(acts, n, post) && IsModeration(acts[n]) then 1 else 0
  }

  /** A post's version is exactly how many operations of admins on it were accepted. */
  lemma {:induction false} VersionCountsModerations(acts: seq<Action>, post: PostId)
    ensures post in After(acts).rows ==> After(acts).rows[post].version == Moderations(acts, post)
    ensures post !in After(acts).rows ==> Moderations(acts, post) == 0
  {
    if acts != [] {
      VersionCountsModerations(acts[..|acts| - 1], post);
    }
  }

  lemma {:induction false} ModerationsGrow(acts: seq<Action>, i: int, post: PostId)
    requires Accepted(acts, i, post) && IsModeration(acts[i])
    ensures Moderations(acts[..i], post) < Moderations(acts, post)
    decreases |acts|
  {
    var n := |acts| - 1;
    if i < n {
      AcceptedBefore(acts, n, i, post);
      ModerationsGrow(acts[..n], i, post);
      assert acts[..n][..i] == acts[..i];
    }
  }

  /** Of several admins acting on the version they all read, at most one is accepted. */
  lemma OneWinnerPerVersion(acts: seq<Action>, i: int, j: int, post: PostId)
    requires Accepted(acts, i, post) && Accepted(acts, j, post) && i < j
    requires IsModeration(acts[i]) && IsModeration(acts[j])
    ensures acts[i].expected < acts[j].expected
  {
    VersionCountsModerations(acts[..i], post);
    VersionCountsModerations(acts[..j], post);
    AcceptedBefore(acts, j, i, post);
    ModerationsGrow(acts[..j], i, post);
    assert acts[..j][..i] == acts[..i];
  }

  // Edit history

  /** Every clean text the post ever had, in order. */
  function Texts(acts: seq<Action>, post: PostId): seq<Option<Content>> {
    if acts == [] then []
    else
      var n := |acts| - 1;
      var before := Texts(acts[..n], post);
      if !Accepted(acts, n, post) then before
      else if acts[n].Insert? then [Some(acts[n].clean)]
      else if acts[n].Edit? then before + [Some(acts[n].text)]
      else before
  }

  /** The texts the post's revisions captured, in order. */
  function Captured(revisions: seq<Revision>, post: PostId): seq<Option<Content>> {
    if revisions == [] then []
    else
      var n := |revisions| - 1;
      if revisions[n].post == post then Captured(revisions[..n], post) + [revisions[n].previous]
      else Captured(revisions[..n], post)
  }

  lemma CapturedNext(revisions: seq<Revision>, r: Revision, post: PostId)
    ensures Captured(revisions + [r], post) == if r.post == post then Captured(revisions, post) + [r.previous] else Captured(revisions, post)
  {
    assert (revisions + [r])[..|revisions|] == revisions;
  }

  /** A post's revisions followed by its current clean text are its full edit history. */
  lemma {:induction false} RevisionsAreTheHistory(acts: seq<Action>, post: PostId)
    ensures post in After(acts).rows ==>
      Captured(After(acts).revisions, post) + [After(acts).rows[post].clean] == Texts(acts, post)
    ensures post !in After(acts).rows ==> Captured(After(acts).revisions, post) == [] && Texts(acts, post) == []
  {
    if acts != [] {
      var n := |acts| - 1;
      var before, act := After(acts[..n]), acts[n];
      RevisionsAreTheHistory(acts[..n], post);
      if Verdict(before.rows, act) == Done && act.Edit? {
        CapturedNext(before.revisions, Revision(act.post, before.rows[act.post].clean, act.editor), post);
      }
    }
  }

  // Approval

  /** The operation makes a post that was approved unapproved. */
  predicate Withdraws(act: Action) {
    act.Reject? || act.MarkDiverged?
  }

  /** An approval was accepted, and no rejection or detected divergence after it. */
  ghost predicate StandsApproved(acts: seq<Action>, post: PostId) {
    exists i :: Accepted(acts, i, post) && acts[i].Approve? && NotWithdrawn(acts, i, post)
  }

  ghost predicate NotWithdrawn(acts: seq<Action>, i: int, post: PostId) {
    forall j | i < j < |acts| :: Accepted(acts, j, post) ==> !Withdraws(acts[j])
  }

  lemma StandsBefore(acts: seq<Action>, post: PostId)
    requires acts != []
    requires Accepted(acts, |acts| - 1, post) ==> !Withdraws(acts[|acts| - 1])
    requires Accepted(acts, |acts| - 1, post) ==> !acts[|acts| - 1].Approve?
    ensures StandsApproved(acts[..|acts| - 1], post) <==> StandsApproved(acts, post)
  {
    var n := |acts| - 1;
    var init := acts[..n];
    if StandsApproved(init, post) {
      var i :| Accepted(init, i, post) && init[i].Approve? && NotWithdrawn(init, i, post);
      AcceptedBefore(acts, n, i, post);
      forall j | i < j < |acts| && Accepted(acts, j, post) ensures !Withdraws(acts[j]) {
        if j < n {
          AcceptedBefore(acts, n, j, post);
        }
      }
      assert NotWithdrawn(acts, i, post);
    }
    if StandsApproved(acts, post) {
      var i :| Accepted(acts, i, post) && acts[i].Approve? && NotWithdrawn(acts, i, post);
      AcceptedBefore(acts, n, i, post);
      forall j | i < j < n && Accepted(init, j, post) ensures !Withdraws(init[j]) {
        AcceptedBefore(acts, n, j, post);
      }
      assert NotWithdrawn(init, i, post);
    }
  }

  lemma NothingBeforeInsert(acts: seq<Action>, post: PostId)
    requires post !in After(acts).rows
    ensures !StandsApproved(acts, post)
    decreases |acts|
  {
    if StandsApproved(acts, post) {
      var i :| Accepted(acts, i, post) && acts[i].Approve? && NotWithdrawn(acts, i, post);
      assert post in After(acts[..i]).rows;
      RawContentIsImmutable(acts, i, post);
    }
  }

  lemma WithdrawnNow(acts: seq<Action>, post: PostId)
    requires acts != [] && Accepted(acts, |acts| - 1, post) && Withdraws(acts[|acts| - 1])
    ensures !StandsApproved(acts, post)
  {
    forall i | Accepted(acts, i, post) && acts[i].Approve? ensures !NotWithdrawn(acts, i, post) {
      assert i < |acts| - 1;
    }
  }

  /** A post is approved exactly when an approval of it was not followed by a rejection or a detected divergence. */
  lemma {:induction false} ApprovedIff(acts: seq<Action>, post: PostId)
    requires post in After(acts).rows
    ensures After(acts).rows[post].status == Approved <==> StandsApproved(acts, post)
    decreases |acts|
  {
    var n := |acts| - 1;
    var init, act := acts[..n], acts[n];
    if !Accepted(acts, n, post) {
      assert post in After(init).rows;
      ApprovedIff(init, post);
      StandsBefore(acts, post);
    } else if act.Approve? {
      assert NotWithdrawn(acts, n, post);
    } else if Withdraws(act) {
      WithdrawnNow(acts, post);
    } else if act.Edit? {
      ApprovedIff(init, post);
      StandsBefore(acts, post);
    } else {
      NothingBeforeInsert(init, post);
      StandsBefore(acts, post);
    }
  }

  /**
   What the version does not protect against: a divergence detected after an admin read the post leaves the
   version as it was, so the admin's approval is still accepted; and an edit of an approved post stays approved.
   */
  lemma ApprovalIsNotReviewOfTheText(s: State, post: PostId, text: Content, editor: AdminId)
    requires post in s.rows
    ensures var v := s.rows[post].version;
      && Verdict(Next(s, MarkDiverged(post)).rows, Approve(post, v)) == Done
      && Next(Next(s, MarkDiverged(post)), Approve(post, v)).rows[post].status == Approved
      && (s.rows[post].status == Approved ==>
            var t := Next(s, Edit(post, text, v, editor)).rows[post]; t.status == Approved && t.clean == Some(text))
  {
  }

  // Status

  /** The insert, or the last decision of an admin, that the status goes back to. */
  ghost predicate LastDecided(acts: seq<Action>, i: int, post: PostId) {
    && Accepted(acts, i, post) && (acts[i].Insert? || acts[i].Approve? || acts[i].Reject?)
    && forall j | i < j < |acts| && Accepted(acts, j, post) :: !acts[j].Insert? && !acts[j].Approve? && !acts[j].Reject?
  }

  ghost predicate DivergedAfter(acts: seq<Action>, i: int, post: PostId) {
    exists j :: i < j && Accepted(acts, j, post) && acts[j].MarkDiverged?
  }

  ghost function StatusSince(acts: seq<Action>, i: int, post: PostId): Status
    requires 0 <= i < |acts|
  {
    match acts[i]
    case Insert(_, _, _, _, flagged) => if flagged then NeedsReview else Pending
    case Reject(_, _) => Rejected
    case _ => if DivergedAfter(acts, i, post) then NeedsReview else Approved
  }

  lemma DivergedNext(acts: seq<Action>, i: int, post: PostId)
    requires acts != [] && i < |acts| - 1
    ensures DivergedAfter(acts, i, post)
       <==> || DivergedAfter(acts[..|acts| - 1], i, post)
            || (Accepted(acts, |acts| - 1, post) && acts[|acts| - 1].MarkDiverged?)
  {
    var n := |acts| - 1;
    if DivergedAfter(acts, i, post) {
      var j :| i < j && Accepted(acts, j, post) && acts[j].MarkDiverged?;
      if j < n {
        AcceptedBefore(acts, n, j, post);
        assert Accepted(acts[..n], j, post) && acts[..n][j].MarkDiverged?;
      }
    }
    if DivergedAfter(acts[..n], i, post) {
      var j :| i < j && Accepted(acts[..n], j, post) && acts[..n][j].MarkDiverged?;
      AcceptedBefore(acts, n, j, post);
    }
  }

  lemma StillLastDecided(acts: seq<Action>, i: int, post: PostId)
    requires acts != [] && LastDecided(acts[..|acts| - 1], i, post)
    requires Accepted(acts, |acts| - 1, post) ==> acts[|acts| - 1].Edit? || acts[|acts| - 1].MarkDiverged?
    ensures LastDecided(acts, i, post)
  {
    var n := |acts| - 1;
    AcceptedBefore(acts, n, i, post);
    forall j | i < j < |acts| && Accepted(acts, j, post)
      ensures !acts[j].Insert? && !acts[j].Approve? && !acts[j].Reject?
    {
      if j < n {
        AcceptedBefore(acts, n, j, post);
        assert acts[..n][j] == acts[j];
      }
    }
  }

  lemma NothingToMark(acts: seq<Action>, post: PostId)
    requires post !in After(acts).rows
    ensures !DivergedAfter(acts, -1, post)
  {
    if DivergedAfter(acts, -1, post) {
      var j :| -1 < j && Accepted(acts, j, post) && acts[j].MarkDiverged?;
      RawContentIsImmutable(acts, j, post);
    }
  }

  /**
   A post's status goes back to its insert, flagged or not, or to the last decision on it: rejected, or approved unless
   a divergence was detected since. And it is marked exactly when one ever was.
   */
  lemma {:induction false} StatusIs(acts: seq<Action>, post: PostId) returns (i: int)
    requires post in After(acts).rows
    ensures LastDecided(acts, i, post) && After(acts).rows[post].status == StatusSince(acts, i, post)
    ensures After(acts).rows[post].diverged <==> DivergedAfter(acts, -1, post)
    decreases |acts|
  {
    var n := |acts| - 1;
    var init := acts[..n];
    DivergedNext(acts, -1, post);
    if !Accepted(acts, n, post) || acts[n].Edit? || acts[n].MarkDiverged? {
      i := StatusIs(init, post);
      StillLastDecided(acts, i, post);
      DivergedNext(acts, i, post);
    } else {
      i := n;
      if acts[n].Insert? {
        NothingToMark(init, post);
      } else {
        var _ := StatusIs(init, post);
      }
    }
  }
}
