/**
 One run of the forum importer (apps/guess/src/importer/run-import.ts).

 The forum's answers, the clock, and which repository calls throw are arbitrary: `recent` and
 `detail` give None where the client throws, and `fails` says it of the k-th repository call.
 Sanitising, hashing and the quality rules are arbitrary functions of a post's content.
 */
module Importer {
  import opened Options
  import opened Moderation

  type Uid = int
  type UserId = int

  datatype ForumPost = ForumPost(pid: PostId, uid: Uid, content: Content)

  datatype Client = Client(
    recent: int -> Option<seq<int>>,             // topic ids of a page
    detail: int -> Option<seq<ForumPost>>)       // posts of the topic asked for by the k-th detail request

  /** The topics listed on a page, or None where the request throws. */
  function RecentTopics(client: Client, page: int): Option<seq<int>> {
    client.recent(page)
  }

  /** What the k-th request for a topic's posts answers. */
  function TopicDetail(client: Client, k: int): Option<seq<ForumPost>> {
    client.detail(k)
  }

  datatype Rules = Rules(sha: Content -> Hash, sanitize: Content -> Content, flagged: Content -> bool)

  datatype Budgets = Budgets(maxTopics: int, maxPosts: int, maxPages: int, maxDuration: int)

  datatype Counters = Counters(fetched: int, added: int, updated: int, users: int)

  datatype RunStatus = Success | PartialFailure | Failed

  datatype StopReason = Completed | BudgetTopics | BudgetPosts | BudgetPages | BudgetDuration | FatalError

  datatype Error = NoRunRecord | PostFailed(pid: PostId) | TopicFailed(tid: int) | Fatal | StatsRefresh

  datatype Summary = Summary(
    created: bool, status: RunStatus, topics: int, fetched: int, added: int, diverged: int,
    users: int, pages: int, stopped: StopReason, errors: seq<Error>)

  const PAGE_SIZE := 20

  // --------------------------------------------------------------------
  // The repository
  // --------------------------------------------------------------------

  class ForumRepository {
    const fails: int -> bool
    var calls: int
    var rows: Rows
    var users: map<Uid, UserId>
    var counters: Counters
    var cursor: int
    var finishCalls: int
    var finished: seq<RunStatus>

    constructor (fails: int -> bool, rows: Rows, users: map<Uid, UserId>)
      ensures this.rows == rows && this.users == users && this.fails == fails
      ensures finishCalls == 0 && finished == []
    {
      this.fails, this.rows, this.users := fails, rows, users;
      calls, counters, cursor, finishCalls, finished := 0, Counters(0, 0, 0, 0), 0, 0, [];
    }

    /** Every call may throw; one that does changes nothing. */
    method Call() returns (ok: bool)
      modifies this`calls
    {
      ok := !fails(calls);
      calls := calls + 1;
    }

    method CreateImportRun() returns (ok: bool)
      modifies this`calls, this`counters
      ensures ok ==> counters == Counters(0, 0, 0, 0)
    {
      ok := Call();
      if ok {
        counters := Counters(0, 0, 0, 0);
      }
    }

    method UpsertForumUser(uid: Uid, newId: UserId) returns (ok: bool, id: UserId)
      modifies this`calls, this`users
      ensures ok ==> uid in users && id == users[uid]
      ensures users == if ok && uid !in old(users) then old(users)[uid := newId] else old(users)
    {
      ok := Call();
      id := newId;
      if ok {
        if uid in users {
          id := users[uid];
        } else {
          users := users[uid := newId];
        }
      }
    }

    method FindForumPost(pid: PostId) returns (ok: bool, found: Option<Row>)
      modifies this`calls
      ensures ok ==> found == if pid in rows then Some(rows[pid]) else None
    {
      ok := Call();
      found := if pid in rows then Some(rows[pid]) else None;
    }

    method InsertForumPost(pid: PostId, row: Row) returns (ok: bool)
      requires pid !in rows
      modifies this`calls, this`rows
      ensures rows == if ok then old(rows)[pid := row] else old(rows)
    {
      ok := Call();
      if ok {
        rows := rows[pid := row];
      }
    }

    method MarkSourceDiverged(pid: PostId) returns (ok: bool)
      requires pid in rows
      modifies this`calls, this`rows
      ensures rows == if ok then old(rows)[pid := Diverged(old(rows)[pid])] else old(rows)
    {
      ok := Call();
      if ok {
        rows := rows[pid := Diverged(rows[pid])];
      }
    }

    method IncrementCounters(delta: Counters) returns (ok: bool)
      modifies this`calls, this`counters
      ensures counters == if ok then Plus(old(counters), delta) else old(counters)
    {
      ok := Call();
      if ok {
        counters := Plus(counters, delta);
      }
    }

    method SetCursor(page: int) returns (ok: bool)
      modifies this`calls, this`cursor
    {
      ok := Call();
      if ok {
        cursor := page;
      }
    }

    method FinishImportRun(status: RunStatus) returns (ok: bool)
      modifies this`calls, this`finishCalls, this`finished
      ensures finishCalls == old(finishCalls) + 1
      ensures finished == if ok then old(finished) + [status] else old(finished)
    {
      ok := Call();
      finishCalls := finishCalls + 1;
      if ok {
        finished := finished + [status];
      }
    }
  }

  function Plus(a: Counters, b: Counters): Counters {
    Counters(a.fetched + b.fetched, a.added + b.added, a.updated + b.updated, a.users + b.users)
  }

  // --------------------------------------------------------------------
  // One post
  // --------------------------------------------------------------------

  datatype Imported = Imported(isNew: bool, diverged: bool, newUser: bool, user: UserId)

  /** What the stored posts become when the importer meets a post and nothing throws. */
  function Met(rows: Rows, post: ForumPost, rules: Rules): Rows {
    if post.pid !in rows then
      rows[post.pid := Inserted(post.content, rules.sha(post.content), rules.sanitize(post.content), rules.flagged(post.content))]
    else if rows[post.pid].hash != rules.sha(post.content) then rows[post.pid := Diverged(rows[post.pid])]
    else rows
  }

  method ImportOnePost(repo: ForumRepository, post: ForumPost, rules: Rules, touched: set<Uid>, newId: UserId)
    returns (result: Option<Imported>, touchedAfter: set<Uid>)
    modifies repo`calls, repo`rows, repo`users
    ensures touchedAfter == touched + {post.uid}
    ensures result.None? ==> repo.rows == old(repo.rows)
    ensures result.Some? ==>
      && repo.rows == Met(old(repo.rows), post, rules)
      && result.value.isNew == (post.pid !in old(repo.rows))
      && result.value.diverged == (post.pid in old(repo.rows) && old(repo.rows)[post.pid].hash != rules.sha(post.content))
      && result.value.newUser == (post.uid !in touched)
  {
    var isNew := post.uid !in touched;
    touchedAfter := touched + {post.uid};
    var ok, user := repo.UpsertForumUser(post.uid, newId);
    if !ok {
      return None, touchedAfter;
    }
    var hash := rules.sha(post.content);
    var found, existing := repo.FindForumPost(post.pid);
    if !found {
      return None, touchedAfter;
    }
    if existing.Some? {
      if existing.value.hash != hash {
        ok := repo.MarkSourceDiverged(post.pid);
        result := if ok then Some(Imported(false, true, isNew, user)) else None;
        return;
      }
      return Some(Imported(false, false, isNew, user)), touchedAfter;
    }
    ok := repo.InsertForumPost(post.pid, Inserted(post.content, hash, rules.sanitize(post.content), rules.flagged(post.content)));
    result := if ok then Some(Imported(true, false, isNew, user)) else None;
  }

  // --------------------------------------------------------------------
  // What a run keeps
  // --------------------------------------------------------------------

  function AtLeastZero(n: int): int {
    if n < 0 then 0 else n
  }

  predicate WithinBudgets(s: Summary, b: Budgets) {
    && 0 <= s.pages <= AtLeastZero(b.maxPages)
    && 0 <= s.topics <= AtLeastZero(b.maxTopics)
    && 0 <= s.fetched <= AtLeastZero(b.maxPosts)
  }

  /** Counts agree with each other and with the users met. */
  predicate Consistent(s: Summary, touched: set<Uid>) {
    && 0 <= s.added && 0 <= s.diverged && s.added + s.diverged <= s.fetched && 0 <= s.users <= |touched|
    && (s.errors == [] ==> s.users == |touched|)
  }

  /** The stored counters never run ahead of the summary, and lag behind only after an error. */
  predicate Stored(c: Counters, s: Summary) {
    && 0 <= c.fetched <= s.fetched && 0 <= c.added <= s.added && 0 <= c.updated <= s.diverged && 0 <= c.users <= s.users
    && (s.errors == [] ==> c == Counters(s.fetched, s.added, s.diverged, s.users))
  }

  /** Posts stay, with their raw content, text and version; an import approves nothing, and divergence only withdraws. */
  predicate KeptRow(before: Row, after: Row) {
    && after.raw == before.raw && after.hash == before.hash && after.clean == before.clean && after.version == before.version
    && (after == before || after == Diverged(before))
  }

  predicate KeptRows(before: Rows, after: Rows) {
    && (forall p | p in before :: p in after && KeptRow(before[p], after[p]))
    && (forall p | p in after && p !in before :: after[p].status != Approved && after[p].version == 0)
  }

  /** As many posts were added as the summary says. */
  predicate Added(before: Rows, after: Rows, n: int) {
    before.Keys <= after.Keys && |after.Keys| == |before.Keys| + n
  }

  lemma MetKeepsRows(start: Rows, rows: Rows, post: ForumPost, rules: Rules, n: int)
    requires KeptRows(start, rows) && Added(start, rows, n)
    ensures KeptRows(start, Met(rows, post, rules))
    ensures Added(start, Met(rows, post, rules), if post.pid in rows then n else n + 1)
  {
    MetAdds(start, rows, post, rules, n);
  }

  lemma MetAdds(start: Rows, rows: Rows, post: ForumPost, rules: Rules, n: int)
    requires Added(start, rows, n)
    ensures Added(start, Met(rows, post, rules), if post.pid in rows then n else n + 1)
  {
    var after := Met(rows, post, rules);
    if post.pid in rows {
      assert after.Keys == rows.Keys;
    } else {
      assert after.Keys == rows.Keys + {post.pid};
    }
  }

  /** The posts whose import went through, in order. */
  datatype Trace = Nothing | Then(before: Trace, post: ForumPost)

  /** `tried` are all the posts the importer set out to import, in order; `taken` those whose import went through. */
  datatype Log = Log(taken: Trace, tried: Trace)

  function UidsOf(t: Trace): set<Uid> {
    match t
    case Nothing => {}
    case Then(before, post) => UidsOf(before) + {post.uid}
  }

  /** Leaving out some posts of b gives a. */
  predicate IsPart(a: Trace, b: Trace)
    decreases b
  {
    match b
    case Nothing => a == Nothing
    case Then(before, post) => (a.Then? && a.post == post && IsPart(a.before, before)) || IsPart(a, before)
  }

  /** Leaving out the last posts of b gives a. */
  predicate IsPrefix(a: Trace, b: Trace)
    decreases b
  {
    a == b || (b.Then? && IsPrefix(a, b.before))
  }

  lemma {:induction false} PartsUids(a: Trace, b: Trace)
    requires IsPart(a, b)
    ensures UidsOf(a) <= UidsOf(b)
    decreases b
  {
    if b.Then? {
      if a.Then? && a.post == b.post && IsPart(a.before, b.before) {
        PartsUids(a.before, b.before);
      } else {
        PartsUids(a, b.before);
      }
    }
  }

  lemma {:induction false} PrefixOfMore(t: Trace, posts: seq<ForumPost>, k: int)
    requires 0 <= k <= |posts|
    ensures IsPrefix(Extended(t, posts[..k]), Extended(t, posts))
    decreases |posts|
  {
    if k == |posts| {
      assert posts[..k] == posts;
    } else {
      var fewer := posts[..|posts| - 1];
      assert fewer[..k] == posts[..k];
      PrefixOfMore(t, fewer, k);
    }
  }

  /** Who was touched, and how many users were counted, as the posts tried and taken tell. */
  ghost predicate Tied(s: Summary, touched: set<Uid>, log: Log) {
    && touched == UidsOf(log.tried) && IsPart(log.taken, log.tried)
    && s.users <= |UidsOf(log.taken)| && s.users <= s.fetched
    && (s.errors == [] ==> log.taken == log.tried)
  }

  lemma FailureStaysTied(s: Summary, touched: set<Uid>, log: Log, post: ForumPost)
    requires Tied(s, touched, log)
    ensures Tied(Failing(s, PostFailed(post.pid)), touched + {post.uid}, Log(log.taken, Then(log.tried, post)))
  {
  }

  lemma CountStaysTied(s: Summary, touched: set<Uid>, log: Log, post: ForumPost, r: Imported)
    requires Tied(s, touched, log) && r.newUser == (post.uid !in touched)
    ensures var t, l := CountedPost(s, r), Log(Then(log.taken, post), Then(log.tried, post));
      Tied(t, touched + {post.uid}, l) && Tied(Failing(t, PostFailed(post.pid)), touched + {post.uid}, l)
  {
    PartsUids(log.taken, log.tried);
    OneMoreTouched(UidsOf(log.taken), post.uid);
  }

  function Extended(t: Trace, posts: seq<ForumPost>): Trace {
    if posts == [] then t else Then(Extended(t, posts[..|posts| - 1]), posts[|posts| - 1])
  }

  predicate Differs(rows: Rows, post: ForumPost, rules: Rules) {
    post.pid in rows && rows[post.pid].hash != rules.sha(post.content)
  }

  /** The stored posts and the counts that come of meeting posts. */
  datatype Effects = Effects(rows: Rows, fetched: int, added: int, diverged: int)

  function Meeting(e: Effects, post: ForumPost, rules: Rules): Effects {
    Effects(Met(e.rows, post, rules), e.fetched + 1,
            e.added + (if post.pid in e.rows then 0 else 1), e.diverged + (if Differs(e.rows, post, rules) then 1 else 0))
  }

  function EffectsOf(start: Rows, t: Trace, rules: Rules): Effects {
    match t
    case Nothing => Effects(start, 0, 0, 0)
    case Then(before, post) => Meeting(EffectsOf(start, before, rules), post, rules)
  }

  /** The posts taken, they alone and in order, made the rows and the counts what they are. */
  ghost predicate Traced(s: Summary, start: Rows, rows: Rows, taken: Trace, rules: Rules) {
    Effects(rows, s.fetched, s.added, s.diverged) == EffectsOf(start, taken, rules)
  }

  /** Whatever posts are met: the stored ones are kept, and as many are added as are new. */
  lemma {:induction false} MeetingKeepsRows(start: Rows, t: Trace, rules: Rules)
    ensures var e := EffectsOf(start, t, rules);
      KeptRows(start, e.rows) && Added(start, e.rows, e.added)
  {
    match t
    case Nothing =>
    case Then(before, post) =>
      MeetingKeepsRows(start, before, rules);
      var e := EffectsOf(start, before, rules);
      MetKeepsRows(start, e.rows, post, rules, e.added);
  }

  ghost predicate Going(
      s: Summary, touched: set<Uid>, b: Budgets, start: Rows, rows: Rows, c: Counters, taken: Trace, rules: Rules) {
    WithinBudgets(s, b) && Consistent(s, touched) && Stored(c, s) && Traced(s, start, rows, taken, rules)
  }

  // What an undisturbed run takes

  /** The posts of the first n topics asked for. */
  function AllPosts(client: Client, n: int): Trace {
    if n <= 0 then Nothing
    else if TopicDetail(client, n - 1).Some? then Extended(AllPosts(client, n - 1), TopicDetail(client, n - 1).value)
    else AllPosts(client, n - 1)
  }

  /** How many topics the first n pages list. */
  function TopicsOn(client: Client, n: int): int {
    if n <= 0 then 0 else TopicsOn(client, n - 1) + if RecentTopics(client, n).Some? then |RecentTopics(client, n).value| else 0
  }

  /** The pages before the given one are full. */
  predicate FullBefore(client: Client, page: int) {
    forall p | 1 <= p < page :: IsFull(client, p)
  }

  predicate IsFull(client: Client, page: int) {
    RecentTopics(client, page).Some? && |RecentTopics(client, page).value| >= PAGE_SIZE
  }

  /** The first page that is not full. */
  predicate IsLastPage(client: Client, last: int) {
    last >= 1 && RecentTopics(client, last).Some? && !IsFull(client, last) && FullBefore(client, last)
  }

  lemma OneMorePage(client: Client, page: int, topics: seq<int>)
    requires page >= 1 && RecentTopics(client, page) == Some(topics) && FullBefore(client, page)
    ensures TopicsOn(client, page) == TopicsOn(client, page - 1) + |topics|
    ensures if |topics| < PAGE_SIZE then IsLastPage(client, page) else FullBefore(client, page + 1)
  {
  }

  /** The posts of the first so many topics asked for, as a function of their number. */
  type Listing = int -> Trace

  ghost function ListingOf(client: Client): Listing {
    (n: int) => AllPosts(client, n)
  }

  ghost function Listed(all: Listing, n: int): Trace {
    all(n)
  }

  /**
   Every post of every topic asked for was tried; as long as nothing threw, every topic asked for was counted; and the
   pages counted are the lists of topics and the topics.
   */
  ghost predicate AllTried(all: Listing, s: Summary, log: Log, detail: int, lists: int) {
    log.tried == Listed(all, detail) && (s.errors == [] ==> s.topics == detail) && s.pages == s.topics + lists
  }

  // --------------------------------------------------------------------
  // Loops
  // --------------------------------------------------------------------

  /** A summary that counts one more post. */
  function CountedPost(s: Summary, r: Imported): Summary {
    s.(fetched := s.fetched + 1,
       added := s.added + (if r.isNew then 1 else 0),
       diverged := s.diverged + (if r.diverged then 1 else 0),
       users := s.users + (if r.newUser then 1 else 0))
  }

  function DeltaOf(r: Imported): Counters {
    Counters(1, if r.isNew then 1 else 0, if r.diverged then 1 else 0, if r.newUser then 1 else 0)
  }

  function Failing(s: Summary, e: Error): Summary {
    s.(errors := s.errors + [e])
  }

  lemma OneMoreTouched(touched: set<Uid>, uid: Uid)
    ensures |touched + {uid}| == if uid in touched then |touched| else |touched| + 1
  {
    if uid in touched {
      assert touched + {uid} == touched;
    }
  }

  /** Counting a post keeps the counts in agreement, whether or not its counters reach the run record. */
  lemma CountedKeeps(s: Summary, r: Imported, touched: set<Uid>, uid: Uid, b: Budgets, c: Counters)
    requires WithinBudgets(s, b) && Consistent(s, touched) && Stored(c, s) && s.fetched < b.maxPosts
    requires r.newUser == (uid !in touched) && !(r.isNew && r.diverged)
    ensures var t := CountedPost(s, r);
      && WithinBudgets(t, b) && Consistent(t, touched + {uid})
      && Stored(Plus(c, DeltaOf(r)), t) && Stored(c, Failing(t, PostFailed(0)))
  {
    OneMoreTouched(touched, uid);
  }

  lemma FailingKeepsGoing(
      s: Summary, touched: set<Uid>, b: Budgets, start: Rows, rows: Rows, c: Counters, taken: Trace, rules: Rules,
      post: ForumPost)
    requires Going(s, touched, b, start, rows, c, taken, rules)
    ensures Going(Failing(s, PostFailed(post.pid)), touched + {post.uid}, b, start, rows, c, taken, rules)
  {
    OneMoreTouched(touched, post.uid);
  }

  lemma CountedKeepsGoing(
      s: Summary, touched: set<Uid>, b: Budgets, start: Rows, rows: Rows, c: Counters, taken: Trace, rules: Rules,
      post: ForumPost, r: Imported)
    requires Going(s, touched, b, start, rows, c, taken, rules) && s.fetched < b.maxPosts
    requires r.newUser == (post.uid !in touched) && r.isNew == (post.pid !in rows) && r.diverged == Differs(rows, post, rules)
    ensures var t := CountedPost(s, r);
      && Going(t, touched + {post.uid}, b, start, Met(rows, post, rules), Plus(c, DeltaOf(r)), Then(taken, post), rules)
      && Going(Failing(t, PostFailed(post.pid)), touched + {post.uid}, b, start, Met(rows, post, rules), c,
               Then(taken, post), rules)
  {
    CountedKeeps(s, r, touched, post.uid, b, c);
  }

  /** What every step of a run keeps, as a function of the state. */
  type Keeping = (Summary, set<Uid>, Rows, Counters, Log) -> bool

  ghost function KeepingOf(b: Budgets, start: Rows, rules: Rules): Keeping {
    (s: Summary, touched: set<Uid>, rows: Rows, c: Counters, log: Log) =>
      Going(s, touched, b, start, rows, c, log.taken, rules) && Tied(s, touched, log)
  }

  ghost predicate Keeps(keep: Keeping, s: Summary, touched: set<Uid>, rows: Rows, c: Counters, log: Log) {
    keep(s, touched, rows, c, log)
  }

  lemma KeepsMeans(
      b: Budgets, start: Rows, rules: Rules, s: Summary, touched: set<Uid>, rows: Rows, c: Counters, log: Log)
    ensures Keeps(KeepingOf(b, start, rules), s, touched, rows, c, log)
       <==> Going(s, touched, b, start, rows, c, log.taken, rules) && Tied(s, touched, log)
  {
  }

  lemma FailedPostKeeps(
      b: Budgets, start: Rows, rules: Rules, s: Summary, touched: set<Uid>, rows: Rows, c: Counters, log: Log, post: ForumPost)
    requires Keeps(KeepingOf(b, start, rules), s, touched, rows, c, log)
    ensures Keeps(KeepingOf(b, start, rules), Failing(s, PostFailed(post.pid)), touched + {post.uid}, rows, c,
                  Log(log.taken, Then(log.tried, post)))
  {
    FailingKeepsGoing(s, touched, b, start, rows, c, log.taken, rules, post);
    FailureStaysTied(s, touched, log, post);
  }

  lemma CountedPostKeeps(
      b: Budgets, start: Rows, rules: Rules, s: Summary, touched: set<Uid>, rows: Rows, c: Counters, log: Log,
      post: ForumPost, r: Imported)
    requires Keeps(KeepingOf(b, start, rules), s, touched, rows, c, log) && s.fetched < b.maxPosts
    requires r.newUser == (post.uid !in touched) && r.isNew == (post.pid !in rows) && r.diverged == Differs(rows, post, rules)
    ensures var keep, t := KeepingOf(b, start, rules), CountedPost(s, r);
      var l := Log(Then(log.taken, post), Then(log.tried, post));
      && Keeps(keep, t, touched + {post.uid}, Met(rows, post, rules), Plus(c, DeltaOf(r)), l)
      && Keeps(keep, Failing(t, PostFailed(post.pid)), touched + {post.uid}, Met(rows, post, rules), c, l)
  {
    CountedKeepsGoing(s, touched, b, start, rows, c, log.taken, rules, post, r);
    CountStaysTied(s, touched, log, post, r);
  }

  /** Counting pages and topics, and failing, is no matter of who was touched or what is stored. */
  lemma CountingKeeps(
      b: Budgets, start: Rows, rules: Rules, s: Summary, t: Summary, touched: set<Uid>, rows: Rows, c: Counters, log: Log)
    requires Keeps(KeepingOf(b, start, rules), s, touched, rows, c, log)
    requires t == s.(pages := t.pages, topics := t.topics, errors := t.errors) && (t.errors == [] ==> s.errors == [])
    requires t.pages == s.pages || (t.pages == s.pages + 1 <= b.maxPages)
    requires t.topics == s.topics || (t.topics == s.topics + 1 <= b.maxTopics)
    ensures Keeps(KeepingOf(b, start, rules), t, touched, rows, c, log)
  {
    KeepsMeans(b, start, rules, s, touched, rows, c, log);
    KeepsMeans(b, start, rules, t, touched, rows, c, log);
  }

  // Time and pages

  /** Every reading of the clock so far, but the first, was before the time was up. */
  ghost predicate InTime(clock: int -> int, since: int, b: Budgets, readings: int) {
    readings >= 0 && forall k | 1 <= k <= readings :: clock(k) - since < b.maxDuration
  }

  /** A run stops for its duration exactly at the first reading that finds the time up. */
  ghost predicate Timely(stop: Option<StopReason>, clock: int -> int, since: int, b: Budgets, readings: int) {
    if stop == Some(BudgetDuration) then InTime(clock, since, b, readings - 1) && clock(readings) - since >= b.maxDuration
    else InTime(clock, since, b, readings)
  }

  /** Whether a run stops in time, as a function of the reason and the readings. */
  type Watch = (Option<StopReason>, int) -> bool

  ghost function WatchOf(clock: int -> int, since: int, b: Budgets): Watch {
    (stop: Option<StopReason>, readings: int) => Timely(stop, clock, since, b, readings)
  }

  ghost predicate Watched(watch: Watch, stop: Option<StopReason>, readings: int) {
    watch(stop, readings)
  }

  lemma WatchedMeans(watch: Watch, stop: Option<StopReason>, clock: int -> int, since: int, b: Budgets, readings: int)
    requires watch == WatchOf(clock, since, b)
    ensures Watched(watch, stop, readings) <==> Timely(stop, clock, since, b, readings)
  {
  }

  lemma NoTimeUsed(watch: Watch, clock: int -> int, since: int, b: Budgets)
    requires watch == WatchOf(clock, since, b)
    ensures Watched(watch, None, 0)
  {
    WatchedMeans(watch, None, clock, since, b, 0);
  }

  lemma OneMoreReading(clock: int -> int, since: int, b: Budgets, readings: int)
    requires InTime(clock, since, b, readings)
    ensures if clock(readings + 1) - since >= b.maxDuration then Timely(Some(BudgetDuration), clock, since, b, readings + 1)
            else InTime(clock, since, b, readings + 1)
  {
  }

  /** One pass of the innermost loop; a post that fails is isolated. */
  method TakePost(
      repo: ForumRepository, post: ForumPost, rules: Rules, newId: UserId, b: Budgets, ghost start: Rows, ghost keep: Keeping,
      s: Summary, touched: set<Uid>, refreshed: set<UserId>, ghost log: Log)
    returns (s': Summary, touched': set<Uid>, refreshed': set<UserId>, ghost log': Log)
    requires keep == KeepingOf(b, start, rules) && s.fetched < b.maxPosts
    requires Keeps(keep, s, touched, repo.rows, repo.counters, log)
    modifies repo`calls, repo`rows, repo`users, repo`counters
    ensures Keeps(keep, s', touched', repo.rows, repo.counters, log') && log'.tried == Then(log.tried, post)
    ensures s'.pages == s.pages && s'.topics == s.topics && s'.created == s.created
    ensures s'.errors == [] ==> s.errors == []
  {
    var result;
    result, touched' := ImportOnePost(repo, post, rules, touched, newId);
    if result.None? {
      FailedPostKeeps(b, start, rules, s, touched, repo.rows, repo.counters, log, post);
      return Failing(s, PostFailed(post.pid)), touched', refreshed, Log(log.taken, Then(log.tried, post));
    }
    CountedPostKeeps(b, start, rules, s, touched, old(repo.rows), repo.counters, log, post, result.value);
    s' := CountedPost(s, result.value);
    log' := Log(Then(log.taken, post), Then(log.tried, post));
    refreshed' := refreshed + {result.value.user};
    var ok := repo.IncrementCounters(DeltaOf(result.value));
    if !ok {
      s' := Failing(s', PostFailed(post.pid));
    }
  }

  /** The posts of one topic; the first `upTo` of them are tried. */
  method TakePosts(
      repo: ForumRepository, posts: seq<ForumPost>, rules: Rules, newIds: int -> UserId, b: Budgets, ghost start: Rows,
      ghost keep: Keeping, clock: int -> int, since: int, reading: int, s: Summary, touched: set<Uid>,
      refreshed: set<UserId>, ghost log: Log)
    returns (s': Summary, touched': set<Uid>, refreshed': set<UserId>, reading': int, stop: Option<StopReason>,
             ghost log': Log, ghost upTo: int)
    requires keep == KeepingOf(b, start, rules) && Keeps(keep, s, touched, repo.rows, repo.counters, log)
    requires InTime(clock, since, b, reading)
    modifies repo`calls, repo`rows, repo`users, repo`counters
    ensures Keeps(keep, s', touched', repo.rows, repo.counters, log') && Timely(stop, clock, since, b, reading')
    ensures 0 <= upTo <= |posts| && log'.tried == Extended(log.tried, posts[..upTo])
    ensures s'.pages == s.pages && s'.topics == s.topics && s'.created == s.created
    ensures stop.None? || stop == Some(BudgetPosts) || stop == Some(BudgetDuration)
    ensures stop.None? ==> upTo == |posts|
    ensures stop == Some(BudgetPosts) ==> s'.fetched >= b.maxPosts
    ensures s'.errors == [] ==> s.errors == []
  {
    s', touched', refreshed', reading', stop, log' := s, touched, refreshed, reading, None, log;
    for i := 0 to |posts|
      invariant Keeps(keep, s', touched', repo.rows, repo.counters, log') && InTime(clock, since, b, reading')
      invariant log'.tried == Extended(log.tried, posts[..i])
      invariant s'.pages == s.pages && s'.topics == s.topics && s'.created == s.created
      invariant s'.errors == [] ==> s.errors == []
    {
      upTo := i;
      if s'.fetched >= b.maxPosts {
        stop := Some(BudgetPosts);
        return;
      }
      OneMoreReading(clock, since, b, reading');
      reading' := reading' + 1;
      if clock(reading') - since >= b.maxDuration {
        stop := Some(BudgetDuration);
        return;
      }
      s', touched', refreshed', log' := TakePost(
        repo, posts[i], rules, newIds(repo.calls), b, start, keep, s', touched', refreshed', log');
      assert posts[..i + 1][..i] == posts[..i];
    }
    upTo := |posts|;
  }

  /** Why a run may stop between two topics. */
  predicate RightReason(stop: Option<StopReason>, s: Summary, b: Budgets) {
    && (stop == Some(BudgetTopics) ==> s.topics >= b.maxTopics)
    && (stop == Some(BudgetPages) ==> s.pages >= b.maxPages)
    && (stop == Some(BudgetPosts) ==> s.fetched >= b.maxPosts)
    && stop != Some(Completed) && stop != Some(FatalError)
  }

  function TopicCounted(s: Summary): Summary {
    s.(pages := s.pages + 1, topics := s.topics + 1)
  }

  lemma MoreTopics(client: Client, tried: Trace, more: seq<ForumPost>, detail: int, upTo: int)
    requires detail >= 0 && TopicDetail(client, detail) == Some(more) && tried == Listed(ListingOf(client), detail)
    requires 0 <= upTo <= |more|
    ensures IsPrefix(Extended(tried, more[..upTo]), Listed(ListingOf(client), detail + 1))
    ensures upTo == |more| ==> Extended(tried, more[..upTo]) == Listed(ListingOf(client), detail + 1)
  {
    PrefixOfMore(tried, more, upTo);
    assert upTo == |more| ==> more[..upTo] == more;
  }

  /** What stops a run before a topic, if anything does. */
  function StopBefore(s: Summary, b: Budgets, elapsed: int): Option<StopReason> {
    if elapsed >= b.maxDuration then Some(BudgetDuration)
    else if s.topics >= b.maxTopics then Some(BudgetTopics)
    else if s.pages >= b.maxPages then Some(BudgetPages)
    else if s.fetched >= b.maxPosts then Some(BudgetPosts)
    else None
  }

  lemma StopsRightly(s: Summary, b: Budgets, clock: int -> int, since: int, readings: int)
    requires InTime(clock, since, b, readings)
    ensures var stop := StopBefore(s, b, clock(readings + 1) - since);
      && RightReason(stop, s, b) && Timely(stop, clock, since, b, readings + 1)
      && (stop.None? ==> s.topics < b.maxTopics && s.pages < b.maxPages && s.fetched < b.maxPosts)
  {
    OneMoreReading(clock, since, b, readings);
  }

  /** What was tried is the beginning of what the topics asked for hold. */
  ghost predicate TriedInOrder(all: Listing, log: Log, asked: int) {
    asked >= 0 && IsPrefix(log.tried, Listed(all, asked))
  }

  lemma AllTriedIsInOrder(all: Listing, s: Summary, log: Log, detail: int, lists: int)
    requires detail >= 0 && AllTried(all, s, log, detail, lists)
    ensures TriedInOrder(all, log, detail)
  {
  }

  lemma FailedTopicIsTried(client: Client, s: Summary, log: Log, detail: int, topic: int, lists: int)
    requires detail >= 0 && TopicDetail(client, detail).None? && AllTried(ListingOf(client), s, log, detail, lists)
    ensures AllTried(ListingOf(client), Failing(s, TopicFailed(topic)), log, detail + 1, lists)
    ensures TriedInOrder(ListingOf(client), log, detail + 1)
  {
  }

  lemma TopicIsTried(
      client: Client, s: Summary, log: Log, more: seq<ForumPost>, detail: int, upTo: int, s': Summary, log': Log,
      lists: int)
    requires detail >= 0 && TopicDetail(client, detail) == Some(more) && AllTried(ListingOf(client), s, log, detail, lists)
    requires 0 <= upTo <= |more| && log'.tried == Extended(log.tried, more[..upTo])
    requires s'.errors == [] ==> s.errors == []
    requires s'.topics == s.topics + 1 && s'.pages == s.pages + 1
    ensures TriedInOrder(ListingOf(client), log', detail + 1)
    ensures upTo == |more| ==> AllTried(ListingOf(client), s', log', detail + 1, lists)
  {
    MoreTopics(client, log.tried, more, detail, upTo);
  }

  /** One topic, unless a budget is used up; if it fails, that is isolated. */
  method TakeTopic(
      repo: ForumRepository, client: Client, topic: int, rules: Rules, newIds: int -> UserId, b: Budgets,
      ghost start: Rows, ghost keep: Keeping, clock: int -> int, since: int, reading: int, detail: int, s: Summary, touched: set<Uid>,
      refreshed: set<UserId>, ghost log: Log, ghost all: Listing, ghost lists: int)
    returns (s': Summary, touched': set<Uid>, refreshed': set<UserId>, reading': int, detail': int,
             stop: Option<StopReason>, ghost log': Log)
    requires keep == KeepingOf(b, start, rules) && all == ListingOf(client)
    requires Keeps(keep, s, touched, repo.rows, repo.counters, log)
    requires detail >= 0 && AllTried(all, s, log, detail, lists) && InTime(clock, since, b, reading)
    modifies repo`calls, repo`rows, repo`users, repo`counters
    ensures Keeps(keep, s', touched', repo.rows, repo.counters, log')
    ensures s'.pages >= s.pages && s'.created == s.created && RightReason(stop, s', b)
    ensures Timely(stop, clock, since, b, reading')
    ensures TriedInOrder(all, log', detail')
    ensures stop.None? ==> detail' == detail + 1 && AllTried(all, s', log', detail', lists)
  {
    s', touched', refreshed', log', detail' := s, touched, refreshed, log, detail;
    reading' := reading + 1;
    stop := StopBefore(s, b, clock(reading') - since);
    StopsRightly(s, b, clock, since, reading);
    if stop.Some? {
      AllTriedIsInOrder(all, s, log, detail, lists);
      return;
    }
    s', touched', refreshed', reading', detail', stop, log' := FetchTopic(
      repo, client, topic, rules, newIds, b, start, keep, clock, since, reading', detail, s, touched, refreshed, log, all, lists);
  }

  /** Asking for one topic's posts, and taking them. */
  method FetchTopic(
      repo: ForumRepository, client: Client, topic: int, rules: Rules, newIds: int -> UserId, b: Budgets,
      ghost start: Rows, ghost keep: Keeping, clock: int -> int, since: int, reading: int, detail: int, s: Summary,
      touched: set<Uid>, refreshed: set<UserId>, ghost log: Log, ghost all: Listing, ghost lists: int)
    returns (s': Summary, touched': set<Uid>, refreshed': set<UserId>, reading': int, detail': int,
             stop: Option<StopReason>, ghost log': Log)
    requires keep == KeepingOf(b, start, rules) && all == ListingOf(client)
    requires Keeps(keep, s, touched, repo.rows, repo.counters, log)
    requires detail >= 0 && AllTried(all, s, log, detail, lists) && s.topics < b.maxTopics && s.pages < b.maxPages
    requires InTime(clock, since, b, reading)
    modifies repo`calls, repo`rows, repo`users, repo`counters
    ensures Keeps(keep, s', touched', repo.rows, repo.counters, log')
    ensures s'.pages >= s.pages && s'.created == s.created && RightReason(stop, s', b)
    ensures Timely(stop, clock, since, b, reading')
    ensures TriedInOrder(all, log', detail') && detail' == detail + 1
    ensures stop.None? ==> AllTried(all, s', log', detail', lists)
  {
    reading', detail', stop := reading, detail + 1, None;
    var posts := TopicDetail(client, detail);
    if posts.None? {
      s', touched', refreshed', log' := Failing(s, TopicFailed(topic)), touched, refreshed, log;
      FailedTopicIsTried(client, s, log, detail, topic, lists);
      CountingKeeps(b, start, rules, s, s', touched, repo.rows, repo.counters, log);
      return;
    }
    CountingKeeps(b, start, rules, s, TopicCounted(s), touched, repo.rows, repo.counters, log);
    ghost var upTo;
    s', touched', refreshed', reading', stop, log', upTo := TakePosts(
      repo, posts.value, rules, newIds, b, start, keep, clock, since, reading, TopicCounted(s), touched, refreshed, log);
    TopicIsTried(client, s, log, posts.value, detail, upTo, s', log', lists);
  }

  /** The topics of one page. */
  method TakeTopics(
      repo: ForumRepository, client: Client, topics: seq<int>, rules: Rules, newIds: int -> UserId, b: Budgets,
      ghost start: Rows, ghost keep: Keeping, clock: int -> int, since: int, reading: int, detail: int, s: Summary, touched: set<Uid>,
      refreshed: set<UserId>, ghost log: Log, ghost all: Listing, ghost lists: int)
    returns (s': Summary, touched': set<Uid>, refreshed': set<UserId>, reading': int, detail': int,
             stop: Option<StopReason>, ghost log': Log)
    requires keep == KeepingOf(b, start, rules) && all == ListingOf(client)
    requires Keeps(keep, s, touched, repo.rows, repo.counters, log)
    requires detail >= 0 && AllTried(all, s, log, detail, lists) && InTime(clock, since, b, reading)
    modifies repo`calls, repo`rows, repo`users, repo`counters
    ensures Keeps(keep, s', touched', repo.rows, repo.counters, log')
    ensures s'.pages >= s.pages && s'.created == s.created && RightReason(stop, s', b)
    ensures Timely(stop, clock, since, b, reading')
    ensures TriedInOrder(all, log', detail')
    ensures stop.None? ==> detail' == detail + |topics| && AllTried(all, s', log', detail', lists)
  {
    s', touched', refreshed', reading', detail', stop, log' := s, touched, refreshed, reading, detail, None, log;
    AllTriedIsInOrder(all, s, log, detail, lists);
    var i := 0;
    while i < |topics| && stop.None?
      invariant 0 <= i <= |topics| && s'.pages >= s.pages && s'.created == s.created
      invariant Keeps(keep, s', touched', repo.rows, repo.counters, log')
      invariant RightReason(stop, s', b) && TriedInOrder(all, log', detail')
      invariant Timely(stop, clock, since, b, reading')
      invariant stop.None? ==> detail' == detail + i && AllTried(all, s', log', detail', lists)
    {
      s', touched', refreshed', reading', detail', stop, log' := TakeTopic(
        repo, client, topics[i], rules, newIds, b, start, keep, clock, since, reading', detail', s', touched', refreshed',
        log', all, lists);
      i := i + 1;
    }
  }

  const NOTHING_YET := Summary(true, Success, 0, 0, 0, 0, 0, 0, Completed, [])

  /** Asking for one page and noting it; None if either throws. */
  method OpenPage(repo: ForumRepository, client: Client, page: int) returns (asked: bool, topics: Option<seq<int>>)
    modifies repo`calls, repo`cursor
    ensures asked == RecentTopics(client, page).Some?
    ensures topics.Some? ==> topics == RecentTopics(client, page)
  {
    var recent := RecentTopics(client, page);
    if recent.None? {
      return false, None;
    }
    var ok := repo.SetCursor(page);
    asked, topics := true, if ok then recent else None;
  }

  function PageCounted(s: Summary): Summary {
    s.(pages := s.pages + 1)
  }

  /** One page. An empty or short one is the last. */
  method TakePage(
      repo: ForumRepository, client: Client, page: int, rules: Rules, newIds: int -> UserId, b: Budgets,
      ghost start: Rows, ghost keep: Keeping, clock: int -> int, since: int, reading: int, detail: int, s: Summary, touched: set<Uid>,
      refreshed: set<UserId>, ghost log: Log, ghost all: Listing)
    returns (s': Summary, touched': set<Uid>, refreshed': set<UserId>, reading': int, detail': int,
             stop: Option<StopReason>, ghost log': Log)
    requires keep == KeepingOf(b, start, rules) && all == ListingOf(client)
    requires Keeps(keep, s, touched, repo.rows, repo.counters, log) && s.pages < b.maxPages
    requires page >= 1 && FullBefore(client, page) && InTime(clock, since, b, reading)
    requires detail >= 0 && detail == TopicsOn(client, page - 1) && AllTried(all, s, log, detail, page - 1)
    modifies repo`calls, repo`rows, repo`users, repo`counters, repo`cursor
    ensures Keeps(keep, s', touched', repo.rows, repo.counters, log') && s'.created == s.created
    ensures TriedInOrder(all, log', detail')
    ensures stop.None? ==> s'.pages > s.pages && FullBefore(client, page + 1)
    ensures stop.None? || stop == Some(Completed) ==>
      detail' >= 0 && detail' == TopicsOn(client, page) && AllTried(all, s', log', detail', page)
    ensures stop == Some(Completed) ==> IsLastPage(client, page)
    ensures stop == Some(Completed) || stop == Some(FatalError) || RightReason(stop, s', b)
    ensures Timely(stop, clock, since, b, reading')
  {
    var asked, topics := OpenPage(repo, client, page);
    s', touched', refreshed', reading', detail', log' := s, touched, refreshed, reading, detail, log;
    if asked {
      s' := PageCounted(s);
      CountingKeeps(b, start, rules, s, s', touched, repo.rows, repo.counters, log);
    }
    AllTriedIsInOrder(all, s, log, detail, page - 1);
    if topics.None? {
      stop := Some(FatalError);
      return;
    }
    OneMorePage(client, page, topics.value);
    s', touched', refreshed', reading', detail', stop, log' := TakeTopics(
      repo, client, topics.value, rules, newIds, b, start, keep, clock, since, reading, detail, s', touched, refreshed,
      log, all, page);
    if stop.None? && |topics.value| < PAGE_SIZE {
      stop := Some(Completed);
    }
  }

  /** One turn of the loop over pages. */
  method NextPage(
      repo: ForumRepository, client: Client, page: int, rules: Rules, newIds: int -> UserId, b: Budgets,
      ghost start: Rows, ghost keep: Keeping, clock: int -> int, since: int, reading: int, detail: int, s: Summary,
      touched: set<Uid>, refreshed: set<UserId>, ghost log: Log, ghost all: Listing, ghost watch: Watch)
    returns (s': Summary, touched': set<Uid>, refreshed': set<UserId>, reading': int, detail': int,
             stop: Option<StopReason>, ghost log': Log)
    requires keep == KeepingOf(b, start, rules) && all == ListingOf(client) && watch == WatchOf(clock, since, b)
    requires Keeps(keep, s, touched, repo.rows, repo.counters, log)
    requires page >= 1 && FullBefore(client, page) && Watched(watch, None, reading)
    requires detail >= 0 && detail == TopicsOn(client, page - 1) && AllTried(all, s, log, detail, page - 1)
    modifies repo`calls, repo`rows, repo`users, repo`counters, repo`cursor
    ensures Keeps(keep, s', touched', repo.rows, repo.counters, log') && s'.created == s.created
    ensures TriedInOrder(all, log', detail')
    ensures stop.None? ==> s.pages < s'.pages && s.pages < b.maxPages && FullBefore(client, page + 1)
    ensures stop.None? || stop == Some(Completed) ==>
      detail' >= 0 && detail' == TopicsOn(client, page) && AllTried(all, s', log', detail', page)
    ensures stop == Some(Completed) ==> IsLastPage(client, page)
    ensures stop == Some(Completed) || stop == Some(FatalError) || RightReason(stop, s', b)
    ensures Watched(watch, stop, reading')
  {
    s', touched', refreshed', reading', detail', log' := s, touched, refreshed, reading + 1, detail, log;
    AllTriedIsInOrder(all, s, log, detail, page - 1);
    WatchedMeans(watch, None, clock, since, b, reading);
    OneMoreReading(clock, since, b, reading);
    if clock(reading') - since >= b.maxDuration {
      stop := Some(BudgetDuration);
    } else if s.pages >= b.maxPages {
      stop := Some(BudgetPages);
    } else {
      s', touched', refreshed', reading', detail', stop, log' := TakePage(
        repo, client, page, rules, newIds, b, start, keep, clock, since, reading', detail, s, touched, refreshed, log, all);
    }
    WatchedMeans(watch, stop, clock, since, b, reading');
  }

  const EMPTY_LOG := Log(Nothing, Nothing)

  lemma Starts(b: Budgets, rows: Rows, rules: Rules, client: Client)
    ensures Keeps(KeepingOf(b, rows, rules), NOTHING_YET, {}, rows, Counters(0, 0, 0, 0), EMPTY_LOG)
    ensures FullBefore(client, 1) && TopicsOn(client, 0) == 0 && AllTried(ListingOf(client), NOTHING_YET, EMPTY_LOG, 0, 0)
  {
    KeepsMeans(b, rows, rules, NOTHING_YET, {}, rows, Counters(0, 0, 0, 0), EMPTY_LOG);
  }

  /** The loop over pages, up to a reason to stop or a failure that is not isolated. */
  method TakePages(
      repo: ForumRepository, client: Client, rules: Rules, newIds: int -> UserId, b: Budgets, clock: int -> int, since: int)
    returns (s: Summary, touched: set<Uid>, refreshed: set<UserId>, stop: StopReason,
             ghost log: Log, ghost asked: int, ghost last: int, ghost readings: int)
    requires repo.counters == Counters(0, 0, 0, 0)
    modifies repo`calls, repo`rows, repo`users, repo`counters, repo`cursor
    ensures Keeps(KeepingOf(b, old(repo.rows), rules), s, touched, repo.rows, repo.counters, log) && s.created
    ensures TriedInOrder(ListingOf(client), log, asked)
    ensures stop == Completed || stop == FatalError || RightReason(Some(stop), s, b)
    ensures stop == Completed ==>
      IsLastPage(client, last) && asked == TopicsOn(client, last) && AllTried(ListingOf(client), s, log, asked, last)
    ensures Watched(WatchOf(clock, since, b), Some(stop), readings)
  {
    s, touched, refreshed, stop, log, asked, last, readings := NOTHING_YET, {}, {}, Completed, EMPTY_LOG, 0, 0, 0;
    var reading, detail, page := 0, 0, 1;
    ghost var start, keep, all := repo.rows, KeepingOf(b, repo.rows, rules), ListingOf(client);
    ghost var watch := WatchOf(clock, since, b);
    Starts(b, start, rules, client);
    NoTimeUsed(watch, clock, since, b);
    while true
      invariant Keeps(keep, s, touched, repo.rows, repo.counters, log) && s.created
      invariant page >= 1 && FullBefore(client, page) && Watched(watch, None, reading)
      invariant detail >= 0 && detail == TopicsOn(client, page - 1) && AllTried(all, s, log, detail, page - 1)
      decreases b.maxPages - s.pages
    {
      var stopped;
      s, touched, refreshed, reading, detail, stopped, log := NextPage(
        repo, client, page, rules, newIds, b, start, keep, clock, since, reading, detail, s, touched, refreshed, log, all, watch);
      if stopped.Some? {
        stop, asked, last, readings := stopped.value, detail, page, reading;
        return;
      }
      page := page + 1;
    }
  }

  /** The summary with its status and reason, as it is written to the run record. */
  function Concluded(s: Summary, stop: StopReason): Summary {
    if stop == FatalError then
      s.(status := if s.topics > 0 || s.fetched > 0 then PartialFailure else Failed,
         stopped := FatalError, errors := s.errors + [Fatal])
    else s.(stopped := stop, status := if s.errors != [] then PartialFailure else Success)
  }

  /** What a run keeps is kept by concluding it, and by a failure to refresh the users' statistics after that. */
  lemma ConclusionKeeps(
      b: Budgets, start: Rows, rules: Rules, s: Summary, stop: StopReason, touched: set<Uid>, rows: Rows, c: Counters, log: Log,
      t: Summary)
    requires Keeps(KeepingOf(b, start, rules), s, touched, rows, c, log)
    requires t == Concluded(s, stop) || t == Failing(Concluded(s, stop), StatsRefresh)
    ensures KeptRows(start, rows) && Added(start, rows, t.added)
    ensures Going(t, touched, b, start, rows, c, log.taken, rules) && Tied(t, touched, log)
  {
    KeepsMeans(b, start, rules, s, touched, rows, c, log);
    MeetingKeepsRows(start, log.taken, rules);
  }

  /** Status and reason fit what happened. */
  predicate RightStatus(t: Summary, b: Budgets, statsFail: bool) {
    && (t.errors == [] ==> t.status == Success && t.stopped != FatalError)
    && (t.status == Success && t.errors != [] ==> statsFail && t.errors == [StatsRefresh])
    && (t.stopped == FatalError ==>
          t.status == if t.created && (t.topics > 0 || t.fetched > 0) then PartialFailure else Failed)
    && (t.stopped == Completed || t.stopped == FatalError || RightReason(Some(t.stopped), t, b))
  }

  lemma ConclusionIsRight(s: Summary, stop: StopReason, b: Budgets, statsFail: bool, t: Summary)
    requires s.created && (stop == Completed || stop == FatalError || RightReason(Some(stop), s, b))
    requires t == Concluded(s, stop) || (statsFail && t == Failing(Concluded(s, stop), StatsRefresh))
    ensures RightStatus(t, b, statsFail) && t.created && t.stopped == stop
    ensures t.status == Success ==> s.errors == [] && t.topics == s.topics
    ensures t.pages == s.pages && t.topics == s.topics
  {
  }

  const NOT_STARTED := NOTHING_YET.(created := false, status := Failed, stopped := FatalError, errors := [NoRunRecord])

  lemma NotStartedKeeps(b: Budgets, rows: Rows, rules: Rules, client: Client)
    ensures WithinBudgets(NOT_STARTED, b) && Consistent(NOT_STARTED, {}) && Traced(NOT_STARTED, rows, rows, Nothing, rules)
    ensures KeptRows(rows, rows) && Added(rows, rows, 0)
    ensures Tied(NOT_STARTED, {}, EMPTY_LOG) && TriedInOrder(ListingOf(client), EMPTY_LOG, 0)
  {
  }

  /** Writing the run record for the last time, and refreshing the statistics of the users met. */
  method Conclude(repo: ForumRepository, s: Summary, stop: StopReason, refreshed: set<UserId>, statsFail: bool)
    returns (summary: Summary, threw: bool)
    modifies repo`calls, repo`finishCalls, repo`finished
    ensures repo.finishCalls == old(repo.finishCalls) + 1
    ensures repo.finished == if threw then old(repo.finished) else old(repo.finished) + [summary.status]
    ensures summary == Concluded(s, stop) || (statsFail && summary == Failing(Concluded(s, stop), StatsRefresh))
  {
    summary := Concluded(s, stop);
    var ok := repo.FinishImportRun(summary.status);
    threw := !ok;
    if ok && refreshed != {} && statsFail {
      summary := Failing(summary, StatsRefresh);
    }
  }

  /** A run whose record could be created. */
  method RunCreated(
      repo: ForumRepository, client: Client, rules: Rules, newIds: int -> UserId, b: Budgets, clock: int -> int, since: int,
      statsFail: bool)
    returns (summary: Summary, touched: set<Uid>, threw: bool, ghost log: Log, ghost asked: int, ghost last: int,
             ghost readings: int)
    requires repo.counters == Counters(0, 0, 0, 0)
    modifies repo
    ensures Going(summary, touched, b, old(repo.rows), repo.rows, repo.counters, log.taken, rules)
    ensures KeptRows(old(repo.rows), repo.rows) && Added(old(repo.rows), repo.rows, summary.added)
    ensures Tied(summary, touched, log) && TriedInOrder(ListingOf(client), log, asked)
    ensures repo.finishCalls == old(repo.finishCalls) + 1 && summary.created
    ensures repo.finished == if threw then old(repo.finished) else old(repo.finished) + [summary.status]
    ensures RightStatus(summary, b, statsFail) && Timely(Some(summary.stopped), clock, since, b, readings)
    ensures summary.stopped == Completed ==>
      IsLastPage(client, last) && asked == TopicsOn(client, last) && log.tried == AllPosts(client, asked)
      && summary.pages == summary.topics + last
    ensures summary.stopped == Completed && summary.status == Success ==>
      summary.topics == asked && log.taken == log.tried
  {
    var s, refreshed, stop;
    s, touched, refreshed, stop, log, asked, last, readings := TakePages(repo, client, rules, newIds, b, clock, since);
    WatchedMeans(WatchOf(clock, since, b), Some(stop), clock, since, b, readings);
    summary, threw := Conclude(repo, s, stop, refreshed, statsFail);
    ConclusionKeeps(b, old(repo.rows), rules, s, stop, touched, repo.rows, repo.counters, log, summary);
    ConclusionIsRight(s, stop, b, statsFail, summary);
  }

  /**
   `threw`: the final update of the run record threw, and with it the whole call. `log` tells the posts tried and
   taken, `asked` how many topics were asked for, `last` the last list of topics, and `readings` how often the clock
   was read.
   */
  method RunImport(
      repo: ForumRepository, client: Client, rules: Rules, newIds: int -> UserId, b: Budgets, clock: int -> int,
      statsFail: bool)
    returns (summary: Summary, touched: set<Uid>, threw: bool, ghost log: Log, ghost asked: int, ghost last: int,
             ghost readings: int)
    modifies repo
    ensures WithinBudgets(summary, b) && Consistent(summary, touched)
    ensures KeptRows(old(repo.rows), repo.rows) && Added(old(repo.rows), repo.rows, summary.added)
    ensures Traced(summary, old(repo.rows), repo.rows, log.taken, rules)
    ensures Tied(summary, touched, log) && TriedInOrder(ListingOf(client), log, asked)
    ensures summary.created ==> Stored(repo.counters, summary) && repo.finishCalls == old(repo.finishCalls) + 1
    ensures summary.created ==> repo.finished == if threw then old(repo.finished) else old(repo.finished) + [summary.status]
    ensures !summary.created ==> !threw && summary.status == Failed && repo.finishCalls == old(repo.finishCalls) && log == EMPTY_LOG
    ensures RightStatus(summary, b, statsFail)
    ensures summary.stopped == Completed ==>
      IsLastPage(client, last) && asked == TopicsOn(client, last) && log.tried == AllPosts(client, asked)
      && summary.pages == summary.topics + last
    ensures summary.stopped == Completed && summary.status == Success ==>
      summary.topics == asked && log.taken == log.tried
    ensures summary.created ==>
      Timely(Some(summary.stopped), clock, clock(0), b, readings)
  {
    var since := clock(0);
    var created := repo.CreateImportRun();
    if !created {
      NotStartedKeeps(b, repo.rows, rules, client);
      return NOT_STARTED, {}, false, EMPTY_LOG, 0, 0, 0;
    }
    summary, touched, threw, log, asked, last, readings := RunCreated(repo, client, rules, newIds, b, clock, since, statsFail);
  }

  /** Everyone touched is the author of a post of a topic that was asked for. */
  lemma {:induction false} TouchedIsAnAuthor(client: Client, tried: Trace, asked: int, uid: Uid) returns (k: int, i: int)
    requires IsPrefix(tried, AllPosts(client, asked)) && uid in UidsOf(tried)
    ensures 0 <= k < asked && TopicDetail(client, k).Some?
    ensures 0 <= i < |TopicDetail(client, k).value| && TopicDetail(client, k).value[i].uid == uid
    decreases asked
  {
    PrefixUids(tried, AllPosts(client, asked));
    if TopicDetail(client, asked - 1).Some? {
      var more := TopicDetail(client, asked - 1).value;
      ExtendedUids(AllPosts(client, asked - 1), more);
      if j :| 0 <= j < |more| && more[j].uid == uid {
        return asked - 1, j;
      }
    }
    k, i := TouchedIsAnAuthor(client, AllPosts(client, asked - 1), asked - 1, uid);
  }

  lemma {:induction false} PrefixUids(a: Trace, b: Trace)
    requires IsPrefix(a, b)
    ensures UidsOf(a) <= UidsOf(b)
    decreases b
  {
    if a != b {
      PrefixUids(a, b.before);
    }
  }

  lemma {:induction false} ExtendedUids(t: Trace, posts: seq<ForumPost>)
    ensures UidsOf(Extended(t, posts)) == UidsOf(t) + set i | 0 <= i < |posts| :: posts[i].uid
    decreases |posts|
  {
    if posts != [] {
      ExtendedUids(t, posts[..|posts| - 1]);
    }
  }

  // --------------------------------------------------------------------
  // What becomes of a stored post
  // --------------------------------------------------------------------

  /** Some post of the trace is the one with that id, and its content has another hash. */
  predicate MeetsOther(t: Trace, pid: PostId, hash: Hash, rules: Rules) {
    t.Then? && ((t.post.pid == pid && rules.sha(t.post.content) != hash) || MeetsOther(t.before, pid, hash, rules))
  }

  /** The first post of the trace with that id. */
  function FirstWith(t: Trace, pid: PostId): Option<ForumPost> {
    match t
    case Nothing => None
    case Then(before, post) =>
      var first := FirstWith(before, pid);
      if first.Some? then first else if post.pid == pid then Some(post) else None
  }

  /** A post that was stored is marked diverged exactly when it is met with other content; nothing else happens to it. */
  lemma {:induction false} StoredPostIs(start: Rows, t: Trace, rules: Rules, pid: PostId)
    requires pid in start
    ensures var rows := EffectsOf(start, t, rules).rows;
      pid in rows && rows[pid] == if MeetsOther(t, pid, start[pid].hash, rules) then Diverged(start[pid]) else start[pid]
  {
    if t.Then? {
      StoredPostIs(start, t.before, rules, pid);
    }
  }

  /** A post that was not is stored exactly when it is met, as it is met first, and marked if met with other content later. */
  lemma {:induction false} NewPostIs(start: Rows, t: Trace, rules: Rules, pid: PostId)
    requires pid !in start
    ensures var rows, first := EffectsOf(start, t, rules).rows, FirstWith(t, pid);
      && (pid in rows <==> first.Some?)
      && (first.Some? ==>
            var c := first.value.content;
            var row := Inserted(c, rules.sha(c), rules.sanitize(c), rules.flagged(c));
            rows[pid] == if MeetsOther(t, pid, rules.sha(c), rules) then Diverged(row) else row)
  {
    if t.Then? {
      NewPostIs(start, t.before, rules, pid);
      if FirstWith(t.before, pid).None? {
        NotMet(t.before, pid);
      }
    }
  }

  lemma {:induction false} NotMet(t: Trace, pid: PostId)
    requires FirstWith(t, pid).None?
    ensures forall hash, rules: Rules :: !MeetsOther(t, pid, hash, rules)
  {
    if t.Then? {
      NotMet(t.before, pid);
    }
  }

  function Length(t: Trace): int {
    match t
    case Nothing => 0
    case Then(before, _) => Length(before) + 1
  }

  /** Every post taken is counted once: as new, as diverged, or as neither. */
  lemma {:induction false} EveryPostIsCounted(start: Rows, t: Trace, rules: Rules)
    ensures var e := EffectsOf(start, t, rules);
      && e.fetched == Length(t) && 0 <= e.added && 0 <= e.diverged && e.added + e.diverged <= e.fetched
      && (t.Then? ==>
            var before := EffectsOf(start, t.before, rules);
            && (e.added > before.added <==> t.post.pid !in before.rows)
            && (e.diverged > before.diverged
                <==> t.post.pid in before.rows && before.rows[t.post.pid].hash != rules.sha(t.post.content)))
  {
    if t.Then? {
      EveryPostIsCounted(start, t.before, rules);
    }
  }
}
