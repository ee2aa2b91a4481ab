/**
 Idempotency keys (apps/guess/src/http/idempotency.ts): any number of requests, interleaved
 at their await points, over the in-memory repository.
 */
module Idempotency {
  import opened Options

  type Hash = int
  type Caller = int

  datatype Response = Response(status: int, body: int)

  datatype Record = Record(hash: Hash, response: Option<Response>)

  // --------------------------------------------------------------------
  // Joined keys
  // --------------------------------------------------------------------

  predicate IsKeyChar(c: char) {
    'A' <= c <= 'Z' || 'a' <= c <= 'z' || '0' <= c <= '9' || c == '_' || c == '-'
  }

  /** What request validation accepts as a key. */
  predicate IsKey(key: string) {
    8 <= |key| <= 128 && forall i | 0 <= i < |key| :: IsKeyChar(key[i])
  }

  function Joined(key: string, endpoint: string): string {
    key + ":" + endpoint
  }

  /** No two pairs of a valid key and an endpoint share a map key. */
  lemma JoinedIsInjective(k1: string, e1: string, k2: string, e2: string)
    requires IsKey(k1) && IsKey(k2) && Joined(k1, e1) == Joined(k2, e2)
    ensures k1 == k2 && e1 == e2
  {
    var j := Joined(k1, e1);
    FirstColon(k1, e1);
    FirstColon(k2, e2);
    assert k1 == j[..|k1|] && k2 == j[..|k2|];
    assert e1 == j[|k1| + 1..] && e2 == j[|k2| + 1..];
  }

  /** The first colon ends the key. */
  lemma FirstColon(key: string, endpoint: string)
    requires IsKey(key)
    ensures Joined(key, endpoint)[|key|] == ':'
    ensures forall i | 0 <= i < |key| :: Joined(key, endpoint)[i] != ':'
  {
    forall i | 0 <= i < |key| ensures Joined(key, endpoint)[i] != ':' {
      assert IsKeyChar(key[i]);
    }
  }

  // --------------------------------------------------------------------
  // The repository
  // --------------------------------------------------------------------

  type Records = map<string, Record>

  function Reserved(records: Records, k: string, hash: Hash): Records {
    if k in records then records else records[k := Record(hash, None)]
  }

  function CompletedWith(records: Records, k: string, r: Response): Records {
    if k in records then records[k := records[k].(response := Some(r))] else records
  }

  class InMemoryRepository {
    var records: Records

    constructor ()
      ensures records == map[]
    {
      records := map[];
    }

    method ReserveOrGet(key: string, endpoint: string, hash: Hash) returns (created: bool, record: Record)
      modifies this
      ensures records == Reserved(old(records), Joined(key, endpoint), hash)
      ensures created == (Joined(key, endpoint) !in old(records)) && record == records[Joined(key, endpoint)]
    {
      var k := Joined(key, endpoint);
      if k in records {
        return false, records[k];
      }
      record := Record(hash, None);
      records := records[k := record];
      created := true;
    }

    method CompleteResponse(key: string, endpoint: string, r: Response)
      modifies this
      ensures records == CompletedWith(old(records), Joined(key, endpoint), r)
    {
      var k := Joined(key, endpoint);
      if k in records {
        records := records[k := records[k].(response := Some(r))];
      }
    }
  }

  // --------------------------------------------------------------------
  // Interleaved requests
  // --------------------------------------------------------------------

  datatype Outcome = Fresh(response: Response) | Replayed(again: Response) | Conflict | InFlight | Threw

  /**
   Arrived: before the reservation. Looking: found a record that is not its own.
   Running: reserved, and inside run(). Ran: run() returned, the response not stored yet.
   */
  datatype Phase = Arrived | Looking | Running | Ran(result: Response) | Ended(outcome: Outcome)

  datatype Request = Request(key: string, endpoint: string, hash: Hash, phase: Phase)

  datatype State = State(records: Records, requests: map<Caller, Request>)

  datatype Action =
    | Arrive(c: Caller, key: string, endpoint: string, hash: Hash)
    | Reserve(c: Caller)
    | Decide(c: Caller)
    | Return(c: Caller, result: Response)
    | Throw(c: Caller)
    | Store(c: Caller)

  function KeyOf(q: Request): string {
    Joined(q.key, q.endpoint)
  }

  function Decision(record: Record, hash: Hash): Outcome {
    if record.hash != hash then Conflict
    else if record.response.Some? then Replayed(record.response.value)
    else InFlight
  }

  predicate At(s: State, c: Caller, phase: Phase) {
    c in s.requests && s.requests[c].phase == phase
  }

  predicate Enabled(s: State, act: Action) {
    match act
    case Arrive(c, key, _, _) => c !in s.requests && IsKey(key)
    case Reserve(c) => At(s, c, Arrived)
    case Decide(c) => At(s, c, Looking) && KeyOf(s.requests[c]) in s.records
    case Return(c, _) => At(s, c, Running)
    case Throw(c) => At(s, c, Running)
    case Store(c) => c in s.requests && s.requests[c].phase.Ran?
  }

  function Moved(s: State, c: Caller, phase: Phase): State
    requires c in s.requests
  {
    s.(requests := s.requests[c := s.requests[c].(phase := phase)])
  }

  function Next(s: State, act: Action): State
    requires Enabled(s, act)
  {
    match act
    case Arrive(c, key, endpoint, hash) => s.(requests := s.requests[c := Request(key, endpoint, hash, Arrived)])
    case Reserve(c) =>
      var k := KeyOf(s.requests[c]);
      Moved(s.(records := Reserved(s.records, k, s.requests[c].hash)), c, if k in s.records then Looking else Running)
    case Decide(c) => Moved(s, c, Ended(Decision(s.records[KeyOf(s.requests[c])], s.requests[c].hash)))
    case Return(c, result) => Moved(s, c, Ran(result))
    case Throw(c) => Moved(s, c, Ended(Threw))
    case Store(c) =>
      var r := s.requests[c].phase.result;
      Moved(s.(records := CompletedWith(s.records, KeyOf(s.requests[c]), r)), c, Ended(Fresh(r)))
  }

  const INIT := State(map[], map[])

  ghost predicate IsRun(run: seq<State>) {
    run != [] && run[0] == INIT && forall i | 0 <= i < |run| - 1 :: IsStep(run, i)
  }

  ghost predicate IsStep(run: seq<State>, i: int)
    requires 0 <= i < |run| - 1
  {
    exists act :: Enabled(run[i], act) && run[i + 1] == Next(run[i], act)
  }

  // --------------------------------------------------------------------
  // The invariant
  // --------------------------------------------------------------------

  /** The request went into run(). */
  predicate HasRun(q: Request) {
    q.phase.Running? || q.phase.Ran? || (q.phase.Ended? && (q.phase.outcome.Fresh? || q.phase.outcome.Threw?))
  }

  /** What the record of the request's key says, given that the request reserved it. */
  predicate OwnerOk(records: Records, q: Request) {
    HasRun(q) ==>
      && KeyOf(q) in records && records[KeyOf(q)].hash == q.hash
      && records[KeyOf(q)].response == if q.phase.Ended? && q.phase.outcome.Fresh? then Some(q.phase.outcome.response) else None
  }

  /** What it says, given that the request found it. */
  predicate GuestOk(records: Records, q: Request) {
    && (q.phase.Looking? ==> KeyOf(q) in records)
    && (q.phase.Ended? && !HasRun(q) ==>
          && KeyOf(q) in records
          && (q.phase.outcome.Conflict? <==> records[KeyOf(q)].hash != q.hash)
          && (q.phase.outcome.Replayed? ==> records[KeyOf(q)].response == Some(q.phase.outcome.again)))
  }

  predicate Owned(requests: map<Caller, Request>, k: string) {
    exists c | c in requests :: HasRun(requests[c]) && KeyOf(requests[c]) == k
  }

  ghost predicate Inv(s: State) {
    && (forall c | c in s.requests :: IsKey(s.requests[c].key))
    && (forall c | c in s.requests :: OwnerOk(s.records, s.requests[c]))
    && (forall c | c in s.requests :: GuestOk(s.records, s.requests[c]))
    && (forall k | k in s.records :: Owned(s.requests, k))
    && (forall c, d | c in s.requests && d in s.requests && c != d :: Apart(s.requests[c], s.requests[d]))
  }

  /** Two requests do not both run under one key. */
  predicate Apart(p: Request, q: Request) {
    HasRun(p) && HasRun(q) ==> KeyOf(p) != KeyOf(q)
  }

  lemma OwnedStays(requests: map<Caller, Request>, c: Caller, q: Request, k: string)
    requires Owned(requests, k)
    requires c in requests ==> KeyOf(q) == KeyOf(requests[c]) && (HasRun(requests[c]) ==> HasRun(q))
    ensures Owned(requests[c := q], k)
  {
    var d :| d in requests && HasRun(requests[d]) && KeyOf(requests[d]) == k;
    assert HasRun(requests[c := q][d]);
  }

  /** A step of one request that leaves the records alone and does not enter run(). */
  lemma MoveKeepsInv(s: State, c: Caller, q: Request)
    requires Inv(s) && IsKey(q.key) && OwnerOk(s.records, q) && GuestOk(s.records, q)
    requires c in s.requests ==> KeyOf(q) == KeyOf(s.requests[c])
    requires HasRun(q) <==> c in s.requests && HasRun(s.requests[c])
    ensures Inv(s.(requests := s.requests[c := q]))
  {
    var t := s.(requests := s.requests[c := q]);
    forall k | k in s.records ensures Owned(t.requests, k) {
      OwnedStays(s.requests, c, q, k);
    }
    forall d, e | d in t.requests && e in t.requests && d != e ensures Apart(t.requests[d], t.requests[e]) {
      if d in s.requests && e in s.requests {
        assert Apart(s.requests[d], s.requests[e]);
      }
    }
  }

  /** An owner's record is not the one of a key nobody has reserved. */
  lemma RecordsGrow(s: State, k: string, hash: Hash, q: Request)
    requires k !in s.records && OwnerOk(s.records, q) && GuestOk(s.records, q)
    ensures OwnerOk(Reserved(s.records, k, hash), q) && GuestOk(Reserved(s.records, k, hash), q)
    ensures HasRun(q) ==> KeyOf(q) != k
  {
  }

  lemma ReserveKeepsInv(s: State, c: Caller)
    requires Inv(s) && Enabled(s, Reserve(c))
    ensures Inv(Next(s, Reserve(c)))
  {
    var q := s.requests[c];
    var k := KeyOf(q);
    if k in s.records {
      MoveKeepsInv(s, c, q.(phase := Looking));
    } else {
      var t := Next(s, Reserve(c));
      forall d | d in s.requests && d != c
        ensures OwnerOk(t.records, s.requests[d]) && GuestOk(t.records, s.requests[d])
        ensures HasRun(s.requests[d]) ==> KeyOf(s.requests[d]) != k
      {
        RecordsGrow(s, k, q.hash, s.requests[d]);
      }
      forall j | j in t.records ensures Owned(t.requests, j) {
        if j in s.records {
          OwnedStays(s.requests, c, q.(phase := Running), j);
        } else {
          assert HasRun(t.requests[c]);
        }
      }
      forall d, e | d in t.requests && e in t.requests && d != e ensures Apart(t.requests[d], t.requests[e]) {
        assert d != c && e != c ==> Apart(s.requests[d], s.requests[e]);
      }
    }
  }

  /** Storing one owner's response is no business of another request's. */
  lemma StoredElsewhere(records: Records, k: string, r: Response, q: Request)
    requires OwnerOk(records, q) && GuestOk(records, q) && k in records && records[k].response.None?
    requires HasRun(q) ==> KeyOf(q) != k
    ensures OwnerOk(CompletedWith(records, k, r), q) && GuestOk(CompletedWith(records, k, r), q)
  {
  }

  lemma StoreKeepsInv(s: State, c: Caller)
    requires Inv(s) && Enabled(s, Store(c))
    ensures Inv(Next(s, Store(c)))
  {
    var q := s.requests[c];
    var k, r := KeyOf(q), q.phase.result;
    var p := q.(phase := Ended(Fresh(r)));
    var t := Next(s, Store(c));
    assert OwnerOk(s.records, q);
    forall d | d in s.requests && d != c
      ensures OwnerOk(t.records, s.requests[d]) && GuestOk(t.records, s.requests[d])
    {
      assert Apart(s.requests[c], s.requests[d]);
      StoredElsewhere(s.records, k, r, s.requests[d]);
    }
    forall j | j in t.records ensures Owned(t.requests, j) {
      OwnedStays(s.requests, c, p, j);
    }
    forall d, e | d in t.requests && e in t.requests && d != e ensures Apart(t.requests[d], t.requests[e]) {
      assert Apart(s.requests[d], s.requests[e]);
    }
  }

  lemma NextKeepsInv(s: State, act: Action)
    requires Inv(s) && Enabled(s, act)
    ensures Inv(Next(s, act))
  {
    match act
    case Arrive(c, key, endpoint, hash) => MoveKeepsInv(s, c, Request(key, endpoint, hash, Arrived));
    case Reserve(c) => ReserveKeepsInv(s, c);
    case Decide(c) =>
      var q := s.requests[c];
      MoveKeepsInv(s, c, q.(phase := Ended(Decision(s.records[KeyOf(q)], q.hash))));
    case Return(c, result) =>
      assert OwnerOk(s.records, s.requests[c]);
      MoveKeepsInv(s, c, s.requests[c].(phase := Ran(result)));
    case Throw(c) =>
      assert OwnerOk(s.records, s.requests[c]);
      MoveKeepsInv(s, c, s.requests[c].(phase := Ended(Threw)));
    case Store(c) => StoreKeepsInv(s, c);
  }

  lemma {:induction false} RunKeepsInv(run: seq<State>, i: nat)
    requires IsRun(run) && i < |run|
    ensures Inv(run[i])
  {
    if i > 0 {
      RunKeepsInv(run, i - 1);
      assert IsStep(run, i - 1);
      var act :| Enabled(run[i - 1], act) && run[i] == Next(run[i - 1], act);
      NextKeepsInv(run[i - 1], act);
    }
  }

  // --------------------------------------------------------------------
  // Every run
  // --------------------------------------------------------------------

  /** At most one request of each key and endpoint ever goes into run(). */
  lemma RunsAtMostOnce(run: seq<State>, i: nat, c: Caller, d: Caller)
    requires IsRun(run) && i < |run| && c in run[i].requests && d in run[i].requests && c != d
    requires HasRun(run[i].requests[c]) && HasRun(run[i].requests[d])
    ensures run[i].requests[c].key != run[i].requests[d].key || run[i].requests[c].endpoint != run[i].requests[d].endpoint
  {
    RunKeepsInv(run, i);
    assert Apart(run[i].requests[c], run[i].requests[d]);
  }

  /**
   Every answer that is not a first one refers to the one request that ran: a replay returns exactly that
   run's response and its payload was the same, and the answer is a conflict exactly when the payload differs.
   */
  lemma AnswersReferToTheRun(run: seq<State>, i: nat, c: Caller) returns (d: Caller)
    requires IsRun(run) && i < |run| && c in run[i].requests
    requires run[i].requests[c].phase.Ended? && !HasRun(run[i].requests[c])
    ensures d in run[i].requests && HasRun(run[i].requests[d])
    ensures var p, q := run[i].requests[c], run[i].requests[d];
      && q.key == p.key && q.endpoint == p.endpoint
      && (p.phase.outcome.Conflict? <==> q.hash != p.hash)
      && (p.phase.outcome.Replayed? ==> q.phase == Ended(Fresh(p.phase.outcome.again)))
  {
    RunKeepsInv(run, i);
    var s := run[i];
    var p := s.requests[c];
    assert GuestOk(s.records, p);
    assert Owned(s.requests, KeyOf(p));
    d :| d in s.requests && HasRun(s.requests[d]) && KeyOf(s.requests[d]) == KeyOf(p);
    assert OwnerOk(s.records, s.requests[d]);
    JoinedIsInjective(p.key, p.endpoint, s.requests[d].key, s.requests[d].endpoint);
  }

  lemma {:induction false} EndedStays(run: seq<State>, i: nat, j: nat, c: Caller)
    requires IsRun(run) && i <= j < |run| && c in run[i].requests && run[i].requests[c].phase.Ended?
    ensures c in run[j].requests && run[j].requests[c] == run[i].requests[c]
    decreases j
  {
    if i < j {
      EndedStays(run, i, j - 1, c);
      assert IsStep(run, j - 1);
      var act :| Enabled(run[j - 1], act) && run[j] == Next(run[j - 1], act);
    }
  }

  /** After run() threw, its key is never answered again: every later decision is a conflict or "in flight". */
  lemma ThrowBlocksTheKey(run: seq<State>, i: nat, j: nat, c: Caller, d: Caller)
    requires IsRun(run) && i <= j < |run| && At(run[i], c, Ended(Threw)) && c != d
    requires d in run[j].requests && KeyOf(run[j].requests[d]) == KeyOf(run[i].requests[c])
    requires run[j].requests[d].phase.Ended?
    ensures run[j].requests[d].phase.outcome
         == if run[j].requests[d].hash == run[i].requests[c].hash then InFlight else Conflict
  {
    EndedStays(run, i, j, c);
    RunKeepsInv(run, j);
    var s := run[j];
    assert OwnerOk(s.records, s.requests[c]) && Apart(s.requests[c], s.requests[d]) && GuestOk(s.records, s.requests[d]);
  }

  // --------------------------------------------------------------------
  // What a repeat is answered
  // --------------------------------------------------------------------

  predicate SameKey(p: Request, q: Request) {
    p.key == q.key && p.endpoint == q.endpoint
  }

  /** The request whose run() the record of a key stands for. */
  lemma OwnerOf(run: seq<State>, j: nat, q: Request) returns (d: Caller)
    requires IsRun(run) && j < |run| && IsKey(q.key) && KeyOf(q) in run[j].records
    ensures d in run[j].requests && HasRun(run[j].requests[d]) && SameKey(run[j].requests[d], q)
    ensures OwnerOk(run[j].records, run[j].requests[d])
  {
    RunKeepsInv(run, j);
    var s := run[j];
    assert Owned(s.requests, KeyOf(q));
    d :| d in s.requests && HasRun(s.requests[d]) && KeyOf(s.requests[d]) == KeyOf(q);
    JoinedIsInjective(q.key, q.endpoint, s.requests[d].key, s.requests[d].endpoint);
  }

  /** A request goes into run() exactly when none of its key and endpoint has; otherwise it looks at the record. */
  lemma RunsIff(run: seq<State>, j: nat, c: Caller)
    requires IsRun(run) && j < |run| && Enabled(run[j], Reserve(c))
    ensures var s, t := run[j], Next(run[j], Reserve(c));
      && t.requests[c].phase
         == (if exists d | d in s.requests :: HasRun(s.requests[d]) && SameKey(s.requests[d], s.requests[c]) then Looking else Running)
      && SameKey(t.requests[c], s.requests[c]) && t.requests[c].hash == s.requests[c].hash
  {
    RunKeepsInv(run, j);
    var s := run[j];
    if KeyOf(s.requests[c]) in s.records {
      var d := OwnerOf(run, j, s.requests[c]);
    } else {
      forall d | d in s.requests && HasRun(s.requests[d]) ensures !SameKey(s.requests[d], s.requests[c]) {
        assert OwnerOk(s.records, s.requests[d]);
      }
    }
  }

  /**
   What a request that decides at step j is answered, by the request d that ran: a conflict exactly when the payload is
   another one; else a replay of d's response exactly when d has stored it by then, and "in flight" exactly when not.
   */
  lemma DecisionIff(run: seq<State>, j: nat, c: Caller, r: Response) returns (d: Caller)
    requires IsRun(run) && j < |run| && Enabled(run[j], Decide(c))
    ensures d in run[j].requests && HasRun(run[j].requests[d]) && SameKey(run[j].requests[d], run[j].requests[c])
    ensures var p, q := run[j].requests[c], run[j].requests[d];
      var after := Next(run[j], Decide(c)).requests[c].phase;
      && (after == Ended(Conflict) <==> p.hash != q.hash)
      && (after == Ended(Replayed(r)) <==> p.hash == q.hash && q.phase == Ended(Fresh(r)))
      && (after == Ended(InFlight) <==> p.hash == q.hash && !(q.phase.Ended? && q.phase.outcome.Fresh?))
  {
    RunKeepsInv(run, j);
    d := OwnerOf(run, j, run[j].requests[c]);
  }

  /** Every repeat that arrives at the repository after the first one is complete gets the first one's response. */
  lemma LateRepeatIsReplayed(run: seq<State>, i: nat, j: nat, d: Caller, c: Caller, r: Response)
    requires IsRun(run) && i <= j < |run| && At(run[i], d, Ended(Fresh(r)))
    requires c in run[j].requests && SameKey(run[j].requests[c], run[i].requests[d])
    requires run[j].requests[c].hash == run[i].requests[d].hash
    ensures Enabled(run[j], Reserve(c)) ==> Next(run[j], Reserve(c)).requests[c].phase == Looking
    ensures Enabled(run[j], Decide(c)) ==> Next(run[j], Decide(c)).requests[c].phase == Ended(Replayed(r))
  {
    EndedStays(run, i, j, d);
    if Enabled(run[j], Reserve(c)) {
      RunsIff(run, j, c);
    }
    if Enabled(run[j], Decide(c)) {
      var e := DecisionIff(run, j, c, r);
      RunKeepsInv(run, j);
      assert e != d ==> Apart(run[j].requests[e], run[j].requests[d]);
    }
  }

  /** What run() returned is what its request is answered, and nothing else. */
  lemma {:induction false} ReturnedIsAnswered(run: seq<State>, i: nat, j: nat, c: Caller, result: Response)
    requires IsRun(run) && i < j < |run| && Enabled(run[i], Return(c, result)) && run[i + 1] == Next(run[i], Return(c, result))
    ensures At(run[j], c, Ran(result)) || At(run[j], c, Ended(Fresh(result)))
    decreases j
  {
    if i + 1 < j {
      ReturnedIsAnswered(run, i, j - 1, c, result);
      assert IsStep(run, j - 1);
      var act :| Enabled(run[j - 1], act) && run[j] == Next(run[j - 1], act);
    }
  }

  /** Whatever is still to do can be done: no request waits for another. */
  lemma NobodyWaits(run: seq<State>, j: nat, c: Caller, result: Response) returns (act: Action)
    requires IsRun(run) && j < |run| && c in run[j].requests && !run[j].requests[c].phase.Ended?
    ensures Enabled(run[j], act) && Next(run[j], act).requests[c].phase != run[j].requests[c].phase
  {
    RunKeepsInv(run, j);
    assert GuestOk(run[j].records, run[j].requests[c]);
    match run[j].requests[c].phase
    case Arrived => act := Reserve(c);
    case Looking => act := Decide(c);
    case Running => act := Return(c, result);
    case Ran(_) => act := Store(c);
  }
}
