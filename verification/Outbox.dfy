/** The transactional outbox as a protocol: two tables, a broker log, and any number of publisher
    replicas with open drain transactions. Steps interleave freely. */
module Outbox {
  import opened Basics
  import opened Backoff

  type Id = nat
  type Tenant = nat
  type Replica = nat

  datatype Config = Config(maxAttempts: int, batchSize: int, baseBackoff: int, maxBackoff: int)

  /** Zero or negative settings fall back to the defaults; a negative base means no backoff. */
  function Normalize(c: Config): Config {
    Config(
      if c.maxAttempts <= 0 then 5 else c.maxAttempts,
      if c.batchSize <= 0 then 100 else c.batchSize,
      if c.baseBackoff == 0 then 2 * SECOND else c.baseBackoff,
      if c.maxBackoff <= 0 then 300 * SECOND else c.maxBackoff)
  }

  /** The defaults, in seconds: five attempts, batches of a hundred, two seconds doubling up to five
      minutes. What is set stays as it is. */
  lemma DefaultsDocumented(c: Config)
    ensures Normalize(Config(0, 0, 0, 0)) == Config(5, 100, 2 * 1_000_000_000, 300 * 1_000_000_000)
    ensures c.maxAttempts > 0 && c.batchSize > 0 && c.baseBackoff != 0 && c.maxBackoff > 0 ==> Normalize(c) == c
    ensures Normalize(Normalize(c)) == Normalize(c) && Normalize(c).maxAttempts >= 1 && Normalize(c).batchSize >= 1
  {
  }

  // ---- tables --------------------------------------------------------------

  /** What the producer wrote; it travels unchanged through both tables. */
  datatype Event = Event(tenant: Tenant, kind: string, payload: string, createdAt: int)

  datatype Row = Row(
    event: Event, trace: Option<string>, published: bool, publishedAt: Option<int>,
    attempts: nat, transientFailures: nat, nextAttemptAt: Option<int>, lastError: Option<string>)

  datatype DeadRow = DeadRow(event: Event, attempts: nat, lastError: string, deadAt: int)

  type OutboxTable = map<Id, Row>
  type DlqTable = map<Id, DeadRow>

  function FreshRow(e: Event, trace: Option<string>): Row {
    Row(e, trace, false, None, 0, 0, None, None)
  }

  predicate Due(r: Row, now: int) {
    !r.published && (r.nextAttemptAt == None || r.nextAttemptAt.value <= now)
  }

  // ---- one drain transaction -----------------------------------------------

  /** The result of one publish. `stored` says whether the broker kept the message although the
      client saw an error, as a publish that timed out may have been. */
  datatype Outcome =
    | Accepted
    | Transient(stored: bool, error: string)
    | Rejected(stored: bool, error: string)

  predicate Stored(o: Outcome) { o.Accepted? || o.stored }

  /** The write a transaction makes for one claimed row. */
  datatype Mark =
    | MarkPublished
    | MarkDeferred(failures: nat, next: int, error: string)
    | MarkRetry(attempts: nat, next: int, error: string)
    | MarkDead(attempts: nat, error: string)

  function MarkOf(c: Config, at: int, r: Row, o: Outcome): Mark {
    match o
    case Accepted => MarkPublished
    case Transient(_, e) =>
      var n := r.transientFailures + 1;
      MarkDeferred(n, at + Delay(c.baseBackoff, n, Min(c.maxBackoff, DUPLICATE_WINDOW)), e)
    case Rejected(_, e) =>
      var n := r.attempts + 1;
      if n >= c.maxAttempts then MarkDead(n, e)
      else MarkRetry(n, at + Delay(c.baseBackoff, n, c.maxBackoff), e)
  }

  function Marked(r: Row, m: Mark, at: int): Row {
    match m
    case MarkPublished => r.(published := true, publishedAt := Some(at))
    case MarkDeferred(n, next, e) => r.(transientFailures := n, nextAttemptAt := Some(next), lastError := Some(e))
    case MarkRetry(n, next, e) => r.(attempts := n, nextAttemptAt := Some(next), lastError := Some(e))
    case MarkDead(_, _) => r
  }

  function ApplyOutbox(t: OutboxTable, marks: map<Id, Mark>, at: int): OutboxTable {
    map id | id in t && !(id in marks && marks[id].MarkDead?) ::
      if id in marks then Marked(t[id], marks[id], at) else t[id]
  }

  function ApplyDlq(t: OutboxTable, dlq: DlqTable, marks: map<Id, Mark>, at: int): DlqTable {
    dlq + map id | id in marks && marks[id].MarkDead? && id in t ::
            DeadRow(t[id].event, marks[id].attempts, marks[id].error, at)
  }

  /** An open transaction: the claimed rows in order, their values at claim time, the outcomes so
      far (one per processed row) and the writes they caused. A transient outcome ends the loop. */
  datatype Txn = Txn(ids: seq<Id>, rows: map<Id, Row>, at: int, log: seq<Outcome>, marks: map<Id, Mark>)

  predicate Stopped(t: Txn) {
    |t.log| >= |t.ids| || (|t.log| > 0 && t.log[|t.log| - 1].Transient?)
  }

  function Process(c: Config, t: Txn, o: Outcome): Txn
    requires !Stopped(t) && t.ids[|t.log|] in t.rows
  {
    var id := t.ids[|t.log|];
    t.(log := t.log + [o], marks := t.marks[id := MarkOf(c, t.at, t.rows[id], o)])
  }

  // ---- the world and its steps ----------------------------------------------

  /** `inserted`, `cleaned` and `failures` are history: what was ever inserted, what cleanup
      deleted, and how many non-transient failures of each event were committed since it last
      entered the outbox. No step reads them. */
  datatype World = World(
    now: int, outbox: OutboxTable, dlq: DlqTable, broker: seq<Id>, open: map<Replica, Txn>,
    inserted: map<Id, Event>, cleaned: set<Id>, failures: map<Id, nat>)

  function Init(now: int): World {
    World(now, map[], map[], [], map[], map[], {}, map[])
  }

  datatype Action =
    | Insert(id: Id, event: Event, trace: Option<string>)
    | Tick(d: nat)
    | Claim(rep: Replica, ids: seq<Id>)
    | Publish(rep: Replica, outcome: Outcome)
    | Commit(rep: Replica)
    | Abort(rep: Replica)
    | Cleanup(tenant: Tenant, cutoff: int)
    | Replay(picked: set<Id>)

  predicate Locked(w: World, id: Id) { exists r <- w.open :: id in w.open[r].ids }

  /** `outbox_claim_batch`: due, unpublished, unlocked rows, at most the batch size. */
  predicate CanClaim(c: Config, w: World, rep: Replica, ids: seq<Id>) {
    && rep !in w.open && Distinct(ids) && |ids| <= Min(c.batchSize, 1000)
    && forall id <- ids :: id in w.outbox && Due(w.outbox[id], w.now) && !Locked(w, id)
  }

  function DoInsert(w: World, id: Id, e: Event, trace: Option<string>): World {
    if id in w.inserted then w
    else w.(outbox := w.outbox[id := FreshRow(e, trace)],
            inserted := w.inserted[id := e], failures := w.failures[id := 0])
  }

  function DoClaim(c: Config, w: World, rep: Replica, ids: seq<Id>): World {
    if !CanClaim(c, w, rep, ids) then w
    else w.(open := w.open[rep := Txn(ids, map id | id in ids && id in w.outbox :: w.outbox[id], w.now, [], map[])])
  }

  predicate CanPublish(w: World, rep: Replica) {
    rep in w.open && var t := w.open[rep]; !Stopped(t) && t.ids[|t.log|] in t.rows
  }

  /** The broker hears of a publish at once; the tables only when the transaction commits. */
  function DoPublish(c: Config, w: World, rep: Replica, o: Outcome): World {
    if !CanPublish(w, rep) then w
    else
      var t := w.open[rep];
      w.(open := w.open[rep := Process(c, t, o)],
         broker := if Stored(o) then w.broker + [t.ids[|t.log|]] else w.broker)
  }

  function DoCommit(w: World, rep: Replica): World {
    if rep !in w.open || !Stopped(w.open[rep]) then w
    else
      var t := w.open[rep];
      w.(outbox := ApplyOutbox(w.outbox, t.marks, t.at), dlq := ApplyDlq(w.outbox, w.dlq, t.marks, t.at),
         open := w.open - {rep}, failures := AddFailures(w.failures, t))
  }

  function DoCleanup(w: World, tenant: Tenant, cutoff: int): World {
    var gone := Expired(w.outbox, tenant, cutoff);
    w.(outbox := w.outbox - gone, cleaned := w.cleaned + gone)
  }

  function Requeued(dlq: DlqTable, moved: set<Id>): OutboxTable {
    map id | id in moved && id in dlq :: FreshRow(dlq[id].event, None)
  }

  function DoReplay(w: World, picked: set<Id>): World {
    var moved := picked * w.dlq.Keys;
    w.(outbox := w.outbox + Requeued(w.dlq, moved), dlq := w.dlq - moved,
       failures := w.failures + map id | id in moved :: 0)
  }

  /** A disabled step leaves the world as it is, so every sequence of actions is a run. */
  function Next(c: Config, w: World, a: Action): World {
    match a
    case Insert(id, e, trace) => DoInsert(w, id, e, trace)
    case Tick(d) => w.(now := w.now + d)
    case Claim(rep, ids) => DoClaim(c, w, rep, ids)
    case Publish(rep, o) => DoPublish(c, w, rep, o)
    case Commit(rep) => DoCommit(w, rep)
    case Abort(rep) => w.(open := w.open - {rep})
    case Cleanup(tenant, cutoff) => DoCleanup(w, tenant, cutoff)
    case Replay(picked) => DoReplay(w, picked)
  }

  function Expired(t: OutboxTable, tenant: Tenant, cutoff: int): set<Id> {
    set id | id in t && t[id].event.tenant == tenant && t[id].published
             && t[id].publishedAt.Some? && t[id].publishedAt.value < cutoff
  }

  /** Counted independently of the marks: how often the transaction's log rejected `id`. */
  function Rejections(ids: seq<Id>, log: seq<Outcome>, id: Id): nat
    requires |log| <= |ids|
  {
    if log == [] then 0
    else (if ids[0] == id && log[0].Rejected? then 1 else 0) + Rejections(ids[1..], log[1..], id)
  }

  function AddFailures(f: map<Id, nat>, t: Txn): map<Id, nat> {
    map id | id in f :: f[id] + if |t.log| <= |t.ids| then Rejections(t.ids, t.log, id) else 0
  }

  function Run(c: Config, w: World, actions: seq<Action>): World
    decreases |actions|
  {
    if actions == [] then w else Run(c, Next(c, w, actions[0]), actions[1..])
  }

  lemma {:induction false} RunConcat(c: Config, w: World, a: seq<Action>, b: seq<Action>)
    ensures Run(c, w, a + b) == Run(c, Run(c, w, a), b)
    decreases |a|
  {
    hide Next;
    if a == [] {
      assert a + b == b;
    } else {
      assert (a + b)[0] == a[0] && (a + b)[1..] == a[1..] + b;
      RunConcat(c, Next(c, w, a[0]), a[1..], b);
    }
  }

  // ---- the invariant ---------------------------------------------------------

  ghost predicate TxnInv(c: Config, outbox: OutboxTable, broker: seq<Id>, t: Txn) {
    && Distinct(t.ids) && |t.log| <= |t.ids|
    && (forall id <- t.ids :: id in outbox && !outbox[id].published && id in t.rows && t.rows[id] == outbox[id])
    && t.marks.Keys == (set k | 0 <= k < |t.log| :: t.ids[k])
    && (forall k :: 0 <= k < |t.log| ==> t.marks[t.ids[k]] == MarkOf(c, t.at, t.rows[t.ids[k]], t.log[k]))
    && (forall k :: 0 <= k < |t.log| && Stored(t.log[k]) ==> t.ids[k] in broker)
  }

  ghost predicate TxnsInv(c: Config, outbox: OutboxTable, broker: seq<Id>, open: map<Replica, Txn>) {
    forall r <- open :: TxnInv(c, outbox, broker, open[r])
  }

  /** A transaction depends only on its own rows and on the broker keeping what it has. */
  lemma TxnFrame(c: Config, outbox: OutboxTable, outbox': OutboxTable, broker: seq<Id>, broker': seq<Id>, t: Txn)
    requires TxnInv(c, outbox, broker, t)
    requires forall id <- t.ids :: id in outbox' && outbox'[id] == outbox[id]
    requires broker <= broker'
    ensures TxnInv(c, outbox', broker', t)
  {
    assert forall id <- broker :: id in broker';
  }

  lemma TxnsFrame(c: Config, outbox: OutboxTable, outbox': OutboxTable, broker: seq<Id>, open: map<Replica, Txn>)
    requires TxnsInv(c, outbox, broker, open)
    requires forall r <- open, id <- open[r].ids :: id in outbox' && outbox'[id] == outbox[id]
    ensures TxnsInv(c, outbox', broker, open)
  {
    forall r | r in open
      ensures TxnInv(c, outbox', broker, open[r])
    {
      TxnFrame(c, outbox, outbox', broker, broker, open[r]);
    }
  }

  /** Every inserted event is in exactly one place, unchanged; what was marked published or cleaned
      had reached the broker. */
  ghost predicate Placed(w: World) {
    forall id: Id :: PlacedAt(w, id)
  }

  ghost predicate PlacedAt(w: World, id: Id) {
    && (id in w.outbox ==>
          && id !in w.dlq && id !in w.cleaned && id in w.inserted
          && w.outbox[id].event == w.inserted[id] && (w.outbox[id].published ==> id in w.broker))
    && (id in w.dlq ==>
          && id !in w.outbox && id !in w.cleaned && id in w.inserted
          && w.dlq[id].event == w.inserted[id])
    && (id in w.cleaned ==> id !in w.outbox && id !in w.dlq && id in w.inserted && id in w.broker)
    && (id in w.inserted ==> id in w.outbox || id in w.dlq || id in w.cleaned)
  }

  ghost predicate Counted(c: Config, w: World) {
    forall id: Id :: CountedAt(c, w, id)
  }

  ghost predicate CountedAt(c: Config, w: World, id: Id) {
    && (id in w.inserted ==> id in w.failures)
    && (id in w.outbox ==> id in w.failures && w.outbox[id].attempts == w.failures[id] < c.maxAttempts)
    && (id in w.dlq ==> id in w.failures && w.dlq[id].attempts == w.failures[id] == c.maxAttempts)
  }

  ghost predicate LocksDisjoint(open: map<Replica, Txn>) {
    forall r, s, id :: r in open && s in open && r != s && id in open[r].ids ==> id !in open[s].ids
  }

  ghost predicate Inv(c: Config, w: World) {
    Placed(w) && Counted(c, w) && LocksDisjoint(w.open) && TxnsInv(c, w.outbox, w.broker, w.open)
  }

  /** Steps that leave the tables alone and only add to the broker keep every event in place. */
  lemma TablesUntouched(c: Config, w: World, w': World)
    requires Placed(w) && Counted(c, w)
    requires w'.(now := w.now, open := w.open, broker := w.broker) == w && w.broker <= w'.broker
    ensures Placed(w') && Counted(c, w')
  {
    forall id: Id
      ensures PlacedAt(w', id) && CountedAt(c, w', id)
    {
      assert PlacedAt(w, id) && CountedAt(c, w, id);
      assert id in w.broker ==> id in w'.broker;
    }
  }

  lemma HeldRows(c: Config, w: World)
    requires Inv(c, w)
    ensures forall r <- w.open, id <- w.open[r].ids :: id in w.outbox && id in w.inserted && id !in w.dlq
  {
    forall r, id | r in w.open && id in w.open[r].ids
      ensures id in w.outbox && id in w.inserted && id !in w.dlq
    {
      assert TxnInv(c, w.outbox, w.broker, w.open[r]) && PlacedAt(w, id);
    }
  }

  lemma {:induction false} RejectionsElsewhere(ids: seq<Id>, log: seq<Outcome>, id: Id)
    requires |log| <= |ids| && forall k :: 0 <= k < |log| ==> ids[k] != id
    ensures Rejections(ids, log, id) == 0
    decreases |log|
  {
    if log != [] {
      RejectionsElsewhere(ids[1..], log[1..], id);
    }
  }

  lemma {:induction false} RejectionsAt(ids: seq<Id>, log: seq<Outcome>, k: nat)
    requires |log| <= |ids| && Distinct(ids) && k < |log|
    ensures Rejections(ids, log, ids[k]) == if log[k].Rejected? then 1 else 0
    decreases |log|
  {
    if k == 0 {
      RejectionsElsewhere(ids[1..], log[1..], ids[0]);
    } else {
      RejectionsAt(ids[1..], log[1..], k - 1);
    }
  }

  // ---- each step keeps the invariant -------------------------------------------

  lemma InsertKeeps(c: Config, w: World, id: Id, e: Event, trace: Option<string>)
    requires Inv(c, w) && c.maxAttempts >= 1
    ensures Inv(c, DoInsert(w, id, e, trace))
  {
    var w' := DoInsert(w, id, e, trace);
    forall x: Id
      ensures PlacedAt(w', x) && CountedAt(c, w', x)
    {
      assert PlacedAt(w, x) && CountedAt(c, w, x);
    }
    HeldRows(c, w);
    TxnsFrame(c, w.outbox, w'.outbox, w.broker, w.open);
  }

  lemma ClaimKeeps(c: Config, w: World, rep: Replica, ids: seq<Id>)
    requires Inv(c, w)
    ensures Inv(c, DoClaim(c, w, rep, ids))
  {
    if CanClaim(c, w, rep, ids) {
      var w' := DoClaim(c, w, rep, ids);
      assert TxnInv(c, w.outbox, w.broker, w'.open[rep]);
      forall r, id | r in w.open && id in w.open[r].ids
        ensures id !in ids
      {
        assert Locked(w, id);
      }
      assert LocksDisjoint(w'.open);
      TablesUntouched(c, w, w');
    }
  }

  lemma PublishKeeps(c: Config, w: World, rep: Replica, o: Outcome)
    requires Inv(c, w)
    ensures Inv(c, DoPublish(c, w, rep, o))
  {
    if CanPublish(w, rep) {
      var w' := DoPublish(c, w, rep, o);
      TablesUntouched(c, w, w');
      ProcessKeeps(c, w.outbox, w.broker, w.open[rep], o);
      forall r | r in w'.open
        ensures TxnInv(c, w'.outbox, w'.broker, w'.open[r])
      {
        if r != rep {
          TxnFrame(c, w.outbox, w.outbox, w.broker, w'.broker, w.open[r]);
        }
      }
    }
  }

  lemma ProcessKeeps(c: Config, outbox: OutboxTable, broker: seq<Id>, t: Txn, o: Outcome)
    requires TxnInv(c, outbox, broker, t) && !Stopped(t)
    ensures TxnInv(c, outbox, if Stored(o) then broker + [t.ids[|t.log|]] else broker, Process(c, t, o))
  {
    var n, t' := |t.log|, Process(c, t, o);
    var broker' := if Stored(o) then broker + [t.ids[n]] else broker;
    assert t'.marks.Keys == (set k | 0 <= k < n + 1 :: t.ids[k]) by {
      assert (set k | 0 <= k < n + 1 :: t.ids[k]) == (set k | 0 <= k < n :: t.ids[k]) + {t.ids[n]};
    }
    forall k | 0 <= k < n + 1
      ensures t'.marks[t.ids[k]] == MarkOf(c, t.at, t.rows[t.ids[k]], t'.log[k])
      ensures Stored(t'.log[k]) ==> t.ids[k] in broker'
    {
      if k < n {
        assert t'.log[k] == t.log[k] && t.ids[k] != t.ids[n];
      }
    }
  }

  /** What a committed mark means for one row, read off the transaction's own log. */
  ghost predicate MarkedRight(c: Config, w: World, t: Txn, id: Id)
    requires |t.log| <= |t.ids| && id in t.marks && id in w.outbox
  {
    && (t.marks[id].MarkPublished? ==> id in w.broker && Rejections(t.ids, t.log, id) == 0)
    && (t.marks[id].MarkDeferred? ==> Rejections(t.ids, t.log, id) == 0)
    && (t.marks[id].MarkRetry? ==> t.marks[id].attempts == w.outbox[id].attempts + 1 < c.maxAttempts && Rejections(t.ids, t.log, id) == 1)
    && (t.marks[id].MarkDead? ==> t.marks[id].attempts == w.outbox[id].attempts + 1 >= c.maxAttempts && Rejections(t.ids, t.log, id) == 1)
  }

  lemma MarksRight(c: Config, w: World, t: Txn, id: Id)
    requires TxnInv(c, w.outbox, w.broker, t) && id in t.marks
    ensures id in w.outbox && !w.outbox[id].published && MarkedRight(c, w, t, id)
  {
    var k :| 0 <= k < |t.log| && t.ids[k] == id;
    RejectionsAt(t.ids, t.log, k);
  }

  lemma UnmarkedUncounted(c: Config, w: World, t: Txn, id: Id)
    requires TxnInv(c, w.outbox, w.broker, t) && id !in t.marks
    ensures Rejections(t.ids, t.log, id) == 0
  {
    RejectionsElsewhere(t.ids, t.log, id);
  }

  lemma CommitPlaces(c: Config, w: World, rep: Replica, id: Id)
    requires Inv(c, w) && rep in w.open && Stopped(w.open[rep])
    ensures PlacedAt(DoCommit(w, rep), id)
  {
    var t := w.open[rep];
    assert PlacedAt(w, id);
    if id in t.marks {
      MarksRight(c, w, t, id);
    }
  }

  lemma CommitCounts(c: Config, w: World, rep: Replica, id: Id)
    requires Inv(c, w) && rep in w.open && Stopped(w.open[rep])
    ensures CountedAt(c, DoCommit(w, rep), id)
  {
    var t := w.open[rep];
    assert PlacedAt(w, id) && CountedAt(c, w, id);
    if id in t.marks {
      MarksRight(c, w, t, id);
    } else {
      UnmarkedUncounted(c, w, t, id);
    }
  }

  /** Locks make the claimed rows of other transactions invisible to this commit. */
  lemma CommitKeeps(c: Config, w: World, rep: Replica)
    requires Inv(c, w)
    ensures Inv(c, DoCommit(w, rep))
  {
    if rep in w.open && Stopped(w.open[rep]) {
      var t, w' := w.open[rep], DoCommit(w, rep);
      forall id: Id
        ensures PlacedAt(w', id) && CountedAt(c, w', id)
      {
        CommitPlaces(c, w, rep, id);
        CommitCounts(c, w, rep, id);
      }
      forall r, id | r in w'.open && id in w'.open[r].ids
        ensures id in w'.outbox && w'.outbox[id] == w.outbox[id]
      {
        assert TxnInv(c, w.outbox, w.broker, w.open[r]) && id !in t.ids;
      }
      TxnsFrame(c, w.outbox, w'.outbox, w.broker, w'.open);
    }
  }

  lemma CleanupKeeps(c: Config, w: World, tenant: Tenant, cutoff: int)
    requires Inv(c, w)
    ensures Inv(c, DoCleanup(w, tenant, cutoff))
  {
    var w' := DoCleanup(w, tenant, cutoff);
    forall x: Id
      ensures PlacedAt(w', x) && CountedAt(c, w', x)
    {
      assert PlacedAt(w, x) && CountedAt(c, w, x);
    }
    HeldRows(c, w);
    TxnsFrame(c, w.outbox, w'.outbox, w.broker, w.open);
  }

  /** A replayed id cannot collide with an outbox row: the two tables never share an id. */
  lemma ReplayKeeps(c: Config, w: World, picked: set<Id>)
    requires Inv(c, w) && c.maxAttempts >= 1
    ensures Inv(c, DoReplay(w, picked))
  {
    var w' := DoReplay(w, picked);
    forall x: Id
      ensures PlacedAt(w', x) && CountedAt(c, w', x)
    {
      assert PlacedAt(w, x) && CountedAt(c, w, x);
    }
    HeldRows(c, w);
    TxnsFrame(c, w.outbox, w'.outbox, w.broker, w.open);
  }

  lemma StepKeeps(c: Config, w: World, a: Action)
    requires Inv(c, w) && c.maxAttempts >= 1
    ensures Inv(c, Next(c, w, a))
  {
    match a
    case Insert(id, e, trace) => InsertKeeps(c, w, id, e, trace);
    case Tick(d) => TablesUntouched(c, w, Next(c, w, a));
    case Claim(rep, ids) => ClaimKeeps(c, w, rep, ids);
    case Publish(rep, o) => PublishKeeps(c, w, rep, o);
    case Commit(rep) => CommitKeeps(c, w, rep);
    case Abort(rep) => TablesUntouched(c, w, Next(c, w, a));
    case Cleanup(tenant, cutoff) => CleanupKeeps(c, w, tenant, cutoff);
    case Replay(picked) => ReplayKeeps(c, w, picked);
  }

  lemma {:induction false} RunKeeps(c: Config, w: World, actions: seq<Action>)
    requires Inv(c, w) && c.maxAttempts >= 1
    ensures Inv(c, Run(c, w, actions))
    decreases |actions|
  {
    if actions != [] {
      StepKeeps(c, w, actions[0]);
      RunKeeps(c, Next(c, w, actions[0]), actions[1..]);
    }
  }

  // ---- main results ------------------------------------------------------------

  /** No event is lost, whatever the settings and however the replicas interleave. */
  lemma NoEventLost(settings: Config, now: int, actions: seq<Action>, id: Id)
    ensures var w := Run(Normalize(settings), Init(now), actions);
      id in w.inserted ==>
        || (id in w.outbox && id !in w.dlq && id !in w.cleaned && w.outbox[id].event == w.inserted[id]
            && (w.outbox[id].published ==> id in w.broker))
        || (id !in w.outbox && id in w.dlq && id !in w.cleaned && w.dlq[id].event == w.inserted[id])
        || (id !in w.outbox && id !in w.dlq && id in w.cleaned && id in w.broker)
    ensures var w := Run(Normalize(settings), Init(now), actions);
      id !in w.inserted ==> id !in w.outbox && id !in w.dlq && id !in w.cleaned
  {
    RunKeeps(Normalize(settings), Init(now), actions);
    assert PlacedAt(Run(Normalize(settings), Init(now), actions), id);
  }

  /** An event not yet cleaned up is dead-lettered if and only if the committed non-transient
      failures since its insert or replay have reached the limit; transient ones never count. */
  lemma DeadLetterExact(settings: Config, now: int, actions: seq<Action>, id: Id)
    ensures var c := Normalize(settings);
      var w := Run(c, Init(now), actions);
      && (id in w.outbox ==> id in w.failures && w.outbox[id].attempts == w.failures[id] < c.maxAttempts)
      && (id in w.inserted && id !in w.cleaned ==>
            id in w.failures && (id in w.dlq <==> w.failures[id] == c.maxAttempts))
  {
    var c := Normalize(settings);
    RunKeeps(c, Init(now), actions);
    assert PlacedAt(Run(c, Init(now), actions), id) && CountedAt(c, Run(c, Init(now), actions), id);
  }

  /** Where a processed row stands after the commit, its event untouched: an accepted row is published
      and nothing else of it changes; a transient failure is due again within the duplicate window, its
      attempts unchanged; any other failure waits out the delay of its new attempt count, or is in the
      dead letters at the limit. */
  ghost predicate Scheduled(c: Config, before: Row, o: Outcome, at: int, id: Id, outbox: OutboxTable, dlq: DlqTable) {
    match o
    case Accepted =>
      && id in outbox && outbox[id].published && outbox[id].publishedAt == Some(at)
      && outbox[id].(published := false, publishedAt := before.publishedAt) == before
    case Transient(_, error) =>
      && id in outbox && SameEvent(outbox[id], before) && outbox[id].attempts == before.attempts
      && outbox[id].transientFailures == before.transientFailures + 1 && outbox[id].lastError == Some(error)
      && (forall now :: Due(outbox[id], now) <==>
            now >= at + Delay(c.baseBackoff, outbox[id].transientFailures, Min(c.maxBackoff, DUPLICATE_WINDOW)))
      && Due(outbox[id], at + DUPLICATE_WINDOW)
    case Rejected(_, error) =>
      if before.attempts + 1 < c.maxAttempts then
        && id in outbox && SameEvent(outbox[id], before) && outbox[id].attempts == before.attempts + 1
        && outbox[id].transientFailures == before.transientFailures && outbox[id].lastError == Some(error)
        && forall now :: Due(outbox[id], now) <==> now >= at + Delay(c.baseBackoff, before.attempts + 1, c.maxBackoff)
      else id !in outbox && id in dlq && dlq[id] == DeadRow(before.event, before.attempts + 1, error, at)
  }

  predicate SameEvent(r: Row, before: Row) { r.event == before.event && r.trace == before.trace && !r.published }

  lemma MarkSchedules(c: Config, outbox: OutboxTable, dlq: DlqTable, marks: map<Id, Mark>, id: Id, o: Outcome, at: int)
    requires id in outbox && !outbox[id].published && id in marks && marks[id] == MarkOf(c, at, outbox[id], o)
    ensures Scheduled(c, outbox[id], o, at, id, ApplyOutbox(outbox, marks, at), ApplyDlq(outbox, dlq, marks, at))
  {
    DelayMonotone(c.baseBackoff, 1, outbox[id].transientFailures + 1, Min(c.maxBackoff, DUPLICATE_WINDOW));
    hide Delay;
  }

  /** A commit schedules each row it processed and touches no other row of either table, not even those
      it claimed and did not get to. */
  lemma CommitSchedules(c: Config, w: World, rep: Replica, k: nat, id: Id, x: Id)
    requires Inv(c, w) && rep in w.open && Stopped(w.open[rep])
    requires k < |w.open[rep].log| && k < |w.open[rep].ids| && w.open[rep].ids[k] == id
    ensures id in w.outbox
    ensures Scheduled(c, w.outbox[id], w.open[rep].log[k], w.open[rep].at, id, DoCommit(w, rep).outbox, DoCommit(w, rep).dlq)
    ensures x in w.outbox && (forall j :: 0 <= j < |w.open[rep].log| && j < |w.open[rep].ids| ==> w.open[rep].ids[j] != x) ==>
      x in DoCommit(w, rep).outbox && DoCommit(w, rep).outbox[x] == w.outbox[x]
    ensures x in w.dlq ==> x in DoCommit(w, rep).dlq && DoCommit(w, rep).dlq[x] == w.dlq[x]
    ensures DoCommit(w, rep).open == w.open - {rep} && DoCommit(w, rep).broker == w.broker
  {
    hide Scheduled, MarkOf, Stopped;
    var t := w.open[rep];
    assert TxnInv(c, w.outbox, w.broker, t);
    assert id in t.ids && t.marks[id] == MarkOf(c, t.at, w.outbox[id], t.log[k]);
    assert x in t.marks ==> exists j :: 0 <= j < |t.log| && t.ids[j] == x;
    assert PlacedAt(w, x);
    MarkSchedules(c, w.outbox, w.dlq, t.marks, id, t.log[k], t.at);
  }

  /** No two replicas ever hold the same row, and a held row is still unpublished and unchanged. */
  lemma ReplicasPartitionWork(settings: Config, now: int, actions: seq<Action>, r: Replica, s: Replica, id: Id)
    ensures var w := Run(Normalize(settings), Init(now), actions);
      r in w.open && id in w.open[r].ids ==>
        && id in w.outbox && !w.outbox[id].published
        && id in w.open[r].rows && w.open[r].rows[id] == w.outbox[id]
        && (s in w.open && s != r ==> id !in w.open[s].ids)
  {
    RunKeeps(Normalize(settings), Init(now), actions);
    var w := Run(Normalize(settings), Init(now), actions);
    assert r in w.open ==> TxnInv(Normalize(settings), w.outbox, w.broker, w.open[r]);
  }

  // ---- rows that enter or leave outside a drain ---------------------------------------------

  /** A row with its whole retry budget ahead, due at once and for good. */
  ghost predicate Ready(r: Row, e: Event) {
    && r.event == e && !r.published && r.attempts == 0 && r.transientFailures == 0 && r.lastError == None
    && forall now :: Due(r, now)
  }

  /** A new event, and a replayed one, can be claimed on the next poll by any replica that is not
      draining; every other row stays as it was. */
  lemma InsertIsReady(c: Config, w: World, id: Id, e: Event, trace: Option<string>, rep: Replica)
    requires Inv(c, w) && id !in w.inserted
    ensures var w' := Next(c, w, Insert(id, e, trace));
      && id in w'.outbox && Ready(w'.outbox[id], e) && w'.outbox[id].trace == trace
      && (rep !in w.open && c.batchSize >= 1 ==> CanClaim(c, w', rep, [id]))
      && (forall x <- w.outbox :: x in w'.outbox && w'.outbox[x] == w.outbox[x])
  {
    assert PlacedAt(w, id);
    HeldRows(c, w);
    assert !Locked(DoInsert(w, id, e, trace), id);
  }

  lemma ReplayIsReady(c: Config, w: World, picked: set<Id>, id: Id, rep: Replica)
    requires Inv(c, w) && id in picked && id in w.dlq
    ensures var w' := Next(c, w, Replay(picked));
      && id !in w'.dlq && id in w'.outbox && Ready(w'.outbox[id], w.dlq[id].event) && w'.outbox[id].trace == None
      && (rep !in w.open && c.batchSize >= 1 ==> CanClaim(c, w', rep, [id]))
      && (forall x <- w.outbox :: x in w'.outbox && w'.outbox[x] == w.outbox[x])
      && (forall x <- w.dlq :: x !in picked ==> x in w'.dlq && w'.dlq[x] == w.dlq[x])
  {
    assert PlacedAt(w, id);
    HeldRows(c, w);
    var w' := DoReplay(w, picked);
    assert !Locked(w', id);
    forall x | x in w.outbox
      ensures x in w'.outbox && w'.outbox[x] == w.outbox[x]
    {
      assert PlacedAt(w, x);
    }
  }

  /** A cleanup removes exactly the tenant's rows that were published before the cutoff, so a row just
      published stays for as long as the cutoff trails the clock. */
  lemma CleanupExact(c: Config, w: World, tenant: Tenant, cutoff: int, id: Id)
    requires id in w.outbox
    ensures var w', r := Next(c, w, Cleanup(tenant, cutoff)), w.outbox[id];
      && (id !in w'.outbox <==> r.event.tenant == tenant && r.published && r.publishedAt.Some? && r.publishedAt.value < cutoff)
      && (id in w'.outbox ==> w'.outbox[id] == r)
      && (id !in w'.outbox ==> id in w'.cleaned)
      && w'.dlq == w.dlq && w'.broker == w.broker && w'.open == w.open && w'.now == w.now
  {
  }

  /** A claim succeeds exactly for rows that are unpublished, past their deferral and in nobody's open
      drain, at most a batch and at most a thousand; it hands over the rows as they are, stamps them with
      the clock, and changes no table. */
  lemma ClaimExact(c: Config, w: World, rep: Replica, ids: seq<Id>)
    requires rep !in w.open && Distinct(ids)
    ensures var w' := Next(c, w, Claim(rep, ids));
      && (rep in w'.open <==>
            && |ids| <= c.batchSize && |ids| <= 1000
            && forall id <- ids ::
                 && id in w.outbox && !w.outbox[id].published
                 && (w.outbox[id].nextAttemptAt.Some? ==> w.outbox[id].nextAttemptAt.value <= w.now)
                 && forall r <- w.open :: id !in w.open[r].ids)
      && (rep in w'.open ==>
            var t := w'.open[rep];
            t.ids == ids && t.at == w.now && t.log == [] && forall id <- ids :: id in t.rows && t.rows[id] == w.outbox[id])
      && w'.(open := w.open) == w
  {
  }

  /** No row waits for ever: an unpublished row that no open drain holds can be claimed once its deferral
      has passed, and the clock changes nothing else. */
  lemma WaitingEnds(c: Config, w: World, id: Id, rep: Replica)
    requires id in w.outbox && !w.outbox[id].published && !Locked(w, id) && rep !in w.open && c.batchSize >= 1
    ensures var d := if w.outbox[id].nextAttemptAt.Some? && w.outbox[id].nextAttemptAt.value > w.now
                     then w.outbox[id].nextAttemptAt.value - w.now else 0;
      var w' := Next(c, w, Tick(d));
      w'.(now := w.now) == w && CanClaim(c, w', rep, [id])
  {
  }

  /** The next unprocessed row is published: the broker has it afterwards exactly if the publish was
      accepted, or failed after the broker had kept it; the tables wait for the commit. */
  lemma PublishExact(c: Config, w: World, rep: Replica, o: Outcome)
    requires CanPublish(w, rep)
    ensures var w', t := Next(c, w, Publish(rep, o)), w.open[rep];
      && w'.broker == w.broker + (if o == Accepted || (!o.Accepted? && o.stored) then [t.ids[|t.log|]] else [])
      && w'.outbox == w.outbox && w'.dlq == w.dlq && rep in w'.open && w'.open[rep].log == t.log + [o]
  {
  }
}
