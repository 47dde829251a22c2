/** The Idempotency-Key protocol: concurrent requests over one table of reservations, with a clock,
    crashes, panics, stale reclaims and detached finishing writes. */
module Idempotency {
  import opened Basics

  const STALE_AFTER := 300      // seconds an in-progress reservation is honoured
  const MAX_STORED_BODY := 1_048_576
  const MAX_KEY_LEN := 200

  type Pid = nat
  datatype Key = Key(tenant: nat, text: string)
  datatype Request = Request(key: Key, verb: string, path: string)
  datatype Response = Response(status: int, body: string)

  datatype Entry =
    | InProgress(verb: string, path: string, createdAt: int)
    | Completed(verb: string, path: string, createdAt: int, response: Response)

  type Table = map<Key, Entry>

  // ---- the three statements ------------------------------------------------------

  predicate SameRequest(e: Entry, r: Request) { e.verb == r.verb && e.path == r.path }

  /** The reserving statement takes the key if it is free, or held by a stale reservation of the
      same request. */
  predicate Takes(t: Table, r: Request, now: int) {
    r.key in t ==>
      t[r.key].InProgress? && t[r.key].createdAt < now - STALE_AFTER && SameRequest(t[r.key], r)
  }

  function Reserve(t: Table, r: Request, now: int): Table {
    if Takes(t, r, now) then t[r.key := InProgress(r.verb, r.path, now)] else t
  }

  /** Completion overwrites whatever the row holds: the statement has no status test. */
  function Complete(t: Table, k: Key, resp: Response): Table {
    if k in t then t[k := Completed(t[k].verb, t[k].path, t[k].createdAt, resp)] else t
  }

  function Release(t: Table, k: Key): Table {
    if k in t && t[k].InProgress? then t - {k} else t
  }

  datatype Reply =
    | Fresh(response: Response)      // Idempotency-Replayed: false
    | Replayed(response: Response)   // Idempotency-Replayed: true
    | InProgress409
    | Reused422
    | Unavailable503
    | Panicked

  function Answer(e: Entry, r: Request): Reply {
    if !SameRequest(e, r) then Reused422
    else if e.Completed? then Replayed(e.response)
    else InProgress409
  }

  predicate Success(resp: Response) { 200 <= resp.status < 300 }

  predicate Storable(resp: Response) { Success(resp) && |resp.body| <= MAX_STORED_BODY }

  // ---- the world -------------------------------------------------------------------

  /** The write an execution owes: keep the response, or give the key back. */
  datatype Phase = Running | Keeping(response: Response) | Dropping

  datatype Proc = Proc(request: Request, startedAt: int, phase: Phase)

  /** `runs` is history: the successful handler runs of each key, in order. So is the rest: the keys
      with an execution that outlasted the stale limit, and each completion that was lost and each
      successful response too large to store, by key. */
  datatype World = World(
    now: int, table: Table, live: map<Pid, Proc>, runs: map<Key, seq<Response>>,
    overran: set<Key>, lost: multiset<Key>, oversized: multiset<Key>)

  function Init(now: int): World { World(now, map[], map[], map[], {}, multiset{}, multiset{}) }

  datatype StoreResult = StoreOk | StoreError(applied: bool)

  datatype Action =
    | Arrive(pid: Pid, request: Request, store: StoreResult)
    | Return(pid: Pid, response: Response)
    | Panic(pid: Pid)
    | Finish(pid: Pid, landed: bool)
    | Crash(pid: Pid)
    | Tick(d: nat)

  function RunsOf(w: World, k: Key): seq<Response> { if k in w.runs then w.runs[k] else [] }

  function DoArrive(w: World, pid: Pid, r: Request, store: StoreResult): World {
    if pid in w.live then w
    else match store
      case StoreError(applied) => if applied then w.(table := Reserve(w.table, r, w.now)) else w
      case StoreOk =>
        if Takes(w.table, r, w.now)
        then w.(table := Reserve(w.table, r, w.now), live := w.live[pid := Proc(r, w.now, Running)])
        else w
  }

  function DoReturn(w: World, pid: Pid, resp: Response): World {
    if pid !in w.live || !w.live[pid].phase.Running? then w
    else
      var p := w.live[pid];
      var k := p.request.key;
      w.(live := w.live[pid := p.(phase := if Storable(resp) then Keeping(resp) else Dropping)],
         runs := if Success(resp) then w.runs[k := RunsOf(w, k) + [resp]] else w.runs,
         oversized := if Success(resp) && !Storable(resp) then w.oversized + multiset{k} else w.oversized)
  }

  function DoPanic(w: World, pid: Pid): World {
    if pid !in w.live || !w.live[pid].phase.Running? then w
    else w.(live := w.live[pid := w.live[pid].(phase := Dropping)])
  }

  function Written(t: Table, p: Proc): Table {
    match p.phase
    case Running => t
    case Keeping(resp) => Complete(t, p.request.key, resp)
    case Dropping => Release(t, p.request.key)
  }

  function DoFinish(w: World, pid: Pid, landed: bool): World {
    if pid !in w.live || w.live[pid].phase.Running? then w
    else
      var p := w.live[pid];
      w.(table := if landed then Written(w.table, p) else w.table, live := w.live - {pid},
         lost := if !landed && p.phase.Keeping? then w.lost + multiset{p.request.key} else w.lost)
  }

  function DoCrash(w: World, pid: Pid): World {
    if pid !in w.live then w
    else w.(live := w.live - {pid},
            lost := if w.live[pid].phase.Keeping? then w.lost + multiset{w.live[pid].request.key} else w.lost)
  }

  function DoTick(w: World, d: nat): World {
    w.(now := w.now + d,
       overran := w.overran + set pid | pid in w.live && w.now + d - w.live[pid].startedAt > STALE_AFTER :: w.live[pid].request.key)
  }

  /** A disabled step leaves the world as it is, so every sequence of actions is a run. */
  function Next(w: World, a: Action): World {
    match a
    case Arrive(pid, r, store) => DoArrive(w, pid, r, store)
    case Return(pid, resp) => DoReturn(w, pid, resp)
    case Panic(pid) => DoPanic(w, pid)
    case Finish(pid, landed) => DoFinish(w, pid, landed)
    case Crash(pid) => DoCrash(w, pid)
    case Tick(d) => DoTick(w, d)
  }

  function Run(w: World, actions: seq<Action>): World
    decreases |actions|
  {
    if actions == [] then w else Run(Next(w, actions[0]), actions[1..])
  }

  // ---- invariants ------------------------------------------------------------------

  ghost predicate HoldsRow(w: World, p: Proc) {
    && p.request.key in w.table
    && w.table[p.request.key] == InProgress(p.request.verb, p.request.path, p.startedAt)
    && w.now - p.startedAt <= STALE_AFTER
  }

  predicate Runs(w: World, pid: Pid, k: Key) { pid in w.live && w.live[pid].request.key == k }

  /** Each live execution of the key holds its own fresh reservation, and there are no two of them. */
  ghost predicate Owned(w: World, k: Key) {
    && (forall pid :: Runs(w, pid, k) ==> HoldsRow(w, w.live[pid]))
    && (forall p, q :: Runs(w, p, k) && Runs(w, q, k) ==> p == q)
  }

  predicate Keeps(w: World, pid: Pid, k: Key) { Runs(w, pid, k) && w.live[pid].phase.Keeping? }

  predicate Done(w: World, k: Key) { k in w.table && w.table[k].Completed? }

  /** The key has a response on record, or an execution that is about to record one. */
  ghost predicate Kept(w: World, k: Key) { Done(w, k) || exists pid :: Keeps(w, pid, k) }

  predicate LastRun(w: World, k: Key, resp: Response) { RunsOf(w, k) != [] && RunsOf(w, k)[|RunsOf(w, k)| - 1] == resp }

  /** Every successful run of a key is the one kept, or was lost, or was too large. */
  ghost predicate Accounted(w: World, k: Key) {
    && |RunsOf(w, k)| == (if Kept(w, k) then 1 else 0) + w.lost[k] + w.oversized[k]
    && (Done(w, k) ==> LastRun(w, k, w.table[k].response))
    && (forall pid :: Keeps(w, pid, k) ==> LastRun(w, k, w.live[pid].phase.response))
  }

  ghost predicate InvAt(w: World, k: Key) { k !in w.overran ==> Owned(w, k) && Accounted(w, k) }

  lemma OverranSticks(w: World, a: Action, k: Key)
    ensures k in w.overran ==> k in Next(w, a).overran
  {
  }

  /** Nothing about this key's row, executions and history changes but phases of no consequence. */
  ghost predicate SameKey(w: World, w': World, k: Key) {
    && RunsOf(w', k) == RunsOf(w, k) && w'.lost[k] == w.lost[k] && w'.oversized[k] == w.oversized[k]
    && (k in w'.table <==> k in w.table) && (k in w.table ==> w'.table[k] == w.table[k])
    && (forall pid :: Runs(w', pid, k) <==> Runs(w, pid, k))
    && (forall pid :: Runs(w, pid, k) && Runs(w', pid, k) ==> w'.live[pid] == w.live[pid])
  }

  lemma SameKeyKeeps(w: World, w': World, k: Key)
    requires Owned(w, k) && Accounted(w, k) && SameKey(w, w', k)
    requires w'.now == w.now || forall pid :: Runs(w, pid, k) ==> w'.now - w.live[pid].startedAt <= STALE_AFTER
    ensures Owned(w', k) && Accounted(w', k)
  {
    forall pid | Runs(w', pid, k)
      ensures HoldsRow(w', w'.live[pid])
    {
      assert Runs(w, pid, k) && HoldsRow(w, w.live[pid]);
    }
    SameKept(w, w', k);
  }

  lemma SameKept(w: World, w': World, k: Key)
    requires SameKey(w, w', k)
    ensures Kept(w', k) <==> Kept(w, k)
    ensures forall pid :: Keeps(w', pid, k) <==> Keeps(w, pid, k)
  {
    forall pid
      ensures Keeps(w', pid, k) <==> Keeps(w, pid, k)
    {
      assert Runs(w', pid, k) <==> Runs(w, pid, k);
    }
  }

  /** A live execution's reservation cannot be stale, so nobody else takes its key. */
  lemma TakesIsFree(w: World, r: Request)
    requires Owned(w, r.key) && Takes(w.table, r, w.now)
    ensures forall pid :: !Runs(w, pid, r.key)
  {
  }

  lemma ArriveKeeps(w: World, pid: Pid, r: Request, store: StoreResult, k: Key)
    requires Owned(w, k) && Accounted(w, k)
    ensures var w' := DoArrive(w, pid, r, store); Owned(w', k) && Accounted(w', k)
  {
    var w' := DoArrive(w, pid, r, store);
    if pid in w.live || !Takes(w.table, r, w.now) {
      assert w' == w;
    } else if r.key != k {
      hide Takes, Owned, Accounted;
      SameKeyKeeps(w, w', k);
    } else {
      TakesIsFree(w, r);
      TakenKeeps(w, pid, r, store);
    }
  }

  lemma TakenKeeps(w: World, pid: Pid, r: Request, store: StoreResult)
    requires Accounted(w, r.key) && Takes(w.table, r, w.now) && pid !in w.live && forall p :: !Runs(w, p, r.key)
    ensures var w' := DoArrive(w, pid, r, store); Owned(w', r.key) && Accounted(w', r.key)
  {
    var k, w' := r.key, DoArrive(w, pid, r, store);
    forall p
      ensures Runs(w', p, k) ==> p == pid && w'.live[p] == Proc(r, w.now, Running)
    {
      assert !Runs(w, p, k);
    }
    assert !Done(w, k) && !Done(w', k) && !Kept(w, k) && !Kept(w', k);
  }

  /** The only execution of its key, not yet keeping anything: no response is on record either. */
  lemma SoleRunner(w: World, pid: Pid, k: Key)
    requires Owned(w, k) && Runs(w, pid, k)
    ensures HoldsRow(w, w.live[pid]) && !Done(w, k) && forall q :: Runs(w, q, k) ==> q == pid
    ensures Kept(w, k) <==> Keeps(w, pid, k)
  {
  }

  lemma ReturnKeeps(w: World, pid: Pid, resp: Response, k: Key)
    requires Owned(w, k) && Accounted(w, k)
    ensures var w' := DoReturn(w, pid, resp); Owned(w', k) && Accounted(w', k)
  {
    var w' := DoReturn(w, pid, resp);
    if pid !in w.live || !w.live[pid].phase.Running? {
      assert w' == w;
    } else if w.live[pid].request.key != k {
      hide Owned, Accounted, Storable;
      SameKeyKeeps(w, w', k);
    } else {
      SoleRunner(w, pid, k);
      OwnReturn(w, pid, resp, k);
    }
  }

  lemma OwnReturn(w: World, pid: Pid, resp: Response, k: Key)
    requires Accounted(w, k) && Runs(w, pid, k) && w.live[pid].phase.Running? && HoldsRow(w, w.live[pid])
    requires !Kept(w, k) && forall q :: Runs(w, q, k) ==> q == pid
    ensures var w' := DoReturn(w, pid, resp); Owned(w', k) && Accounted(w', k)
  {
    hide Storable, Success;
    var w' := DoReturn(w, pid, resp);
    assert forall q :: Runs(w', q, k) <==> Runs(w, q, k);
    assert Runs(w', pid, k) && HoldsRow(w', w'.live[pid]) && !Done(w', k);
    StorableSucceeds(resp);
    if Success(resp) {
      assert RunsOf(w', k) == RunsOf(w, k) + [resp];
    }
    assert Kept(w', k) <==> Keeps(w', pid, k);
  }

  lemma StorableSucceeds(resp: Response)
    ensures Storable(resp) ==> Success(resp)
  {
  }

  lemma PanicKeeps(w: World, pid: Pid, k: Key)
    requires Owned(w, k) && Accounted(w, k)
    ensures var w' := DoPanic(w, pid); Owned(w', k) && Accounted(w', k)
  {
    var w' := DoPanic(w, pid);
    if pid !in w.live || !w.live[pid].phase.Running? {
      assert w' == w;
    } else if w.live[pid].request.key != k {
      hide Owned, Accounted;
      SameKeyKeeps(w, w', k);
    } else {
      SoleRunner(w, pid, k);
      assert forall q :: Runs(w', q, k) <==> Runs(w, q, k);
      assert !Kept(w', k);
    }
  }

  lemma FinishKeeps(w: World, pid: Pid, landed: bool, k: Key)
    requires Owned(w, k) && Accounted(w, k)
    ensures var w' := DoFinish(w, pid, landed); Owned(w', k) && Accounted(w', k)
  {
    var w' := DoFinish(w, pid, landed);
    if pid !in w.live || w.live[pid].phase.Running? {
      assert w' == w;
    } else if w.live[pid].request.key != k {
      hide Owned, Accounted;
      SameKeyKeeps(w, w', k);
    } else {
      SoleRunner(w, pid, k);
      OwnFinish(w, pid, landed, k);
    }
  }

  lemma OwnFinish(w: World, pid: Pid, landed: bool, k: Key)
    requires Accounted(w, k) && Runs(w, pid, k) && !w.live[pid].phase.Running? && HoldsRow(w, w.live[pid])
    requires (Kept(w, k) <==> Keeps(w, pid, k)) && forall q :: Runs(w, q, k) ==> q == pid
    ensures var w' := DoFinish(w, pid, landed); Owned(w', k) && Accounted(w', k)
  {
    var w' := DoFinish(w, pid, landed);
    forall q
      ensures !Runs(w', q, k)
    {
      assert Runs(w, q, k) ==> q == pid;
    }
    assert RunsOf(w', k) == RunsOf(w, k);
    assert Kept(w', k) <==> Done(w', k);
    if w.live[pid].phase.Keeping? {
      assert Keeps(w, pid, k);
    }
  }

  lemma CrashKeeps(w: World, pid: Pid, k: Key)
    requires Owned(w, k) && Accounted(w, k)
    ensures var w' := DoCrash(w, pid); Owned(w', k) && Accounted(w', k)
  {
    var w' := DoCrash(w, pid);
    if pid !in w.live {
      assert w' == w;
    } else if w.live[pid].request.key != k {
      hide Owned, Accounted;
      SameKeyKeeps(w, w', k);
    } else {
      SoleRunner(w, pid, k);
      forall q
        ensures !Runs(w', q, k)
      {
        assert Runs(w, q, k) ==> q == pid;
      }
      assert RunsOf(w', k) == RunsOf(w, k) && !Kept(w', k);
    }
  }

  lemma TickKeeps(w: World, d: nat, k: Key)
    requires Owned(w, k) && Accounted(w, k) && k !in DoTick(w, d).overran
    ensures Owned(DoTick(w, d), k) && Accounted(DoTick(w, d), k)
  {
    hide Owned, Accounted;
    SameKeyKeeps(w, DoTick(w, d), k);
  }

  lemma InvStep(w: World, a: Action, k: Key)
    requires InvAt(w, k)
    ensures InvAt(Next(w, a), k)
  {
    hide Owned, Accounted, DoArrive, DoReturn, DoPanic, DoFinish, DoCrash, DoTick;
    OverranSticks(w, a, k);
    if k !in Next(w, a).overran {
      match a
      case Arrive(pid, r, store) => ArriveKeeps(w, pid, r, store, k);
      case Return(pid, resp) => ReturnKeeps(w, pid, resp, k);
      case Panic(pid) => PanicKeeps(w, pid, k);
      case Finish(pid, landed) => FinishKeeps(w, pid, landed, k);
      case Crash(pid) => CrashKeeps(w, pid, k);
      case Tick(d) => TickKeeps(w, d, k);
    }
  }

  lemma {:induction false} InvRun(w: World, actions: seq<Action>, k: Key)
    requires InvAt(w, k)
    ensures InvAt(Run(w, actions), k)
    decreases |actions|
  {
    hide InvAt, Next;
    if actions != [] {
      InvStep(w, actions[0], k);
      InvRun(Next(w, actions[0]), actions[1..], k);
    }
  }

  lemma InitInv(now: int, k: Key)
    ensures InvAt(Init(now), k)
  {
    assert RunsOf(Init(now), k) == [];
  }

  // ---- main results ----------------------------------------------------------------

  /** While no live execution of a key outlasts the stale limit, the key never has two owners,
      whatever happens to other keys. */
  lemma OneOwner(now: int, actions: seq<Action>, p: Pid, q: Pid)
    ensures var w := Run(Init(now), actions);
      p in w.live && q in w.live && w.live[p].request.key == w.live[q].request.key && w.live[p].request.key !in w.overran ==> p == q
  {
    var w := Run(Init(now), actions);
    if p in w.live && q in w.live && w.live[p].request.key == w.live[q].request.key {
      var k := w.live[p].request.key;
      InitInv(now, k);
      InvRun(Init(now), actions, k);
      assert Runs(w, p, k) && Runs(w, q, k);
    }
  }

  /** Under the same condition every successful run of a key is accounted for: it is the one kept, or
      its finishing write was lost, or its body was over the cap. So without lost writes and oversized
      bodies of this key its handler succeeds at most once, and a completed row always holds exactly
      the response of the last run. */
  lemma OneSuccessfulRun(now: int, actions: seq<Action>, k: Key)
    ensures var w := Run(Init(now), actions);
      k !in w.overran ==>
        && |RunsOf(w, k)| == (if Kept(w, k) then 1 else 0) + w.lost[k] + w.oversized[k]
        && (w.lost[k] == w.oversized[k] == 0 ==> |RunsOf(w, k)| <= 1)
        && (k in w.table && w.table[k].Completed? ==> LastRun(w, k, w.table[k].response))
  {
    InitInv(now, k);
    InvRun(Init(now), actions, k);
  }

  lemma CompletedStays(w: World, a: Action, k: Key)
    requires Owned(w, k) && k in w.table && w.table[k].Completed?
    ensures k in Next(w, a).table && Next(w, a).table[k] == w.table[k]
  {
    assert forall pid :: !Runs(w, pid, k) by { DoneHasNoRunner(w, k); }
    hide Owned, DoReturn, Takes;
    match a
    case Finish(pid, landed) =>
      if pid in w.live {
        assert !Runs(w, pid, k);
      }
    case Arrive(pid, r, store) => TakesNotCompleted(w.table, r, w.now);
    case Return(pid, resp) => ReturnKeepsTable(w, pid, resp);
    case _ =>
  }

  /** Even when executions outlast the limit, no step of any kind removes a completed row or reopens it. */
  lemma CompletedNeverReopens(w: World, a: Action, k: Key)
    requires k in w.table && w.table[k].Completed?
    ensures var t := Next(w, a).table;
      k in t && t[k].Completed? && t[k].verb == w.table[k].verb && t[k].path == w.table[k].path
  {
    hide Takes;
    match a
    case Arrive(pid, r, store) => TakesNotCompleted(w.table, r, w.now);
    case _ =>
  }

  lemma DoneHasNoRunner(w: World, k: Key)
    requires Owned(w, k) && k in w.table && w.table[k].Completed?
    ensures forall pid :: !Runs(w, pid, k)
  {
  }

  lemma TakesNotCompleted(t: Table, r: Request, now: int)
    ensures Takes(t, r, now) && r.key in t ==> t[r.key].InProgress?
  {
  }

  lemma ReturnKeepsTable(w: World, pid: Pid, resp: Response)
    ensures DoReturn(w, pid, resp).table == w.table
  {
  }

  lemma {:induction false} CompletedStaysRun(w: World, actions: seq<Action>, k: Key)
    requires InvAt(w, k) && k in w.table && w.table[k].Completed? && k !in Run(w, actions).overran
    ensures k in Run(w, actions).table && Run(w, actions).table[k] == w.table[k]
    ensures k !in w.overran
    decreases |actions|
  {
    if actions != [] {
      hide Owned, Accounted, Next;
      InvStep(w, actions[0], k);
      NeverOverran(Next(w, actions[0]), actions[1..], k);
      OverranSticks(w, actions[0], k);
      CompletedStays(w, actions[0], k);
      CompletedStaysRun(Next(w, actions[0]), actions[1..], k);
    }
  }

  lemma {:induction false} NeverOverran(w: World, actions: seq<Action>, k: Key)
    requires k !in Run(w, actions).overran
    ensures k !in w.overran
    decreases |actions|
  {
    if actions != [] {
      hide Next;
      NeverOverran(Next(w, actions[0]), actions[1..], k);
      OverranSticks(w, actions[0], k);
    }
  }

  /** A completed key answers for good: after any further steps in which no execution of it outlasts the
      limit the row is the same, and a new request with that key gets its status and body, or 422 when
      method or path differ. */
  lemma ReplaysForever(now: int, before: seq<Action>, after: seq<Action>, r: Request)
    requires var w := Run(Init(now), before); r.key in w.table && w.table[r.key].Completed?
    requires r.key !in Run(Run(Init(now), before), after).overran
    ensures var e := Run(Init(now), before).table[r.key];
      var w' := Run(Run(Init(now), before), after);
      && r.key in w'.table && w'.table[r.key] == e && !Takes(w'.table, r, w'.now)
      && Answer(e, r) == if e.verb == r.verb && e.path == r.path then Replayed(e.response) else Reused422
  {
    InitInv(now, r.key);
    InvRun(Init(now), before, r.key);
    CompletedStaysRun(Run(Init(now), before), after, r.key);
  }

  // ---- the conditions are needed -----------------------------------------------------

  lemma Run2(w: World, a: Action, b: Action)
    ensures Run(w, [a, b]) == Next(Next(w, a), b)
  {
    assert [a, b][1..] == [b] && [b][1..] == [];
    assert Run(Next(Next(w, a), b), []) == Next(Next(w, a), b);
  }

  lemma {:induction false} RunConcat(w: World, a: seq<Action>, b: seq<Action>)
    ensures Run(w, a + b) == Run(Run(w, a), b)
    decreases |a|
  {
    if a == [] {
      assert a + b == b;
    } else {
      assert (a + b)[1..] == a[1..] + b;
      RunConcat(Next(w, a[0]), a[1..], b);
    }
  }

  function Late(r: Request): World {
    World(STALE_AFTER + 1, map[r.key := InProgress(r.verb, r.path, 0)], map[0 := Proc(r, 0, Running)], map[],
          {r.key}, multiset{}, multiset{})
  }

  function Reclaimed(r: Request, second: Response): World {
    World(STALE_AFTER + 1, map[r.key := InProgress(r.verb, r.path, STALE_AFTER + 1)],
          map[0 := Proc(r, 0, Running), 1 := Proc(r, STALE_AFTER + 1, Keeping(second))],
          map[r.key := [second]], {r.key}, multiset{}, multiset{})
  }

  function BothDone(r: Request, first: Response, second: Response): World {
    World(STALE_AFTER + 1, map[r.key := Completed(r.verb, r.path, STALE_AFTER + 1, second)],
          map[0 := Proc(r, 0, Keeping(first))], map[r.key := [second, first]], {r.key}, multiset{}, multiset{})
  }

  lemma ReachLate(r: Request)
    ensures Run(Init(0), [Arrive(0, r, StoreOk), Tick(STALE_AFTER + 1)]) == Late(r)
  {
    var w1 := Next(Init(0), Arrive(0, r, StoreOk));
    assert w1.live == map[0 := Proc(r, 0, Running)];
    assert 0 in w1.live && w1.now + (STALE_AFTER + 1) - w1.live[0].startedAt > STALE_AFTER;
    Run2(Init(0), Arrive(0, r, StoreOk), Tick(STALE_AFTER + 1));
  }

  lemma ReachReclaimed(r: Request, second: Response)
    requires Storable(second)
    ensures Run(Late(r), [Arrive(1, r, StoreOk), Return(1, second)]) == Reclaimed(r, second)
  {
    Run2(Late(r), Arrive(1, r, StoreOk), Return(1, second));
    assert RunsOf(Late(r), r.key) + [second] == [second];
    var running := Late(r).live[1 := Proc(r, STALE_AFTER + 1, Running)];
    assert Next(Late(r), Arrive(1, r, StoreOk)).live == running;
    assert running[1 := Proc(r, STALE_AFTER + 1, Keeping(second))] == Reclaimed(r, second).live;
  }

  lemma ReachBothDone(r: Request, first: Response, second: Response)
    requires Storable(first)
    ensures Run(Reclaimed(r, second), [Finish(1, true), Return(0, first)]) == BothDone(r, first, second)
  {
    var w := Reclaimed(r, second);
    Run2(w, Finish(1, true), Return(0, first));
    assert Next(w, Finish(1, true)).live == map[0 := Proc(r, 0, Running)];
    assert [second] + [first] == [second, first];
  }

  lemma LateWriteLands(r: Request, first: Response, second: Response)
    ensures var w := Run(BothDone(r, first, second), [Finish(0, true), Tick(0)]);
      w.overran == {r.key} && w.lost == w.oversized == multiset{} && RunsOf(w, r.key) == [second, first]
      && w.table == map[r.key := Completed(r.verb, r.path, STALE_AFTER + 1, first)]
  {
    Run2(BothDone(r, first, second), Finish(0, true), Tick(0));
  }

  /** An execution that outlasts the limit is reclaimed while alive: two handlers succeed, and the
      late completion replaces the stored response. */
  lemma OverrunBreaks(r: Request, first: Response, second: Response)
    requires Storable(first) && Storable(second)
    ensures exists actions ::
      var w := Run(Init(0), actions);
      w.overran == {r.key} && w.lost == w.oversized == multiset{} && RunsOf(w, r.key) == [second, first]
      && w.table == map[r.key := Completed(r.verb, r.path, STALE_AFTER + 1, first)]
  {
    hide Run, Late, Reclaimed, BothDone, Init;
    var a, b, c, d := [Arrive(0, r, StoreOk), Tick(STALE_AFTER + 1)], [Arrive(1, r, StoreOk), Return(1, second)],
                      [Finish(1, true), Return(0, first)], [Finish(0, true), Tick(0)];
    ReachLate(r);
    ReachReclaimed(r, second);
    ReachBothDone(r, first, second);
    LateWriteLands(r, first, second);
    RunConcat(Reclaimed(r, second), c, d);
    RunConcat(Late(r), b, c + d);
    RunConcat(Init(0), a, b + (c + d));
  }

  /** The first request of a key returned with success. */
  function Returned(r: Request, resp: Response): World {
    World(0, map[r.key := InProgress(r.verb, r.path, 0)],
          map[0 := Proc(r, 0, if Storable(resp) then Keeping(resp) else Dropping)], map[r.key := [resp]],
          {}, multiset{}, if Storable(resp) then multiset{} else multiset{r.key})
  }

  lemma FirstReturns(r: Request, resp: Response)
    requires Success(resp)
    ensures Run(Init(0), [Arrive(0, r, StoreOk), Return(0, resp)]) == Returned(r, resp)
  {
    hide Storable, Success;
    Run2(Init(0), Arrive(0, r, StoreOk), Return(0, resp));
    assert Next(Init(0), Arrive(0, r, StoreOk)).live == map[0 := Proc(r, 0, Running)];
    assert RunsOf(Init(0), r.key) + [resp] == [resp];
  }

  lemma CrashedAndStale(r: Request, resp: Response)
    requires Storable(resp)
    ensures var w := Run(Returned(r, resp), [Crash(0), Tick(STALE_AFTER + 1)]);
      w.live == map[] && w.overran == {} && w.lost == multiset{r.key} && RunsOf(w, r.key) == [resp] && Takes(w.table, r, w.now)
  {
    hide Storable;
    Run2(Returned(r, resp), Crash(0), Tick(STALE_AFTER + 1));
    assert Next(Returned(r, resp), Crash(0)).live == map[];
  }

  lemma ReleasedUnstored(r: Request, resp: Response)
    requires !Storable(resp)
    ensures var w := Run(Returned(r, resp), [Finish(0, true), Tick(0)]);
      w.live == map[] && w.overran == {} && w.lost == multiset{} && RunsOf(w, r.key) == [resp] && Takes(w.table, r, w.now)
  {
    hide Storable;
    Run2(Returned(r, resp), Finish(0, true), Tick(0));
    assert Next(Returned(r, resp), Finish(0, true)).live == map[];
  }

  /** A second request takes the key, from a free row or a stale one, and succeeds too. */
  lemma SecondReturns(w: World, r: Request, first: Response, second: Response)
    requires w.live == map[] && Takes(w.table, r, w.now) && RunsOf(w, r.key) == [first] && Success(second)
    ensures var w' := Run(w, [Arrive(1, r, StoreOk), Return(1, second)]);
      RunsOf(w', r.key) == [first, second] && w'.overran == w.overran && w'.lost == w.lost
  {
    hide Storable, Success, Takes;
    Run2(w, Arrive(1, r, StoreOk), Return(1, second));
    assert [first] + [second] == [first, second];
  }

  /** A completion that never lands, here by a crash, leaves a reservation that goes stale: with nobody
      over the limit, the handler succeeds twice. */
  lemma LostWriteRepeats(r: Request, first: Response, second: Response)
    requires Storable(first) && Success(second)
    ensures exists actions ::
      var w := Run(Init(0), actions);
      w.overran == {} && w.lost == multiset{r.key} && RunsOf(w, r.key) == [first, second]
  {
    hide Run, Storable, Success, Init, Returned, RunsOf, Takes;
    StorableSucceeds(first);
    var a, b, c := [Arrive(0, r, StoreOk), Return(0, first)], [Crash(0), Tick(STALE_AFTER + 1)], [Arrive(1, r, StoreOk), Return(1, second)];
    FirstReturns(r, first);
    CrashedAndStale(r, first);
    SecondReturns(Run(Returned(r, first), b), r, first, second);
    RunConcat(Returned(r, first), b, c);
    RunConcat(Init(0), a, b + c);
  }

  /** A successful response over the cap is not stored and frees the key: the handler succeeds again. */
  lemma OversizedRepeats(r: Request, big: Response, second: Response)
    requires Success(big) && !Storable(big) && Success(second)
    ensures exists actions ::
      var w := Run(Init(0), actions);
      w.overran == {} && w.lost == multiset{} && RunsOf(w, r.key) == [big, second]
  {
    hide Run, Storable, Success, Init, Returned, RunsOf, Takes;
    var a, b, c := [Arrive(0, r, StoreOk), Return(0, big)], [Finish(0, true), Tick(0)], [Arrive(1, r, StoreOk), Return(1, second)];
    FirstReturns(r, big);
    ReleasedUnstored(r, big);
    SecondReturns(Run(Returned(r, big), b), r, big, second);
    RunConcat(Returned(r, big), b, c);
    RunConcat(Init(0), a, b + c);
  }

  // ---- the middleware around one request ---------------------------------------------

  datatype Handler = Returns(response: Response) | Panics

  /** What arrives at the middleware, before any key is reserved. */
  datatype Call = Call(safeMethod: bool, header: string, tenant: Option<nat>, required: bool, apiKeyCaller: bool,
                       verb: string, path: string)

  /** The table after one uninterrupted request, statement by statement. */
  function TableAfter(t: Table, r: Request, now: int, handler: Handler, storeOk: bool, landed: bool): Table {
    if !storeOk || !Takes(t, r, now) then t
    else if !landed then Reserve(t, r, now)
    else if handler.Returns? && Storable(handler.response) then Complete(Reserve(t, r, now), r.key, handler.response)
    else Release(Reserve(t, r, now), r.key)
  }

  function ReplyTo(t: Table, r: Request, now: int, handler: Handler, storeOk: bool): Reply {
    if !storeOk then Unavailable503
    else if !Takes(t, r, now) then Answer(t[r.key], r)
    else if handler.Panics? then Panicked
    else Fresh(handler.response)
  }

  /** What a guarded request is promised, whatever computes it: which requests run the handler, what
      each caller hears, and what the table then says about the key; no other key is touched. */
  ghost predicate Promised(t: Table, t': Table, r: Request, now: int, handler: Handler, storeOk: bool, landed: bool, reply: Reply, ran: bool) {
    var held := r.key in t;
    var same := held && t[r.key].verb == r.verb && t[r.key].path == r.path;
    var stale := held && t[r.key].InProgress? && now - t[r.key].createdAt > 300;
    && (forall k: Key :: k != r.key ==> (k in t' <==> k in t) && (k in t ==> t'[k] == t[k]))
    && (ran <==> storeOk && (!held || (same && stale)))
    && (!ran ==> t' == t)
    && (!storeOk ==> reply == Unavailable503)
    && (storeOk && held && !same ==> reply == Reused422)
    && (storeOk && same && t[r.key].InProgress? && !stale ==> reply == InProgress409)
    && (storeOk && same && t[r.key].Completed? ==> reply == Replayed(t[r.key].response))
    && (ran && handler.Panics? ==> reply == Panicked)
    && (ran && handler.Returns? ==> reply == Fresh(handler.response))
    && (ran && !landed ==> r.key in t' && t'[r.key] == InProgress(r.verb, r.path, now))
    && (ran && landed ==>
          if handler.Returns? && 200 <= handler.response.status <= 299 && |handler.response.body| <= 1024 * 1024
          then r.key in t' && t'[r.key] == Completed(r.verb, r.path, now, handler.response)
          else r.key !in t')
  }

  /** Two requests in a row. After a stored success, the second, at any later time and with any handler,
      hears the first response replayed and does not run; after anything not stored, it runs. */
  lemma ServedTwice(t: Table, t1: Table, t2: Table, r: Request, now: int, now': int, h: Handler, h': Handler,
                    landed': bool, reply: Reply, reply': Reply, ran': bool)
    requires Promised(t, t1, r, now, h, true, true, reply, true)
    requires Promised(t1, t2, r, now', h', true, landed', reply', ran')
    ensures h.Returns? && 200 <= h.response.status <= 299 && |h.response.body| <= 1024 * 1024 ==>
      reply == Fresh(h.response) && reply' == Replayed(h.response) && !ran' && t2 == t1
    ensures !(h.Returns? && 200 <= h.response.status <= 299 && |h.response.body| <= 1024 * 1024) ==>
      ran' && (h'.Returns? ==> reply' == Fresh(h'.response))
  {
  }

  /** That is the protocol's arrive, return (or panic) and finish steps in a row. */
  lemma ServeIsRun(w: World, pid: Pid, r: Request, handler: Handler, storeOk: bool, landed: bool)
    requires pid !in w.live
    ensures var arrive := Arrive(pid, r, if storeOk then StoreOk else StoreError(false));
      var handle := if handler.Panics? then Panic(pid) else Return(pid, handler.response);
      Run(w, [arrive, handle, Finish(pid, landed), Tick(0)]).table == TableAfter(w.table, r, w.now, handler, storeOk, landed)
  {
    hide Run, TableAfter, Takes, Storable;
    var arrive := Arrive(pid, r, if storeOk then StoreOk else StoreError(false));
    var handle := if handler.Panics? then Panic(pid) else Return(pid, handler.response);
    var finish := Finish(pid, landed);
    assert [arrive, handle] + [finish, Tick(0)] == [arrive, handle, finish, Tick(0)];
    RunConcat(w, [arrive, handle], [finish, Tick(0)]);
    Run2(w, arrive, handle);
    Run2(Next(Next(w, arrive), handle), finish, Tick(0));
    ServeSteps(w, pid, r, handler, storeOk, landed);
  }

  lemma ServeSteps(w: World, pid: Pid, r: Request, handler: Handler, storeOk: bool, landed: bool)
    requires pid !in w.live
    ensures var w1 := DoArrive(w, pid, r, if storeOk then StoreOk else StoreError(false));
      var w2 := if handler.Panics? then DoPanic(w1, pid) else DoReturn(w1, pid, handler.response);
      DoFinish(w2, pid, landed).table == TableAfter(w.table, r, w.now, handler, storeOk, landed)
  {
    hide Takes, Storable, Complete, Release, Reserve;
    var w1 := DoArrive(w, pid, r, if storeOk then StoreOk else StoreError(false));
    if storeOk && Takes(w.table, r, w.now) {
      assert w1.live[pid] == Proc(r, w.now, Running) && w1.table == Reserve(w.table, r, w.now);
      HandleThenFinish(w1, pid, handler, landed);
    } else {
      assert pid !in w1.live && w1.table == w.table;
    }
  }

  lemma HandleThenFinish(w: World, pid: Pid, handler: Handler, landed: bool)
    requires pid in w.live && w.live[pid].phase.Running?
    ensures var w' := if handler.Panics? then DoPanic(w, pid) else DoReturn(w, pid, handler.response);
      var k := w.live[pid].request.key;
      DoFinish(w', pid, landed).table ==
        if !landed then w.table
        else if handler.Returns? && Storable(handler.response) then Complete(w.table, k, handler.response)
        else Release(w.table, k)
  {
    hide Storable, Complete, Release;
  }

  datatype Served = PassedOn | Refused400(reason: string) | Guarded(reply: Reply)

  class Middleware {
    var table: Table

    constructor ()
      ensures table == map[]
    {
      table := map[];
    }

    method ReserveKey(r: Request, now: int) returns (owned: bool, existing: Option<Entry>)
      modifies this
      ensures owned == Takes(old(table), r, now) && table == Reserve(old(table), r, now)
      ensures !owned ==> r.key in table && existing == Some(table[r.key])
    {
      if r.key !in table {
        table := table[r.key := InProgress(r.verb, r.path, now)];
        return true, None;
      }
      var e := table[r.key];
      if e.InProgress? && e.createdAt < now - STALE_AFTER && e.verb == r.verb && e.path == r.path {
        table := table[r.key := InProgress(e.verb, e.path, now)];
        return true, None;
      }
      return false, Some(e);
    }

    /** One request served without interruption. `ran` tells whether the guarded handler was called. */
    method Serve(c: Call, now: int, handler: Handler, storeOk: bool, landed: bool) returns (s: Served, ran: bool)
      modifies this
      ensures s.PassedOn? <==> c.safeMethod || (c.header == "" && !(c.required && c.apiKeyCaller))
                               || (c.header != "" && |c.header| <= MAX_KEY_LEN && c.tenant == None)
      ensures s == Refused400("IDEMPOTENCY_KEY_REQUIRED") <==> !c.safeMethod && c.header == "" && c.required && c.apiKeyCaller
      ensures s == Refused400("IDEMPOTENCY_KEY_TOO_LONG") <==> !c.safeMethod && |c.header| > 200
      ensures s.Guarded? <==> !c.safeMethod && 0 < |c.header| <= 200 && c.tenant.Some?
      ensures !s.Guarded? ==> table == old(table) && !ran
      ensures s.Guarded? ==> c.tenant.Some?
      ensures s.Guarded? ==>
        var r := Request(Key(c.tenant.value, c.header), c.verb, c.path);
        && table == TableAfter(old(table), r, now, handler, storeOk, landed)
        && s.reply == ReplyTo(old(table), r, now, handler, storeOk)
        && Promised(old(table), table, r, now, handler, storeOk, landed, s.reply, ran)
    {
      if c.safeMethod {
        return PassedOn, false;
      }
      if c.header == "" {
        if c.required && c.apiKeyCaller {
          return Refused400("IDEMPOTENCY_KEY_REQUIRED"), false;
        }
        return PassedOn, false;
      }
      if |c.header| > MAX_KEY_LEN {
        return Refused400("IDEMPOTENCY_KEY_TOO_LONG"), false;
      }
      if c.tenant == None {
        return PassedOn, false;
      }
      var r := Request(Key(c.tenant.value, c.header), c.verb, c.path);
      if !storeOk {
        return Guarded(Unavailable503), false;
      }
      var owned, existing := ReserveKey(r, now);
      if !owned {
        var e := existing.value;
        if e.verb != r.verb || e.path != r.path {
          return Guarded(Reused422), false;
        }
        if e.Completed? {
          return Guarded(Replayed(e.response)), false;
        }
        return Guarded(InProgress409), false;
      }
      if handler.Panics? {
        if landed {
          table := Release(table, r.key);
        }
        return Guarded(Panicked), true;
      }
      var resp := handler.response;
      if landed {
        if 200 <= resp.status < 300 && |resp.body| <= MAX_STORED_BODY {
          table := Complete(table, r.key, resp);
        } else {
          table := Release(table, r.key);
        }
      }
      return Guarded(Fresh(resp)), true;
    }
  }
}
