/** The mobile capture queue: persistent jobs, one drain at a time, and uploads that resume where an
    earlier attempt stopped. Enqueues and retries may come between any two steps of a drain. */
module UploadQueue {
  import opened Basics

  const MAX_ATTEMPTS := 5
  const STALE_CLAIM_MS := 600_000

  type JobId = nat

  datatype QueueStatus = Pending | Uploading | Finished | Failed | Stalled

  datatype Job = Job(status: QueueStatus, attempts: nat, blob: Option<nat>, document: Option<nat>, claimedAt: Option<int>)

  /** The job a drain is working on: its snapshot, and what this upload has so far. */
  datatype Work = Work(id: JobId, attempts: nat, blob: Option<nat>, document: Option<nat>)

  /** `todo` are the snapshots a running drain has still to visit. */
  datatype Drain = Idle | Running(todo: seq<(JobId, Job)>, work: Option<Work>)

  /** `blobs` and `docs` are the server's side: for which job each blob and document was made. The
      stray ones are history: made by the server, but never recorded in the queue. */
  datatype World = World(rows: map<JobId, Job>, nextId: JobId, drain: Drain, blobs: seq<JobId>, docs: seq<JobId>,
                         strayBlobs: seq<JobId>, strayDocs: seq<JobId>)

  const INIT := World(map[], 0, Idle, [], [], [], [])

  /** How a server step ends: done and recorded; refused without effect; or done by the server but not
      recorded, because the reply or the queue's own write was lost. */
  datatype Outcome = Recorded | Refused | Unrecorded

  datatype Action =
    | Enqueue
    | Retry(id: JobId)
    | StartDrain(online: bool)
    | Claim(now: int)
    | StoreBlob(outcome: Outcome)
    | CreateDocument(outcome: Outcome)
    | CreateVersion(ok: bool)
    | EndDrain
    | Die(stored: bool)
      // the process dies or the catch block's write fails; `stored` if the server did the step at hand

  predicate Active(j: Job) { (j.status.Pending? || j.status.Failed? || j.status.Uploading?) && j.attempts < MAX_ATTEMPTS }

  /** The active jobs in id order. */
  function ActiveUpto(rows: map<JobId, Job>, n: JobId): seq<(JobId, Job)> {
    if n == 0 then []
    else ActiveUpto(rows, n - 1) + if n - 1 in rows && Active(rows[n - 1]) then [(n - 1, rows[n - 1])] else []
  }

  predicate Claimable(j: Job, now: int) {
    j.status.Pending? || j.status.Failed?
    || (j.status.Uploading? && (j.claimedAt.None? || j.claimedAt.value < now - STALE_CLAIM_MS))
  }

  /** The catch block: one more attempt than the snapshot had, and stalled at the cap. */
  function Caught(w: World, k: Work): World {
    var n := k.attempts + 1;
    if k.id !in w.rows || w.drain.Idle? then w
    else w.(rows := w.rows[k.id := w.rows[k.id].(status := if n >= MAX_ATTEMPTS then Stalled else Failed, attempts := n)],
            drain := Running(w.drain.todo, None))
  }

  function StrayBlob(w: World, id: JobId): World { w.(blobs := w.blobs + [id], strayBlobs := w.strayBlobs + [id]) }

  function StrayDoc(w: World, id: JobId): World { w.(docs := w.docs + [id], strayDocs := w.strayDocs + [id]) }

  predicate Working(w: World) { w.drain.Running? && w.drain.work.Some? && w.drain.work.value.id in w.rows }

  function Next(w: World, a: Action): World {
    match a
    case Enqueue => w.(rows := w.rows[w.nextId := Job(Pending, 0, None, None, None)], nextId := w.nextId + 1)
    case Retry(id) =>
      if id !in w.rows then w else w.(rows := w.rows[id := w.rows[id].(status := Pending, attempts := 0)])
    case StartDrain(online) =>
      if !w.drain.Idle? || !online then w else w.(drain := Running(ActiveUpto(w.rows, w.nextId), None))
    case Claim(now) =>
      if !w.drain.Running? || w.drain.work.Some? || w.drain.todo == [] then w
      else
        var (id, snap) := w.drain.todo[0];
        var rest := w.drain.todo[1..];
        if id !in w.rows || !Claimable(w.rows[id], now) then w.(drain := Running(rest, None))
        else w.(rows := w.rows[id := w.rows[id].(status := Uploading, claimedAt := Some(now))],
                drain := Running(rest, Some(Work(id, snap.attempts, snap.blob, snap.document))))
    case StoreBlob(outcome) =>
      if !Working(w) || w.drain.work.value.blob.Some? then w
      else
        var k := w.drain.work.value;
        if outcome.Refused? then Caught(w, k)
        else if outcome.Unrecorded? then Caught(StrayBlob(w, k.id), k)
        else
          var b := |w.blobs|;
          w.(blobs := w.blobs + [k.id], rows := w.rows[k.id := w.rows[k.id].(blob := Some(b))],
             drain := w.drain.(work := Some(k.(blob := Some(b)))))
    case CreateDocument(outcome) =>
      if !Working(w) || w.drain.work.value.blob.None? || w.drain.work.value.document.Some? then w
      else
        var k := w.drain.work.value;
        if outcome.Refused? then Caught(w, k)
        else if outcome.Unrecorded? then Caught(StrayDoc(w, k.id), k)
        else
          var d := |w.docs|;
          w.(docs := w.docs + [k.id], rows := w.rows[k.id := w.rows[k.id].(document := Some(d))],
             drain := w.drain.(work := Some(k.(document := Some(d)))))
    case CreateVersion(ok) =>
      if !Working(w) || w.drain.work.value.blob.None? || w.drain.work.value.document.None? then w
      else
        var k := w.drain.work.value;
        if !ok then Caught(w, k)
        else w.(rows := w.rows[k.id := w.rows[k.id].(status := Finished, document := k.document)],
                drain := Running(w.drain.todo, None))
    case EndDrain =>
      if w.drain.Running? && w.drain.work.None? && w.drain.todo == [] then w.(drain := Idle) else w
    case Die(stored) => Died(w, stored).(drain := Idle)
  }

  /** What the server did just before the process died. */
  function Died(w: World, stored: bool): World {
    if !stored || !Working(w) then w
    else if w.drain.work.value.blob.None? then StrayBlob(w, w.drain.work.value.id)
    else if w.drain.work.value.document.None? then StrayDoc(w, w.drain.work.value.id)
    else w
  }

  function Run(w: World, actions: seq<Action>): World
    decreases |actions|
  {
    if actions == [] then w else Run(Next(w, actions[0]), actions[1..])
  }

  // ---- invariant ------------------------------------------------------------------------

  function Occurs(s: seq<JobId>, id: JobId): nat { multiset(s)[id] }

  /** The row remembers exactly what the server has made for it, but for strays. */
  ghost predicate RowOk(w: World, id: JobId) {
    && (id in w.rows ==>
          && Occurs(w.blobs, id) == (if w.rows[id].blob.Some? then 1 else 0) + Occurs(w.strayBlobs, id)
          && Occurs(w.docs, id) == (if w.rows[id].document.Some? then 1 else 0) + Occurs(w.strayDocs, id)
          && w.rows[id].attempts <= MAX_ATTEMPTS && (w.rows[id].status.Stalled? <==> w.rows[id].attempts == MAX_ATTEMPTS))
    && (id !in w.rows ==> Occurs(w.blobs, id) == Occurs(w.docs, id) == Occurs(w.strayBlobs, id) == Occurs(w.strayDocs, id) == 0)
  }

  /** Snapshots still to visit agree with their rows on what was made, and no job comes twice. */
  ghost predicate DrainOk(w: World) {
    w.drain.Running? ==>
      && (forall i :: 0 <= i < |w.drain.todo| ==> SnapOk(w, w.drain.todo[i]))
      && (forall i, j :: 0 <= i < j < |w.drain.todo| ==> w.drain.todo[i].0 != w.drain.todo[j].0)
      && (w.drain.work.Some? ==> WorkOk(w, w.drain.work.value))
      && (w.drain.work.Some? ==> forall i :: 0 <= i < |w.drain.todo| ==> w.drain.todo[i].0 != w.drain.work.value.id)
  }

  ghost predicate SnapOk(w: World, s: (JobId, Job)) {
    s.0 in w.rows && s.1.blob == w.rows[s.0].blob && s.1.document == w.rows[s.0].document && s.1.attempts < MAX_ATTEMPTS
  }

  ghost predicate WorkOk(w: World, k: Work) {
    && k.id in w.rows && k.blob == w.rows[k.id].blob && k.document == w.rows[k.id].document
    && k.attempts < MAX_ATTEMPTS && w.rows[k.id].attempts < MAX_ATTEMPTS
  }

  ghost predicate Inv(w: World) {
    && (forall id: JobId :: RowOk(w, id))
    && (forall id <- w.rows :: id < w.nextId)
    && DrainOk(w)
  }

  lemma {:induction false} ActiveSnapshots(rows: map<JobId, Job>, n: JobId)
    ensures forall i :: 0 <= i < |ActiveUpto(rows, n)| ==>
      var s := ActiveUpto(rows, n)[i]; s.0 < n && s.0 in rows && s.1 == rows[s.0] && Active(s.1)
    ensures forall i, j :: 0 <= i < j < |ActiveUpto(rows, n)| ==> ActiveUpto(rows, n)[i].0 < ActiveUpto(rows, n)[j].0
  {
    if n > 0 {
      ActiveSnapshots(rows, n - 1);
    }
  }

  lemma OneMore(s: seq<JobId>, id: JobId, x: JobId)
    ensures Occurs(s + [id], x) == Occurs(s, x) + if x == id then 1 else 0
  {
  }

  /** A row changed in status, attempts or claim only keeps all its promises. */
  lemma RowTouched(w: World, w': World, id: JobId)
    requires Inv(w) && id in w.rows && w'.rows.Keys == w.rows.Keys && w'.nextId == w.nextId
    requires w'.blobs == w.blobs && w'.docs == w.docs && w'.strayBlobs == w.strayBlobs && w'.strayDocs == w.strayDocs
    requires forall x <- w.rows :: x != id ==> w'.rows[x] == w.rows[x]
    requires w'.rows[id].blob == w.rows[id].blob && w'.rows[id].document == w.rows[id].document
    requires w'.rows[id].attempts <= MAX_ATTEMPTS && (w'.rows[id].status.Stalled? <==> w'.rows[id].attempts == MAX_ATTEMPTS)
    requires w'.drain == w.drain ==> w'.rows[id].attempts < MAX_ATTEMPTS
    ensures (forall x: JobId :: RowOk(w', x)) && (forall x <- w'.rows :: x < w'.nextId)
    ensures w'.drain == w.drain ==> DrainOk(w')
  {
    forall x: JobId
      ensures RowOk(w', x)
    {
      assert RowOk(w, x);
    }
    if w.drain.Running? && w'.drain == w.drain {
      forall i | 0 <= i < |w.drain.todo|
        ensures SnapOk(w', w.drain.todo[i])
      {
        assert SnapOk(w, w.drain.todo[i]);
      }
    }
  }

  lemma SnapsKept(w: World, w': World, todo: seq<(JobId, Job)>)
    requires forall i :: 0 <= i < |todo| ==> SnapOk(w, todo[i])
    requires forall i :: 0 <= i < |todo| ==> todo[i].0 in w'.rows && todo[i].0 in w.rows
    requires forall i :: 0 <= i < |todo| ==>
      w'.rows[todo[i].0].blob == w.rows[todo[i].0].blob && w'.rows[todo[i].0].document == w.rows[todo[i].0].document
    ensures forall i :: 0 <= i < |todo| ==> SnapOk(w', todo[i])
  {
    forall i | 0 <= i < |todo|
      ensures SnapOk(w', todo[i])
    {
      assert SnapOk(w, todo[i]);
    }
  }

  lemma EnqueueKeeps(w: World)
    requires Inv(w)
    ensures Inv(Next(w, Enqueue))
  {
    var w' := Next(w, Enqueue);
    assert w.nextId !in w.rows;
    forall x: JobId
      ensures RowOk(w', x)
    {
      assert RowOk(w, x);
    }
    if w.drain.Running? {
      SnapsKept(w, w', w.drain.todo);
    }
  }

  lemma StartKeeps(w: World, online: bool)
    requires Inv(w)
    ensures Inv(Next(w, StartDrain(online)))
  {
    var w' := Next(w, StartDrain(online));
    ActiveSnapshots(w.rows, w.nextId);
    forall x: JobId
      ensures RowOk(w', x)
    {
      assert RowOk(w, x);
    }
  }

  lemma ClaimKeeps(w: World, now: int)
    requires Inv(w)
    ensures Inv(Next(w, Claim(now)))
  {
    var w' := Next(w, Claim(now));
    if w.drain.Running? && w.drain.work.None? && w.drain.todo != [] {
      var id := w.drain.todo[0].0;
      assert SnapOk(w, w.drain.todo[0]) && RowOk(w, id);
      var rest := w.drain.todo[1..];
      assert forall i :: 0 <= i < |rest| ==> rest[i] == w.drain.todo[i + 1];
      RowTouched(w, w', id);
      SnapsKept(w, w', rest);
    }
  }

  lemma CaughtKeeps(w: World)
    requires Inv(w) && Working(w)
    ensures Inv(Caught(w, w.drain.work.value))
  {
    var k := w.drain.work.value;
    var w' := Caught(w, k);
    assert WorkOk(w, k);
    RowTouched(w, w', k.id);
    SnapsKept(w, w', w.drain.todo);
  }

  lemma StrayKeeps(w: World, id: JobId)
    requires Inv(w) && id in w.rows
    ensures Inv(StrayBlob(w, id)) && Inv(StrayDoc(w, id))
  {
    forall x: JobId
      ensures RowOk(StrayBlob(w, id), x) && RowOk(StrayDoc(w, id), x)
    {
      assert RowOk(w, x);
      OneMore(w.blobs, id, x);
      OneMore(w.strayBlobs, id, x);
      OneMore(w.docs, id, x);
      OneMore(w.strayDocs, id, x);
    }
    if w.drain.Running? {
      SnapsKept(w, StrayBlob(w, id), w.drain.todo);
      SnapsKept(w, StrayDoc(w, id), w.drain.todo);
    }
  }

  lemma IdleKeeps(w: World)
    requires Inv(w)
    ensures Inv(w.(drain := Idle))
  {
    forall x: JobId
      ensures RowOk(w.(drain := Idle), x)
    {
      assert RowOk(w, x);
    }
  }

  lemma DieKeeps(w: World, stored: bool)
    requires Inv(w)
    ensures Inv(Next(w, Die(stored)))
  {
    hide Inv;
    if stored && Working(w) {
      StrayKeeps(w, w.drain.work.value.id);
    }
    IdleKeeps(Died(w, stored));
  }

  lemma BlobKeeps(w: World)
    requires Inv(w) && Working(w) && w.drain.work.value.blob.None?
    ensures Inv(Next(w, StoreBlob(Recorded)))
  {
    var k, w' := w.drain.work.value, Next(w, StoreBlob(Recorded));
    assert WorkOk(w, k);
    forall x: JobId
      ensures RowOk(w', x)
    {
      assert RowOk(w, x);
      OneMore(w.blobs, k.id, x);
    }
    SnapsKept(w, w', w.drain.todo);
  }

  lemma DocKeeps(w: World)
    requires Inv(w) && Working(w) && w.drain.work.value.blob.Some? && w.drain.work.value.document.None?
    ensures Inv(Next(w, CreateDocument(Recorded)))
  {
    var k, w' := w.drain.work.value, Next(w, CreateDocument(Recorded));
    assert WorkOk(w, k);
    forall x: JobId
      ensures RowOk(w', x)
    {
      assert RowOk(w, x);
      OneMore(w.docs, k.id, x);
    }
    SnapsKept(w, w', w.drain.todo);
  }

  lemma VersionKeeps(w: World)
    requires Inv(w) && Working(w) && w.drain.work.value.blob.Some? && w.drain.work.value.document.Some?
    ensures Inv(Next(w, CreateVersion(true)))
  {
    var k, w' := w.drain.work.value, Next(w, CreateVersion(true));
    assert WorkOk(w, k) && RowOk(w, k.id);
    RowTouched(w, w', k.id);
    SnapsKept(w, w', w.drain.todo);
  }

  lemma StepKeeps(w: World, a: Action)
    requires Inv(w)
    ensures Inv(Next(w, a))
    ensures forall id <- w.rows :: id in Next(w, a).rows
  {
    hide Inv;
    match a
    case Enqueue => EnqueueKeeps(w);
    case Retry(id) => RetryKeeps(w, id);
    case StartDrain(online) => StartKeeps(w, online);
    case Claim(now) => ClaimKeeps(w, now);
    case StoreBlob(outcome) => StoreKeeps(w, outcome);
    case CreateDocument(outcome) => CreateKeeps(w, outcome);
    case CreateVersion(ok) =>
      if Working(w) && w.drain.work.value.blob.Some? && w.drain.work.value.document.Some? {
        if ok { VersionKeeps(w); } else { CaughtKeeps(w); }
      }
    case EndDrain => IdleKeeps(w);
    case Die(stored) => DieKeeps(w, stored);
  }

  lemma RetryKeeps(w: World, id: JobId)
    requires Inv(w)
    ensures Inv(Next(w, Retry(id)))
  {
    if id in w.rows {
      RowTouched(w, Next(w, Retry(id)), id);
    }
  }

  lemma StoreKeeps(w: World, outcome: Outcome)
    requires Inv(w)
    ensures Inv(Next(w, StoreBlob(outcome)))
  {
    hide Inv;
    if Working(w) && w.drain.work.value.blob.None? {
      StrayKeeps(w, w.drain.work.value.id);
      match outcome
      case Recorded => BlobKeeps(w);
      case Refused => CaughtKeeps(w);
      case Unrecorded => CaughtKeeps(StrayBlob(w, w.drain.work.value.id));
    }
  }

  lemma CreateKeeps(w: World, outcome: Outcome)
    requires Inv(w)
    ensures Inv(Next(w, CreateDocument(outcome)))
  {
    hide Inv;
    if Working(w) && w.drain.work.value.blob.Some? && w.drain.work.value.document.None? {
      StrayKeeps(w, w.drain.work.value.id);
      match outcome
      case Recorded => DocKeeps(w);
      case Refused => CaughtKeeps(w);
      case Unrecorded => CaughtKeeps(StrayDoc(w, w.drain.work.value.id));
    }
  }

  lemma {:induction false} RunKeeps(w: World, actions: seq<Action>)
    requires Inv(w)
    ensures Inv(Run(w, actions)) && forall id <- w.rows :: id in Run(w, actions).rows
    decreases |actions|
  {
    if actions != [] {
      hide Inv, Next;
      StepKeeps(w, actions[0]);
      RunKeeps(Next(w, actions[0]), actions[1..]);
    }
  }

  /** The server never did a step that the queue did not record. */
  predicate AllRecorded(actions: seq<Action>) {
    forall a <- actions ::
      !(a.StoreBlob? && a.outcome.Unrecorded?) && !(a.CreateDocument? && a.outcome.Unrecorded?) && !(a.Die? && a.stored)
  }

  lemma {:induction false} NoStrays(w: World, actions: seq<Action>)
    requires AllRecorded(actions)
    ensures Run(w, actions).strayBlobs == w.strayBlobs && Run(w, actions).strayDocs == w.strayDocs
    decreases |actions|
  {
    if actions != [] {
      assert actions[0] in actions && forall a <- actions[1..] :: a in actions;
      NoStrays(Next(w, actions[0]), actions[1..]);
    }
  }

  /** Over every run, kills, lost replies and failed queue writes included: the server holds exactly
      the recorded blob and document of a job plus the strays, so at most one of each when every step
      the server did was recorded. Attempts stay within the cap, and no queued job disappears or gets
      stuck: it is done, stalled for the user to retry, or active and claimed by a later drain. */
  lemma ReplayDoesNotDuplicate(before: seq<Action>, after: seq<Action>, id: JobId)
    ensures var w := Run(Run(INIT, before), after);
      && Occurs(w.blobs, id) == (if id in w.rows && w.rows[id].blob.Some? then 1 else 0) + Occurs(w.strayBlobs, id)
      && Occurs(w.docs, id) == (if id in w.rows && w.rows[id].document.Some? then 1 else 0) + Occurs(w.strayDocs, id)
      && (AllRecorded(before) && AllRecorded(after) ==> Occurs(w.blobs, id) <= 1 && Occurs(w.docs, id) <= 1)
      && (id in w.rows ==> w.rows[id].attempts <= 5)
      && (id in w.rows ==> w.rows[id].status.Finished? || w.rows[id].status.Stalled? || Active(w.rows[id]))
      && (id in Run(INIT, before).rows ==> id in w.rows)
  {
    RunKeeps(INIT, before);
    RunKeeps(Run(INIT, before), after);
    assert RowOk(Run(Run(INIT, before), after), id);
    if AllRecorded(before) && AllRecorded(after) {
      NoStrays(INIT, before);
      NoStrays(Run(INIT, before), after);
    }
  }

  /** A new job is pending, with nothing tried or made, under an id of its own; no other row changes. */
  lemma EnqueueExact(w: World, now: int)
    requires Inv(w)
    ensures var w' := Next(w, Enqueue);
      && w.nextId !in w.rows && w'.rows == w.rows[w.nextId := w'.rows[w.nextId]]
      && w'.rows[w.nextId] == Job(Pending, 0, None, None, None) && Active(w'.rows[w.nextId]) && Claimable(w'.rows[w.nextId], now)
      && w'.drain == w.drain && w'.blobs == w.blobs && w'.docs == w.docs
  {
  }

  /** A drain starts only online and only when none is running, and then visits exactly the jobs that
      are neither done nor out of attempts, in id order, as they are now. */
  lemma StartExact(w: World, id: JobId)
    requires Inv(w)
    ensures Next(w, StartDrain(false)) == w && (w.drain.Running? ==> Next(w, StartDrain(true)) == w)
    ensures w.drain.Idle? ==>
      var w' := Next(w, StartDrain(true));
      && w'.(drain := Idle) == w && w'.drain.Running? && w'.drain.work.None?
      && (forall i, j :: 0 <= i < j < |w'.drain.todo| ==> w'.drain.todo[i].0 < w'.drain.todo[j].0)
      && (forall i :: 0 <= i < |w'.drain.todo| ==> w'.drain.todo[i].0 in w.rows && w'.drain.todo[i].1 == w.rows[w'.drain.todo[i].0])
      && ((exists i :: 0 <= i < |w'.drain.todo| && w'.drain.todo[i].0 == id) <==>
            id in w.rows && !w.rows[id].status.Finished? && !w.rows[id].status.Stalled? && w.rows[id].attempts < 5)
  {
    ActiveSnapshots(w.rows, w.nextId);
    if id in w.rows && Active(w.rows[id]) {
      var i := ActiveHas(w.rows, w.nextId, id);
    }
  }

  /** It ends only when every one of them has been visited. */
  lemma EndExact(w: World)
    ensures Next(w, EndDrain) != w ==>
      w.drain == Running([], None) && Next(w, EndDrain) == w.(drain := Idle)
    ensures w.drain == Running([], None) ==> Next(w, EndDrain).drain.Idle?
  {
  }

  /** A failed step costs one attempt and nothing else: what was made stays on record, and the fifth
      failure stalls the job. The last step marks it done, with its document. */
  lemma StepExact(w: World, step: Action)
    requires Inv(w) && Working(w)
    requires var k := w.drain.work.value;
      || (step == StoreBlob(Refused) && k.blob.None?)
      || (step == CreateDocument(Refused) && k.blob.Some? && k.document.None?)
      || (step.CreateVersion? && k.blob.Some? && k.document.Some?)
    ensures var k, w' := w.drain.work.value, Next(w, step);
      var j, j' := w.rows[k.id], w'.rows[k.id];
      && w'.rows == w.rows[k.id := j'] && w'.drain == Running(w.drain.todo, None) && w'.blobs == w.blobs && w'.docs == w.docs
      && j'.blob == j.blob && j'.document == j.document && j'.claimedAt == j.claimedAt
      && (if step == CreateVersion(true) then j'.status.Finished? && j'.attempts == j.attempts
          else j'.attempts == k.attempts + 1 && j'.status == if k.attempts + 1 < 5 then Failed else Stalled)
  {
    assert WorkOk(w, w.drain.work.value);
  }

  /** An active job is claimed by the next drain, except that one left uploading by a kill has to wait
      until its claim is stale. */
  lemma ActiveIsClaimable(j: Job, now: int)
    requires Active(j)
    ensures Claimable(j, now) <==> !(j.status.Uploading? && j.claimedAt.Some? && now <= j.claimedAt.value + 10 * 60 * 1000)
  {
  }

  // ---- the condition is needed -----------------------------------------------------------------

  lemma {:induction false} RunConcat(w: World, a: seq<Action>, b: seq<Action>)
    ensures Run(w, a + b) == Run(Run(w, a), b)
    decreases |a|
  {
    hide Next;
    if a == [] {
      assert a + b == b;
    } else {
      assert (a + b)[0] == a[0] && (a + b)[1..] == a[1..] + b;
      RunConcat(Next(w, a[0]), a[1..], b);
    }
  }

  lemma RunOne(w: World, a: Action)
    ensures Run(w, [a]) == Next(w, a)
  {
    hide Next;
    assert [a][1..] == [] && Run(Next(w, a), []) == Next(w, a);
  }

  /** The server's side and what each row has on record are as before. */
  ghost predicate SameMade(w: World, w': World) {
    && w'.rows.Keys == w.rows.Keys && w'.nextId == w.nextId && w'.blobs == w.blobs && w'.docs == w.docs
    && forall x <- w.rows :: w'.rows[x].blob == w.rows[x].blob && w'.rows[x].document == w.rows[x].document
  }

  /** A drain can get past its next job without making anything. */
  lemma SkipHead(w: World) returns (actions: seq<Action>)
    requires Inv(w) && w.drain.Running? && w.drain.work.None? && w.drain.todo != []
    ensures var w' := Run(w, actions);
      && Inv(w') && SameMade(w, w') && w'.drain == Running(w.drain.todo[1..], None)
      && forall x <- w.rows :: x != w.drain.todo[0].0 ==> w'.rows[x] == w.rows[x]
  {
    hide Inv;
    var w1 := Next(w, Claim(0));
    StepKeeps(w, Claim(0));
    RunOne(w, Claim(0));
    actions := [Claim(0)];
    if w1.drain.work.Some? {
      var fail := if w1.drain.work.value.blob.None? then StoreBlob(Refused)
                  else if w1.drain.work.value.document.None? then CreateDocument(Refused) else CreateVersion(false);
      StepKeeps(w1, fail);
      RunOne(w1, fail);
      RunConcat(w, [Claim(0)], [fail]);
      actions := [Claim(0)] + [fail];
    }
  }

  lemma {:induction false} SkipTo(w: World, i: nat) returns (actions: seq<Action>)
    requires Inv(w) && w.drain.Running? && w.drain.work.None? && i <= |w.drain.todo|
    ensures var w' := Run(w, actions);
      && Inv(w') && SameMade(w, w') && w'.drain == Running(w.drain.todo[i..], None)
      && forall j :: i <= j < |w.drain.todo| && w.drain.todo[j].0 in w.rows ==> w'.rows[w.drain.todo[j].0] == w.rows[w.drain.todo[j].0]
    decreases i
  {
    if i == 0 {
      actions := [];
      assert w.drain.todo[0..] == w.drain.todo;
    } else {
      var todo := w.drain.todo;
      var a := SkipHead(w);
      var w1 := Run(w, a);
      assert forall j :: i <= j < |todo| ==> todo[j].0 != todo[0].0;
      hide Inv, Run;
      var b := SkipTo(w1, i - 1);
      assert todo[1..][i - 1..] == todo[i..];
      assert forall j :: i <= j < |todo| ==> todo[1..][j - 1] == todo[j];
      RunConcat(w, a, b);
      actions := a + b;
    }
  }

  lemma {:induction false} ActiveHas(rows: map<JobId, Job>, n: JobId, id: JobId) returns (i: nat)
    requires id < n && id in rows && Active(rows[id])
    ensures i < |ActiveUpto(rows, n)| && ActiveUpto(rows, n)[i] == (id, rows[id])
  {
    if id == n - 1 {
      i := |ActiveUpto(rows, n)| - 1;
    } else {
      i := ActiveHas(rows, n - 1, id);
    }
  }

  /** After the user's retry, the next drain gets to the job, with what it has on record. */
  lemma ReachJob(w: World, id: JobId) returns (actions: seq<Action>)
    requires Inv(w) && w.drain.Idle? && id in w.rows
    ensures var w' := Run(w, actions);
      && Inv(w') && SameMade(w, w') && w'.drain.Running?
      && w'.drain.work == Some(Work(id, 0, w.rows[id].blob, w.rows[id].document))
  {
    assert id < w.nextId;
    hide Inv, Run;
    var w1 := Next(w, Retry(id));
    StepKeeps(w, Retry(id));
    var w2 := Next(w1, StartDrain(true));
    StepKeeps(w1, StartDrain(true));
    var i := ActiveHas(w1.rows, w1.nextId, id);
    var b := SkipTo(w2, i);
    var w3 := Run(w2, b);
    var w4 := Next(w3, Claim(0));
    StepKeeps(w3, Claim(0));
    assert w3.rows[id] == w1.rows[id] && w3.drain.todo[0] == (id, w1.rows[id]);
    RunOne(w, Retry(id));
    RunOne(w1, StartDrain(true));
    RunOne(w3, Claim(0));
    RunConcat(w, [Retry(id)], [StartDrain(true)]);
    RunConcat(w, [Retry(id)] + [StartDrain(true)], b);
    RunConcat(w, [Retry(id)] + [StartDrain(true)] + b, [Claim(0)]);
    actions := [Retry(id)] + [StartDrain(true)] + b + [Claim(0)];
  }

  lemma CloseDrain(w: World) returns (actions: seq<Action>)
    requires Inv(w) && w.drain.Running? && w.drain.work.None?
    ensures var w' := Run(w, actions); Inv(w') && SameMade(w, w') && w'.drain.Idle?
  {
    hide Inv, Run;
    var a := SkipTo(w, |w.drain.todo|);
    var w1 := Run(w, a);
    StepKeeps(w1, EndDrain);
    RunOne(w1, EndDrain);
    RunConcat(w, a, [EndDrain]);
    actions := a + [EndDrain];
  }

  /** From a job that the drain is working on, an unrecorded step and the way back to the job. */
  lemma BackToJob(w: World, step: Action, id: JobId) returns (actions: seq<Action>)
    requires Inv(w) && id in w.rows
    requires var w1 := Next(w, step); w1.drain.Running? && w1.drain.work.None? && w1.rows.Keys == w.rows.Keys
    ensures var w1, w' := Next(w, step), Run(w, actions);
      && Inv(w') && SameMade(w1, w') && w'.drain.Running?
      && w'.drain.work == Some(Work(id, 0, w1.rows[id].blob, w1.rows[id].document))
  {
    hide Inv, Run, Next;
    StepKeeps(w, step);
    var w1 := Next(w, step);
    RunOne(w, step);
    var a := CloseDrain(w1);
    var w2 := Run(w1, a);
    var b := ReachJob(w2, id);
    RunConcat(w1, a, b);
    RunConcat(w, [step], a + b);
    actions := [step] + (a + b);
  }

  /** From every reachable idle state and for every job without a blob, one unrecorded store and a retry
      put a second blob on the server. */
  lemma UnrecordedBlobTwice(w: World, id: JobId) returns (actions: seq<Action>)
    requires Inv(w) && w.drain.Idle? && id in w.rows && w.rows[id].blob.None?
    ensures Occurs(Run(w, actions).blobs, id) == Occurs(w.blobs, id) + 2
  {
    hide Inv, Run;
    var a := ReachJob(w, id);
    var w1 := Run(w, a);
    var b := BackToJob(w1, StoreBlob(Unrecorded), id);
    var w2 := Run(w1, b);
    OneMore(w1.blobs, id, id);
    OneMore(w2.blobs, id, id);
    RunOne(w2, StoreBlob(Recorded));
    RunConcat(w1, b, [StoreBlob(Recorded)]);
    RunConcat(w, a, b + [StoreBlob(Recorded)]);
    actions := a + (b + [StoreBlob(Recorded)]);
  }

  /** The same for documents, of a job whose blob is stored. */
  lemma UnrecordedDocumentTwice(w: World, id: JobId) returns (actions: seq<Action>)
    requires Inv(w) && w.drain.Idle? && id in w.rows && w.rows[id].blob.Some? && w.rows[id].document.None?
    ensures Occurs(Run(w, actions).docs, id) == Occurs(w.docs, id) + 2
  {
    hide Inv, Run;
    var a := ReachJob(w, id);
    var w1 := Run(w, a);
    var b := BackToJob(w1, CreateDocument(Unrecorded), id);
    var w2 := Run(w1, b);
    OneMore(w1.docs, id, id);
    OneMore(w2.docs, id, id);
    RunOne(w2, CreateDocument(Recorded));
    RunConcat(w1, b, [CreateDocument(Recorded)]);
    RunConcat(w, a, b + [CreateDocument(Recorded)]);
    actions := a + (b + [CreateDocument(Recorded)]);
  }

  // ---- one job, as the drain loop runs it ---------------------------------------------------

  /** Claim, store the bytes, create the document, create the version: a step whose result the job
      already has is skipped, and a failed step ends the job. */
  function JobSteps(w: World, now: int, blob: Outcome, doc: Outcome, versionOk: bool): World {
    Next(Next(Next(Next(w, Claim(now)), StoreBlob(blob)), CreateDocument(doc)), CreateVersion(versionOk))
  }

  class Store {
    var rows: map<JobId, Job>
    var blobs: seq<JobId>
    var docs: seq<JobId>

    constructor (rows: map<JobId, Job>, blobs: seq<JobId>, docs: seq<JobId>)
      ensures this.rows == rows && this.blobs == blobs && this.docs == docs
    {
      this.rows, this.blobs, this.docs := rows, blobs, docs;
    }

    /** The fields agree with a world of the protocol. */
    ghost predicate Shows(w: World)
      reads this
    {
      rows == w.rows && blobs == w.blobs && docs == w.docs
    }

    ghost predicate At(w: World, k: Work)
      reads this
    {
      Shows(w) && w.drain.Running? && w.drain.work == Some(k) && k.id in rows
    }

    method ClaimJob(ghost w: World, id: JobId, snap: Job, now: int) returns (won: bool)
      requires Shows(w) && id in rows
      requires w.drain.Running? && w.drain.work.None? && w.drain.todo != [] && w.drain.todo[0] == (id, snap)
      modifies this
      ensures Shows(Next(w, Claim(now))) && won == Claimable(old(rows)[id], now) && id in rows
      ensures Next(w, Claim(now)).drain ==
              Running(w.drain.todo[1..], if won then Some(Work(id, snap.attempts, snap.blob, snap.document)) else None)
    {
      won := Claimable(rows[id], now);
      if won {
        rows := rows[id := rows[id].(status := Uploading, claimedAt := Some(now))];
      }
    }

    /** The catch block of the drain loop. */
    method Catch(ghost w: World, k: Work)
      requires At(w, k)
      modifies this
      ensures Shows(Caught(w, k))
    {
      var attempts := k.attempts + 1;
      rows := rows[k.id := rows[k.id].(status := if attempts >= MAX_ATTEMPTS then Stalled else Failed, attempts := attempts)];
    }

    method BlobStep(ghost w: World, k: Work, outcome: Outcome) returns (r: Option<Work>)
      requires At(w, k)
      modifies this
      ensures Shows(Next(w, StoreBlob(outcome))) && k.id in rows
      ensures Next(w, StoreBlob(outcome)).drain == Running(w.drain.todo, r)
      ensures r == None <==> k.blob.None? && !outcome.Recorded?
      ensures r.Some? ==> r.value.id == k.id && r.value.blob.Some? && r.value.document == k.document
    {
      if k.blob.Some? {
        return Some(k);
      }
      if outcome.Refused? {
        Catch(w, k);
        return None;
      }
      if outcome.Unrecorded? {
        blobs := blobs + [k.id];
        Catch(StrayBlob(w, k.id), k);
        return None;
      }
      var b := Some(|blobs|);
      blobs := blobs + [k.id];
      rows := rows[k.id := rows[k.id].(blob := b)];
      return Some(k.(blob := b));
    }

    method DocumentStep(ghost w: World, k: Work, outcome: Outcome) returns (r: Option<Work>)
      requires At(w, k) && k.blob.Some?
      modifies this
      ensures Shows(Next(w, CreateDocument(outcome))) && k.id in rows
      ensures Next(w, CreateDocument(outcome)).drain == Running(w.drain.todo, r)
      ensures r == None <==> k.document.None? && !outcome.Recorded?
      ensures r.Some? ==> r.value.id == k.id && r.value.blob.Some? && r.value.document.Some?
    {
      if k.document.Some? {
        return Some(k);
      }
      if outcome.Refused? {
        Catch(w, k);
        return None;
      }
      if outcome.Unrecorded? {
        docs := docs + [k.id];
        Catch(StrayDoc(w, k.id), k);
        return None;
      }
      var d := Some(|docs|);
      docs := docs + [k.id];
      rows := rows[k.id := rows[k.id].(document := d)];
      return Some(k.(document := d));
    }

    method VersionStep(ghost w: World, k: Work, ok: bool)
      requires At(w, k) && k.blob.Some? && k.document.Some?
      modifies this
      ensures Shows(Next(w, CreateVersion(ok))) && Next(w, CreateVersion(ok)).drain == Running(w.drain.todo, None)
      ensures ok ==> k.id in rows && rows[k.id].status.Finished? && rows[k.id].document == k.document
    {
      if ok {
        rows := rows[k.id := rows[k.id].(status := Finished, document := k.document)];
      } else {
        Catch(w, k);
      }
    }

    /** One round of the drain loop for the snapshot at the head of the drain that `w` is in: the
        protocol's four steps in a row. */
    method DrainJob(ghost w: World, id: JobId, snap: Job, now: int, blob: Outcome, doc: Outcome, versionOk: bool)
      returns (uploaded: bool)
      requires Shows(w) && id in rows
      requires w.drain.Running? && w.drain.work.None? && w.drain.todo != [] && w.drain.todo[0] == (id, snap)
      modifies this
      ensures Shows(JobSteps(w, now, blob, doc, versionOk))
      ensures JobSteps(w, now, blob, doc, versionOk).drain == Running(w.drain.todo[1..], None)
      ensures uploaded ==> id in rows && rows[id].status.Finished? && rows[id].document.Some?
      ensures uploaded <==> Claimable(old(rows)[id], now) && (snap.blob.Some? || blob.Recorded?) && (snap.document.Some? || doc.Recorded?) && versionOk
    {
      hide Next, Claimable;
      ghost var w1 := Next(w, Claim(now));
      ghost var w2 := Next(w1, StoreBlob(blob));
      ghost var w3 := Next(w2, CreateDocument(doc));
      var won := ClaimJob(w, id, snap, now);
      if !won {
        NotWorking(w1, blob, doc, versionOk);
        return false;
      }
      var k := BlobStep(w1, Work(id, snap.attempts, snap.blob, snap.document), blob);
      if k.None? {
        NotWorking(w2, blob, doc, versionOk);
        return false;
      }
      k := DocumentStep(w2, k.value, doc);
      if k.None? {
        NotWorking(w3, blob, doc, versionOk);
        return false;
      }
      VersionStep(w3, k.value, versionOk);
      return versionOk;
    }
  }

  /** After a lost claim or a failed step the rest of the job's steps do nothing. */
  lemma NotWorking(w: World, blob: Outcome, doc: Outcome, versionOk: bool)
    requires w.drain.Running? && w.drain.work.None?
    ensures Next(w, StoreBlob(blob)) == w && Next(w, CreateDocument(doc)) == w && Next(w, CreateVersion(versionOk)) == w
  {
  }
}
