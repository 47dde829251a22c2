/** One tenant's key versions and wrapped blobs, under any interleaving of create, rotate, upload and
    re-wrap. */
module TenantKeys {
  import opened Basics
  import Text
  import opened KeyManager

  type Pid = nat
  type BlobId = nat

  datatype KekRow = KekRow(alias: string, retired: bool)

  datatype Blob = Blob(kekId: string, envelope: Envelope)

  /** A re-wrap in flight: the row as it was read, and the alias it will move to once resolved. */
  datatype Job = Job(blob: BlobId, seen: Blob, target: Option<string>)

  /** `deks` is history: the data key each blob was written with. */
  datatype World = World(keks: map<nat, KekRow>, blobs: map<BlobId, Blob>,
                         rotating: map<Pid, nat>, rewrapping: map<Pid, Job>, deks: map<BlobId, Dek>)

  const INIT := World(map[], map[], map[], map[], map[])

  datatype Action =
    | Create
    | RotateRead(pid: Pid)
    | RotateWrite(pid: Pid)
    | Upload(id: BlobId, region: Option<string>, dek: Dek, nonce: nat)
    | RewrapLoad(pid: Pid, blob: BlobId)
    | RewrapResolve(pid: Pid)
    | RewrapWrite(pid: Pid, rewrapped: Envelope)

  function Max(s: set<nat>): (m: nat)
    requires s != {}
    ensures m in s && forall x <- s :: x <= m
  {
    MaxExists(s);
    var m :| IsMax(s, m);
    m
  }

  predicate IsMax(s: set<nat>, m: nat) { m in s && forall x <- s :: x <= m }

  lemma {:induction false} MaxExists(s: set<nat>)
    requires s != {}
    ensures exists m :: IsMax(s, m)
    decreases s
  {
    var x :| x in s;
    if s == {x} {
      assert IsMax(s, x);
    } else {
      MaxExists(s - {x});
      var m :| IsMax(s - {x}, m);
      var b := if m < x then x else m;
      forall y | y in s
        ensures y <= b
      {
        assert y == x || y in s - {x};
      }
      assert IsMax(s, b);
    }
  }

  function LiveVersions(w: World): set<nat> { set v | v in w.keks && !w.keks[v].retired }

  /** The newest live version's alias; the base alias when the tenant has no live row. */
  function LiveAlias(w: World, tenant: string): string {
    if LiveVersions(w) == {} then Base(tenant) else w.keks[Max(LiveVersions(w))].alias
  }

  function DoCreate(w: World, tenant: string): World {
    if 1 in w.keks then w else w.(keks := w.keks[1 := KekRow(Base(tenant), false)])
  }

  function DoRotateRead(w: World, pid: Pid): World {
    if pid in w.rotating || LiveVersions(w) == {} then w
    else w.(rotating := w.rotating[pid := Max(LiveVersions(w))])
  }

  /** Retire the version that was read and insert the next. The primary key (version) and the
      one-live-row index make the statement fail, and the transaction roll back, if another rotation
      got there first. */
  function DoRotateWrite(w: World, tenant: string, pid: Pid): World {
    if pid !in w.rotating then w
    else
      var v := w.rotating[pid];
      var done := w.(rotating := w.rotating - {pid});
      if v !in w.keks || v + 1 in w.keks || LiveVersions(w) - {v} != {} then done
      else done.(keks := w.keks[v := w.keks[v].(retired := true)][v + 1 := KekRow(Alias(tenant, v + 1), false)])
  }

  /** A new blob is wrapped under the live alias, or under a regional alias of its own. */
  function DoUpload(s: Secrets, w: World, tenant: string, id: BlobId, region: Option<string>, dek: Dek, nonce: nat): World {
    var kekId := if region.Some? then Base(tenant) + ['/'] + region.value else LiveAlias(w, tenant);
    var e := Seal(s, kekId, dek, nonce);
    if id in w.blobs || e.None? then w
    else w.(blobs := w.blobs[id := Blob(kekId, e.value)], deks := w.deks[id := dek])
  }

  /** The service's test: it looks only at the character after the length of the tenant's base. */
  predicate Regional(tenant: string, kekId: string) { |kekId| > |Base(tenant)| && kekId[|Base(tenant)|] == '/' }

  function DoRewrapLoad(w: World, pid: Pid, id: BlobId): World {
    if pid in w.rewrapping || id !in w.blobs then w
    else w.(rewrapping := w.rewrapping[pid := Job(id, w.blobs[id], None)])
  }

  function DoRewrapResolve(w: World, tenant: string, pid: Pid): World {
    if pid !in w.rewrapping then w
    else
      var j := w.rewrapping[pid];
      if Regional(tenant, j.seen.kekId) || j.seen.kekId == "" || j.seen.kekId == LiveAlias(w, tenant)
      then w.(rewrapping := w.rewrapping - {pid})
      else w.(rewrapping := w.rewrapping[pid := j.(target := Some(LiveAlias(w, tenant)))])
  }

  /** `rewrapped` is whatever the wrapping backend returned. It is stored only if it opens to the same
      data key, and only if the row is still the one that was read. */
  function DoRewrapWrite(s: Secrets, w: World, pid: Pid, rewrapped: Envelope): World {
    if pid !in w.rewrapping || w.rewrapping[pid].target.None? then w
    else
      var j := w.rewrapping[pid];
      var done := w.(rewrapping := w.rewrapping - {pid});
      var plain := Open(s, j.seen.kekId, j.seen.envelope);
      if plain.None? || Open(s, j.target.value, rewrapped) != plain || j.blob !in w.blobs || w.blobs[j.blob] != j.seen then done
      else done.(blobs := w.blobs[j.blob := Blob(j.target.value, rewrapped)])
  }

  function Next(s: Secrets, tenant: string, w: World, a: Action): World {
    match a
    case Create => DoCreate(w, tenant)
    case RotateRead(pid) => DoRotateRead(w, pid)
    case RotateWrite(pid) => DoRotateWrite(w, tenant, pid)
    case Upload(id, region, dek, nonce) => DoUpload(s, w, tenant, id, region, dek, nonce)
    case RewrapLoad(pid, id) => DoRewrapLoad(w, pid, id)
    case RewrapResolve(pid) => DoRewrapResolve(w, tenant, pid)
    case RewrapWrite(pid, rewrapped) => DoRewrapWrite(s, w, pid, rewrapped)
  }

  function Run(s: Secrets, tenant: string, w: World, actions: seq<Action>): World
    decreases |actions|
  {
    if actions == [] then w else Run(s, tenant, Next(s, tenant, w, actions[0]), actions[1..])
  }

  // ---- invariants -------------------------------------------------------------------------

  /** Versions are 1..n without gaps, each with its own alias, and exactly the last is live. */
  ghost predicate Ladder(tenant: string, keks: map<nat, KekRow>, n: nat) {
    && (forall v: nat :: v in keks <==> 1 <= v <= n)
    && (forall v <- keks :: keks[v] == KekRow(Alias(tenant, v), v < n))
  }

  ghost predicate Readable(s: Secrets, w: World) {
    && w.deks.Keys == w.blobs.Keys
    && (forall id <- w.blobs :: id in w.deks && Open(s, w.blobs[id].kekId, w.blobs[id].envelope) == Some(w.deks[id]))
    && (forall pid <- w.rewrapping :: var j := w.rewrapping[pid];
          j.blob in w.deks && Open(s, j.seen.kekId, j.seen.envelope) == Some(w.deks[j.blob]))
  }

  /** A version's alias, or a regional one below the tenant's base. */
  ghost predicate OwnAlias(tenant: string, kekId: string) {
    (exists v: nat :: kekId == Alias(tenant, v)) || (Base(tenant) <= kekId && Regional(tenant, kekId))
  }

  ghost predicate OwnAliases(tenant: string, w: World) {
    && (forall id <- w.blobs :: OwnAlias(tenant, w.blobs[id].kekId))
    && (forall pid <- w.rewrapping :: w.rewrapping[pid].target.Some? ==> OwnAlias(tenant, w.rewrapping[pid].target.value))
  }

  ghost predicate Inv(s: Secrets, tenant: string, w: World, n: nat) {
    && Ladder(tenant, w.keks, n) && Readable(s, w) && OwnAliases(tenant, w)
    && forall pid <- w.rotating :: 1 <= w.rotating[pid] <= n
  }

  lemma OnlyLastLive(tenant: string, w: World, n: nat)
    requires Ladder(tenant, w.keks, n)
    ensures LiveVersions(w) == if n == 0 then {} else {n}
    ensures LiveAlias(w, tenant) == if n == 0 then Base(tenant) else Alias(tenant, n)
  {
    hide Alias, Base;
    if n > 0 {
      assert n in w.keks;
      assert LiveVersions(w) == {n};
    } else {
      assert LiveVersions(w) == {};
      assert Alias(tenant, 0) == Alias(tenant, 0);
    }
  }

  /** A rotation that lost the race finds its successor already there and changes nothing. */
  lemma RotateKeepsLadder(tenant: string, w: World, pid: Pid, n: nat) returns (n': nat)
    requires Ladder(tenant, w.keks, n) && forall p <- w.rotating :: 1 <= w.rotating[p] <= n
    ensures n <= n' <= n + 1 && Ladder(tenant, DoRotateWrite(w, tenant, pid).keks, n')
    ensures n' == n + 1 <==> pid in w.rotating && w.rotating[pid] == n
    ensures forall p <- DoRotateWrite(w, tenant, pid).rotating :: p in w.rotating && DoRotateWrite(w, tenant, pid).rotating[p] == w.rotating[p]
  {
    hide Alias, Base;
    OnlyLastLive(tenant, w, n);
    n' := n;
    if pid in w.rotating {
      var v := w.rotating[pid];
      if v == n {
        n' := n + 1;
        assert LiveVersions(w) - {v} == {};
      } else {
        assert v + 1 in w.keks;
      }
    }
  }

  lemma KeysStep(s: Secrets, tenant: string, w: World, a: Action, n: nat) returns (n': nat)
    requires Inv(s, tenant, w, n)
    ensures n <= n' && Ladder(tenant, Next(s, tenant, w, a).keks, n')
    ensures forall pid <- Next(s, tenant, w, a).rotating :: 1 <= Next(s, tenant, w, a).rotating[pid] <= n'
  {
    hide Alias, Base, Seal, Open, LiveAlias, DoUpload, DoRewrapWrite, DoRewrapResolve, DoRotateWrite, Regional;
    n' := n;
    match a
    case Create =>
      if n == 0 {
        n' := 1;
        FirstAlias(tenant);
      } else {
        assert 1 in w.keks;
      }
    case RotateRead(pid) => OnlyLastLive(tenant, w, n);
    case RotateWrite(pid) => n' := RotateKeepsLadder(tenant, w, pid, n);
    case Upload(id, region, dek, nonce) => UploadRemovesNothing(s, w, tenant, id, region, dek, nonce);
    case RewrapWrite(pid, rewrapped) => RewrapRemovesNothing(s, w, pid, rewrapped);
    case RewrapResolve(pid) => ResolveTouchesJobs(w, tenant, pid);
    case _ =>
  }

  lemma ResolveTouchesJobs(w: World, tenant: string, pid: Pid)
    ensures var w' := DoRewrapResolve(w, tenant, pid);
      && w'.(rewrapping := w.rewrapping) == w
      && forall p <- w'.rewrapping :: p in w.rewrapping && w'.rewrapping[p].(target := None) == w.rewrapping[p].(target := None)
  {
    hide LiveAlias, Regional;
  }

  lemma UploadKeepsReadable(s: Secrets, w: World, tenant: string, id: BlobId, region: Option<string>, dek: Dek, nonce: nat)
    requires Readable(s, w)
    ensures Readable(s, DoUpload(s, w, tenant, id, region, dek, nonce))
  {
    hide LiveAlias, Base, Derive;
  }

  lemma BlobsStep(s: Secrets, tenant: string, w: World, a: Action)
    requires Readable(s, w)
    ensures Readable(s, Next(s, tenant, w, a))
  {
    hide Open, DoUpload, DoRewrapWrite, DoRewrapResolve, DoRotateWrite;
    match a
    case Upload(id, region, dek, nonce) => UploadKeepsReadable(s, w, tenant, id, region, dek, nonce);
    case RotateWrite(pid) => RotateRemovesNothing(w, tenant, pid);
    case RewrapResolve(pid) => ResolveTouchesJobs(w, tenant, pid);
    case RewrapWrite(pid, rewrapped) => RewrapWriteKeeps(s, w, pid, rewrapped);
    case _ =>
  }

  /** A re-wrap is stored only when it opens to the very data key it replaces. */
  lemma RewrapWriteKeeps(s: Secrets, w: World, pid: Pid, rewrapped: Envelope)
    requires Readable(s, w)
    ensures Readable(s, DoRewrapWrite(s, w, pid, rewrapped))
  {
    hide Open;
  }

  lemma LiveAliasIsOwn(tenant: string, w: World, n: nat)
    requires Ladder(tenant, w.keks, n)
    ensures OwnAlias(tenant, LiveAlias(w, tenant))
  {
    hide LiveAlias, Regional;
    OnlyLastLive(tenant, w, n);
    FirstAlias(tenant);
    assert LiveAlias(w, tenant) == Alias(tenant, if n == 0 then 1 else n);
  }

  lemma AliasesStep(s: Secrets, tenant: string, w: World, a: Action, n: nat)
    requires Ladder(tenant, w.keks, n) && OwnAliases(tenant, w)
    ensures OwnAliases(tenant, Next(s, tenant, w, a))
  {
    hide Open, LiveAlias, OwnAlias, Base, Alias, Seal, DoRotateWrite;
    LiveAliasIsOwn(tenant, w, n);
    match a
    case RotateWrite(pid) => RotateRemovesNothing(w, tenant, pid);
    case Upload(id, region, dek, nonce) =>
      if region.Some? {
        RegionalIsOwn(tenant, region.value);
      }
    case _ =>
  }

  lemma RegionalIsOwn(tenant: string, region: string)
    ensures OwnAlias(tenant, Base(tenant) + ['/'] + region)
  {
    hide Base;
  }

  lemma StepKeeps(s: Secrets, tenant: string, w: World, a: Action, n: nat) returns (n': nat)
    requires Inv(s, tenant, w, n)
    ensures n <= n' && Inv(s, tenant, Next(s, tenant, w, a), n')
  {
    hide Next, Ladder, Readable, OwnAliases;
    AliasesStep(s, tenant, w, a, n);
    n' := KeysStep(s, tenant, w, a, n);
    BlobsStep(s, tenant, w, a);
  }

  lemma FirstAlias(tenant: string)
    ensures Alias(tenant, 1) == Base(tenant)
  {
  }

  lemma {:induction false} RunKeeps(s: Secrets, tenant: string, w: World, actions: seq<Action>, n: nat) returns (n': nat)
    requires Inv(s, tenant, w, n)
    ensures n <= n' && Inv(s, tenant, Run(s, tenant, w, actions), n')
    decreases |actions|
  {
    n' := n;
    if actions != [] {
      n' := StepKeeps(s, tenant, w, actions[0], n);
      n' := RunKeeps(s, tenant, Next(s, tenant, w, actions[0]), actions[1..], n');
    }
  }

  // ---- main results ---------------------------------------------------------------------------

  /** In every interleaving, the versions are 1..n without gaps, exactly version n is live, and each
      blob still unwraps to the data key it was written with. */
  lemma RotationKeepsDataReadable(s: Secrets, tenant: string, actions: seq<Action>) returns (n: nat)
    ensures var w := Run(s, tenant, INIT, actions);
      && (forall v: nat :: v in w.keks <==> 1 <= v <= n)
      && LiveVersions(w) == (if n == 0 then {} else {n})
      && (forall v <- w.keks :: w.keks[v].alias == Alias(tenant, v))
      && (forall id <- w.blobs :: id in w.deks && Open(s, w.blobs[id].kekId, w.blobs[id].envelope) == Some(w.deks[id]))
  {
    n := RunKeeps(s, tenant, INIT, actions, 0);
    OnlyLastLive(tenant, Run(s, tenant, INIT, actions), n);
  }

  /** No alias is ever removed or changed, and no blob's data key is ever forgotten or replaced. */
  lemma {:induction false} NothingRemoved(s: Secrets, tenant: string, w: World, actions: seq<Action>, n: nat)
    requires Inv(s, tenant, w, n)
    ensures var w' := Run(s, tenant, w, actions);
      && (forall v <- w.keks :: v in w'.keks && w'.keks[v].alias == w.keks[v].alias)
      && (forall id <- w.blobs :: id in w'.blobs && id in w.deks && id in w'.deks && w'.deks[id] == w.deks[id])
    decreases |actions|
  {
    if actions != [] {
      var w1 := Next(s, tenant, w, actions[0]);
      var n1 := StepKeeps(s, tenant, w, actions[0], n);
      NothingRemoved(s, tenant, w1, actions[1..], n1);
      StepRemovesNothing(s, tenant, w, actions[0]);
    }
  }

  lemma StepRemovesNothing(s: Secrets, tenant: string, w: World, a: Action)
    requires w.deks.Keys == w.blobs.Keys
    ensures var w' := Next(s, tenant, w, a);
      && (forall v <- w.keks :: v in w'.keks && w'.keks[v].alias == w.keks[v].alias)
      && (forall id <- w.blobs :: id in w'.blobs && id in w.deks && id in w'.deks && w'.deks[id] == w.deks[id])
  {
    hide DoRotateWrite, DoUpload, DoRewrapWrite, DoRewrapResolve, DoRotateRead;
    match a
    case RotateWrite(pid) => RotateRemovesNothing(w, tenant, pid);
    case Upload(id, region, dek, nonce) => UploadRemovesNothing(s, w, tenant, id, region, dek, nonce);
    case RewrapWrite(pid, rewrapped) => RewrapRemovesNothing(s, w, pid, rewrapped);
    case RewrapResolve(pid) => ResolveTouchesJobs(w, tenant, pid);
    case RotateRead(pid) => assert DoRotateRead(w, pid).(rotating := w.rotating) == w by { RotateReadOnly(w, pid); }
    case _ =>
  }

  lemma RotateReadOnly(w: World, pid: Pid)
    ensures DoRotateRead(w, pid).(rotating := w.rotating) == w
  {
  }

  lemma RotateRemovesNothing(w: World, tenant: string, pid: Pid)
    ensures var w' := DoRotateWrite(w, tenant, pid);
      && w'.blobs == w.blobs && w'.deks == w.deks && w'.rewrapping == w.rewrapping
      && forall v <- w.keks :: v in w'.keks && w'.keks[v].alias == w.keks[v].alias
  {
    hide Alias, LiveVersions;
  }

  lemma UploadRemovesNothing(s: Secrets, w: World, tenant: string, id: BlobId, region: Option<string>, dek: Dek, nonce: nat)
    requires w.deks.Keys == w.blobs.Keys
    ensures var w' := DoUpload(s, w, tenant, id, region, dek, nonce);
      && w'.keks == w.keks && w'.rotating == w.rotating
      && forall x <- w.blobs :: x in w'.blobs && x in w'.deks && w'.deks[x] == w.deks[x]
  {
    hide Seal, LiveAlias, Base;
  }

  lemma RewrapRemovesNothing(s: Secrets, w: World, pid: Pid, rewrapped: Envelope)
    ensures var w' := DoRewrapWrite(s, w, pid, rewrapped);
      && w'.keks == w.keks && w'.rotating == w.rotating && w'.deks == w.deks
      && forall x <- w.blobs :: x in w'.blobs
  {
    hide Open;
  }

  // ---- a blob's key version never goes back ------------------------------------------------------

  /** From one version's alias to a later one's. */
  ghost predicate MovesUp(tenant: string, x: string, y: string) {
    exists a: nat, b: nat :: 1 <= a < b && x == Alias(tenant, a) && y == Alias(tenant, b)
  }

  function Top(n: nat): nat { if n == 0 then 1 else n }

  /** An alias of a version there has been, or a regional one. */
  ghost predicate Issued(tenant: string, kekId: string, n: nat) {
    Regional(tenant, kekId) || exists v: nat :: 1 <= v <= Top(n) && kekId == Alias(tenant, v)
  }

  ghost predicate Forward(tenant: string, w: World, n: nat) {
    && (forall id <- w.blobs :: Issued(tenant, w.blobs[id].kekId, n))
    && (forall pid <- w.rewrapping :: Issued(tenant, w.rewrapping[pid].seen.kekId, n))
    && (forall pid <- w.rewrapping :: w.rewrapping[pid].target.Some? ==>
          Issued(tenant, w.rewrapping[pid].target.value, n)
          && MovesUp(tenant, w.rewrapping[pid].seen.kekId, w.rewrapping[pid].target.value))
  }

  lemma IssuedLater(tenant: string, kekId: string, n: nat, n': nat)
    requires Issued(tenant, kekId, n) && n <= n'
    ensures Issued(tenant, kekId, n')
  {
    hide Alias, Regional;
    if v: nat :| 1 <= v <= Top(n) && kekId == Alias(tenant, v) {
      assert v <= Top(n');
    }
  }

  lemma LiveIsTop(tenant: string, w: World, n: nat)
    requires Ladder(tenant, w.keks, n)
    ensures LiveAlias(w, tenant) == Alias(tenant, Top(n)) && Issued(tenant, LiveAlias(w, tenant), n)
  {
    hide LiveAlias, Regional, Alias;
    OnlyLastLive(tenant, w, n);
    FirstAlias(tenant);
  }

  lemma ToLive(tenant: string, kekId: string, n: nat)
    requires Issued(tenant, kekId, n) && !Regional(tenant, kekId) && kekId != Alias(tenant, Top(n))
    ensures MovesUp(tenant, kekId, Alias(tenant, Top(n)))
  {
    hide Alias, Regional;
    var v: nat :| 1 <= v <= Top(n) && kekId == Alias(tenant, v);
    assert v < Top(n);
  }

  lemma RegionalIsIssued(tenant: string, region: string, n: nat)
    ensures Issued(tenant, Base(tenant) + ['/'] + region, n)
  {
    hide Base;
  }

  lemma ForwardLater(tenant: string, w: World, n: nat, n': nat)
    requires Forward(tenant, w, n) && n <= n'
    ensures Forward(tenant, w, n')
  {
    hide Issued, MovesUp;
    forall kekId | Issued(tenant, kekId, n)
      ensures Issued(tenant, kekId, n')
    {
      IssuedLater(tenant, kekId, n, n');
    }
  }

  lemma UploadForward(s: Secrets, tenant: string, w: World, id: BlobId, region: Option<string>, dek: Dek, nonce: nat, n: nat)
    requires Ladder(tenant, w.keks, n) && Forward(tenant, w, n)
    ensures Forward(tenant, DoUpload(s, w, tenant, id, region, dek, nonce), n)
  {
    hide Base, LiveAlias, Ladder, Seal, Issued, MovesUp, Alias, Top;
    LiveIsTop(tenant, w, n);
    if region.Some? {
      RegionalIsIssued(tenant, region.value, n);
    }
  }

  lemma ResolveForward(tenant: string, w: World, pid: Pid, n: nat)
    requires Ladder(tenant, w.keks, n) && Forward(tenant, w, n)
    ensures Forward(tenant, DoRewrapResolve(w, tenant, pid), n)
  {
    hide Alias, Regional, LiveAlias, Ladder, Issued, MovesUp;
    LiveIsTop(tenant, w, n);
    if pid in w.rewrapping && !Regional(tenant, w.rewrapping[pid].seen.kekId) && w.rewrapping[pid].seen.kekId != LiveAlias(w, tenant) {
      ToLive(tenant, w.rewrapping[pid].seen.kekId, n);
    }
  }

  lemma WriteForward(s: Secrets, tenant: string, w: World, pid: Pid, e: Envelope, n: nat)
    requires Forward(tenant, w, n)
    ensures Forward(tenant, DoRewrapWrite(s, w, pid, e), n)
  {
    hide Open, Issued, MovesUp;
  }

  lemma ForwardStep(s: Secrets, tenant: string, w: World, a: Action, n: nat, n': nat)
    requires Ladder(tenant, w.keks, n) && Forward(tenant, w, n) && n <= n'
    ensures Forward(tenant, Next(s, tenant, w, a), n')
  {
    hide Ladder, Issued, MovesUp, DoRotateWrite, DoUpload, DoRewrapResolve, DoRewrapWrite;
    match a {
      case RotateWrite(pid) => RotateRemovesNothing(w, tenant, pid);
      case Upload(id, region, dek, nonce) => UploadForward(s, tenant, w, id, region, dek, nonce, n);
      case RewrapResolve(pid) => ResolveForward(tenant, w, pid, n);
      case RewrapWrite(pid, e) => WriteForward(s, tenant, w, pid, e, n);
      case _ =>
    }
    ForwardLater(tenant, Next(s, tenant, w, a), n, n');
  }

  /** A re-wrap that stores anything replaces exactly the row it read, so a blob moves only to a later
      version, even when a slow re-wrap meets a rotation and a faster one. */
  lemma StepMovesUp(s: Secrets, tenant: string, w: World, a: Action, n: nat, id: BlobId)
    requires Forward(tenant, w, n) && id in w.blobs
    ensures id in Next(s, tenant, w, a).blobs
    ensures Next(s, tenant, w, a).blobs[id] == w.blobs[id]
         || MovesUp(tenant, w.blobs[id].kekId, Next(s, tenant, w, a).blobs[id].kekId)
  {
    hide MovesUp, Issued, Open, Seal, LiveAlias, DoRotateWrite, Regional;
    match a
    case RotateWrite(pid) => RotateRemovesNothing(w, tenant, pid);
    case _ =>
  }

  lemma UpTwice(tenant: string, x: string, y: string, z: string)
    requires MovesUp(tenant, x, y) && MovesUp(tenant, y, z)
    ensures MovesUp(tenant, x, z)
  {
    hide Alias;
    var a: nat, b: nat :| 1 <= a < b && x == Alias(tenant, a) && y == Alias(tenant, b);
    var b': nat, c: nat :| 1 <= b' < c && y == Alias(tenant, b') && z == Alias(tenant, c);
    AliasInjective(tenant, b, b');
  }

  lemma {:induction false} RunMovesUp(s: Secrets, tenant: string, w: World, actions: seq<Action>, n: nat, id: BlobId)
    requires Inv(s, tenant, w, n) && Forward(tenant, w, n) && id in w.blobs
    ensures var w' := Run(s, tenant, w, actions);
      id in w'.blobs && (w'.blobs[id] == w.blobs[id] || MovesUp(tenant, w.blobs[id].kekId, w'.blobs[id].kekId))
    decreases |actions|
  {
    hide Next, Forward, MovesUp, Ladder, Readable, OwnAliases;
    if actions != [] {
      var w1 := Next(s, tenant, w, actions[0]);
      var n1 := StepKeeps(s, tenant, w, actions[0], n);
      ForwardStep(s, tenant, w, actions[0], n, n1);
      StepMovesUp(s, tenant, w, actions[0], n, id);
      RunMovesUp(s, tenant, w1, actions[1..], n1, id);
      var w' := Run(s, tenant, w1, actions[1..]);
      if w1.blobs[id] != w.blobs[id] && w'.blobs[id] != w1.blobs[id] {
        UpTwice(tenant, w.blobs[id].kekId, w1.blobs[id].kekId, w'.blobs[id].kekId);
      }
    }
  }

  lemma {:induction false} RunForward(s: Secrets, tenant: string, w: World, actions: seq<Action>, n: nat) returns (n': nat)
    requires Inv(s, tenant, w, n) && Forward(tenant, w, n)
    ensures Inv(s, tenant, Run(s, tenant, w, actions), n') && Forward(tenant, Run(s, tenant, w, actions), n')
    decreases |actions|
  {
    hide Next, Forward, Ladder, Readable, OwnAliases;
    n' := n;
    if actions != [] {
      n' := StepKeeps(s, tenant, w, actions[0], n);
      ForwardStep(s, tenant, w, actions[0], n, n');
      n' := RunForward(s, tenant, Next(s, tenant, w, actions[0]), actions[1..], n');
    }
  }

  /** In every interleaving, from any reachable state on, a blob keeps its wrapping or moves to a later
      key version, and never back. */
  lemma KeyNeverGoesBack(s: Secrets, tenant: string, before: seq<Action>, after: seq<Action>, id: BlobId)
    requires id in Run(s, tenant, INIT, before).blobs
    ensures var w := Run(s, tenant, INIT, before);
      var w' := Run(s, tenant, w, after);
      id in w'.blobs && (w'.blobs[id] == w.blobs[id] || MovesUp(tenant, w.blobs[id].kekId, w'.blobs[id].kekId))
  {
    hide MovesUp;
    var n := RunForward(s, tenant, INIT, before, 0);
    RunMovesUp(s, tenant, Run(s, tenant, INIT, before), after, n, id);
  }

  // ---- the re-wrap command ------------------------------------------------------------------------

  /** The plan's filter: wrapped, not regional by its path, and not on the target yet. */
  predicate PlanPicks(kekId: string, target: string) {
    && kekId != "" && kekId != target
    && var parts := Text.Split(kekId, '/');
    !(|parts| >= 4 && parts[0] == "vaultdms" && parts[1] == "tenant" && parts[2] != "")
  }

  function Pending(blobs: map<BlobId, Blob>, target: string): set<BlobId> {
    set id | id in blobs && PlanPicks(blobs[id].kekId, target)
  }

  /** On the tenant's own aliases the plan's pattern and the service's character test agree: a blob is
      planned if and only if the service does not treat it as regional and it is off the target. */
  lemma PlanAgrees(tenant: string, kekId: string, target: string)
    requires PlainTenant(tenant) && OwnAlias(tenant, kekId)
    ensures PlanPicks(kekId, target) <==> !Regional(tenant, kekId) && kekId != target
  {
    if v: nat :| kekId == Alias(tenant, v) {
      AliasHasThreeParts(tenant, v);
    } else {
      RegionalIsNotPlanned(tenant, kekId, target);
    }
  }

  lemma AliasHasThreeParts(tenant: string, v: nat)
    requires PlainTenant(tenant)
    ensures |Text.Split(Alias(tenant, v), '/')| == 3 && !Regional(tenant, Alias(tenant, v)) && Alias(tenant, v) != ""
  {
    SplitBase(tenant);
    if v > 1 {
      var suffix := ['@'] + ("v" + Decimal(v));
      Text.SplitToken(tenant + suffix, '/');
      Text.SplitFirst("tenant", tenant + suffix, '/');
      Text.SplitFirst("vaultdms", "tenant" + ['/'] + (tenant + suffix), '/');
      assert Alias(tenant, v) == "vaultdms" + ['/'] + ("tenant" + ['/'] + (tenant + suffix));
    }
  }

  /** A regional alias of the tenant is never planned. */
  lemma RegionalIsNotPlanned(tenant: string, kekId: string, target: string)
    requires PlainTenant(tenant) && Base(tenant) <= kekId && Regional(tenant, kekId)
    ensures !PlanPicks(kekId, target)
  {
    var base, parts := Base(tenant), ["vaultdms", "tenant", tenant];
    var rest := kekId[|base| + 1..];
    assert kekId == base + ['/'] + rest;
    assert Text.Join(parts, '/') == base by {
      assert parts[1..] == ["tenant", tenant] && parts[1..][1..] == [tenant];
      assert Text.Join(parts[1..], '/') == "tenant" + ['/'] + Text.Join([tenant], '/');
    }
    SplitPrefix(parts, rest);
    assert (parts + Text.Split(rest, '/'))[2] == tenant;
  }

  lemma {:induction false} SplitPrefix(ts: seq<string>, rest: string)
    requires |ts| >= 1 && forall t <- ts :: '/' !in t
    ensures Text.Split(Text.Join(ts, '/') + ['/'] + rest, '/') == ts + Text.Split(rest, '/')
  {
    if |ts| == 1 {
      Text.SplitFirst(ts[0], rest, '/');
    } else {
      SplitPrefix(ts[1..], rest);
      var tail := Text.Join(ts[1..], '/') + ['/'] + rest;
      assert Text.Join(ts, '/') + ['/'] + rest == ts[0] + ['/'] + tail;
      Text.SplitFirst(ts[0], tail, '/');
      assert [ts[0]] + (ts[1..] + Text.Split(rest, '/')) == ts + Text.Split(rest, '/');
    }
  }

  /** One call of the service: load the blob, resolve the live alias, re-wrap and store. */
  function CallSteps(pid: Pid, id: BlobId, e: Envelope): seq<Action> {
    [RewrapLoad(pid, id), RewrapResolve(pid), RewrapWrite(pid, e)]
  }

  lemma RunCall(s: Secrets, tenant: string, w: World, pid: Pid, id: BlobId, e: Envelope)
    ensures Run(s, tenant, w, CallSteps(pid, id, e)) == DoRewrapWrite(s, DoRewrapResolve(DoRewrapLoad(w, pid, id), tenant, pid), pid, e)
  {
    hide DoRewrapLoad, DoRewrapResolve, DoRewrapWrite;
    var all := CallSteps(pid, id, e);
    var w1 := Next(s, tenant, w, all[0]);
    var w2 := Next(s, tenant, w1, all[1]);
    var w3 := Next(s, tenant, w2, all[2]);
    assert all[1..] == [all[1], all[2]] && [all[1], all[2]][1..] == [all[2]] && [all[2]][1..] == [];
    assert Run(s, tenant, w3, []) == w3;
    assert Run(s, tenant, w2, [all[2]]) == w3;
    assert Run(s, tenant, w1, [all[1], all[2]]) == w3;
  }

  lemma {:induction false} RunConcat(s: Secrets, tenant: string, w: World, a: seq<Action>, b: seq<Action>)
    ensures Run(s, tenant, w, a + b) == Run(s, tenant, Run(s, tenant, w, a), b)
    decreases |a|
  {
    hide Next;
    if a == [] {
      assert a + b == b;
    } else {
      assert (a + b)[0] == a[0] && (a + b)[1..] == a[1..] + b;
      RunConcat(s, tenant, Next(s, tenant, w, a[0]), a[1..], b);
    }
  }

  /** A call for a planned blob moves it to the live alias, under the same data key, and changes
      nothing else. */
  lemma CallMoves(s: Secrets, tenant: string, w: World, n: nat, pid: Pid, id: BlobId) returns (e: Envelope)
    requires PlainTenant(tenant) && Inv(s, tenant, w, n) && n > 0 && pid !in w.rewrapping
    requires id in Pending(w.blobs, LiveAlias(w, tenant))
    ensures Seal(s, LiveAlias(w, tenant), w.deks[id], 0) == Some(e)
    ensures Run(s, tenant, w, CallSteps(pid, id, e)) == w.(blobs := w.blobs[id := Blob(LiveAlias(w, tenant), e)])
  {
    hide Ladder, LiveAlias, PlanPicks, Regional, MasterFor, Alias;
    var target := LiveAlias(w, tenant);
    OnlyLastLive(tenant, w, n);
    TenantAliasUsesGlobalMaster(s, tenant, n);
    var seen := w.blobs[id];
    PlanAgrees(tenant, seen.kekId, target);
    PickedHasAlias(seen.kekId, target);
    e := Seal(s, target, w.deks[id], 0).value;
    RunCall(s, tenant, w, pid, id, e);
    CallEffect(s, tenant, w, pid, id, e);
  }

  lemma PickedHasAlias(kekId: string, target: string)
    requires PlanPicks(kekId, target)
    ensures kekId != "" && kekId != target
  {
  }

  lemma CallEffect(s: Secrets, tenant: string, w: World, pid: Pid, id: BlobId, e: Envelope)
    requires pid !in w.rewrapping && id in w.blobs && w.blobs[id].kekId != "" && !Regional(tenant, w.blobs[id].kekId)
    requires w.blobs[id].kekId != LiveAlias(w, tenant)
    requires Open(s, LiveAlias(w, tenant), e) == Open(s, w.blobs[id].kekId, w.blobs[id].envelope) != None
    ensures DoRewrapWrite(s, DoRewrapResolve(DoRewrapLoad(w, pid, id), tenant, pid), pid, e)
         == w.(blobs := w.blobs[id := Blob(LiveAlias(w, tenant), e)])
  {
    hide Regional, Open;
    var w1 := DoRewrapLoad(w, pid, id);
    assert LiveAlias(w1, tenant) == LiveAlias(w, tenant) by { SameKeksSameAlias(w, w1, tenant); }
    hide LiveAlias;
    var w2 := DoRewrapResolve(w1, tenant, pid);
    assert w2.rewrapping[pid] == Job(id, w.blobs[id], Some(LiveAlias(w, tenant)));
    assert w2.rewrapping - {pid} == w.rewrapping;
  }

  lemma SameKeksSameAlias(w: World, w': World, tenant: string)
    requires w.keks == w'.keks
    ensures LiveVersions(w) == LiveVersions(w') && LiveAlias(w, tenant) == LiveAlias(w', tenant)
  {
    assert LiveVersions(w) == LiveVersions(w');
  }

  lemma PendingShrinks(blobs: map<BlobId, Blob>, id: BlobId, target: string, e: Envelope)
    requires id in Pending(blobs, target)
    ensures Pending(blobs[id := Blob(target, e)], target) == Pending(blobs, target) - {id}
  {
    hide PlanPicks;
    OnTargetNotPicked(target);
  }

  lemma OnTargetNotPicked(target: string)
    ensures !PlanPicks(target, target)
  {
  }

  /** How one call ends for the command: a lost reply counts as a failure although the blob moved. */
  datatype Answer = Answered | Refused | LostReply

  /** The command against the tenant's database. */
  class Rewrapper {
    const secrets: Secrets
    const tenant: string
    var world: World

    constructor (secrets: Secrets, tenant: string, world: World)
      ensures this.secrets == secrets && this.tenant == tenant && this.world == world
    {
      this.secrets, this.tenant, this.world := secrets, tenant, world;
    }

    function Todo(): set<BlobId>
      reads this
    {
      Pending(world.blobs, LiveAlias(world, tenant))
    }

    /** One command run: at most `limit` blobs off the live alias, each re-wrapped by a call of the
        storage service. It is the protocol run `steps`, so it keeps all that every run keeps. */
    method Pass(ghost n: nat, pid: Pid, limit: nat, answer: BlobId -> Answer)
      returns (ok: bool, done: nat, failed: nat, ghost steps: seq<Action>)
      requires PlainTenant(tenant) && Inv(secrets, tenant, world, n) && pid !in world.rewrapping
      modifies this
      ensures world == Run(secrets, tenant, old(world), steps)
      ensures Inv(secrets, tenant, world, n) && world == old(world).(blobs := world.blobs)
      ensures ok <==> n > 0
      ensures !ok ==> world == old(world)
      ensures Todo() <= old(Todo()) && |Todo()| <= |old(Todo())| - done
      ensures ok ==> done + failed == if |old(Todo())| <= limit then |old(Todo())| else limit
      ensures failed == 0 ==> |Todo()| == |old(Todo())| - done
      ensures (forall id :: answer(id).Answered?) ==> failed == 0
    {
      hide Inv, Run, LiveAlias, Pending, CallSteps, Seal, Open, DoRewrapWrite, PlainTenant, Base, Alias;
      done, failed, steps := 0, 0, [];
      ok := LiveVersions(world) != {};
      RunNothing(secrets, tenant, world);
      LiveIff(secrets, tenant, world, n);
      if !ok {
        return;
      }
      var target := LiveAlias(world, tenant);
      var todo := Pending(world.blobs, target);
      while done + failed < limit && todo != {}
        invariant world == Run(secrets, tenant, old(world), steps)
        invariant Inv(secrets, tenant, world, n) && world == old(world).(blobs := world.blobs)
        invariant LiveAlias(world, tenant) == target
        invariant todo <= Pending(world.blobs, target) <= old(Todo()) && done + failed <= limit
        invariant |Pending(world.blobs, target)| <= |old(Todo())| - done
        invariant failed == 0 ==> |Pending(world.blobs, target)| == |old(Todo())| - done
        invariant |todo| == |old(Todo())| - done - failed
        invariant (forall id :: answer(id).Answered?) ==> failed == 0
        decreases todo
      {
        var id :| id in todo;
        todo := todo - {id};
        if !answer(id).Refused? {
          ghost var before := world;
          world := CallService(n, pid, id);
          ghost var more := CallSteps(pid, id, world.blobs[id].envelope);
          RunConcat(secrets, tenant, old(world), steps, more);
          steps := steps + more;
          SameKeksSameAlias(before, world, tenant);
        }
        if answer(id).Answered? {
          done := done + 1;
        } else {
          failed := failed + 1;
        }
      }
    }

    /** The storage service's side of one call. */
    method CallService(ghost n: nat, pid: Pid, id: BlobId) returns (w: World)
      requires PlainTenant(tenant) && Inv(secrets, tenant, world, n) && n > 0 && pid !in world.rewrapping
      requires id in Pending(world.blobs, LiveAlias(world, tenant))
      ensures w == world.(blobs := w.blobs) && id in w.blobs && Inv(secrets, tenant, w, n)
      ensures w == Run(secrets, tenant, world, CallSteps(pid, id, w.blobs[id].envelope))
      ensures Pending(w.blobs, LiveAlias(w, tenant)) == Pending(world.blobs, LiveAlias(world, tenant)) - {id}
    {
      hide LiveAlias, Run, PlanPicks, PlainTenant, Ladder;
      var target := LiveAlias(world, tenant);
      var w1 := DoRewrapResolve(DoRewrapLoad(world, pid, id), tenant, pid);
      var seen := world.blobs[id];
      ghost var e := CallMoves(secrets, tenant, world, n, pid, id);
      var plain := Open(secrets, seen.kekId, seen.envelope);
      var sealed := Seal(secrets, target, plain.value, 0);
      RunCall(secrets, tenant, world, pid, id, sealed.value);
      w := DoRewrapWrite(secrets, w1, pid, sealed.value);
      SameKeksSameAlias(world, w, tenant);
      PendingShrinks(world.blobs, id, target, e);
      CallKeeps(secrets, tenant, world, n, pid, id, e);
    }

    /** Fully successful runs with a positive limit end with every non-regional blob on the live
        alias, after exactly the rounded-up quotient of runs. */
    method RepeatUntilDone(ghost n: nat, pid: Pid, limit: nat) returns (passes: nat, ghost steps: seq<Action>)
      requires PlainTenant(tenant) && Inv(secrets, tenant, world, n) && n > 0 && pid !in world.rewrapping && limit > 0
      modifies this
      ensures world == Run(secrets, tenant, old(world), steps) && Inv(secrets, tenant, world, n)
      ensures forall id <- world.blobs :: Regional(tenant, world.blobs[id].kekId) || world.blobs[id].kekId == LiveAlias(world, tenant)
      ensures (passes as int - 1) * limit < |old(Todo())| <= passes * limit || passes == 0 == |old(Todo())|
    {
      hide PlanPicks, Inv, Run, LiveAlias, Pending, PlainTenant, Base, Regional;
      passes, steps := 0, [];
      RunNothing(secrets, tenant, world);
      while Todo() != {}
        invariant world == Run(secrets, tenant, old(world), steps) && Inv(secrets, tenant, world, n)
        invariant world == old(world).(blobs := world.blobs)
        invariant |old(Todo())| <= |Todo()| + passes * limit
        invariant Todo() != {} ==> |old(Todo())| == |Todo()| + passes * limit
        invariant passes > 0 ==> (passes - 1) * limit < |old(Todo())|
        decreases |Todo()|
      {
        var ok, done, failed, more := Pass(n, pid, limit, _ => Answered);
        RunConcat(secrets, tenant, old(world), steps, more);
        steps := steps + more;
        assert (passes + 1) * limit == passes * limit + limit;
        passes := passes + 1;
      }
      NothingPending(secrets, tenant, world, n);
    }
  }

  lemma RunNothing(s: Secrets, tenant: string, w: World)
    ensures Run(s, tenant, w, []) == w
  {
  }

  lemma LiveIff(s: Secrets, tenant: string, w: World, n: nat)
    requires Inv(s, tenant, w, n)
    ensures LiveVersions(w) != {} <==> n > 0
  {
    OnlyLastLive(tenant, w, n);
  }

  /** The invariant survives a call with the same number of versions. */
  lemma CallKeeps(s: Secrets, tenant: string, w: World, n: nat, pid: Pid, id: BlobId, e: Envelope)
    requires Inv(s, tenant, w, n) && id in w.blobs
    requires Run(s, tenant, w, CallSteps(pid, id, e)) == w.(blobs := w.blobs[id := Blob(LiveAlias(w, tenant), e)])
    ensures Inv(s, tenant, w.(blobs := w.blobs[id := Blob(LiveAlias(w, tenant), e)]), n)
  {
    hide Ladder, Run, Open, LiveAlias, OwnAlias;
    var m := RunKeeps(s, tenant, w, CallSteps(pid, id, e), n);
  }

  lemma NothingPending(s: Secrets, tenant: string, w: World, n: nat)
    requires PlainTenant(tenant) && Inv(s, tenant, w, n) && Pending(w.blobs, LiveAlias(w, tenant)) == {}
    ensures forall id <- w.blobs :: Regional(tenant, w.blobs[id].kekId) || w.blobs[id].kekId == LiveAlias(w, tenant)
  {
    hide PlanPicks, Regional, LiveAlias, Ladder, Readable, PlainTenant;
    forall id | id in w.blobs
      ensures Regional(tenant, w.blobs[id].kekId) || w.blobs[id].kekId == LiveAlias(w, tenant)
    {
      PlanAgrees(tenant, w.blobs[id].kekId, LiveAlias(w, tenant));
      assert id !in Pending(w.blobs, LiveAlias(w, tenant));
    }
  }
}
