/** The agent itself: the state that `apply` and `resolveConflict` change in place, and the cycle
    that drives them, proved against the cell-by-cell effects. */
module SyncAgent {
  import opened Basics
  import opened SyncPaths
  import opened SyncEngine
  import opened SyncNames
  import opened SyncApply

  lemma SetSame<V>(m: map<Path, V>, p: Path)
    ensures SetCell(m, p, Get(m, p)) == m
  {
  }

  lemma CellRemoved<V>(m: map<Path, V>, p: Path)
    ensures SetCell(m, p, None) == m - {p}
  {
  }

  /** The cells a view was read from, and what setting a baseline cell means. */
  lemma BaseCell(w: World, device: string, p: Path)
    ensures var v := ViewAt(w, device, p);
      && v.main == Get(w.disk, p) && v.base == Get(w.files, p)
      && (CopyOf(p, device).Some? ==> v.copy == Get(w.disk, CopyOf(p, device).value))
    ensures SetCell(w.files, p, Get(w.files, p)) == w.files && SetCell(w.files, p, None) == w.files - {p}
    ensures forall k: Known :: SetCell(w.files, p, Some(k)) == w.files[p := k]
  {
    hide CopyOf;
    SetSame(w.files, p);
  }

  predicate Fits(v: View, p: Path, c: Option<Path>) {
    v.room == if c.None? then Refused else if c == Some(p) then Same else Apart
  }

  /** Writing the cells of a view one at a time. */
  lemma DiskStart(w: World, device: string, p: Path)
    ensures DiskWith(w.disk, p, CopyOf(p, device), ViewAt(w, device, p).copy, ViewAt(w, device, p).main) == w.disk && Fits(ViewAt(w, device, p), p, CopyOf(p, device))
  {
    hide CopyOf;
    SetSame(w.disk, p);
    if CopyOf(p, device).Some? {
      SetSame(w.disk, CopyOf(p, device).value);
    }
  }

  lemma DiskMain(disk: map<Path, Bytes>, p: Path, c: Option<Path>, v: View, x: Option<Bytes>)
    requires Fits(v, p, c)
    ensures var v1 := PutMain(v, x);
      DiskWith(disk, p, c, v1.copy, v1.main) == SetCell(DiskWith(disk, p, c, v.copy, v.main), p, x)
    ensures Get(DiskWith(disk, p, c, v.copy, v.main), p) == v.main
  {
    var v1 := PutMain(v, x);
    SameMap(DiskWith(disk, p, c, v1.copy, v1.main), SetCell(DiskWith(disk, p, c, v.copy, v.main), p, x));
  }

  lemma DiskCopy(disk: map<Path, Bytes>, p: Path, c: Path, v: View, y: Option<Bytes>)
    requires Fits(v, p, Some(c))
    ensures var v1 := PutCopy(v, y);
      DiskWith(disk, p, Some(c), v1.copy, v1.main) == SetCell(DiskWith(disk, p, Some(c), v.copy, v.main), c, y)
  {
    var v1 := PutCopy(v, y);
    SameMap(DiskWith(disk, p, Some(c), v1.copy, v1.main), SetCell(DiskWith(disk, p, Some(c), v.copy, v.main), c, y));
  }

  class Agent {
    const device: string
    var disk: map<Path, Bytes>
    var files: Baseline
    var pushed: seq<Push>

    constructor (device: string)
      ensures this.device == device && State() == World(map[], map[], [])
    {
      this.device := device;
      disk, files, pushed := map[], map[], [];
    }

    function State(): World
      reads this
    {
      World(disk, files, pushed)
    }

    /** `os.WriteFile`: on failure the file may hold anything, or be as it was. */
    method WriteFile(p: Path, data: Bytes, w: Write) returns (ok: bool)
      modifies this`disk
      ensures ok == w.Wrote? && disk == SetCell(old(disk), p, Written(Get(old(disk), p), data, w))
    {
      match w
      case Wrote =>
        disk := disk[p := data];
        return true;
      case WriteFailed(Some(left)) =>
        disk := disk[p := left];
        return false;
      case WriteFailed(None) =>
        SetSame(disk, p);
        return false;
    }

    /** `os.ReadFile` with its error dropped: None stands for no bytes at all. */
    method ReadFile(p: Path, r: Read) returns (data: Option<Bytes>)
      ensures data == ReadOf(Get(disk, p), r)
    {
      if p !in disk || r.NoRead? {
        return None;
      }
      if r.CutAfter? && r.n < |disk[p]| {
        return Some(disk[p][..r.n]);
      }
      return Some(disk[p]);
    }

    method ResolveConflict(act: Action, data: Option<Bytes>, r: Reply) returns (status: Status)
      modifies this`disk, this`files
      ensures var p, c := act.path, CopyOf(act.path, device);
        var e := Resolve(ViewAt(old(State()), device, p), act, data, r);
        && status == e.status && e.push == None
        && disk == DiskWith(old(disk), p, c, e.view.copy, e.view.main)
        && files == SetCell(old(files), p, e.view.base)
    {
      hide CopyOf, DiskWith, SetCell, ViewAt;
      var p, copy := act.path, CopyOf(act.path, device);
      ghost var v := ViewAt(State(), device, p);
      ghost var data' := OrEmpty(data);
      DiskStart(State(), device, p);
      BaseCell(State(), device, p);
      if copy.None? {
        return Failed;
      }
      if r.fetch.Got? && data.Some? && Of(data.value) == Of(r.fetch.bytes) {
        files := files[p := Known(act.docId, act.remoteVer, act.remoteUpd, Of(r.fetch.bytes))];
        return Done;
      }
      ghost var v1 := PutCopy(v, Written(v.copy, data', r.copyWrite));
      DiskCopy(disk, p, copy.value, v, v1.copy);
      var ok := WriteFile(copy.value, OrEmpty(data), r.copyWrite);
      if !ok {
        return Failed;
      }
      match r.fetch
      case FetchFailed => return Failed;
      case FetchOffline => return Offline;
      case Got(bytes) =>
        DiskMain(old(disk), p, copy, v1, Written(v1.main, bytes, r.write));
        ok := WriteFile(p, bytes, r.write);
        if !ok {
          return Failed;
        }
        files := files[p := Known(act.docId, act.remoteVer, act.remoteUpd, Of(bytes))];
        return Done;
    }

    /** The effect on a path's cells, as the methods below promise it. */
    ghost predicate Shows(before: World, act: Action, e: Effect)
      reads this
    {
      && disk == DiskWith(before.disk, act.path, CopyOf(act.path, device), e.view.copy, e.view.main)
      && files == SetCell(before.files, act.path, e.view.base)
      && pushed == if e.push.Some? then before.pushed + [Push(act.docId, e.push.value)] else before.pushed
    }

    method PullFile(act: Action, r: Reply) returns (status: Status)
      modifies this
      ensures var e := DownloadEffect(ViewAt(old(State()), device, act.path), act, r);
        status == e.status && Shows(old(State()), act, e)
    {
      hide CopyOf, DiskWith, SetCell, ViewAt;
      var p := act.path;
      ghost var v := ViewAt(State(), device, p);
      DiskStart(State(), device, p);
      BaseCell(State(), device, p);
      match r.fetch
      case FetchFailed => return Failed;
      case FetchOffline => return Offline;
      case Got(bytes) =>
        DiskMain(disk, p, CopyOf(p, device), v, Written(v.main, bytes, r.write));
        var ok := WriteFile(p, bytes, r.write);
        if !ok {
          return Failed;
        }
        files := files[p := Known(act.docId, act.remoteVer, act.remoteUpd, Of(bytes))];
        return Done;
    }

    method PushFile(act: Action, r: Reply) returns (status: Status)
      modifies this
      ensures var e := UploadEffect(ViewAt(old(State()), device, act.path), act, r);
        status == e.status && Shows(old(State()), act, e)
    {
      hide CopyOf, DiskWith, SetCell, ViewAt, Resolve;
      var p := act.path;
      DiskStart(State(), device, p);
      BaseCell(State(), device, p);
      if p !in disk || !r.read.Whole? {
        return Failed;
      }
      var data := disk[p];
      if r.blob.BlobFailed? {
        return Failed;
      }
      if r.blob.BlobOffline? {
        return Offline;
      }
      match r.version {
        case VersionConflict => status := ResolveConflict(act, Some(data), r);
        case VersionFailed(stored) =>
          pushed := if stored then pushed + [Push(act.docId, data)] else pushed;
          return Failed;
        case VersionOffline(stored) =>
          pushed := if stored then pushed + [Push(act.docId, data)] else pushed;
          return Offline;
        case Created(ver) =>
          files := files[p := Known(act.docId, ver, "", if r.hashed then Of(data) else NoHash)];
          pushed := pushed + [Push(act.docId, data)];
          return Done;
      }
    }

    method ApplyAction(act: Action, r: Reply) returns (status: Status)
      modifies this
      ensures (State(), status) == Apply(old(State()), device, act, r)
    {
      hide CopyOf, Resolve, SafePath, DiskWith, SetCell, ViewAt, DownloadEffect, UploadEffect;
      var p := act.path;
      ghost var copy, v := CopyOf(p, device), ViewAt(State(), device, p);
      DiskStart(State(), device, p);
      BaseCell(State(), device, p);
      if !SafePath(p) {
        return Failed;
      }
      if act.kind.Noop? || act.kind.Create? {
        return Done;
      }
      if !r.pathOk {
        return Failed;
      }
      match act.kind
      case DeleteLocal =>
        DiskMain(disk, p, copy, v, if r.removed then None else v.main);
        CellRemoved(disk, p);
        SetSame(disk, p);
        if r.removed {
          disk := disk - {p};
        }
        files := files - {p};
        return Done;
      case Conflict =>
        var data := ReadFile(p, r.read);
        status := ResolveConflict(act, data, r);
      case Download =>
        status := PullFile(act, r);
      case Upload =>
        status := PushFile(act, r);
    }

    /** One cycle after the pull: scan, reconcile, apply. Going offline ends it; any other failure
        is logged and skipped. */
    method Cycle(remote: Remotes, reply: Path -> Reply) returns (ghost acts: seq<Action>, online: bool)
      modifies this
      ensures IsPlan(remote, Scan(old(disk)), old(files), acts)
      ensures State() == Exec(old(State()), device, acts, reply).0
      ensures NoClash(device, acts) ==> forall p <- old(disk) :: Unsynced(old(State()), p) && NoCopyAt(device, acts, p) ==>
                var act := DecideAt(remote, Scan(old(disk)), old(files), p);
                Destroys(ViewAt(old(State()), device, p), act, reply(p)) || Safe(State(), device, p, act.docId, old(disk)[p])
    {
      hide Apply, IsPlan, NoClash, CopyOf, Unsynced, Safe, DecideAt, Destroys, NoCopyAt, Scan;
      var plan := Reconcile(remote, Scan(disk), files);
      acts, online := plan, true;
      ghost var start := State();
      var i := 0;
      while i < |plan|
        invariant 0 <= i <= |plan|
        invariant Exec(start, device, plan, reply).0 == Exec(State(), device, plan[i..], reply).0
      {
        ghost var before := State();
        var status := ApplyAction(plan[i], reply(plan[i].path));
        ExecHead(before, device, plan[i..], reply);
        assert plan[i..][1..] == plan[i + 1..];
        if status.Offline? {
          online := false;
          break;
        }
        i := i + 1;
      }
      forall p | p in start.disk && NoClash(device, plan) && Unsynced(start, p) && NoCopyAt(device, plan, p)
        ensures var act := DecideAt(remote, Scan(start.disk), start.files, p);
          Destroys(ViewAt(start, device, p), act, reply(p)) || Safe(State(), device, p, act.docId, start.disk[p])
      {
        NoUnsyncedEditLost(start, device, remote, plan, reply, p);
      }
    }
  }

  lemma ExecCount(w: World, device: string, acts: seq<Action>, reply: Path -> Reply)
    requires acts != []
    ensures var (w1, status) := Apply(w, device, acts[0], reply(acts[0].path));
      Exec(w, device, acts, reply).1 == if status.Offline? then 1 else Exec(w1, device, acts[1..], reply).1 + 1
  {
    hide Apply;
  }

  lemma ExecHead(w: World, device: string, acts: seq<Action>, reply: Path -> Reply)
    requires acts != []
    ensures var (w1, status) := Apply(w, device, acts[0], reply(acts[0].path));
      Exec(w, device, acts, reply).0 == if status.Offline? then w1 else Exec(w1, device, acts[1..], reply).0
  {
    hide Apply;
  }

  // ---- the provisos on names are needed --------------------------------------------------

  /** Actions that leave `copy` and its own copy alone, but for a conflict at `p`. */
  ghost predicate Spares(device: string, acts: seq<Action>, p: Path, copy: Path) {
    && CopyOf(p, device) == Some(copy)
    && (forall i, j :: 0 <= i < j < |acts| ==> acts[i].path != acts[j].path)
    && (forall i :: 0 <= i < |acts| ==>
          && (acts[i].path == copy ==> acts[i].kind.Create?)
          && Some(acts[i].path) != CopyOf(copy, device)
          && CopyOf(acts[i].path, device) != Some(p))
  }

  lemma SparesTail(device: string, acts: seq<Action>, p: Path, copy: Path)
    requires acts != [] && Spares(device, acts, p, copy)
    ensures Spares(device, acts[1..], p, copy) && Spares(device, [acts[0]], p, copy)
    ensures forall i :: 0 <= i < |acts[1..]| ==> acts[1..][i] == acts[i + 1] && acts[1..][i].path != acts[0].path
    ensures CopyOf(p, device) == Some(copy) && CopyOf(copy, device) != Some(acts[0].path)
  {
    hide CopyOf;
  }

  /** An action at another path. */
  lemma SparedStep(w: World, device: string, act: Action, r: Reply, p: Path, copy: Path)
    requires Tame(device) && Spares(device, [act], p, copy) && act.path != p
    ensures var w1 := Apply(w, device, act, r).0;
      && Get(w1.disk, p) == Get(w.disk, p) && Get(w1.disk, copy) == Get(w.disk, copy)
      && CopyCell(w1.disk, CopyOf(copy, device)) == CopyCell(w.disk, CopyOf(copy, device))
  {
    hide CopyOf, EffectOf, Tame;
    assert [act][0] == act;
    if CopyOf(act.path, device) == Some(copy) {
      TameInjective(act.path, p, device);
    }
    if act.path == copy {
      CreateDoesNothing(ViewAt(w, device, copy), act, r);
    } else if CopyOf(act.path, device).Some? && CopyOf(act.path, device) == CopyOf(copy, device) {
      TameInjective(act.path, copy, device);
    }
  }

  lemma CreateDoesNothing(v: View, act: Action, r: Reply)
    requires act.kind.Create?
    ensures EffectOf(v, act, r).view == v && EffectOf(v, act, r).push == None
  {
    hide SafePath;
  }

  lemma {:induction false} SparedRun(w: World, device: string, acts: seq<Action>, reply: Path -> Reply, p: Path, copy: Path)
    requires Tame(device) && Spares(device, acts, p, copy) && forall i :: 0 <= i < |acts| ==> acts[i].path != p
    ensures var w' := Exec(w, device, acts, reply).0;
      && Get(w'.disk, copy) == Get(w.disk, copy)
      && CopyCell(w'.disk, CopyOf(copy, device)) == CopyCell(w.disk, CopyOf(copy, device))
    decreases |acts|
  {
    hide CopyOf, Apply, Tame, Spares;
    if acts != [] {
      SparesTail(device, acts, p, copy);
      ExecHead(w, device, acts, reply);
      SparedStep(w, device, acts[0], reply(acts[0].path), p, copy);
      SparedRun(Apply(w, device, acts[0], reply(acts[0].path)).0, device, acts[1..], reply, p, copy);
    }
  }

  /** A conflict that reads the whole file and writes the copy puts the file's bytes there. */
  predicate Copies(r: Reply, mine: Bytes) {
    r.pathOk && r.read.Whole? && r.copyWrite.Wrote? && r.fetch.Got? && r.fetch.bytes != mine
  }

  lemma ConflictWritesCopy(w: World, device: string, act: Action, r: Reply, copy: Path)
    requires act.kind.Conflict? && SafePath(act.path) && act.path in w.disk && Copies(r, w.disk[act.path])
    requires CopyOf(act.path, device) == Some(copy) && copy != act.path
    ensures var w1 := Apply(w, device, act, r).0;
      && Get(w1.disk, copy) == Some(w.disk[act.path]) && w1.pushed == w.pushed
      && (r.write.Wrote? ==> Get(w1.disk, act.path) == Some(r.fetch.bytes))
      && forall x: Path :: x != copy && x != act.path ==> Get(w1.disk, x) == Get(w.disk, x)
    ensures !Apply(w, device, act, r).1.Offline?
  {
    hide CopyOf, SafePath, EffectOf;
    CopiedConflict(ViewAt(w, device, act.path), act, r);
  }

  lemma CopiedConflict(v: View, act: Action, r: Reply)
    requires act.kind.Conflict? && SafePath(act.path) && v.main.Some? && v.room.Apart? && Copies(r, v.main.value)
    ensures var e := EffectOf(v, act, r);
      e.view.copy == v.main && e.push == None && !e.status.Offline? && (r.write.Wrote? ==> e.view.main == Some(r.fetch.bytes))
  {
    hide SafePath;
  }

  /** The copy holds p's bytes, and the copy's own copy is as it was. */
  ghost predicate Clashed(w: World, w': World, device: string, p: Path, copy: Path) {
    Get(w'.disk, copy) == Get(w.disk, p) && CopyCell(w'.disk, CopyOf(copy, device)) == CopyCell(w.disk, CopyOf(copy, device))
  }

  lemma ClashHead(w: World, device: string, acts: seq<Action>, reply: Path -> Reply, p: Path, copy: Path)
    requires Tame(device) && Spares(device, acts, p, copy) && acts != [] && acts[0].path == p && acts[0].kind.Conflict?
    requires SafePath(p) && p in w.disk && Copies(reply(p), w.disk[p])
    ensures Clashed(w, Exec(w, device, acts, reply).0, device, p, copy)
  {
    hide CopyOf, Apply, Tame, SafePath, Copies, Exec, Spares;
    var w1 := Apply(w, device, acts[0], reply(p)).0;
    ExecHead(w, device, acts, reply);
    SparesTail(device, acts, p, copy);
    TameCopyApart(p, device);
    TameCopyApart(copy, device);
    ConflictWritesCopy(w, device, acts[0], reply(p), copy);
    SparedRun(w1, device, acts[1..], reply, p, copy);
  }

  lemma {:induction false} ClashRun(w: World, device: string, acts: seq<Action>, reply: Path -> Reply, p: Path, copy: Path, i: nat)
    requires Tame(device) && Spares(device, acts, p, copy) && i < |acts| && acts[i].path == p && acts[i].kind.Conflict?
    requires SafePath(p) && p in w.disk && Copies(reply(p), w.disk[p])
    ensures i < Exec(w, device, acts, reply).1 ==> Clashed(w, Exec(w, device, acts, reply).0, device, p, copy)
    decreases |acts|
  {
    hide CopyOf, Apply, Tame, SafePath, Copies, Exec, Spares;
    if i == 0 {
      ClashHead(w, device, acts, reply, p, copy);
    } else {
      var w1 := Apply(w, device, acts[0], reply(acts[0].path)).0;
      ExecHead(w, device, acts, reply);
      ExecCount(w, device, acts, reply);
      SparesTail(device, acts, p, copy);
      assert acts[1..][i - 1] == acts[i];
      SparedStep(w, device, acts[0], reply(acts[0].path), p, copy);
      assert Get(w1.disk, p) == Some(w.disk[p]);
      ClashRun(w1, device, acts[1..], reply, p, copy, i - 1);
    }
  }

  /** When a conflicted-copy name is itself a file that the server and the baseline do not know, in every
      order in which the plan may run and reach the conflict the copy replaces that file's bytes; they
      are in no copy of their own, and no action of the plan pushes that file. */
  lemma ClashLosesEdit(w: World, device: string, remote: Remotes, acts: seq<Action>, reply: Path -> Reply, p: Path, copy: Path, i: nat)
    requires IsPlan(remote, Scan(w.disk), w.files, acts) && i < |acts| && acts[i].path == p && acts[i].kind.Conflict?
    requires Tame(device) && CopyOf(p, device) == Some(copy) && copy in w.disk && copy !in w.files && copy !in remote
    requires forall q <- PathsOf(acts) :: Some(q) != CopyOf(copy, device) && CopyOf(q, device) != Some(p)
    requires SafePath(p) && p in w.disk && Copies(reply(p), w.disk[p]) && w.disk[copy] != w.disk[p]
    ensures var (w', n) := Exec(w, device, acts, reply);
      && Unsynced(w, copy)
      && (i < n ==> Get(w'.disk, copy) == Get(w.disk, p))
      && (i < n ==> CopyCell(w'.disk, CopyOf(copy, device)) == CopyCell(w.disk, CopyOf(copy, device)))
      && forall j :: 0 <= j < |acts| && acts[j].path == copy ==> acts[j].kind.Create?
  {
    hide CopyOf, Exec, IsPlan, Decide, Tame, SafePath, Copies;
    PlanSpares(w, device, remote, acts, p, copy);
    ClashRun(w, device, acts, reply, p, copy, i);
  }

  lemma NewFileCreates(w: World, remote: Remotes, copy: Path)
    requires copy !in w.files && copy !in remote && copy in Scan(w.disk)
    ensures DecideAt(remote, Scan(w.disk), w.files, copy).kind.Create?
  {
    hide Scanned;
  }

  lemma PlanSpares(w: World, device: string, remote: Remotes, acts: seq<Action>, p: Path, copy: Path)
    requires IsPlan(remote, Scan(w.disk), w.files, acts) && CopyOf(p, device) == Some(copy) && copy !in w.files && copy !in remote
    requires forall q <- PathsOf(acts) :: Some(q) != CopyOf(copy, device) && CopyOf(q, device) != Some(p)
    ensures Spares(device, acts, p, copy)
  {
    hide CopyOf, Decide, Scan;
    PathsHave(acts);
    forall j | 0 <= j < |acts| && acts[j].path == copy
      ensures acts[j].kind.Create?
    {
      assert copy in remote.Keys + Scan(w.disk).Keys + w.files.Keys;
      NewFileCreates(w, remote, copy);
    }
  }

  // ---- a device name that is not tame ---------------------------------------------------------

  function TwoEdited(p: Path, q: Path, mine: Bytes, other: Bytes): World {
    World(map[p := mine, q := other], map[p := Known("a", "v1", "", NoHash), q := Known("b", "v1", "", NoHash)], [])
  }

  function TwoMoved(p: Path, q: Path): Remotes {
    map[p := Remote("a", "v2", "", NoHash, false), q := Remote("b", "v2", "", NoHash, false)]
  }

  function TwoConflicts(p: Path, q: Path, mine: Bytes, other: Bytes): seq<Action> {
    [ConflictAction(p, TwoMoved(p, q)[p], Local(Of(mine), true)), ConflictAction(q, TwoMoved(p, q)[q], Local(Of(other), true))]
  }

  lemma TwoPlan(p: Path, q: Path, mine: Bytes, other: Bytes)
    requires p != q && Scanned(p) && Scanned(q)
    ensures var w := TwoEdited(p, q, mine, other);
      IsPlan(TwoMoved(p, q), Scan(w.disk), w.files, TwoConflicts(p, q, mine, other))
  {
    hide Scanned, Decide, IsPlan, Scan;
    var w, remote := TwoEdited(p, q, mine, other), TwoMoved(p, q);
    var l, m := Local(Of(mine), true), Local(Of(other), true);
    TwoScan(p, q, mine, other);
    var local := Scan(w.disk);
    ConflictAt(remote, local, w.files, p, l);
    ConflictAt(remote, local, w.files, q, m);
    TwoActions(remote, local, w.files, p, q);
  }

  lemma TwoScan(p: Path, q: Path, mine: Bytes, other: Bytes)
    requires p != q && Scanned(p) && Scanned(q)
    ensures Scan(map[p := mine, q := other]) == map[p := Local(Of(mine), true), q := Local(Of(other), true)]
  {
    hide Scanned;
  }

  lemma ConflictAt(remote: Remotes, local: Locals, known: Baseline, p: Path, l: Local)
    requires p in remote && p in local && p in known && local[p] == l && l.present && l.sha != known[p].sha
    requires !remote[p].deleted && remote[p].sha == NoHash && remote[p].versionId != "" && remote[p].versionId != known[p].versionId
    ensures DecideAt(remote, local, known, p) == ConflictAction(p, remote[p], l)
  {
    hide Decide;
    BothMoved(p, remote[p], l, known[p]);
  }

  lemma TwoActions(remote: Remotes, local: Locals, known: Baseline, p: Path, q: Path)
    requires p != q && remote.Keys + local.Keys + known.Keys == {p, q}
    ensures IsPlan(remote, local, known, [DecideAt(remote, local, known, p), DecideAt(remote, local, known, q)])
  {
    hide Decide;
    TwoPaths(DecideAt(remote, local, known, p), DecideAt(remote, local, known, q));
  }

  lemma TwoPaths(a: Action, b: Action)
    ensures PathsOf([a, b]) == {a.path, b.path}
  {
    PathsNone();
    PathsSnoc([], a);
    PathsSnoc([a], b);
    assert [] + [a] == [a] && [a] + [b] == [a, b];
  }

  /** Two files edited here and on the server whose copies have one name: although neither copy is a path
      of the plan and everything works, the second copy replaces the first, and one edit is nowhere. By
      `WildShares` this hits all files of a directory with the same extension. */
  lemma SharedCopyLosesEdit(p: Path, q: Path, copy: Path, device: string, mine: Bytes, other: Bytes, reply: Path -> Reply)
    requires p != q && Scanned(p) && Scanned(q) && SafePath(p) && SafePath(q)
    requires CopyOf(p, device) == CopyOf(q, device) == Some(copy) && copy != p && copy != q
    requires Copies(reply(p), mine) && reply(p).write.Wrote? && Copies(reply(q), other) && reply(q).write.Wrote?
    requires mine != other && reply(q).fetch.bytes != mine
    ensures var w, acts := TwoEdited(p, q, mine, other), TwoConflicts(p, q, mine, other);
      var (w', n) := Exec(w, device, acts, reply);
      && IsPlan(TwoMoved(p, q), Scan(w.disk), w.files, acts) && Unsynced(w, p) && n == 2
      && w'.pushed == [] && Nowhere(w'.disk, mine)
  {
    hide CopyOf, SafePath, Scanned, IsPlan, Apply, Copies;
    var w, acts := TwoEdited(p, q, mine, other), TwoConflicts(p, q, mine, other);
    TwoPlan(p, q, mine, other);
    ConflictWritesCopy(w, device, acts[0], reply(p), copy);
    var w1 := Apply(w, device, acts[0], reply(p)).0;
    assert Get(w1.disk, q) == Get(w.disk, q) == Some(other);
    ConflictWritesCopy(w1, device, acts[1], reply(q), copy);
    var w2 := Apply(w1, device, acts[1], reply(q)).0;
    assert acts[1..] == [acts[1]] && [acts[1]][1..] == [];
    assert Exec(w2, device, [], reply) == (w2, 0);
    assert Exec(w1, device, [acts[1]], reply) == (w2, 1);
    assert reply(p).fetch.bytes != mine by { CopiesOther(reply(p), mine); }
    forall x | x in w2.disk
      ensures w2.disk[x] != mine
    {
      assert Get(w2.disk, x) == Some(w2.disk[x]);
      assert x != p && x != q && x != copy ==> Get(w.disk, x) == None;
    }
  }

  lemma CopiesOther(r: Reply, mine: Bytes)
    requires Copies(r, mine)
    ensures r.fetch.Got? && r.fetch.bytes != mine
  {
  }
}
