/** Carrying out a plan: what one sync cycle does to the working copy and the baseline, under any
    network and disk failures. */
module SyncApply {
  import opened Basics
  import opened SyncPaths
  import opened SyncEngine
  import opened SyncNames

  // ---- the outside world's answers ---------------------------------------------

  datatype Fetch = Got(bytes: Bytes) | FetchFailed | FetchOffline

  /** A failed write may leave any bytes behind, or leave the file alone. */
  datatype Write = Wrote | WriteFailed(left: Option<Bytes>)

  /** Reading a file: all of it, an error after n bytes, or an error before the first. */
  datatype Read = Whole | CutAfter(n: nat) | NoRead

  datatype Blob = BlobOk | BlobFailed | BlobOffline

  /** A version call that reports an error may still have stored the version. */
  datatype Version = Created(ver: string) | VersionConflict | VersionFailed(stored: bool) | VersionOffline(stored: bool)

  /** What guardPath, the server and the disk answer while one action runs. A guard that refuses a file
      later on is a write that failed and left the file alone. `hashed` tells whether an upload's second
      read, for the hash, worked. */
  datatype Reply = Reply(pathOk: bool, read: Read, hashed: bool, fetch: Fetch, write: Write, copyWrite: Write,
                         blob: Blob, version: Version, removed: bool)

  datatype Status = Done | Failed | Offline

  // ---- one action, on the three cells it can touch --------------------------------

  /** The conflicted copy's place: refused by safePath, a file of its own, or, for some device names,
      the very file it copies. */
  datatype Room = Refused | Apart | Same

  /** A path's file, its conflicted copy and its baseline entry. */
  datatype View = View(main: Option<Bytes>, copy: Option<Bytes>, base: Option<Known>, room: Room)

  function PutMain(v: View, x: Option<Bytes>): View { v.(main := x, copy := if v.room.Same? then x else v.copy) }

  function PutCopy(v: View, x: Option<Bytes>): View { v.(copy := x, main := if v.room.Same? then x else v.main) }

  /** The cells afterwards, the status, and the bytes stored as a new version, if any. */
  datatype Effect = Effect(view: View, status: Status, push: Option<Bytes>)

  function Written(before: Option<Bytes>, data: Bytes, w: Write): Option<Bytes> {
    match w
    case Wrote => Some(data)
    case WriteFailed(Some(left)) => Some(left)
    case WriteFailed(None) => before
  }

  function Recorded(act: Action, data: Bytes): Option<Known> {
    Some(Known(act.docId, act.remoteVer, act.remoteUpd, Of(data)))
  }

  /** The bytes a read hands over, with or without an error. */
  function ReadOf(main: Option<Bytes>, r: Read): Option<Bytes> {
    if main.None? || r.NoRead? then None
    else if r.CutAfter? && r.n < |main.value| then Some(main.value[..r.n])
    else main
  }

  function OrEmpty(data: Option<Bytes>): Bytes { if data.Some? then data.value else [] }

  /** Keep both: the local bytes as a copy (even when the download failed), the server's in place. */
  function Resolve(v: View, act: Action, data: Option<Bytes>, r: Reply): Effect {
    if v.room.Refused? then Effect(v, Failed, None)
    else if r.fetch.Got? && data == Some(r.fetch.bytes) then Effect(v.(base := Recorded(act, r.fetch.bytes)), Done, None)
    else
      var v1 := PutCopy(v, Written(v.copy, OrEmpty(data), r.copyWrite));
      if r.copyWrite.WriteFailed? then Effect(v1, Failed, None)
      else match r.fetch
        case FetchFailed => Effect(v1, Failed, None)
        case FetchOffline => Effect(v1, Offline, None)
        case Got(bytes) =>
          var v2 := PutMain(v1, Written(v1.main, bytes, r.write));
          if r.write.WriteFailed? then Effect(v2, Failed, None)
          else Effect(v2.(base := Recorded(act, bytes)), Done, None)
  }

  function DownloadEffect(v: View, act: Action, r: Reply): Effect {
    match r.fetch
    case FetchFailed => Effect(v, Failed, None)
    case FetchOffline => Effect(v, Offline, None)
    case Got(bytes) =>
      var v1 := PutMain(v, Written(v.main, bytes, r.write));
      if r.write.WriteFailed? then Effect(v1, Failed, None)
      else Effect(v1.(base := Recorded(act, bytes)), Done, None)
  }

  function UploadEffect(v: View, act: Action, r: Reply): Effect {
    if v.main.None? || !r.read.Whole? then Effect(v, Failed, None)
    else match r.blob
      case BlobFailed => Effect(v, Failed, None)
      case BlobOffline => Effect(v, Offline, None)
      case BlobOk =>
        match r.version
        case Created(ver) =>
          Effect(v.(base := Some(Known(act.docId, ver, "", if r.hashed then Of(v.main.value) else NoHash))), Done, v.main)
        case VersionConflict => Resolve(v, act, v.main, r)
        case VersionFailed(stored) => Effect(v, Failed, if stored then v.main else None)
        case VersionOffline(stored) => Effect(v, Offline, if stored then v.main else None)
  }

  /** A conflict goes on with whatever the read handed over, its error ignored; an upload stops. */
  function EffectOf(v: View, act: Action, r: Reply): Effect {
    if !SafePath(act.path) then Effect(v, Failed, None)
    else if act.kind.Noop? || act.kind.Create? then Effect(v, Done, None)
    else if !r.pathOk then Effect(v, Failed, None)
    else match act.kind
      case DeleteLocal => Effect(PutMain(v, if r.removed then None else v.main).(base := None), Done, None)
      case Conflict => Resolve(v, act, ReadOf(v.main, r.read), r)
      case Download => DownloadEffect(v, act, r)
      case Upload => UploadEffect(v, act, r)
  }

  /** The server was asked for the file's current bytes. */
  predicate Fetches(v: View, act: Action, r: Reply) {
    act.kind.Download? || (!v.room.Refused? && (act.kind.Conflict? ||
      (act.kind.Upload? && v.main.Some? && r.read.Whole? && r.blob.BlobOk? && r.version.VersionConflict?)))
  }

  /** An action reports being offline exactly when the call it needed was answered so, and, in a
      conflict, the copy was written; and an action that did not succeed leaves the baseline alone, so
      that the next cycle sees the same differences. */
  lemma OfflineExact(v: View, act: Action, r: Reply)
    ensures var e := EffectOf(v, act, r);
      && (e.status.Offline? <==>
            && SafePath(act.path) && r.pathOk
            && ((Fetches(v, act, r) && r.fetch.FetchOffline? && (act.kind.Download? || r.copyWrite.Wrote?))
                || (act.kind.Upload? && v.main.Some? && r.read.Whole?
                    && (r.blob.BlobOffline? || (r.blob.BlobOk? && r.version.VersionOffline?)))))
      && (!e.status.Done? ==> e.view.base == v.base)
      && (e.push.Some? ==> act.kind.Upload? && e.push == v.main && r.blob.BlobOk? && r.read.Whole?
                           && (r.version.Created? || (r.version.VersionFailed? && r.version.stored) || (r.version.VersionOffline? && r.version.stored)))
  {
    hide SafePath;
  }

  // ---- the agent's state ------------------------------------------------------------

  datatype Push = Push(docId: string, bytes: Bytes)

  datatype World = World(disk: map<Path, Bytes>, files: Baseline, pushed: seq<Push>)

  function SetCell<V>(m: map<Path, V>, p: Path, v: Option<V>): (r: map<Path, V>)
    ensures Get(r, p) == v && forall q: Path :: q != p ==> Get(r, q) == Get(m, q)
  {
    if v.Some? then m[p := v.value] else m - {p}
  }

  /** Maps with the same cells are the same map. */
  lemma SameMap<V>(m: map<Path, V>, n: map<Path, V>)
    requires forall x: Path :: Get(m, x) == Get(n, x)
    ensures m == n
  {
    forall x: Path
      ensures x in m <==> x in n
      ensures x in m ==> m[x] == n[x]
    {
      assert Get(m, x) == Get(n, x);
    }
  }

  function CopyCell(disk: map<Path, Bytes>, c: Option<Path>): Option<Bytes> {
    if c.None? then None else Get(disk, c.value)
  }

  function ViewAt(w: World, device: string, p: Path): View {
    var c := CopyOf(p, device);
    View(Get(w.disk, p), CopyCell(w.disk, c), Get(w.files, p), if c.None? then Refused else if c == Some(p) then Same else Apart)
  }

  function SetCopy(disk: map<Path, Bytes>, c: Option<Path>, v: Option<Bytes>): map<Path, Bytes> {
    if c.None? then disk else SetCell(disk, c.value, v)
  }

  /** The disk with a path's two cells set. */
  function DiskWith(disk: map<Path, Bytes>, p: Path, c: Option<Path>, copy: Option<Bytes>, main: Option<Bytes>): map<Path, Bytes> {
    SetCell(SetCopy(disk, c, copy), p, main)
  }

  function Apply(w: World, device: string, act: Action, r: Reply): (World, Status) {
    var p, e := act.path, EffectOf(ViewAt(w, device, act.path), act, r);
    (World(DiskWith(w.disk, p, CopyOf(p, device), e.view.copy, e.view.main),
           SetCell(w.files, p, e.view.base),
           if e.push.Some? then w.pushed + [Push(act.docId, e.push.value)] else w.pushed),
     e.status)
  }

  /** Runs the actions in order; going offline ends the cycle, other failures do not. */
  function Exec(w: World, device: string, acts: seq<Action>, reply: Path -> Reply): (World, nat)
    decreases |acts|
  {
    if acts == [] then (w, 0)
    else
      var (w1, status) := Apply(w, device, acts[0], reply(acts[0].path));
      if status.Offline? then (w1, 1)
      else var (w2, n) := Exec(w1, device, acts[1..], reply); (w2, n + 1)
  }

  /** No action's copy lands on a path of the plan, and no two share one. */
  predicate NoClash(device: string, acts: seq<Action>) {
    && (forall i, j :: 0 <= i < j < |acts| ==> acts[i].path != acts[j].path)
    && (forall i, j :: 0 <= i < |acts| && 0 <= j < |acts| ==> CopyOf(acts[i].path, device) != Some(acts[j].path))
    && (forall i, j :: 0 <= i < j < |acts| ==> CopiesApart(device, acts[i].path, acts[j].path))
  }

  predicate CopiesApart(device: string, p: Path, q: Path) {
    CopyOf(p, device).Some? ==> CopyOf(p, device) != CopyOf(q, device)
  }

  /** For a tame device name, no copy on a path of the plan is enough. */
  lemma TameNoClash(device: string, acts: seq<Action>)
    requires Tame(device)
    requires forall i, j :: 0 <= i < j < |acts| ==> acts[i].path != acts[j].path
    requires forall i, j :: 0 <= i < |acts| && 0 <= j < |acts| ==> CopyOf(acts[i].path, device) != Some(acts[j].path)
    ensures NoClash(device, acts)
  {
    hide CopyOf, Tame;
    forall i, j | 0 <= i < j < |acts|
      ensures CopiesApart(device, acts[i].path, acts[j].path)
    {
      if CopyOf(acts[i].path, device).Some? && CopyOf(acts[i].path, device) == CopyOf(acts[j].path, device) {
        TameInjective(acts[i].path, acts[j].path, device);
      }
    }
  }

  lemma ApartBothWays(device: string, p: Path, q: Path)
    requires CopiesApart(device, p, q)
    ensures CopiesApart(device, q, p)
  {
    hide CopyOf;
  }

  lemma KeepsRoom(v: View, act: Action, r: Reply)
    ensures EffectOf(v, act, r).view.room == v.room
    ensures v.room.Same? && v.main == v.copy ==> EffectOf(v, act, r).view.main == EffectOf(v, act, r).view.copy
    ensures v.room.Refused? ==> EffectOf(v, act, r).view.copy == v.copy
  {
    hide SafePath;
  }

  lemma ApplyOwnCells(w: World, device: string, act: Action, r: Reply)
    ensures ViewAt(Apply(w, device, act, r).0, device, act.path) == EffectOf(ViewAt(w, device, act.path), act, r).view
  {
    hide EffectOf, CopyOf;
    KeepsRoom(ViewAt(w, device, act.path), act, r);
  }

  /** Another path whose names do not meet this action's is not touched. */
  lemma ApplyOtherCells(w: World, device: string, act: Action, r: Reply, q: Path)
    requires q != act.path && CopyOf(q, device) != Some(act.path) && CopyOf(act.path, device) != Some(q)
    requires CopiesApart(device, q, act.path)
    ensures ViewAt(Apply(w, device, act, r).0, device, q) == ViewAt(w, device, q)
  {
    hide EffectOf, CopyOf;
  }

  lemma ApplyUntouched(w: World, device: string, act: Action, r: Reply, x: Path)
    requires x != act.path && Some(x) != CopyOf(act.path, device)
    ensures Get(Apply(w, device, act, r).0.disk, x) == Get(w.disk, x)
    ensures Get(Apply(w, device, act, r).0.files, x) == Get(w.files, x)
  {
    hide EffectOf, CopyOf;
  }

  lemma NoClashTail(device: string, acts: seq<Action>)
    requires acts != [] && NoClash(device, acts)
    ensures NoClash(device, acts[1..])
  {
    hide CopyOf, CopiesApart;
  }

  function StatusAt(w: World, device: string, act: Action, reply: Path -> Reply): Status {
    EffectOf(ViewAt(w, device, act.path), act, reply(act.path)).status
  }

  /** Without clashes, the cycle does to each path exactly what that path's action alone would do
      from the starting state; paths of actions not reached are as they were. */
  lemma {:induction false} ExecView(w: World, device: string, acts: seq<Action>, reply: Path -> Reply, i: nat)
    requires NoClash(device, acts) && i < |acts|
    ensures var (w', n) := Exec(w, device, acts, reply);
      ViewAt(w', device, acts[i].path) ==
        if i < n then EffectOf(ViewAt(w, device, acts[i].path), acts[i], reply(acts[i].path)).view
        else ViewAt(w, device, acts[i].path)
    decreases |acts|
  {
    hide EffectOf, ViewAt, CopyOf, Apply;
    var act, p := acts[0], acts[i].path;
    var (w1, status) := Apply(w, device, act, reply(act.path));
    NoClashTail(device, acts);
    if i == 0 {
      ApplyOwnCells(w, device, act, reply(act.path));
      if !status.Offline? {
        ExecElsewhere(w1, device, acts[1..], reply, p);
      }
    } else {
      assert CopiesApart(device, act.path, p);
      ApartBothWays(device, act.path, p);
      ApplyOtherCells(w, device, act, reply(act.path), p);
      if !status.Offline? {
        ExecView(w1, device, acts[1..], reply, i - 1);
      }
    }
  }

  lemma {:induction false} ExecElsewhere(w: World, device: string, acts: seq<Action>, reply: Path -> Reply, q: Path)
    requires forall i :: 0 <= i < |acts| ==>
      acts[i].path != q && CopyOf(q, device) != Some(acts[i].path) && CopyOf(acts[i].path, device) != Some(q)
      && CopiesApart(device, q, acts[i].path)
    ensures ViewAt(Exec(w, device, acts, reply).0, device, q) == ViewAt(w, device, q)
    decreases |acts|
  {
    hide EffectOf, ViewAt, CopyOf, Apply;
    if acts != [] {
      var (w1, status) := Apply(w, device, acts[0], reply(acts[0].path));
      ApplyOtherCells(w, device, acts[0], reply(acts[0].path), q);
      if !status.Offline? {
        ExecElsewhere(w1, device, acts[1..], reply, q);
      }
    }
  }

  lemma {:induction false} ExecUntouched(w: World, device: string, acts: seq<Action>, reply: Path -> Reply, x: Path)
    requires forall i :: 0 <= i < |acts| ==> acts[i].path != x && CopyOf(acts[i].path, device) != Some(x)
    ensures Get(Exec(w, device, acts, reply).0.disk, x) == Get(w.disk, x)
    ensures Get(Exec(w, device, acts, reply).0.files, x) == Get(w.files, x)
    decreases |acts|
  {
    hide EffectOf, CopyOf, Apply;
    if acts != [] {
      var (w1, status) := Apply(w, device, acts[0], reply(acts[0].path));
      ApplyUntouched(w, device, acts[0], reply(acts[0].path), x);
      if !status.Offline? {
        ExecUntouched(w1, device, acts[1..], reply, x);
      }
    }
  }

  /** What was pushed stays pushed, and each reached action's push is among it. */
  lemma {:induction false} ExecPushes(w: World, device: string, acts: seq<Action>, reply: Path -> Reply, i: nat)
    requires NoClash(device, acts) && i < |acts|
    ensures var (w', n) := Exec(w, device, acts, reply);
      var e := EffectOf(ViewAt(w, device, acts[i].path), acts[i], reply(acts[i].path));
      i < n && e.push.Some? ==> Push(acts[i].docId, e.push.value) in w'.pushed
    decreases |acts|
  {
    hide EffectOf, ViewAt, CopyOf, Apply;
    var act := acts[0];
    var (w1, status) := Apply(w, device, act, reply(act.path));
    NoClashTail(device, acts);
    ApplyPushes(w, device, act, reply(act.path));
    if !status.Offline? {
      if i == 0 {
        PushedGrows(w1, device, acts[1..], reply);
        assert forall x <- w1.pushed :: x in Exec(w1, device, acts[1..], reply).0.pushed;
      } else {
        assert CopiesApart(device, act.path, acts[i].path);
        ApartBothWays(device, act.path, acts[i].path);
        ApplyOtherCells(w, device, act, reply(act.path), acts[i].path);
        ExecPushes(w1, device, acts[1..], reply, i - 1);
      }
    }
  }

  lemma ApplyPushes(w: World, device: string, act: Action, r: Reply)
    ensures var e := EffectOf(ViewAt(w, device, act.path), act, r);
      e.push.Some? ==> Push(act.docId, e.push.value) in Apply(w, device, act, r).0.pushed
  {
    hide EffectOf, ViewAt, CopyOf;
  }

  lemma {:induction false} PushedGrows(w: World, device: string, acts: seq<Action>, reply: Path -> Reply)
    ensures w.pushed <= Exec(w, device, acts, reply).0.pushed
    decreases |acts|
  {
    hide EffectOf, ViewAt, CopyOf;
    if acts != [] {
      var (w1, status) := Apply(w, device, acts[0], reply(acts[0].path));
      if !status.Offline? {
        PushedGrows(w1, device, acts[1..], reply);
      }
    }
  }

  // ---- no unsynced edit is lost ----------------------------------------------------------

  /** The scan passes over some paths: files there are in no local view. */
  function Scan(disk: map<Path, Bytes>): Locals { map p | p in disk && Scanned(p) :: Local(Of(disk[p]), true) }

  /** The local view has exactly the files outside ".git" directories whose path does not start with the
      state file's name, each with the hash of its bytes. */
  lemma ScanExact(disk: map<Path, Bytes>, p: Path)
    ensures p in Scan(disk) <==>
      p in disk && (forall i :: 0 <= i < |p| - 1 ==> p[i] != ".git") && !(".dms-sync-state.json" <= p[0])
    ensures p in Scan(disk) ==> Scan(disk)[p] == Local(Of(disk[p]), true)
  {
    assert (forall i :: 0 <= i < |p| - 1 ==> p[i] != ".git") <==> ".git" !in p[..|p| - 1];
  }

  /** The bytes differ from what the agent last wrote there, or it never wrote there. */
  predicate Unsynced(w: World, p: Path) {
    p in w.disk && (p in w.files ==> w.files[p].sha != Of(w.disk[p]))
  }

  /** The bytes are still at the path, at its conflicted copy, or on the server. */
  predicate Safe(w: World, device: string, p: Path, docId: string, bytes: Bytes) {
    || Get(w.disk, p) == Some(bytes)
    || CopyCell(w.disk, CopyOf(p, device)) == Some(bytes)
    || Push(docId, bytes) in w.pushed
  }

  /** The write put other bytes in the file's place. */
  predicate Replaced(mine: Bytes, theirs: Bytes, w: Write) {
    if w.Wrote? then theirs != mine else w.left.Some? && w.left != Some(mine)
  }

  /** The two ways an action destroys unsynced bytes: a conflict whose read did not hand over the whole
      file, with the copy written, other bytes fetched and the file then overwritten; or a download onto
      a file that the scan did not see. */
  predicate Destroys(v: View, act: Action, r: Reply)
    requires v.main.Some?
  {
    var data := ReadOf(v.main, r.read);
    && SafePath(act.path) && r.pathOk && r.fetch.Got? && Replaced(v.main.value, r.fetch.bytes, r.write)
    && match act.kind
       case Conflict => !v.room.Refused? && r.copyWrite.Wrote? && OrEmpty(data) != v.main.value && data != Some(r.fetch.bytes)
       case Download => v.copy != v.main
       case _ => false
  }

  /** An action keeps unsynced bytes in the file, in the copy or on the server, unless it destroys
      them. */
  lemma EditSurvivesAction(v: View, act: Action, r: Reply)
    requires v.main.Some? && !act.kind.DeleteLocal? && !v.room.Same?
    ensures var e := EffectOf(v, act, r);
      (e.view.main == v.main || e.view.copy == v.main || e.push == v.main) <==> !Destroys(v, act, r)
  {
    hide SafePath;
  }

  /** An unsynced file is uploaded, kept or in conflict; only a file the scan did not see is downloaded
      over. */
  lemma EditKind(w: World, remote: Remotes, p: Path)
    requires Unsynced(w, p)
    ensures var kind := DecideAt(remote, Scan(w.disk), w.files, p).kind;
      && !kind.DeleteLocal? && (kind.Download? <==> !Scanned(p) && p in remote && !remote[p].deleted && p !in w.files)
  {
    hide Scanned;
    DecisionTable(p, Get(remote, p), Get(Scan(w.disk), p), Get(w.files, p));
  }

  lemma OwnRoom(w: World, device: string, acts: seq<Action>, i: nat)
    requires NoClash(device, acts) && i < |acts|
    ensures !ViewAt(w, device, acts[i].path).room.Same?
  {
    hide CopyOf, CopiesApart;
  }

  /** Over a whole cycle in any order, with arbitrary read and download failures, 409s, failed or
      truncated writes, refused paths and going offline part-way, an unsynced edit is gone from its
      path, from its copy and from what its action pushed if and only if its action was reached and
      destroyed it. */
  lemma EditLostIff(w: World, device: string, remote: Remotes, acts: seq<Action>, reply: Path -> Reply, p: Path, i: nat)
    requires IsPlan(remote, Scan(w.disk), w.files, acts) && NoClash(device, acts)
    requires Unsynced(w, p) && i < |acts| && acts[i].path == p
    ensures var (w', n) := Exec(w, device, acts, reply);
      var v, mine := ViewAt(w, device, p), Some(w.disk[p]);
      (Get(w'.disk, p) != mine && CopyCell(w'.disk, CopyOf(p, device)) != mine
        && (i < n ==> EffectOf(v, acts[i], reply(p)).push != mine)) <==> i < n && Destroys(v, acts[i], reply(p))
  {
    hide EffectOf, CopyOf, Destroys, Exec, NoClash, Decide;
    ExecView(w, device, acts, reply, i);
    EditKind(w, remote, p);
    OwnRoom(w, device, acts, i);
    EditSurvivesAction(ViewAt(w, device, p), acts[i], reply(p));
  }

  lemma OnlyTwoWays(v: View, act: Action, r: Reply)
    requires v.main.Some? && Destroys(v, act, r)
    ensures (act.kind.Conflict? && !r.read.Whole?) || act.kind.Download?
  {
    hide SafePath;
  }

  /** No copy has this name. For a path of the plan that is part of `NoClash`. */
  predicate NoCopyAt(device: string, acts: seq<Action>, p: Path) {
    forall i :: 0 <= i < |acts| ==> CopyOf(acts[i].path, device) != Some(p)
  }

  /** So every unsynced edit that is no copy's name survives a cycle, whatever else fails, if the scan
      saw it and, should it be in conflict, its read was whole. */
  lemma NoUnsyncedEditLost(w: World, device: string, remote: Remotes, acts: seq<Action>, reply: Path -> Reply, p: Path)
    requires IsPlan(remote, Scan(w.disk), w.files, acts) && NoClash(device, acts)
    requires Unsynced(w, p) && NoCopyAt(device, acts, p)
    ensures var act, v := DecideAt(remote, Scan(w.disk), w.files, p), ViewAt(w, device, p);
      && (Destroys(v, act, reply(p)) ==> (act.kind.Conflict? && !reply(p).read.Whole?) || !Scanned(p))
      && (!Destroys(v, act, reply(p)) ==> Safe(Exec(w, device, acts, reply).0, device, p, act.docId, w.disk[p]))
  {
    hide EffectOf, CopyOf, Exec, NoClash, Decide, Destroys, Scanned;
    var act, v := DecideAt(remote, Scan(w.disk), w.files, p), ViewAt(w, device, p);
    if Destroys(v, act, reply(p)) {
      OnlyTwoWays(v, act, reply(p));
      EditKind(w, remote, p);
    } else if p in PathsOf(acts) {
      var i :| 0 <= i < |acts| && acts[i].path == p;
      EditLostIff(w, device, remote, acts, reply, p, i);
      ExecPushes(w, device, acts, reply, i);
    } else {
      PathsHave(acts);
      ExecUntouched(w, device, acts, reply, p);
    }
  }

  // ---- the losses are real -------------------------------------------------------------------

  /** A file edited here since version v1 was synced, and a delta in which the server moved to v2. */
  function EditedWorld(p: Path, doc: string, synced: Bytes, mine: Bytes): World {
    World(map[p := mine], map[p := Known(doc, "v1", "", Of(synced))], [])
  }

  function MovedRemote(p: Path, doc: string): Remotes { map[p := Remote(doc, "v2", "", NoHash, false)] }

  /** One path and one action. */
  lemma OnePathPlan(p: Path, device: string, remote: Remotes, w: World, act: Action)
    requires remote.Keys + Scan(w.disk).Keys + w.files.Keys == {p} && act == DecideAt(remote, Scan(w.disk), w.files, p)
    requires CopyOf(p, device) != Some(p)
    ensures IsPlan(remote, Scan(w.disk), w.files, [act]) && NoClash(device, [act])
  {
    hide CopyOf, Decide;
    PathsSnoc([], act);
    PathsNone();
    assert [] + [act] == [act];
  }

  lemma BothMoved(p: Path, r: Remote, l: Local, k: Known)
    requires !r.deleted && r.sha == NoHash && l.present && l.sha != k.sha && r.versionId != "" && r.versionId != k.versionId
    ensures Decide(p, Some(r), Some(l), Some(k)) == ConflictAction(p, r, l)
  {
  }

  lemma EditedPlan(p: Path, device: string, doc: string, synced: Bytes, mine: Bytes)
    requires mine != synced && Scanned(p) && CopyOf(p, device) != Some(p)
    ensures var w, remote := EditedWorld(p, doc, synced, mine), MovedRemote(p, doc);
      var act := ConflictAction(p, remote[p], Local(Of(mine), true));
      IsPlan(remote, Scan(w.disk), w.files, [act]) && NoClash(device, [act]) && Unsynced(w, p)
  {
    hide CopyOf, Scanned;
    var w, remote := EditedWorld(p, doc, synced, mine), MovedRemote(p, doc);
    var act := ConflictAction(p, remote[p], Local(Of(mine), true));
    assert Scan(w.disk) == map[p := Local(Of(mine), true)];
    BothMoved(p, remote[p], Local(Of(mine), true), w.files[p]);
    OnePathPlan(p, device, remote, w, act);
  }

  lemma UnreadConflict(v: View, act: Action, r: Reply, theirs: Bytes)
    requires act.kind.Conflict? && SafePath(act.path) && v.room.Apart? && r.pathOk && r.read.NoRead?
    requires r.fetch == Got(theirs) && r.copyWrite.Wrote? && r.write.Wrote?
    ensures EffectOf(v, act, r) == Effect(View(Some(theirs), Some([]), Recorded(act, theirs), Apart), Done, None)
  {
    hide SafePath;
  }

  lemma OneAction(w: World, device: string, act: Action, reply: Path -> Reply)
    ensures Exec(w, device, [act], reply).0 == Apply(w, device, act, reply(act.path)).0
  {
    hide Apply;
    var (w1, status) := Apply(w, device, act, reply(act.path));
    assert [act][1..] == [] && Exec(w1, device, [], reply) == (w1, 0);
  }

  /** Bytes held by no file. */
  ghost predicate Nowhere(disk: map<Path, Bytes>, mine: Bytes) { forall q <- disk :: disk[q] != mine }

  /** A misread conflict: a file edited here and on the server, a read that fails, and everything else
      working. Afterwards the edit is in no file and on no server, and the action reports success. */
  lemma FailedReadLosesEdit(p: Path, device: string, doc: string, synced: Bytes, mine: Bytes, theirs: Bytes, reply: Path -> Reply)
    requires mine != [] && mine != synced && theirs != mine
    requires Scanned(p) && SafePath(p) && CopyOf(p, device).Some? && CopyOf(p, device) != Some(p)
    requires var r := reply(p); r.pathOk && r.read.NoRead? && r.fetch == Got(theirs) && r.copyWrite.Wrote? && r.write.Wrote?
    ensures var w, remote := EditedWorld(p, doc, synced, mine), MovedRemote(p, doc);
      var acts := [ConflictAction(p, remote[p], Local(Of(mine), true))];
      var w' := Exec(w, device, acts, reply).0;
      && IsPlan(remote, Scan(w.disk), w.files, acts) && NoClash(device, acts) && Unsynced(w, p)
      && StatusAt(w, device, acts[0], reply).Done? && w'.pushed == [] && Nowhere(w'.disk, mine)
  {
    hide CopyOf, EffectOf, NoClash, IsPlan, SafePath, Scanned, Scan;
    var w, remote := EditedWorld(p, doc, synced, mine), MovedRemote(p, doc);
    var act := ConflictAction(p, remote[p], Local(Of(mine), true));
    EditedPlan(p, device, doc, synced, mine);
    UnreadConflict(ViewAt(w, device, p), act, reply(p), theirs);
    OneAction(w, device, act, reply);
    OneFileLeft(w, device, act, reply(p), mine);
  }

  lemma OneFileLeft(w: World, device: string, act: Action, r: Reply, mine: Bytes)
    requires w.disk.Keys == {act.path}
    requires var e := EffectOf(ViewAt(w, device, act.path), act, r); e.view.main != Some(mine) && e.view.copy != Some(mine)
    ensures Nowhere(Apply(w, device, act, r).0.disk, mine)
  {
    hide CopyOf, EffectOf;
    var disk := Apply(w, device, act, r).0.disk;
    forall q | q in disk
      ensures disk[q] != mine
    {
      assert Get(disk, q) == Some(disk[q]);
      assert q != act.path ==> Get(w.disk, q) == None;
    }
  }

  /** A hidden file: for every path below a ".git" directory, a document that the server puts there is
      downloaded over the local file, which is then nowhere, and the action reports success. */
  lemma HiddenFileLost(p: Path, device: string, doc: string, mine: Bytes, theirs: Bytes, reply: Path -> Reply)
    requires !Scanned(p) && SafePath(p) && theirs != mine && CopyOf(p, device) != Some(p)
    requires var r := reply(p); r.pathOk && r.fetch == Got(theirs) && r.write.Wrote?
    ensures var w, remote := World(map[p := mine], map[], []), MovedRemote(p, doc);
      var acts := [DecideAt(remote, Scan(w.disk), w.files, p)];
      var w' := Exec(w, device, acts, reply).0;
      && IsPlan(remote, Scan(w.disk), w.files, acts) && NoClash(device, acts) && Unsynced(w, p)
      && StatusAt(w, device, acts[0], reply).Done? && w'.pushed == [] && Nowhere(w'.disk, mine)
  {
    hide CopyOf, NoClash, IsPlan, SafePath, Scanned;
    var w, remote := World(map[p := mine], map[], []), MovedRemote(p, doc);
    assert Scan(w.disk) == map[];
    var act := DecideAt(remote, map[], map[], p);
    DownloadNew(p, remote[p], ViewAt(w, device, p), reply(p), theirs);
    hide EffectOf, Decide;
    OnePathPlan(p, device, remote, w, act);
    OneAction(w, device, act, reply);
    OneFileLeft(w, device, act, reply(p), mine);
  }

  lemma DownloadNew(p: Path, r: Remote, v: View, reply: Reply, theirs: Bytes)
    requires !r.deleted && SafePath(p) && !v.room.Same? && reply.pathOk && reply.fetch == Got(theirs) && reply.write.Wrote?
    ensures var act := Decide(p, Some(r), None, None);
      act.path == p && EffectOf(v, act, reply) == Effect(v.(main := Some(theirs), base := Recorded(act, theirs)), Done, None)
  {
    hide SafePath;
  }
}
