/** Two consequences of the cell-by-cell effect of a cycle: a clean cycle settles, and the random
    order of the actions does not matter. */
module SyncSettle {
  import opened Basics
  import opened SyncPaths
  import opened SyncEngine
  import opened SyncNames
  import opened SyncApply

  // ---- a sync settles ---------------------------------------------------------------

  predicate AllDone(w: World, device: string, acts: seq<Action>, reply: Path -> Reply) {
    forall i :: 0 <= i < |acts| ==> StatusAt(w, device, acts[i], reply).Done?
  }

  /** Against an empty delta, every path is at rest: nothing to do, or a new file to report. */
  ghost predicate Settled(w: World) {
    forall p: Path :: AtRest(Get(Scan(w.disk), p), Get(w.files, p), p)
  }

  predicate AtRest(l: Option<Local>, k: Option<Known>, p: Path) {
    Decide(p, None, l, k).kind.Noop? || Decide(p, None, l, k).kind.Create?
  }

  /** Both sides changed to the same content, as a server-sent hash shows: the engine does nothing
      and leaves the old baseline behind. */
  predicate Stuck(p: Path, r: Option<Remote>, v: View) {
    && Scanned(p) && v.base.Some? && v.main.Some? && r.Some?
    && v.base.value.sha != Of(v.main.value)
    && !r.value.deleted && RemoteMoved(r.value, v.base)
    && r.value.sha == Of(v.main.value)
  }

  /** A conflict that read only the part of the file that equals the server's bytes, and so took the
      whole file for synced. */
  predicate TakenForEqual(act: Action, v: View, reply: Reply) {
    act.kind.Conflict? && reply.fetch.Got? && ReadOf(v.main, reply.read) == Some(reply.fetch.bytes) != v.main
  }

  /** An upload whose second read failed, so that the baseline has no hash. */
  predicate PushedUnhashed(act: Action, reply: Reply) { act.kind.Upload? && reply.version.Created? && !reply.hashed }

  /** What keeps a path from settling although its action succeeded. */
  predicate LeftOpen(p: Path, r: Option<Remote>, v: View, reply: Reply) {
    var act := Decide(p, r, LocalOf(p, v.main), v.base);
    Stuck(p, r, v) || TakenForEqual(act, v, reply) || PushedUnhashed(act, reply)
  }

  predicate LeftOpenAt(w: World, device: string, remote: Remotes, reply: Path -> Reply, p: Path) {
    LeftOpen(p, Get(remote, p), ViewAt(w, device, p), reply(p))
  }

  lemma {:induction false} ReachesAll(w: World, device: string, acts: seq<Action>, reply: Path -> Reply)
    requires NoClash(device, acts)
    requires forall i :: 0 <= i < |acts| ==> !StatusAt(w, device, acts[i], reply).Offline?
    ensures Exec(w, device, acts, reply).1 == |acts|
    decreases |acts|
  {
    if acts != [] {
      hide EffectOf, ViewAt, CopyOf;
      NoClashTail(device, acts);
      var w1 := Apply(w, device, acts[0], reply(acts[0].path)).0;
      assert StatusAt(w, device, acts[0], reply) == Apply(w, device, acts[0], reply(acts[0].path)).1;
      forall i | 0 <= i < |acts[1..]|
        ensures !StatusAt(w1, device, acts[1..][i], reply).Offline?
      {
        assert acts[1..][i] == acts[i + 1] && CopiesApart(device, acts[0].path, acts[i + 1].path);
        ApartBothWays(device, acts[0].path, acts[i + 1].path);
        ApplyOtherCells(w, device, acts[0], reply(acts[0].path), acts[i + 1].path);
        assert !StatusAt(w, device, acts[i + 1], reply).Offline?;
      }
      ReachesAll(w1, device, acts[1..], reply);
    }
  }

  /** What the scan shows of a file. */
  function LocalOf(p: Path, main: Option<Bytes>): Option<Local> {
    if main.Some? && Scanned(p) then Some(Local(Of(main.value), true)) else None
  }

  /** One successful action leaves its path at rest, unless it is left open. */
  lemma ActionSettles(p: Path, r: Option<Remote>, v: View, reply: Reply)
    requires var act := Decide(p, r, LocalOf(p, v.main), v.base); EffectOf(v, act, reply).status.Done?
    ensures var e := EffectOf(v, Decide(p, r, LocalOf(p, v.main), v.base), reply);
      AtRest(LocalOf(p, e.view.main), e.view.base, p) <==> !LeftOpen(p, r, v, reply)
  {
    DecisionTable(p, r, LocalOf(p, v.main), v.base);
    var act := Decide(p, r, LocalOf(p, v.main), v.base);
    var e := EffectOf(v, act, reply);
    DecisionTable(p, None, LocalOf(p, e.view.main), e.view.base);
  }

  lemma ScanCell(w: World, p: Path)
    ensures Get(Scan(w.disk), p) == LocalOf(p, Get(w.disk, p))
  {
  }

  lemma PlannedPathSettles(w: World, device: string, remote: Remotes, acts: seq<Action>, reply: Path -> Reply, i: nat)
    requires IsPlan(remote, Scan(w.disk), w.files, acts) && NoClash(device, acts) && i < |acts|
    requires AllDone(w, device, acts, reply)
    ensures var w', p := Exec(w, device, acts, reply).0, acts[i].path;
      AtRest(LocalOf(p, Get(w'.disk, p)), Get(w'.files, p), p) <==> !LeftOpenAt(w, device, remote, reply, p)
  {
    hide EffectOf, CopyOf, Decide, Exec, AtRest, NoClash, Scan;
    var p := acts[i].path;
    assert StatusAt(w, device, acts[i], reply).Done?;
    ScanCell(w, p);
    ReachesAll(w, device, acts, reply);
    ExecView(w, device, acts, reply, i);
    ActionSettles(p, Get(remote, p), ViewAt(w, device, p), reply(p));
  }

  lemma PathSettles(w: World, device: string, remote: Remotes, acts: seq<Action>, reply: Path -> Reply, p: Path)
    requires IsPlan(remote, Scan(w.disk), w.files, acts) && NoClash(device, acts)
    requires AllDone(w, device, acts, reply)
    ensures var w' := Exec(w, device, acts, reply).0;
      AtRest(Get(Scan(w'.disk), p), Get(w'.files, p), p) <==> !LeftOpenAt(w, device, remote, reply, p)
  {
    hide Exec, AtRest, NoClash, AllDone;
    ScanCell(Exec(w, device, acts, reply).0, p);
    if p in PathsOf(acts) {
      var i :| 0 <= i < |acts| && acts[i].path == p;
      PlannedPathSettles(w, device, remote, acts, reply, i);
    } else {
      NewPathAtRest(w, device, remote, acts, reply, p);
    }
  }

  /** A path outside the plan can only be a new conflicted copy, which has no baseline. */
  lemma NewPathAtRest(w: World, device: string, remote: Remotes, acts: seq<Action>, reply: Path -> Reply, p: Path)
    requires IsPlan(remote, Scan(w.disk), w.files, acts) && NoClash(device, acts) && p !in PathsOf(acts)
    ensures var w' := Exec(w, device, acts, reply).0;
      Get(w'.files, p) == None && AtRest(LocalOf(p, Get(w'.disk, p)), Get(w'.files, p), p)
  {
    assert p !in w.files;
    NoNewBaseline(w, device, acts, reply, p);
    DecisionTable(p, None, LocalOf(p, Get(Exec(w, device, acts, reply).0.disk, p)), None);
  }

  lemma {:induction false} NoNewBaseline(w: World, device: string, acts: seq<Action>, reply: Path -> Reply, p: Path)
    requires p !in PathsOf(acts) && p !in w.files
    ensures p !in Exec(w, device, acts, reply).0.files
    decreases |acts|
  {
    hide EffectOf, CopyOf, ViewAt;
    if acts != [] {
      assert acts[0].path in PathsOf(acts);
      assert forall i :: 0 <= i < |acts[1..]| ==> acts[1..][i] == acts[i + 1];
      var (w1, status) := Apply(w, device, acts[0], reply(acts[0].path));
      assert Get(w1.files, p) == Get(w.files, p);
      if !status.Offline? {
        NoNewBaseline(w1, device, acts[1..], reply, p);
      }
    }
  }

  /** After a cycle in which every action succeeded, reconciling against an empty delta finds only
      no-ops and new files to report, if and only if no path was left open: none had changed on both
      sides to content that the server's hash showed to be the same, and no swallowed read error left
      a baseline that does not describe the file. */
  lemma SettlesIff(w: World, device: string, remote: Remotes, acts: seq<Action>, reply: Path -> Reply)
    requires IsPlan(remote, Scan(w.disk), w.files, acts) && NoClash(device, acts)
    requires AllDone(w, device, acts, reply)
    ensures Settled(Exec(w, device, acts, reply).0) <==> forall p: Path :: !LeftOpenAt(w, device, remote, reply, p)
  {
    hide Exec, AtRest, LeftOpenAt, IsPlan, NoClash, AllDone;
    var w' := Exec(w, device, acts, reply).0;
    forall p: Path
      ensures AtRest(Get(Scan(w'.disk), p), Get(w'.files, p), p) <==> !LeftOpenAt(w, device, remote, reply, p)
    {
      PathSettles(w, device, remote, acts, reply, p);
    }
  }

  /** In particular, with a delta feed that carries no content hash, a cycle whose reads succeeded
      too always settles. */
  lemma HashlessFeedSettles(w: World, device: string, remote: Remotes, acts: seq<Action>, reply: Path -> Reply)
    requires IsPlan(remote, Scan(w.disk), w.files, acts) && NoClash(device, acts)
    requires AllDone(w, device, acts, reply)
    requires forall p <- remote :: remote[p].sha == NoHash
    ensures (forall p: Path :: reply(p).read.Whole? && reply(p).hashed) ==> Settled(Exec(w, device, acts, reply).0)
    ensures (forall p: Path :: !TakenForEqual(DecideAt(remote, Scan(w.disk), w.files, p), ViewAt(w, device, p), reply(p))
               && !PushedUnhashed(DecideAt(remote, Scan(w.disk), w.files, p), reply(p)))
            <==> Settled(Exec(w, device, acts, reply).0)
  {
    hide Exec, IsPlan, NoClash, AllDone, Settled, Decide, CopyOf;
    SettlesIff(w, device, remote, acts, reply);
    forall p: Path
      ensures LeftOpenAt(w, device, remote, reply, p) <==>
        TakenForEqual(DecideAt(remote, Scan(w.disk), w.files, p), ViewAt(w, device, p), reply(p))
        || PushedUnhashed(DecideAt(remote, Scan(w.disk), w.files, p), reply(p))
    {
      ScanCell(w, p);
    }
  }

  // ---- the three ways not to settle are real ------------------------------------------------

  lemma OneOpenPath(w: World, device: string, remote: Remotes, reply: Path -> Reply, p: Path, act: Action)
    requires remote.Keys + Scan(w.disk).Keys + w.files.Keys == {p} && act == DecideAt(remote, Scan(w.disk), w.files, p)
    requires CopyOf(p, device) != Some(p) && StatusAt(w, device, act, reply).Done? && LeftOpenAt(w, device, remote, reply, p)
    ensures IsPlan(remote, Scan(w.disk), w.files, [act]) && NoClash(device, [act]) && AllDone(w, device, [act], reply)
    ensures !Settled(Exec(w, device, [act], reply).0)
  {
    hide CopyOf, Decide, Exec, Settled, IsPlan, NoClash, LeftOpenAt;
    OnePathPlan(p, device, remote, w, act);
    SettlesIff(w, device, remote, [act], reply);
  }

  lemma OneFileScan(p: Path, mine: Bytes)
    requires Scanned(p)
    ensures Scan(map[p := mine]) == map[p := Local(Of(mine), true)]
  {
    hide Scanned;
  }

  /** The same edit on both sides, shown by a hash the server sends: nothing is done. */
  lemma EqualHashUnsettled(p: Path, device: string, doc: string, synced: Bytes, mine: Bytes, reply: Path -> Reply)
    requires mine != synced && Scanned(p) && SafePath(p) && CopyOf(p, device) != Some(p)
    ensures var w, remote := EditedWorld(p, doc, synced, mine), map[p := Remote(doc, "v2", "", Of(mine), false)];
      var acts := [DecideAt(remote, Scan(w.disk), w.files, p)];
      && IsPlan(remote, Scan(w.disk), w.files, acts) && NoClash(device, acts) && AllDone(w, device, acts, reply)
      && !Settled(Exec(w, device, acts, reply).0)
  {
    hide CopyOf, Scanned, SafePath, Scan, Exec, IsPlan, NoClash;
    var w, remote := EditedWorld(p, doc, synced, mine), map[p := Remote(doc, "v2", "", Of(mine), false)];
    OneFileScan(p, mine);
    assert LeftOpenAt(w, device, remote, reply, p);
    OneOpenPath(w, device, remote, reply, p, DecideAt(remote, Scan(w.disk), w.files, p));
  }

  /** A conflict whose read broke off where the server's shorter file ends. */
  lemma CutReadUnsettled(p: Path, device: string, doc: string, synced: Bytes, mine: Bytes, theirs: Bytes, reply: Path -> Reply)
    requires mine != synced && theirs < mine
    requires Scanned(p) && SafePath(p) && CopyOf(p, device).Some? && CopyOf(p, device) != Some(p)
    requires reply(p).pathOk && reply(p).read == CutAfter(|theirs|) && reply(p).fetch == Got(theirs)
    ensures var w, remote := EditedWorld(p, doc, synced, mine), MovedRemote(p, doc);
      var acts := [DecideAt(remote, Scan(w.disk), w.files, p)];
      && IsPlan(remote, Scan(w.disk), w.files, acts) && NoClash(device, acts) && AllDone(w, device, acts, reply)
      && !Settled(Exec(w, device, acts, reply).0)
  {
    hide CopyOf, Scanned, SafePath, Scan, Exec, IsPlan, NoClash;
    var w, remote := EditedWorld(p, doc, synced, mine), MovedRemote(p, doc);
    OneFileScan(p, mine);
    BothMoved(p, remote[p], Local(Of(mine), true), w.files[p]);
    hide Decide;
    assert |theirs| < |mine| && mine[..|theirs|] == theirs;
    assert ReadOf(Some(mine), reply(p).read) == Some(theirs);
    assert LeftOpenAt(w, device, remote, reply, p);
    OneOpenPath(w, device, remote, reply, p, DecideAt(remote, Scan(w.disk), w.files, p));
  }

  /** An upload whose hash could not be computed. */
  lemma UnhashedUnsettled(p: Path, device: string, doc: string, synced: Bytes, mine: Bytes, reply: Path -> Reply)
    requires mine != synced && Scanned(p) && SafePath(p) && CopyOf(p, device) != Some(p)
    requires reply(p).pathOk && reply(p).read.Whole? && !reply(p).hashed && reply(p).blob.BlobOk? && reply(p).version.Created?
    ensures var w := EditedWorld(p, doc, synced, mine);
      var acts := [DecideAt(map[], Scan(w.disk), w.files, p)];
      && IsPlan(map[], Scan(w.disk), w.files, acts) && NoClash(device, acts) && AllDone(w, device, acts, reply)
      && !Settled(Exec(w, device, acts, reply).0)
  {
    hide CopyOf, Scanned, SafePath, Scan, Exec, IsPlan, NoClash;
    var w := EditedWorld(p, doc, synced, mine);
    OneFileScan(p, mine);
    assert LeftOpenAt(w, device, map[], reply, p);
    OneOpenPath(w, device, map[], reply, p, DecideAt(map[], Scan(w.disk), w.files, p));
  }

  /** After a pull or a resolved conflict the server side of the baseline is right too: the same
      delta entry, seen again, asks for nothing, unless a partial read was taken for the file. */
  lemma RepeatedDeltaQuiet(p: Path, r: Remote, v: View, reply: Reply)
    requires !r.deleted
    requires var act := Decide(p, Some(r), LocalOf(p, v.main), v.base);
      (act.kind.Download? || act.kind.Conflict?) && EffectOf(v, act, reply).status.Done?
    ensures var e := EffectOf(v, Decide(p, Some(r), LocalOf(p, v.main), v.base), reply);
      && e.view.base.Some?
      && (Decide(p, Some(r), LocalOf(p, e.view.main), e.view.base).kind.Noop? <==>
            !TakenForEqual(Decide(p, Some(r), LocalOf(p, v.main), v.base), v, reply))
  {
    var e := EffectOf(v, Decide(p, Some(r), LocalOf(p, v.main), v.base), reply);
    assert e.view.base.value.versionId == r.versionId && e.view.base.value.updatedAt == r.updatedAt;
  }

  // ---- the order of the actions does not matter ------------------------------------------

  /** What the server holds and how the network treats each path's requests. */
  datatype Doc = Doc(version: string, bytes: Bytes)
  type Server = map<string, Doc>

  /** A version call may also be carried out and then reported as failed. */
  datatype Line = Works | Fails | FailsAfter

  datatype Net = Net(pathOk: bool, read: Read, hashed: bool, fetchOk: bool, write: Write, copyWrite: Write, blobOk: bool,
                     version: Line, newVersion: string, removed: bool)

  /** The reply an action gets from the server as it stands: its current bytes, and a new version
      only on top of the current one (or with no base named). Nobody goes offline. */
  function ReplyFrom(s: Server, act: Action, n: Net): Reply {
    Reply(n.pathOk, n.read, n.hashed,
      if n.fetchOk && act.docId in s then Got(s[act.docId].bytes) else FetchFailed,
      n.write, n.copyWrite, if n.blobOk then BlobOk else BlobFailed,
      if n.version.Fails? || act.docId !in s then VersionFailed(false)
      else if act.baseVer != "" && s[act.docId].version != act.baseVer then
        (if n.version.Works? then VersionConflict else VersionFailed(false))
      else if n.version.Works? then Created(n.newVersion)
      else VersionFailed(true),
      n.removed)
  }

  function ServerAfter(s: Server, act: Action, e: Effect, n: Net): Server {
    if act.kind.Upload? && e.push.Some? then s[act.docId := Doc(n.newVersion, e.push.value)] else s
  }

  /** A cycle against a server that the cycle's own uploads change. */
  function ExecServer(w: World, s: Server, device: string, acts: seq<Action>, net: Path -> Net): World
    decreases |acts|
  {
    if acts == [] then w
    else
      var act := acts[0];
      var r := ReplyFrom(s, act, net(act.path));
      var e := EffectOf(ViewAt(w, device, act.path), act, r);
      ExecServer(Apply(w, device, act, r).0, ServerAfter(s, act, e, net(act.path)), device, acts[1..], net)
  }

  // ---- what an action against such a server achieves ------------------------------------------

  /** Nothing stands in the action's way on this device or on the line. */
  predicate Clear(n: Net) {
    n.pathOk && n.read.Whole? && n.hashed && n.fetchOk && n.write.Wrote? && n.copyWrite.Wrote? && n.blobOk && n.version.Works? && n.removed
  }

  /** An edited file goes to its own document: as a new version with the file's bytes if the server is
      still at the version the edit is based on, and otherwise not at all; the edit is then kept as a
      copy beside the server's bytes. */
  lemma UploadLands(v: View, s: Server, p: Path, k: Known, n: Net)
    requires SafePath(p) && Scanned(p) && v.room.Apart? && v.main.Some? && v.base == Some(k) && k.sha != Of(v.main.value)
    requires Clear(n) && k.docId in s && s[k.docId].bytes != v.main.value
    ensures var act := Decide(p, None, LocalOf(p, v.main), v.base);
      var e := EffectOf(v, act, ReplyFrom(s, act, n));
      var s' := ServerAfter(s, act, e, n);
      && e.status.Done? && s'.Keys == s.Keys && (forall d <- s :: d != k.docId ==> s'[d] == s[d])
      && (if k.versionId == "" || s[k.docId].version == k.versionId
          then s'[k.docId] == Doc(n.newVersion, v.main.value)
               && e.view == v.(base := Some(Known(k.docId, n.newVersion, "", Of(v.main.value))))
          else s' == s && e.view.copy == v.main && e.view.main == Some(s[k.docId].bytes))
  {
    hide SafePath, Scanned;
  }

  /** A file that only the server changed becomes the server's bytes, recorded with the delta's version. */
  lemma DownloadMirrors(v: View, s: Server, p: Path, r: Remote, n: Net)
    requires SafePath(p) && Scanned(p) && !v.room.Same? && !r.deleted && RemoteMoved(r, v.base)
    requires if v.main.Some? then v.base.Some? && v.base.value.sha == Of(v.main.value) else v.base.None?
    requires Clear(n) && r.docId in s
    ensures var act := Decide(p, Some(r), LocalOf(p, v.main), v.base);
      var e := EffectOf(v, act, ReplyFrom(s, act, n));
      && e.status.Done? && e.push == None && ServerAfter(s, act, e, n) == s
      && e.view == View(Some(s[r.docId].bytes), v.copy, Some(Known(r.docId, r.versionId, r.updatedAt, Of(s[r.docId].bytes))), v.room)
  {
    hide SafePath, Scanned;
  }

  /** A file that both sides changed ends as the server's bytes, recorded with the delta's version, with
      the local bytes beside them; equal bytes are only recorded. */
  lemma ConflictKeepsBoth(v: View, s: Server, p: Path, r: Remote, n: Net)
    requires SafePath(p) && Scanned(p) && v.room.Apart? && !r.deleted && r.sha == NoHash && RemoteMoved(r, v.base)
    requires v.main.Some? && (if v.base.Some? then v.base.value.sha != Of(v.main.value) else r.docId != "")
    requires Clear(n) && r.docId in s
    ensures var act := Decide(p, Some(r), LocalOf(p, v.main), v.base);
      var e := EffectOf(v, act, ReplyFrom(s, act, n));
      var theirs := s[r.docId].bytes;
      && e.status.Done? && e.push == None && ServerAfter(s, act, e, n) == s
      && e.view.main == Some(theirs) && e.view.copy == (if theirs == v.main.value then v.copy else v.main)
      && e.view.base == Some(Known(r.docId, r.versionId, r.updatedAt, Of(theirs)))
  {
    hide SafePath, Scanned;
  }

  /** A file that the server deleted and nobody edited here is gone, with its baseline; an edited one is
      not removed. */
  lemma DeleteMirrors(v: View, s: Server, p: Path, r: Remote, n: Net)
    requires SafePath(p) && Scanned(p) && !v.room.Same? && r.deleted && v.main.Some? && Clear(n)
    ensures var act := Decide(p, Some(r), LocalOf(p, v.main), v.base);
      var e := EffectOf(v, act, ReplyFrom(s, act, n));
      if v.base.Some? && v.base.value.sha == Of(v.main.value)
      then e == Effect(View(None, v.copy, None, v.room), Done, None)
      else v.room.Apart? ==> e.view.main == v.main || e.view.copy == v.main
  {
    hide SafePath, Scanned;
  }

  predicate UsesServer(act: Action) { act.kind.Download? || act.kind.Upload? || act.kind.Conflict? }

  /** No two paths share a document. */
  predicate OwnDocs(acts: seq<Action>) {
    forall i, j :: 0 <= i < j < |acts| && UsesServer(acts[i]) && UsesServer(acts[j]) ==> acts[i].docId != acts[j].docId
  }

  /** An action's effect depends on the server only through its own document. */
  lemma ReplyLocal(v: View, s: Server, s': Server, act: Action, n: Net)
    requires UsesServer(act) ==> Get(s, act.docId) == Get(s', act.docId)
    ensures EffectOf(v, act, ReplyFrom(s, act, n)) == EffectOf(v, act, ReplyFrom(s', act, n))
    ensures !EffectOf(v, act, ReplyFrom(s, act, n)).status.Offline?
  {
  }

  lemma {:induction false} ServerCellwise(w: World, s: Server, device: string, acts: seq<Action>, net: Path -> Net, i: nat)
    requires NoClash(device, acts) && OwnDocs(acts) && i < |acts|
    ensures ViewAt(ExecServer(w, s, device, acts, net), device, acts[i].path) ==
      EffectOf(ViewAt(w, device, acts[i].path), acts[i], ReplyFrom(s, acts[i], net(acts[i].path))).view
    decreases |acts|
  {
    hide EffectOf, ViewAt, CopyOf, Apply, ReplyFrom;
    var act, p := acts[0], acts[i].path;
    var r := ReplyFrom(s, act, net(act.path));
    var s1 := ServerAfter(s, act, EffectOf(ViewAt(w, device, act.path), act, r), net(act.path));
    var w1 := Apply(w, device, act, r).0;
    NoClashTail(device, acts);
    if i == 0 {
      ApplyOwnCells(w, device, act, r);
      ServerElsewhere(w1, s1, device, acts[1..], net, p);
    } else {
      assert CopiesApart(device, act.path, p);
      ApartBothWays(device, act.path, p);
      ApplyOtherCells(w, device, act, r, p);
      assert acts[1..][i - 1] == acts[i] && OwnDocs(acts[1..]);
      ServerCellwise(w1, s1, device, acts[1..], net, i - 1);
      ReplyLocal(ViewAt(w, device, p), s, s1, acts[i], net(p));
    }
  }

  lemma {:induction false} ServerElsewhere(w: World, s: Server, device: string, acts: seq<Action>, net: Path -> Net, q: Path)
    requires forall i :: 0 <= i < |acts| ==>
      acts[i].path != q && CopyOf(q, device) != Some(acts[i].path) && CopyOf(acts[i].path, device) != Some(q)
      && CopiesApart(device, q, acts[i].path)
    ensures ViewAt(ExecServer(w, s, device, acts, net), device, q) == ViewAt(w, device, q)
    decreases |acts|
  {
    hide EffectOf, ViewAt, CopyOf, Apply, ReplyFrom;
    if acts != [] {
      var act := acts[0];
      var r := ReplyFrom(s, act, net(act.path));
      ApplyOtherCells(w, device, act, r, q);
      var s1 := ServerAfter(s, act, EffectOf(ViewAt(w, device, act.path), act, r), net(act.path));
      ServerElsewhere(Apply(w, device, act, r).0, s1, device, acts[1..], net, q);
    }
  }

  lemma {:induction false} ServerUntouched(w: World, s: Server, device: string, acts: seq<Action>, net: Path -> Net, x: Path)
    requires forall i :: 0 <= i < |acts| ==> acts[i].path != x && CopyOf(acts[i].path, device) != Some(x)
    ensures var w' := ExecServer(w, s, device, acts, net);
      Get(w'.disk, x) == Get(w.disk, x) && Get(w'.files, x) == Get(w.files, x)
    decreases |acts|
  {
    hide EffectOf, ViewAt, CopyOf, Apply, ReplyFrom;
    if acts != [] {
      var act := acts[0];
      var r := ReplyFrom(s, act, net(act.path));
      ApplyUntouched(w, device, act, r, x);
      var s1 := ServerAfter(s, act, EffectOf(ViewAt(w, device, act.path), act, r), net(act.path));
      ServerUntouched(Apply(w, device, act, r).0, s1, device, acts[1..], net, x);
    }
  }

  /** The same actions, possibly in another order. */
  predicate SameActions(a: seq<Action>, b: seq<Action>) {
    && (forall i :: 0 <= i < |a| ==> a[i] in b)
    && (forall i :: 0 <= i < |b| ==> b[i] in a)
  }

  lemma SameCell(w: World, s: Server, device: string, a: seq<Action>, b: seq<Action>, net: Path -> Net, x: Path)
    requires NoClash(device, a) && NoClash(device, b) && OwnDocs(a) && OwnDocs(b) && SameActions(a, b)
    ensures var wa, wb := ExecServer(w, s, device, a, net), ExecServer(w, s, device, b, net);
      Get(wa.disk, x) == Get(wb.disk, x) && Get(wa.files, x) == Get(wb.files, x)
  {
    hide EffectOf, CopyOf, ExecServer, ReplyFrom, OwnDocs;
    if i :| 0 <= i < |a| && (a[i].path == x || CopyOf(a[i].path, device) == Some(x)) {
      var j :| 0 <= j < |b| && b[j] == a[i];
      ServerCellwise(w, s, device, a, net, i);
      ServerCellwise(w, s, device, b, net, j);
      if a[i].path != x {
        CopyHasNoBaseline(w, s, device, a, net, x);
        CopyHasNoBaseline(w, s, device, b, net, x);
      }
    } else {
      ServerUntouched(w, s, device, a, net, x);
      forall j | 0 <= j < |b|
        ensures b[j].path != x && CopyOf(b[j].path, device) != Some(x)
      {
        assert b[j] in a;
      }
      ServerUntouched(w, s, device, b, net, x);
    }
  }

  lemma {:induction false} CopyHasNoBaseline(w: World, s: Server, device: string, acts: seq<Action>, net: Path -> Net, x: Path)
    requires NoClash(device, acts) && exists i :: 0 <= i < |acts| && CopyOf(acts[i].path, device) == Some(x)
    ensures Get(ExecServer(w, s, device, acts, net).files, x) == Get(w.files, x)
  {
    assert forall j :: 0 <= j < |acts| ==> acts[j].path != x;
    FilesElsewhere(w, s, device, acts, net, x);
  }

  lemma {:induction false} FilesElsewhere(w: World, s: Server, device: string, acts: seq<Action>, net: Path -> Net, x: Path)
    requires forall j :: 0 <= j < |acts| ==> acts[j].path != x
    ensures Get(ExecServer(w, s, device, acts, net).files, x) == Get(w.files, x)
    decreases |acts|
  {
    hide EffectOf, ViewAt, CopyOf, ReplyFrom;
    if acts != [] {
      var act := acts[0];
      var r := ReplyFrom(s, act, net(act.path));
      var s1 := ServerAfter(s, act, EffectOf(ViewAt(w, device, act.path), act, r), net(act.path));
      FilesElsewhere(Apply(w, device, act, r).0, s1, device, acts[1..], net, x);
    }
  }

  lemma PlansSame(remote: Remotes, local: Locals, known: Baseline, a: seq<Action>, b: seq<Action>)
    requires IsPlan(remote, local, known, a) && IsPlan(remote, local, known, b)
    ensures forall i :: 0 <= i < |a| ==> a[i] in b
  {
    forall i | 0 <= i < |a|
      ensures a[i] in b
    {
      assert a[i].path in PathsOf(a) && a[i].path in PathsOf(b);
      var j :| 0 <= j < |b| && b[j].path == a[i].path;
      assert b[j] == a[i];
    }
  }

  /** Any two orders in which the reconciled actions may come out give the same files and the same
      baseline. */
  lemma OrderDoesNotMatter(w: World, s: Server, device: string, remote: Remotes, a: seq<Action>, b: seq<Action>, net: Path -> Net)
    requires IsPlan(remote, Scan(w.disk), w.files, a) && IsPlan(remote, Scan(w.disk), w.files, b)
    requires NoClash(device, a) && NoClash(device, b) && OwnDocs(a) && OwnDocs(b)
    ensures ExecServer(w, s, device, a, net).disk == ExecServer(w, s, device, b, net).disk
    ensures ExecServer(w, s, device, a, net).files == ExecServer(w, s, device, b, net).files
  {
    hide NoClash, OwnDocs, ExecServer;
    PlansSame(remote, Scan(w.disk), w.files, a, b);
    PlansSame(remote, Scan(w.disk), w.files, b, a);
    var wa, wb := ExecServer(w, s, device, a, net), ExecServer(w, s, device, b, net);
    forall x: Path
      ensures Get(wa.disk, x) == Get(wb.disk, x) && Get(wa.files, x) == Get(wb.files, x)
    {
      SameCell(w, s, device, a, b, net, x);
    }
    SameMap(wa.disk, wb.disk);
    SameMap(wa.files, wb.files);
  }
}
