/** The sync agent's three-way reconcile: remote delta, working copy and last-synced baseline. */
module SyncEngine {
  import opened Basics
  import SyncPaths

  type Bytes = string

  /** A content hash, taken to be collision-free: it is the bytes it was computed from. A server
      that sends no hash gives `NoHash`. */
  datatype Sha = NoHash | Of(bytes: Bytes)

  /** Mirror-relative path, as its segments. */
  type Path = p: seq<string> | |p| >= 1 && (forall s <- p :: SyncPaths.Proper(s)) witness ["a"]

  datatype Remote = Remote(docId: string, versionId: string, updatedAt: string, sha: Sha, deleted: bool)
  datatype Local = Local(sha: Sha, present: bool)
  datatype Known = Known(docId: string, versionId: string, updatedAt: string, sha: Sha)

  datatype Kind = Noop | Download | Upload | Create | DeleteLocal | Conflict

  datatype Action = Action(path: Path, kind: Kind, docId: string, baseVer: string, remoteVer: string,
                           remoteUpd: string, remoteSha: Sha, localSha: Sha)

  function Get<K, V>(m: map<K, V>, k: K): Option<V> { if k in m then Some(m[k]) else None }

  /** A different version, or, when neither side has one, a different timestamp. */
  predicate RemoteMoved(r: Remote, k: Option<Known>) {
    if k.None? then true
    else if r.versionId != "" || k.value.versionId != "" then r.versionId != k.value.versionId
    else r.updatedAt != k.value.updatedAt
  }

  predicate RemoteChanged(r: Option<Remote>, k: Option<Known>) {
    r.Some? && if r.value.deleted then k.Some? else RemoteMoved(r.value, k)
  }

  predicate Present(l: Option<Local>) { l.Some? && l.value.present }

  predicate LocalChanged(l: Option<Local>, k: Option<Known>) {
    if Present(l) then k.None? || l.value.sha != k.value.sha else k.Some?
  }

  function Plain(p: Path, kind: Kind): Action { Action(p, kind, "", "", "", "", NoHash, NoHash) }

  function ConflictAction(p: Path, r: Remote, l: Local): Action {
    Action(p, Conflict, r.docId, "", r.versionId, r.updatedAt, r.sha, l.sha)
  }

  function Decide(p: Path, r: Option<Remote>, l: Option<Local>, k: Option<Known>): (a: Action)
    ensures a.path == p
  {
    var remoteChanged, localChanged := RemoteChanged(r, k), LocalChanged(l, k);
    if r.Some? && r.value.deleted then
      if !Present(l) then Plain(p, Noop)
      else if !localChanged then Plain(p, DeleteLocal).(docId := r.value.docId)
      else ConflictAction(p, r.value, l.value)
    else if (r.None? || r.value.docId == "") && k.None? && Present(l) then
      Plain(p, Create).(localSha := l.value.sha)
    else if remoteChanged && localChanged && r.Some? && Present(l) && (r.value.sha == NoHash || r.value.sha != l.value.sha) then
      ConflictAction(p, r.value, l.value)
    else if r.Some? && remoteChanged && !localChanged then
      Plain(p, Download).(docId := r.value.docId, remoteVer := r.value.versionId, remoteUpd := r.value.updatedAt, remoteSha := r.value.sha)
    else if Present(l) && localChanged && !remoteChanged then
      Plain(p, Upload).(docId := if r.Some? then r.value.docId else if k.Some? then k.value.docId else "",
                        baseVer := if k.Some? then k.value.versionId else "", localSha := l.value.sha)
    else Plain(p, Noop)
  }

  type Remotes = map<Path, Remote>
  type Locals = map<Path, Local>
  type Baseline = map<Path, Known>

  function DecideAt(remote: Remotes, local: Locals, known: Baseline, p: Path): Action {
    Decide(p, Get(remote, p), Get(local, p), Get(known, p))
  }

  function PathsOf(acts: seq<Action>): set<Path> { set i | 0 <= i < |acts| :: acts[i].path }

  lemma PathsSnoc(acts: seq<Action>, a: Action)
    ensures PathsOf(acts + [a]) == PathsOf(acts) + {a.path}
  {
    var more := acts + [a];
    assert more[|acts|] == a && forall i :: 0 <= i < |acts| ==> more[i] == acts[i];
    forall p | p in PathsOf(acts) + {a.path}
      ensures p in PathsOf(more)
    {
      if p == a.path {
        assert more[|acts|].path == p;
      } else {
        var i :| 0 <= i < |acts| && acts[i].path == p;
        assert more[i].path == p;
      }
    }
  }

  lemma PathsHave(acts: seq<Action>)
    ensures forall i :: 0 <= i < |acts| ==> acts[i].path in PathsOf(acts)
  {
  }

  lemma PathsNone()
    ensures PathsOf([]) == {}
  {
  }

  /** One decision for every path of the three views, in any order. */
  ghost predicate IsPlan(remote: Remotes, local: Locals, known: Baseline, acts: seq<Action>) {
    && (forall i, j :: 0 <= i < j < |acts| ==> acts[i].path != acts[j].path)
    && (forall i :: 0 <= i < |acts| ==> acts[i] == DecideAt(remote, local, known, acts[i].path))
    && PathsOf(acts) == remote.Keys + local.Keys + known.Keys
  }

  /** The order of the actions is the map's iteration order, so it is left open. */
  method Reconcile(remote: Remotes, local: Locals, known: Baseline) returns (out: seq<Action>)
    ensures IsPlan(remote, local, known, out)
  {
    hide Decide, SyncPaths.Proper, PathsOf;
    var paths := remote.Keys + local.Keys + known.Keys;
    var todo := paths;
    out := [];
    PathsNone();
    while todo != {}
      invariant todo <= paths
      invariant forall i, j :: 0 <= i < j < |out| ==> out[i].path != out[j].path
      invariant PathsOf(out) == paths - todo
      invariant forall i :: 0 <= i < |out| ==> out[i] == DecideAt(remote, local, known, out[i].path)
      decreases todo
    {
      var p :| p in todo;
      var act := DecideAt(remote, local, known, p);
      PathsSnoc(out, act);
      PathsHave(out);
      out := out + [act];
      todo := todo - {p};
    }
  }

  /** The documented table, over all views: which change on which side leads to which action. */
  lemma DecisionTable(p: Path, r: Option<Remote>, l: Option<Local>, k: Option<Known>)
    ensures var kind, rc, lc := Decide(p, r, l, k).kind, RemoteChanged(r, k), LocalChanged(l, k);
      var gone := r.Some? && r.value.deleted;
      var unknown := k.None? && (r.None? || (!gone && r.value.docId == ""));
      && (kind.Download? <==> rc && !lc && !gone)
      && (kind.Upload? <==> Present(l) && lc && !rc && !gone && k.Some?)
      && (kind.DeleteLocal? <==> gone && Present(l) && !lc)
      && (kind.Create? <==> Present(l) && unknown)
      && (kind.Conflict? <==>
            Present(l) && lc && !unknown && (gone || (rc && (r.value.sha == NoHash || r.value.sha != l.value.sha))))
      && (Present(l) && lc && kind.Noop? ==> rc && r.value.sha == l.value.sha)
  {
  }

  /** The server has moved on when it names another version than the one last synced, or, when neither
      side names one, another time; a path never synced counts as moved. */
  lemma MovedExact(r: Remote, k: Known)
    ensures RemoteMoved(r, None)
    ensures RemoteMoved(r, Some(k)) <==> r.versionId != k.versionId || (r.versionId == "" && r.updatedAt != k.updatedAt)
  {
  }

  /** What an action carries: the document and version it acts on come from the delta entry, or, when
      there is none, from the baseline; an upload names the version the edit is based on. */
  lemma PlanCarries(remote: Remotes, local: Locals, known: Baseline, acts: seq<Action>, i: nat)
    requires IsPlan(remote, local, known, acts) && i < |acts|
    ensures var act, p := acts[i], acts[i].path;
      && (act.kind.Upload? ==>
            && p in local && p in known && act.localSha == local[p].sha && act.baseVer == known[p].versionId
            && act.docId == if p in remote then remote[p].docId else known[p].docId)
      && (act.kind.Download? || act.kind.Conflict? ==>
            && p in remote && act.docId == remote[p].docId && act.remoteVer == remote[p].versionId
            && act.remoteUpd == remote[p].updatedAt && act.remoteSha == remote[p].sha)
      && (act.kind.Conflict? || act.kind.Create? ==> p in local && act.localSha == local[p].sha)
      && (act.kind.DeleteLocal? ==> p in remote && act.docId == remote[p].docId)
  {
    DecisionTable(acts[i].path, Get(remote, acts[i].path), Get(local, acts[i].path), Get(known, acts[i].path));
  }
}
