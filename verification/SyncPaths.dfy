/** Building mirror paths from server-controlled names, and refusing those that leave the mirror. */
module SyncPaths {
  import opened Basics

  // ---- names -----------------------------------------------------------------

  predicate IsSpace(c: char) {
    var n := c as int;
    (9 <= n <= 13) || n in {0x20, 0x85, 0xA0, 0x1680, 0x2028, 0x2029, 0x202F, 0x205F, 0x3000} || 0x2000 <= n <= 0x200A
  }

  function ReplaceAll(s: string, bad: char, sub: char): (r: string)
    ensures |r| == |s| && forall i :: 0 <= i < |s| ==> r[i] == if s[i] == bad then sub else s[i]
  {
    seq(|s|, i requires 0 <= i < |s| => if s[i] == bad then sub else s[i])
  }

  function TrimLeftSpace(s: string): (r: string)
    ensures forall c <- r :: c in s
    ensures r != "" ==> !IsSpace(r[0])
  {
    if s != "" && IsSpace(s[0]) then TrimLeftSpace(s[1..]) else s
  }

  function TrimRightSpace(s: string): (r: string)
    ensures r <= s
  {
    if s != "" && IsSpace(s[|s| - 1]) then TrimRightSpace(s[..|s| - 1]) else s
  }

  /** `strings.TrimRight(s, ". ")` */
  function TrimDots(s: string): (r: string)
    ensures r <= s
    ensures r != "" ==> r[|r| - 1] != '.' && r[|r| - 1] != ' '
    ensures forall i :: |r| <= i < |s| ==> s[i] == '.' || s[i] == ' '
  {
    if s != "" && (s[|s| - 1] == '.' || s[|s| - 1] == ' ') then TrimDots(s[..|s| - 1]) else s
  }

  predicate OnlyDots(s: string) { forall c <- s :: c == '.' }

  function Sanitize(name: string): string {
    var clean := Cleansed(name);
    var trimmed := TrimDots(TrimRightSpace(TrimLeftSpace(clean)));
    if OnlyDots(trimmed) then "_" else trimmed
  }

  /** A single, harmless path segment. */
  predicate Segment(s: string) {
    && s != "" && s != "." && s != ".."
    && '/' !in s && '\\' !in s && '\0' !in s
    && s[|s| - 1] != '.' && s[|s| - 1] != ' '
  }

  lemma SanitizeGivesSegment(name: string)
    ensures Segment(Sanitize(name))
  {
    var a := ReplaceAll(name, '/', '_');
    var b := ReplaceAll(a, '\\', '_');
    var clean := ReplaceAll(b, '\0', '_');
    assert forall c <- clean :: c != '/' && c != '\\' && c != '\0';
    var t := TrimDots(TrimRightSpace(TrimLeftSpace(clean)));
    assert forall c <- t :: c in TrimLeftSpace(clean) && c in clean;
    if !OnlyDots(t) {
      assert t != "" && t[|t| - 1] != '.';
    }
  }

  predicate Replaced(c: char, d: char) { if c == '/' || c == '\\' || c == '\0' then d == '_' else d == c }

  function Cleansed(name: string): (r: string)
    ensures |r| == |name| && forall k :: 0 <= k < |name| ==> Replaced(name[k], r[k])
  {
    ReplaceAll(ReplaceAll(ReplaceAll(name, '/', '_'), '\\', '_'), '\0', '_')
  }

  /** Nothing else happens to a name: the segment is part of the name with each forbidden character made
      "_", or "_" itself when only dots were left. */
  lemma SanitizeTakesPart(name: string) returns (i: nat)
    ensures Sanitize(name) == "_" || PartAt(name, Sanitize(name), i)
  {
    hide IsSpace, OnlyDots, Replaced, Cleansed;
    var clean := Cleansed(name);
    var left := TrimLeftSpace(clean);
    var trimmed := TrimDots(TrimRightSpace(left));
    i := TrimmedLeft(clean);
    PrefixTwice(trimmed, TrimRightSpace(left), left);
    forall k | 0 <= k < |trimmed|
      ensures Replaced(name[i + k], trimmed[k])
    {
      assert trimmed[k] == left[k] == clean[i + k];
    }
  }

  /** `part` is the name from position i on, forbidden characters replaced. */
  predicate PartAt(name: string, part: string, i: nat) {
    i + |part| <= |name| && forall k :: 0 <= k < |part| ==> Replaced(name[i + k], part[k])
  }

  lemma PrefixTwice(a: string, b: string, c: string)
    requires a <= b <= c
    ensures a <= c
  {
  }

  /** And a harmless name without outer space is kept. */
  lemma SanitizeKeeps(name: string)
    requires Segment(name) && !IsSpace(name[0]) && !IsSpace(name[|name| - 1])
    ensures Sanitize(name) == name
  {
    hide IsSpace;
    var clean := Cleansed(name);
    forall k | 0 <= k < |name|
      ensures clean[k] == name[k]
    {
      assert name[k] in name;
    }
    assert clean == name && TrimLeftSpace(name) == name && TrimRightSpace(name) == name && TrimDots(name) == name;
    assert name[|name| - 1] in name;
  }

  lemma {:induction false} TrimmedLeft(s: string) returns (i: nat)
    ensures i <= |s| && TrimLeftSpace(s) == s[i..]
  {
    if s != "" && IsSpace(s[0]) {
      i := TrimmedLeft(s[1..]);
      i := i + 1;
    } else {
      i := 0;
    }
  }

  // ---- directories: walking a folder graph that may be cyclic --------------------

  datatype Folders = Folders(name: map<string, string>, parent: map<string, string>)

  function NameOf(f: Folders, id: string): string { if id in f.name then f.name[id] else "" }

  function ParentOf(f: Folders, id: string): string { if id in f.parent then f.parent[id] else "" }

  function NextFolder(f: Folders, start: string, ids: seq<string>): string {
    if ids == [] then start else ParentOf(f, ids[|ids| - 1])
  }

  /** Named folders, each the parent of the one before, without a repeat. */
  ghost predicate Chain(f: Folders, start: string, ids: seq<string>) {
    && Distinct(ids)
    && (forall i :: 0 <= i < |ids| ==> ids[i] != "" && NameOf(f, ids[i]) != "")
    && (forall i :: 0 <= i < |ids| ==> ids[i] == NextFolder(f, start, ids[..i]))
  }

  /** The longest such chain: it ends at the top, at a repeat or at an unknown folder. */
  ghost predicate Ancestry(f: Folders, start: string, ids: seq<string>) {
    Chain(f, start, ids) &&
    var next := NextFolder(f, start, ids);
    next == "" || next in ids || NameOf(f, next) == ""
  }

  lemma ChainGrows(f: Folders, start: string, ids: seq<string>)
    requires Chain(f, start, ids)
    requires var id := NextFolder(f, start, ids); id != "" && id !in ids && NameOf(f, id) != ""
    ensures Chain(f, start, ids + [NextFolder(f, start, ids)])
  {
    var more := ids + [NextFolder(f, start, ids)];
    assert more[..|ids|] == ids && forall i :: 0 <= i < |ids| ==> more[..i] == ids[..i];
  }

  /** Terminates on every folder graph: each round takes a new named folder. */
  method RelDir(f: Folders, folder: string) returns (parts: seq<string>, ghost ids: seq<string>)
    ensures Ancestry(f, folder, ids) && |parts| == |ids|
    ensures forall i :: 0 <= i < |ids| ==> parts[|ids| - 1 - i] == Sanitize(NameOf(f, ids[i]))
  {
    hide Sanitize, Chain, NextFolder, Distinct;
    parts, ids := [], [];
    var id := folder;
    var seen: set<string> := {};
    EmptyChain(f, folder);
    while id != "" && id !in seen
      invariant Chain(f, folder, ids) && |parts| == |ids| && seen == (set x | x in ids)
      invariant id == NextFolder(f, folder, ids)
      invariant forall i :: 0 <= i < |ids| ==> parts[|ids| - 1 - i] == Sanitize(NameOf(f, ids[i]))
      decreases f.name.Keys - seen
    {
      var name := NameOf(f, id);
      if name == "" {
        break;
      }
      ChainGrows(f, folder, ids);
      NextAfter(f, folder, ids, id);
      assert id in f.name.Keys - seen;
      seen := seen + {id};
      ids := ids + [id];
      parts := [Sanitize(name)] + parts;
      id := ParentOf(f, id);
    }
  }

  lemma EmptyChain(f: Folders, start: string)
    ensures Chain(f, start, []) && NextFolder(f, start, []) == start
  {
  }

  lemma NextAfter(f: Folders, start: string, ids: seq<string>, id: string)
    ensures NextFolder(f, start, ids + [id]) == ParentOf(f, id)
  {
  }

  /** The mirror path of a document: its folder's directory, then its own name. */
  method DocRel(f: Folders, folder: string, name: string) returns (path: seq<string>)
    ensures |path| >= 1 && (forall s <- path :: Segment(s)) && Clean(path) == path
    ensures SafePath(path) <==> !Reserved(path[0])
  {
    var dir, ids := RelDir(f, folder);
    path := dir + [Sanitize(name)];
    forall i | 0 <= i < |path|
      ensures Segment(path[i])
    {
      if i < |dir| {
        SanitizeGivesSegment(NameOf(f, ids[|ids| - 1 - i]));
        assert path[i] == dir[|ids| - 1 - (|ids| - 1 - i)];
      } else {
        SanitizeGivesSegment(name);
      }
    }
    CleanSegments(path);
  }

  // ---- what the scan sees ---------------------------------------------------------------

  /** The scan does not descend into a directory named ".git", and passes over files whose path starts
      with the state file's name. */
  predicate Scanned(path: seq<string>)
    requires path != []
  {
    ".git" !in path[..|path| - 1] && !(STATE_FILE <= path[0])
  }

  // ---- safePath ---------------------------------------------------------------------

  const STATE_FILE := ".dms-sync-state.json"

  function LowerChar(c: char): char { if 'A' <= c <= 'Z' then c - 'A' + 'a' else c }

  /** The state file and anything that starts with its name, whatever the case. */
  predicate Reserved(first: string) {
    var t := TrimDots(first);
    |t| >= |STATE_FILE| && forall i :: 0 <= i < |STATE_FILE| ==> LowerChar(t[i]) == LowerChar(STATE_FILE[i])
  }

  /** Reserved are the names that, without trailing dots and spaces, start with the state file's name in
      any mix of cases. */
  lemma ReservedExact(first: string, core: string, tail: string)
    requires first == core + tail && (forall c <- tail :: c == '.' || c == ' ')
    requires core != "" ==> core[|core| - 1] != '.' && core[|core| - 1] != ' '
    ensures Reserved(first) <==>
      |core| >= 20 && forall i :: 0 <= i < 20 ==>
        core[i] == ".dms-sync-state.json"[i] || ('A' <= core[i] <= 'Z' && core[i] as int + 32 == ".dms-sync-state.json"[i] as int)
  {
    TrimsTail(core, tail);
  }

  lemma {:induction false} TrimsTail(core: string, tail: string)
    requires (forall c <- tail :: c == '.' || c == ' ') && (core != "" ==> core[|core| - 1] != '.' && core[|core| - 1] != ' ')
    ensures TrimDots(core + tail) == core
    decreases |tail|
  {
    if tail == "" {
      assert core + tail == core;
    } else {
      var n := |tail| - 1;
      assert tail[n] in tail && (core + tail)[|core + tail| - 1] == tail[n] && (core + tail)[..|core + tail| - 1] == core + tail[..n];
      assert forall c <- tail[..n] :: c in tail;
      TrimsTail(core, tail[..n]);
    }
  }

  predicate Skipped(s: string) { s == "" || s == "." }

  /** One segment of `filepath.Clean` on a relative path, against the segments kept so far. */
  function CleanStep(out: seq<string>, s: string): seq<string> {
    if Skipped(s) then out
    else if s == ".." && out != [] && out[|out| - 1] != ".." then out[..|out| - 1]
    else out + [s]
  }

  function Clean(rel: seq<string>): seq<string> {
    if rel == [] then [] else CleanStep(Clean(rel[..|rel| - 1]), rel[|rel| - 1])
  }

  /** `safePath` on the "/"-separated segments of a relative path: an empty path is one empty
      segment, an absolute one starts with an empty segment. */
  predicate SafePath(rel: seq<string>) {
    rel != [] && rel[0] != "" && var c := Clean(rel); c != [] && c[0] != ".." && !Reserved(c[0])
  }

  /** A name a directory entry can have. */
  predicate Proper(s: string) { !Skipped(s) && s != ".." && '/' !in s }

  lemma {:induction false} CleanSegments(path: seq<string>)
    requires forall s <- path :: !Skipped(s) && s != ".."
    ensures Clean(path) == path
  {
    if path != [] {
      var n := |path| - 1;
      assert path == path[..n] + [path[n]] && path[n] in path;
      CleanSegments(path[..n]);
    }
  }

  /** Cleaning only drops segments. */
  lemma {:induction false} CleanDrops(rel: seq<string>)
    ensures forall s <- Clean(rel) :: s in rel
  {
    if rel != [] {
      var n := |rel| - 1;
      CleanDrops(rel[..n]);
      assert rel[n] in rel && forall s <- rel[..n] :: s in rel;
    }
  }

  /** A part that never climbs leaves what is before it alone. */
  lemma {:induction false} CleanThrough(pre: seq<string>, m: seq<string>)
    requires (forall s <- pre :: !Skipped(s) && s != "..") && !Climbs(m)
    ensures Clean(pre + m) == pre + Clean(m)
    decreases |m|
  {
    if m == [] {
      assert pre + m == pre;
      CleanSegments(pre);
    } else {
      var n := |m| - 1;
      assert (pre + m)[..|pre + m| - 1] == pre + m[..n] && (pre + m)[|pre + m| - 1] == m[n];
      CleanThrough(pre, m[..n]);
      CleanShape(m[..n]);
      CleanShape(m);
      if m[n] == ".." {
        assert Clean(m[..n]) != [];
      }
      StepBelow(pre, Clean(m[..n]), m[n]);
    }
  }

  lemma StepBelow(pre: seq<string>, out: seq<string>, s: string)
    requires s == ".." ==> out != [] && out[|out| - 1] != ".."
    ensures CleanStep(pre + out, s) == pre + CleanStep(out, s)
  {
    if s == ".." {
      assert (pre + out)[..|pre + out| - 1] == pre + out[..|out| - 1];
    }
  }

  /** A part that climbs removes the segment before it, whatever it was. */
  lemma {:induction false} CleanForgets(pre: seq<string>, x: string, y: string, m: seq<string>)
    requires (forall s <- pre + [x, y] :: !Skipped(s) && s != "..") && Climbs(m)
    ensures Clean(pre + [x] + m) == Clean(pre + [y] + m)
    decreases |m|
  {
    hide Clean, CleanStep, Depth;
    var n := |m| - 1;
    CleanLast(pre + [x], m);
    CleanLast(pre + [y], m);
    if Climbs(m[..n]) {
      CleanForgets(pre, x, y, m[..n]);
    } else {
      assert x in pre + [x, y] && y in pre + [x, y] && forall s <- pre :: s in pre + [x, y];
      FirstClimb(m);
      CleanThrough(pre + [x], m[..n]);
      CleanThrough(pre + [y], m[..n]);
      assert pre + [x] + [] == pre + [x] && pre + [y] + [] == pre + [y];
      PopLast(pre, x);
      PopLast(pre, y);
    }
  }

  lemma CleanLast(pre: seq<string>, m: seq<string>)
    requires m != []
    ensures Clean(pre + m) == CleanStep(Clean(pre + m[..|m| - 1]), m[|m| - 1])
  {
    hide CleanStep;
    assert (pre + m)[..|pre + m| - 1] == pre + m[..|m| - 1];
  }

  /** The step that climbs comes after a part that cleans to nothing. */
  lemma FirstClimb(m: seq<string>)
    requires Climbs(m) && !Climbs(m[..|m| - 1])
    ensures Clean(m[..|m| - 1]) == [] && m[|m| - 1] == ".."
  {
    CleanShape(m[..|m| - 1]);
  }

  lemma PopLast(pre: seq<string>, x: string)
    requires x != ".."
    ensures CleanStep(pre + [x], "..") == pre
  {
    assert (pre + [x])[..|pre|] == pre;
  }

  /** A short part cannot climb out of a deep directory, nor reach its first segment. */
  lemma {:induction false} DeepStays(dir: seq<string>, m: seq<string>)
    requires (forall s <- dir :: !Skipped(s) && s != "..") && |m| < |dir|
    ensures !Climbs(dir + m) && |Clean(dir + m)| >= |dir| - |m| && Clean(dir + m)[0] == dir[0]
    decreases |m|
  {
    if m == [] {
      assert dir + m == dir;
      CleanSegments(dir);
    } else {
      var n := |m| - 1;
      assert (dir + m)[..|dir + m| - 1] == dir + m[..n] && (dir + m)[|dir + m| - 1] == m[n];
      DeepStays(dir, m[..n]);
      CleanShape(dir + m[..n]);
    }
    assert dir[0] in dir;
    CleanShape(dir + m);
  }

  /** How far below the root a raw path ends, counting names down and ".." up. */
  function Depth(rel: seq<string>): int {
    if rel == [] then 0
    else
      var s := rel[|rel| - 1];
      Depth(rel[..|rel| - 1]) + if Skipped(s) then 0 else if s == ".." then -1 else 1
  }

  /** Some prefix of the path is above the root. */
  predicate Climbs(rel: seq<string>) { rel != [] && (Climbs(rel[..|rel| - 1]) || Depth(rel) < 0) }

  /** A kept ".." in front is never removed; below it, names and ".." cancel. */
  lemma StepShape(out: seq<string>, s: string)
    ensures var next := CleanStep(out, s);
      && (out != [] && out[0] == ".." ==> next != [] && next[0] == "..")
      && ((forall x <- out :: !Skipped(x) && x != "..") ==>
            var d := |out| + if Skipped(s) then 0 else if s == ".." then -1 else 1;
            if d < 0 then next == [".."] else |next| == d && forall x <- next :: !Skipped(x) && x != "..")
  {
  }

  /** The normal form starts with ".." exactly when the path climbs out on the way; otherwise it
      has no ".." at all and as many segments as the path is deep. */
  lemma {:induction false} CleanShape(rel: seq<string>)
    ensures Climbs(rel) <==> Clean(rel) != [] && Clean(rel)[0] == ".."
    ensures !Climbs(rel) ==> |Clean(rel)| == Depth(rel) && forall s <- Clean(rel) :: !Skipped(s) && s != ".."
  {
    if rel != [] {
      hide CleanStep;
      CleanShape(rel[..|rel| - 1]);
      StepShape(Clean(rel[..|rel| - 1]), rel[|rel| - 1]);
    }
  }

  /** What safePath accepts: a relative path that never climbs above the mirror root, does not end
      at the root itself, and whose first real segment is not the state file. Its normal form has
      no "..", so it lies inside the mirror. */
  lemma SafePathExact(rel: seq<string>)
    requires rel != []
    ensures SafePath(rel) <==>
      rel[0] != "" && !Climbs(rel) && Depth(rel) > 0 && Clean(rel) != [] && !Reserved(Clean(rel)[0])
    ensures SafePath(rel) ==> ".." !in Clean(rel) && |Clean(rel)| == Depth(rel)
  {
    CleanShape(rel);
  }
}
