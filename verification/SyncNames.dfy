/** Conflicted-copy names, and when two files can share one. */
module SyncNames {
  import opened Basics
  import Text
  import opened SyncPaths
  import opened SyncEngine

  function Dots(s: string): nat {
    if s == "" then 0 else (if s[0] == '.' then 1 else 0) + Dots(s[1..])
  }

  /** `filepath.Ext`: from the last dot on, or nothing. */
  function Ext(s: string): (e: string)
    ensures |e| <= |s| && s[|s| - |e|..] == e
    ensures e != "" ==> e[0] == '.' && '.' !in e[1..]
    ensures e == "" <==> '.' !in s
  {
    if s == "" then ""
    else if s[|s| - 1] == '.' then "."
    else
      var e := Ext(s[..|s| - 1]);
      assert s == s[..|s| - 1] + [s[|s| - 1]];
      if e == "" then "" else e + [s[|s| - 1]]
  }

  function Stem(s: string): string { s[..|s| - |Ext(s)|] }

  function Marker(device: string): string { " (conflicted copy - " + device + ")" }

  function ConflictedBase(base: string, device: string): string { Stem(base) + Marker(device) + Ext(base) }

  /** `conflictedName`: the marker goes before the extension of the last segment. A device name with
      separators makes further segments, which the join or safePath cleans away. */
  function CopySegments(p: Path, device: string): seq<string> {
    p[..|p| - 1] + Text.Split(ConflictedBase(p[|p| - 1], device), '/')
  }

  /** Where the conflicted copy goes; None when safePath refuses its name. */
  function CopyOf(p: Path, device: string): (c: Option<Path>) {
    var segs := CopySegments(p, device);
    if SafePath(segs) then
      CopyIsPath(p, device);
      Some(Clean(segs))
    else None
  }

  lemma CopyIsPath(p: Path, device: string)
    requires SafePath(CopySegments(p, device))
    ensures var c := Clean(CopySegments(p, device)); |c| >= 1 && forall s <- c :: Proper(s)
  {
    hide Clean, ConflictedBase, Climbs, Depth;
    var segs := CopySegments(p, device);
    CleanShape(segs);
    CleanDrops(segs);
    assert forall s <- segs :: '/' !in s;
  }

  lemma {:induction false} DotsConcat(a: string, b: string)
    ensures Dots(a + b) == Dots(a) + Dots(b)
  {
    if a == "" {
      assert a + b == b;
    } else {
      assert (a + b)[1..] == a[1..] + b;
      DotsConcat(a[1..], b);
    }
  }

  lemma {:induction false} NoDots(s: string)
    ensures Dots(s) == 0 <==> '.' !in s
  {
    if s != "" {
      NoDots(s[1..]);
    }
  }

  lemma DotsHead(s: string)
    requires s != ""
    ensures Dots(s) == (if s[0] == '.' then 1 else 0) + Dots(s[1..])
  {
  }

  lemma DotsOfCopy(base: string, device: string)
    ensures Dots(ConflictedBase(base, device)) == Dots(Stem(base)) + Dots(Marker(device)) + Dots(Ext(base))
    ensures Dots(Ext(base)) == (if Ext(base) == "" then 0 else 1)
    ensures Ext(base) == "" ==> Dots(Stem(base)) == 0
  {
    hide Ext, Marker, Dots;
    DotsConcat(Stem(base) + Marker(device), Ext(base));
    DotsConcat(Stem(base), Marker(device));
    NoDots(Ext(base));
    if Ext(base) != "" {
      NoDots(Ext(base)[1..]);
      DotsHead(Ext(base));
    } else {
      assert Stem(base) == base;
      NoDots(base);
    }
  }

  /** Copies of names with extensions of different lengths differ: either the longer extension
      would contain a second dot, or the copies would contain different numbers of dots. */
  lemma LongerExtension(a: string, b: string, device: string)
    requires |Ext(a)| < |Ext(b)|
    ensures ConflictedBase(a, device) != ConflictedBase(b, device)
  {
    hide Marker, Dots, Ext, Stem;
    if Ext(a) != "" {
      SecondDot(Stem(a) + Marker(device), Ext(a), Stem(b) + Marker(device), Ext(b));
    } else {
      DotsOfCopy(a, device);
      DotsOfCopy(b, device);
    }
  }

  lemma SecondDot(x: string, ea: string, y: string, eb: string)
    requires 0 < |ea| < |eb| && ea[0] == '.' && '.' !in eb[1..]
    ensures x + ea != y + eb
  {
    if |x + ea| == |y + eb| {
      var i, k := |x|, |eb| - |ea|;
      assert (x + ea)[i] == '.';
      assert (y + eb)[i] == eb[k] && eb[k] == eb[1..][k - 1];
    }
  }

  lemma SameCut(x: string, y: string, x': string, y': string, m: string)
    requires x + m + y == x' + m + y' && |x| == |x'|
    ensures x + y == x' + y'
  {
    var t := x + m + y;
    assert x == t[..|x|] == x' && y == t[|x| + |m|..] == y';
  }

  lemma ConflictedBaseInjective(a: string, b: string, device: string)
    requires ConflictedBase(a, device) == ConflictedBase(b, device)
    ensures a == b
  {
    hide Ext, Marker;
    if |Ext(a)| < |Ext(b)| {
      LongerExtension(a, b, device);
    } else if |Ext(b)| < |Ext(a)| {
      LongerExtension(b, a, device);
    }
    assert |a| == |ConflictedBase(a, device)| - |Marker(device)| == |b|;
    SameCut(Stem(a), Ext(a), Stem(b), Ext(b), Marker(device));
    assert a == Stem(a) + Ext(a) && b == Stem(b) + Ext(b);
  }

  // ---- device names ---------------------------------------------------------------------

  const OPEN := " (conflicted copy - "

  /** The device name's own segments: the first joins the stem, the last the extension. */
  function Middle(device: string): seq<string> {
    var ds := Text.Split(device, '/');
    if |ds| <= 2 then [] else ds[1..|ds| - 1]
  }

  /** The segments in between never climb above the one that carries the stem. */
  predicate Tame(device: string) { !Climbs(Middle(device)) }

  /** The copy's first and last segment, when the device name has separators. */
  function First(base: string, device: string): string { Stem(base) + OPEN + Text.Split(device, '/')[0] }

  function Last(base: string, device: string): string {
    var ds := Text.Split(device, '/');
    ds[|ds| - 1] + (")" + Ext(base))
  }

  predicate Slashed(device: string) { |Text.Split(device, '/')| > 1 }

  lemma NoSlash(base: string)
    requires Proper(base)
    ensures '/' !in Stem(base) && '/' !in Ext(base) && base == Stem(base) + Ext(base)
  {
    hide Ext;
    assert forall c <- Stem(base) :: c in base;
    assert forall c <- Ext(base) :: c in base[|base| - |Ext(base)|..] && c in base;
  }

  /** The copy's name, split at the separators of the device name. */
  lemma CopySplit(base: string, device: string)
    requires Proper(base)
    ensures Text.Split(ConflictedBase(base, device), '/') ==
      if Slashed(device) then [First(base, device)] + Middle(device) + [Last(base, device)]
      else [ConflictedBase(base, device)]
  {
    hide Ext, Stem;
    NoSlash(base);
    var ds, front, back := Text.Split(device, '/'), Stem(base) + OPEN, ")" + Ext(base);
    assert ConflictedBase(base, device) == front + (device + back);
    assert '/' !in front && '/' !in back;
    Text.SplitAppend(device, back, '/');
    Text.SplitPrepend(front, device + back, '/');
    if |ds| == 1 {
      assert Text.Split(device + back, '/') == [ds[0] + back];
      SingleToken(device);
      assert device == ds[0];
    }
  }

  lemma {:induction false} SingleToken(s: string)
    requires |Text.Split(s, '/')| == 1
    ensures Text.Split(s, '/') == [s]
  {
    if s != "" {
      SingleToken(s[1..]);
      assert [s[0]] + s[1..] == s;
    }
  }

  predicate Ordinary(s: string) { !Skipped(s) && s != ".." }

  predicate AllOrdinary(ss: seq<string>) { forall s <- ss :: Ordinary(s) }

  lemma OuterSegments(base: string, device: string)
    ensures Ordinary(ConflictedBase(base, device)) && Ordinary(First(base, device)) && Ordinary(Last(base, device))
  {
    hide Ext, Stem;
    var ds := Text.Split(device, '/');
    assert ConflictedBase(base, device)[|Stem(base)|] == ' ';
    assert First(base, device)[|Stem(base)|] == ' ';
    assert Last(base, device)[|ds[|ds| - 1]|] == ')';
  }

  lemma PathOrdinary(p: Path)
    ensures AllOrdinary(p[..|p| - 1]) && Proper(p[|p| - 1])
  {
  }

  lemma OneMoreDown(m: seq<string>, s: string)
    requires !Climbs(m) && Ordinary(s)
    ensures !Climbs(m + [s]) && Clean(m + [s]) == Clean(m) + [s]
  {
    assert (m + [s])[..|m|] == m;
    CleanShape(m);
  }

  lemma CleanOne(dir: seq<string>, s: string)
    requires AllOrdinary(dir) && Ordinary(s)
    ensures Clean(dir + [s]) == dir + [s]
  {
    CleanSegments(dir + [s]);
  }

  lemma CleanAround(dir: seq<string>, x: string, mid: seq<string>, last: string)
    requires AllOrdinary(dir) && Ordinary(x) && Ordinary(last) && !Climbs(mid)
    ensures Clean(dir + ([x] + mid + [last])) == dir + [x] + Clean(mid) + [last]
  {
    hide Clean, Climbs, Ordinary;
    OneMoreDown(mid, last);
    assert dir + ([x] + mid + [last]) == (dir + [x]) + (mid + [last]);
    Ordinaries(dir, x);
    CleanThrough(dir + [x], mid + [last]);
    assert (dir + [x]) + (Clean(mid) + [last]) == dir + [x] + Clean(mid) + [last];
  }

  lemma Ordinaries(dir: seq<string>, x: string)
    requires AllOrdinary(dir) && Ordinary(x)
    ensures forall s <- dir + [x] :: !Skipped(s) && s != ".."
  {
  }

  /** For a tame device the copy keeps the directory, the stem and the extension. */
  lemma TameCopy(p: Path, device: string)
    requires Tame(device)
    ensures var dir, base := p[..|p| - 1], p[|p| - 1];
      Clean(CopySegments(p, device)) ==
        if Slashed(device) then dir + [First(base, device)] + Clean(Middle(device)) + [Last(base, device)]
        else dir + [ConflictedBase(base, device)]
  {
    hide ConflictedBase, First, Last, Middle, Slashed, Clean, Climbs, Ordinary, AllOrdinary, Text.Split, Proper;
    var dir, base := p[..|p| - 1], p[|p| - 1];
    PathOrdinary(p);
    CopySplit(base, device);
    OuterSegments(base, device);
    if Slashed(device) {
      CleanAround(dir, First(base, device), Middle(device), Last(base, device));
    } else {
      CleanOne(dir, ConflictedBase(base, device));
    }
  }

  lemma SameParts(dp: seq<string>, dq: seq<string>, x: string, y: string, mid: seq<string>, l: string, m: string)
    requires dp + [x] + mid + [l] == dq + [y] + mid + [m]
    ensures dp == dq && x == y && l == m
  {
    var c := dp + [x] + mid + [l];
    assert |dp| == |c| - 2 - |mid| == |dq|;
    assert dp == c[..|dp|] && dq == (dq + [y] + mid + [m])[..|dq|];
    assert c[|dp|] == x && c[|c| - 1] == l;
    assert (dq + [y] + mid + [m])[|dq|] == y && (dq + [y] + mid + [m])[|c| - 1] == m;
  }

  lemma SameEnds(s: string, s': string, m: string, n: string, e: string, e': string)
    requires s + m == s' + m && n + e == n + e'
    ensures s == s' && e == e'
  {
    assert |s| == |s + m| - |m| == |s'|;
    assert s == (s + m)[..|s|] && s' == (s' + m)[..|s|];
    assert e == (n + e)[|n|..] && e' == (n + e')[|n|..];
  }

  lemma SameOuter(a: string, b: string, device: string)
    requires Proper(a) && Proper(b) && First(a, device) == First(b, device) && Last(a, device) == Last(b, device)
    ensures a == b
  {
    hide Ext, Stem, Text.Split;
    var ds := Text.Split(device, '/');
    var open, close := OPEN + ds[0], ds[|ds| - 1] + ")";
    assert First(a, device) == Stem(a) + open && First(b, device) == Stem(b) + open;
    assert Last(a, device) == close + Ext(a) && Last(b, device) == close + Ext(b);
    SameEnds(Stem(a), Stem(b), open, close, Ext(a), Ext(b));
    NoSlash(a);
    NoSlash(b);
  }

  /** Two paths with the same conflicted copy are the same path, if the device name is tame. */
  lemma TameInjective(p: Path, q: Path, device: string)
    requires Tame(device) && CopyOf(p, device).Some? && CopyOf(p, device) == CopyOf(q, device)
    ensures p == q
  {
    hide ConflictedBase, First, Last, Clean, CopySegments, SafePath, Tame, Middle, Slashed, Proper, AllOrdinary;
    TameCopy(p, device);
    TameCopy(q, device);
    PathOrdinary(p);
    PathOrdinary(q);
    var a, b, dp, dq := p[|p| - 1], q[|q| - 1], p[..|p| - 1], q[..|q| - 1];
    if Slashed(device) {
      SameParts(dp, dq, First(a, device), First(b, device), Clean(Middle(device)), Last(a, device), Last(b, device));
      SameOuter(a, b, device);
    } else {
      SameSnoc(dp, dq, ConflictedBase(a, device), ConflictedBase(b, device));
      ConflictedBaseInjective(a, b, device);
    }
    assert p == dp + [a] && q == dq + [b];
  }

  lemma SameSnoc(dp: seq<string>, dq: seq<string>, x: string, y: string)
    requires dp + [x] == dq + [y]
    ensures dp == dq && x == y
  {
    assert dp == (dp + [x])[..|dp|] && dq == (dq + [y])[..|dq|];
    assert (dp + [x])[|dp|] == x && (dq + [y])[|dq|] == y;
  }

  /** What the copy is called: the marker with the device name between stem and extension, where the
      extension starts at the last dot. */
  lemma CopyNamed(dir: seq<string>, stem: string, ext: string, device: string, p: Path)
    requires p == dir + [stem + ext] && '/' !in device && CopyOf(p, device).Some?
    requires if ext == "" then '.' !in stem else ext[0] == '.' && '.' !in ext[1..]
    ensures CopyOf(p, device) == Some(dir + [stem + " (conflicted copy - " + device + ")" + ext])
  {
    hide Ext, Stem, Clean, CopySegments, SafePath, Text.Split, Proper, ConflictedBase, Tame, Slashed, Middle;
    assert p[..|p| - 1] == dir && p[|p| - 1] == stem + ext;
    PlainDevice(device);
    TameCopy(p, device);
    BaseNamed(stem, ext, device);
  }

  lemma PlainDevice(device: string)
    requires '/' !in device
    ensures Tame(device) && !Slashed(device)
  {
    Text.SplitToken(device, '/');
  }

  lemma BaseNamed(stem: string, ext: string, device: string)
    requires if ext == "" then '.' !in stem else ext[0] == '.' && '.' !in ext[1..]
    ensures ConflictedBase(stem + ext, device) == stem + " (conflicted copy - " + device + ")" + ext
  {
    hide Ext;
    ExtIs(stem, ext);
    assert Stem(stem + ext) == stem;
    assert stem + (" (conflicted copy - " + device + ")") + ext == stem + " (conflicted copy - " + device + ")" + ext;
  }

  lemma ExtIs(stem: string, ext: string)
    requires if ext == "" then '.' !in stem else ext[0] == '.' && '.' !in ext[1..]
    ensures Ext(stem + ext) == ext
  {
    hide Ext;
    var s, e := stem + ext, Ext(stem + ext);
    var x := s[..|s| - |e|];
    assert s == x + e;
    if ext == "" {
      assert s == stem;
    } else {
      assert s[|stem|] == '.' && '.' in s;
      if |e| < |ext| {
        SecondDot(x, e, stem, ext);
      } else if |ext| < |e| {
        SecondDot(stem, ext, x, e);
      }
      assert |e| == |ext| ==> x == stem && e == s[|stem|..] == ext;
    }
  }

  /** For any other device name the stem is cleaned away: all files of a directory with the same
      extension share one copy. */
  lemma WildShares(p: Path, q: Path, device: string)
    requires !Tame(device) && p[..|p| - 1] == q[..|q| - 1] && Ext(p[|p| - 1]) == Ext(q[|q| - 1])
    ensures CopyOf(p, device) == CopyOf(q, device)
  {
    hide ConflictedBase, First, Last, Clean, Proper, AllOrdinary, Ordinary, Reserved, Ext, Climbs;
    var dir, a, b, mid := p[..|p| - 1], p[|p| - 1], q[|q| - 1], Middle(device);
    PathOrdinary(p);
    PathOrdinary(q);
    WildIsSlashed(device);
    CopySplit(a, device);
    CopySplit(b, device);
    OuterSegments(a, device);
    OuterSegments(b, device);
    assert Last(a, device) == Last(b, device) by { LastByExt(a, b, device); }
    WildClean(dir, First(a, device), First(b, device), mid, Last(a, device));
    FirstNotEmpty(First(a, device));
    FirstNotEmpty(First(b, device));
  }

  lemma FirstNotEmpty(s: string)
    requires Ordinary(s)
    ensures s != ""
  {
  }

  lemma LastByExt(a: string, b: string, device: string)
    requires Ext(a) == Ext(b)
    ensures Last(a, device) == Last(b, device)
  {
    hide Ext;
  }

  lemma WildIsSlashed(device: string)
    requires !Tame(device)
    ensures Slashed(device) && Climbs(Middle(device)) && Middle(device) != []
  {
  }

  lemma WildClean(dir: seq<string>, x: string, y: string, mid: seq<string>, last: string)
    requires AllOrdinary(dir) && Ordinary(x) && Ordinary(y) && Climbs(mid)
    ensures Clean(dir + ([x] + mid + [last])) == Clean(dir + ([y] + mid + [last]))
  {
    hide Clean, Depth;
    assert (mid + [last])[..|mid|] == mid;
    assert dir + ([x] + mid + [last]) == dir + [x] + (mid + [last]);
    assert dir + ([y] + mid + [last]) == dir + [y] + (mid + [last]);
    CleanForgets(dir, x, y, mid + [last]);
  }

  function Deep(n: nat): (dir: seq<string>)
    ensures |dir| == n && forall s <- dir :: s == "d"
  {
    seq(n, _ => "d")
  }

  lemma InDeep(n: nat, base: string)
    requires Proper(base)
    ensures forall s <- Deep(n) + [base] :: Proper(s)
  {
  }

  function DeepPath(n: nat, base: string): (p: Path)
    requires Proper(base)
    ensures p[..|p| - 1] == Deep(n) && p[|p| - 1] == base
  {
    InDeep(n, base);
    Deep(n) + [base]
  }

  /** In a deep directory even a wild copy has a place. */
  lemma DeepCopy(base: string, device: string, n: nat)
    requires Proper(base) && n > |Text.Split(ConflictedBase(base, device), '/')|
    ensures CopyOf(DeepPath(n, base), device).Some?
  {
    hide ConflictedBase, Clean, Climbs, Proper, DeepPath, Text.Split, Deep;
    var dir, segs := Deep(n), Text.Split(ConflictedBase(base, device), '/');
    assert dir[0] in dir;
    DeepStays(dir, segs);
    assert !Reserved("d");
    SafeFrom(dir, segs);
  }

  lemma SafeFrom(dir: seq<string>, m: seq<string>)
    requires dir != [] && dir[0] == "d" && !Climbs(dir + m) && Clean(dir + m) != [] && Clean(dir + m)[0] == "d"
    ensures SafePath(dir + m)
  {
    hide Clean, Climbs;
    assert !Reserved("d");
  }

  /** Copies tell their originals apart if and only if the device name is tame. */
  lemma CopyInjectiveIff(device: string)
    ensures Tame(device) <==> forall p: Path, q: Path :: CopyOf(p, device).Some? && CopyOf(p, device) == CopyOf(q, device) ==> p == q
  {
    hide Tame, CopyOf, ConflictedBase, Ext, DeepPath, Text.Split;
    if Tame(device) {
      forall p: Path, q: Path | CopyOf(p, device).Some? && CopyOf(p, device) == CopyOf(q, device)
        ensures p == q
      {
        TameInjective(p, q, device);
      }
    } else {
      var n := |Text.Split(ConflictedBase("a", device), '/')| + 1;
      var p, q := DeepPath(n, "a"), DeepPath(n, "b");
      DeepCopy("a", device, n);
      assert Ext("a") == Ext("b");
      WildShares(p, q, device);
      assert p[|p| - 1] != q[|q| - 1];
    }
  }

  /** A tame copy never lands on the file it copies. */
  lemma TameCopyApart(p: Path, device: string)
    requires Tame(device)
    ensures CopyOf(p, device) != Some(p)
  {
    hide First, Last, ConflictedBase, Clean, CopySegments, SafePath, Tame, Middle, Slashed;
    TameCopy(p, device);
    var base := p[|p| - 1];
    LongerBase(base, device);
    if !Slashed(device) {
      assert (p[..|p| - 1] + [ConflictedBase(base, device)])[|p| - 1] == ConflictedBase(base, device);
    }
  }

  lemma LongerBase(base: string, device: string)
    ensures ConflictedBase(base, device) != base
  {
    hide Ext;
    assert |ConflictedBase(base, device)| == |base| + |Marker(device)|;
  }

  lemma WildSplit()
    ensures Text.Split("/../x", '/') == ["", "..", "x"]
  {
    hide Text.Split;
    Text.SplitToken("x", '/');
    Text.SplitFirst("..", "x", '/');
    assert ".." + ['/'] + "x" == "../x";
    Text.SplitFirst("", "../x", '/');
    assert "" + ['/'] + "../x" == "/../x";
  }

  /** One climb takes the first segment away. */
  lemma CleanClimb(d: string, x: string, last: string)
    requires Ordinary(d) && Ordinary(x) && Ordinary(last)
    ensures Clean([d, x, "..", last]) == [d, last]
  {
    assert [d, x, "..", last][..3] == [d, x, ".."] && [d, x, ".."][..2] == [d, x] && [d, x][..1] == [d];
    CleanSegments([d, x]);
    assert Clean([d, x, ".."]) == [d];
  }

  lemma WildSegments(p: Path, ext: string)
    requires |p| == 2 && Ext(p[1]) == ext
    ensures CopySegments(p, "/../x") == [p[0], First(p[1], "/../x"), "..", "x)" + ext]
  {
    hide Ext, Stem, ConflictedBase, Proper, First;
    WildSplit();
    PathOrdinary(p);
    CopySplit(p[1], "/../x");
    assert Last(p[1], "/../x") == "x" + (")" + ext) == "x)" + ext;
    assert p[..|p| - 1] == [p[0]] && Middle("/../x") == [".."];
  }

  lemma SafeShort(segs: seq<string>)
    requires segs != [] && segs[0] == "d" && Clean(segs) != [] && Clean(segs)[0] == "d"
    ensures SafePath(segs)
  {
    hide Clean;
    assert !Reserved("d");
  }

  lemma WildCopy(p: Path, ext: string)
    requires |p| == 2 && p[0] == "d" && Ext(p[1]) == ext
    ensures CopyOf(p, "/../x") == Some(["d", "x)" + ext])
  {
    hide Ext, ConflictedBase, Clean, CopySegments, SafePath, First, Ordinary, Last;
    OuterSegments(p[1], "/../x");
    assert Ordinary("d") && Ordinary("x)" + ext) by { Plain(ext); }
    WildSegments(p, ext);
    CleanClimb("d", First(p[1], "/../x"), "x)" + ext);
    SafeShort(CopySegments(p, "/../x"));
  }

  lemma Plain(ext: string)
    ensures Ordinary("d") && Ordinary("x)" + ext)
  {
    assert ("x)" + ext)[0] == 'x';
  }

  lemma WildNotTame()
    ensures !Tame("/../x")
  {
    WildSplit();
    assert Middle("/../x") == [".."];
    assert [".."][..0] == [] && Depth([]) == 0;
    assert Depth([".."]) == -1;
  }

  /** Not every device name is tame: with "/../x" the files d/a.txt and d/b.txt share the copy d/x).txt. */
  lemma WildDevice(p: Path, q: Path)
    requires p == ["d", "a.txt"] && q == ["d", "b.txt"]
    ensures !Tame("/../x") && CopyOf(p, "/../x") == CopyOf(q, "/../x") == Some(["d", "x).txt"])
  {
    hide CopyOf, Tame, Ext, Proper;
    WildNotTame();
    TxtExt("a.txt");
    TxtExt("b.txt");
    WildCopy(p, ".txt");
    WildCopy(q, ".txt");
    assert "x)" + ".txt" == "x).txt";
  }

  lemma TxtExt(s: string)
    requires |s| == 5 && s[1..] == ".txt"
    ensures Ext(s) == ".txt"
  {
    var e := Ext(s);
    assert s[1] == s[1..][0] && s[2] == s[1..][1] && s[3] == s[1..][2] && s[4] == s[1..][3];
    assert '.' in s && e != "" && e[0] == '.';
    assert s[5 - |e|] == e[0];
  }
}
