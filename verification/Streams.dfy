/** Stream bootstrap at startup, and the live coverage check that follows it. */
module Streams {
  import opened Basics
  import opened Subjects

  datatype Limits = Limits(maxAgeHours: nat, maxBytes: nat, replicas: nat, duplicateMinutes: nat)
  datatype Config = Config(subjects: seq<string>, discardNew: bool, limits: Limits)
  datatype Entry = Entry(name: string, config: Config, dlq: bool)

  type Account = map<string, Config>

  function Lower(s: string): (r: string)
    ensures |r| == |s| && forall c <- r :: !('A' <= c <= 'Z')
    ensures forall i :: 0 <= i < |s| ==> r[i] == s[i] || r[i] as int == s[i] as int + 32
  {
    seq(|s|, i requires 0 <= i < |s| => if 'A' <= s[i] <= 'Z' then s[i] - 'A' + 'a' else s[i])
  }

  function DlqName(name: string): string { name + "_DLQ" }

  function PrimaryConfig(s: StreamSpec, replicas: nat): Config {
    Config(s.subjects, s.discardNew, Limits(168, 10 * 1024 * 1024 * 1024, replicas, 2))
  }

  function DlqConfig(name: string, replicas: nat): Config {
    Config(["dms.dlq." + Lower(name) + ".>"], false, Limits(720, 5 * 1024 * 1024 * 1024, replicas, 0))
  }

  /** What one pass ensures, in order: each primary stream, then its dead-letter sibling. */
  function Entries(specs: seq<StreamSpec>, replicas: nat): (es: seq<Entry>)
    ensures |es| == 2 * |specs|
    ensures forall i :: 0 <= i < |specs| ==>
      && es[2 * i] == Entry(specs[i].name, PrimaryConfig(specs[i], replicas), false)
      && es[2 * i + 1] == Entry(DlqName(specs[i].name), DlqConfig(specs[i].name, replicas), true)
  {
    if specs == [] then []
    else
      var n := |specs| - 1;
      Entries(specs[..n], replicas) +
      [Entry(specs[n].name, PrimaryConfig(specs[n], replicas), false),
       Entry(DlqName(specs[n].name), DlqConfig(specs[n].name, replicas), true)]
  }

  // ---- drift ---------------------------------------------------------------------

  predicate SubjectsEqual(a: seq<string>, b: seq<string>) { |a| == |b| && forall s <- b :: s in a }

  /** The comparison as the loop makes it: remember one list, look the other up. */
  method CompareSubjects(a: seq<string>, b: seq<string>) returns (equal: bool)
    ensures equal == SubjectsEqual(a, b)
  {
    if |a| != |b| {
      return false;
    }
    var seen: set<string> := {};
    for i := 0 to |a|
      invariant seen == Elems(a[..i])
    {
      assert a[..i + 1] == a[..i] + [a[i]];
      seen := seen + {a[i]};
    }
    assert a[..|a|] == a;
    for i := 0 to |b|
      invariant forall j :: 0 <= j < i ==> b[j] in a
    {
      if b[i] !in seen {
        return false;
      }
    }
    return true;
  }

  predicate Drifted(live: Config, desired: Config) {
    !SubjectsEqual(live.subjects, desired.subjects) || live.discardNew != desired.discardNew
  }

  lemma {:induction false} ElemsBound(s: seq<string>)
    ensures |Elems(s)| <= |s|
    ensures Distinct(s) ==> |Elems(s)| == |s|
  {
    if s != [] {
      ElemsBound(s[1..]);
      assert Elems(s) == {s[0]} + Elems(s[1..]);
    }
  }

  lemma SubsetOfSameSize(a: set<string>, b: set<string>)
    requires b <= a && |a| <= |b|
    ensures a == b
  {
    var extra := a - b;
    assert a == b + extra;
    assert |a| == |b| + |extra|;
    assert extra == {};
  }

  /** Against a duplicate-free list, the length-and-membership test is equality of sets. */
  lemma SubjectsEqualIsSetEquality(a: seq<string>, b: seq<string>)
    requires Distinct(b)
    ensures SubjectsEqual(a, b) <==> |a| == |b| && Elems(a) == Elems(b)
  {
    if SubjectsEqual(a, b) {
      ElemsBound(a);
      ElemsBound(b);
      SubsetOfSameSize(Elems(a), Elems(b));
    }
    if |a| == |b| && Elems(a) == Elems(b) {
      forall s | s in b
        ensures s in a
      {
        assert s in Elems(b);
      }
    }
  }

  // ---- one pass, as a fold ---------------------------------------------------------

  predicate Unchanged(m: Account, e: Entry) { e.name in m && !Drifted(m[e.name], e.config) }

  function Ensure(m: Account, e: Entry): Account { if Unchanged(m, e) then m else m[e.name := e.config] }

  function Pass(m: Account, es: seq<Entry>): Account {
    if es == [] then m else Ensure(Pass(m, es[..|es| - 1]), es[|es| - 1])
  }

  /** Add and update calls a pass makes. */
  function Calls(m: Account, es: seq<Entry>): nat {
    if es == [] then 0
    else Calls(m, es[..|es| - 1]) + if Unchanged(Pass(m, es[..|es| - 1]), es[|es| - 1]) then 0 else 1
  }

  lemma PassStart(m: Account, es: seq<Entry>)
    ensures Pass(m, es[..0]) == m && Calls(m, es[..0]) == 0
  {
  }

  lemma PassStep(m: Account, es: seq<Entry>, k: nat)
    requires k < |es|
    ensures Pass(m, es[..k + 1]) == Ensure(Pass(m, es[..k]), es[k])
    ensures Calls(m, es[..k + 1]) == Calls(m, es[..k]) + if Unchanged(Pass(m, es[..k]), es[k]) then 0 else 1
  {
    assert es[..k + 1][..k] == es[..k];
  }

  predicate Clean(es: seq<Entry>) { forall e <- es :: Distinct(e.config.subjects) }

  /** Entries that share a name want the same thing. */
  predicate Consistent(es: seq<Entry>) {
    forall i, j :: 0 <= i < |es| && 0 <= j < |es| && es[i].name == es[j].name ==> !Drifted(es[i].config, es[j].config)
  }

  predicate Alike(a: Config, b: Config) {
    |a.subjects| == |b.subjects| && Elems(a.subjects) == Elems(b.subjects) && a.discardNew == b.discardNew
  }

  lemma AlikeIsNoDrift(live: Config, desired: Config)
    requires Distinct(desired.subjects)
    ensures !Drifted(live, desired) <==> Alike(live, desired)
  {
    SubjectsEqualIsSetEquality(live.subjects, desired.subjects);
  }

  lemma {:induction false} PassSettles(m: Account, es: seq<Entry>, i: nat) returns (j: nat)
    requires Clean(es) && i < |es|
    ensures j < |es| && es[j].name == es[i].name
    ensures es[i].name in Pass(m, es) && Alike(Pass(m, es)[es[i].name], es[j].config)
    decreases |es|
  {
    var n := |es| - 1;
    var before := Pass(m, es[..n]);
    AlikeIsNoDrift(es[n].config, es[n].config);
    if es[n].name == es[i].name {
      j := n;
      if Unchanged(before, es[n]) {
        AlikeIsNoDrift(before[es[n].name], es[n].config);
      }
    } else {
      assert es[i] == es[..n][i];
      j := PassSettles(m, es[..n], i);
    }
  }

  /** No configuration has drifted from itself. */
  lemma SameConfigSame(c: Config)
    ensures !Drifted(c, c)
  {
  }

  lemma UnchangedEnsure(m: Account, e: Entry)
    ensures Unchanged(m, e) ==> Ensure(m, e) == m
  {
    hide Drifted;
  }

  lemma {:induction false} QuietPass(m: Account, es: seq<Entry>)
    ensures Calls(m, es) == 0 <==> forall e <- es :: Unchanged(m, e)
    ensures Calls(m, es) == 0 ==> Pass(m, es) == m
  {
    hide Unchanged, Ensure, Pass, Calls;
    PassStart(m, es);
    assert es[..|es|] == es;
    if es == [] {
      assert es[..0] == es;
    } else {
      var n := |es| - 1;
      QuietPass(m, es[..n]);
      PassStep(m, es, n);
      UnchangedEnsure(Pass(m, es[..n]), es[n]);
      assert es == es[..n] + [es[n]];
    }
  }

  /** The second of two passes makes no call if and only if entries that share a name agree. */
  lemma SecondPassQuietIff(m: Account, es: seq<Entry>)
    requires Clean(es)
    ensures Calls(Pass(m, es), es) == 0 <==> Consistent(es)
    ensures Consistent(es) ==> Pass(Pass(m, es), es) == Pass(m, es)
  {
    var f := Pass(m, es);
    QuietPass(f, es);
    if Consistent(es) {
      forall i | 0 <= i < |es|
        ensures Unchanged(f, es[i])
      {
        var j := PassSettles(m, es, i);
        AlikeIsNoDrift(es[j].config, es[i].config);
        AlikeIsNoDrift(f[es[i].name], es[i].config);
      }
    }
    if Calls(f, es) == 0 {
      forall i, j | 0 <= i < |es| && 0 <= j < |es| && es[i].name == es[j].name
        ensures !Drifted(es[i].config, es[j].config)
      {
        assert Unchanged(f, es[i]) && Unchanged(f, es[j]);
        AlikeIsNoDrift(f[es[i].name], es[i].config);
        AlikeIsNoDrift(f[es[i].name], es[j].config);
        AlikeIsNoDrift(es[i].config, es[j].config);
      }
    }
  }

  // ---- when do specs give consistent entries? ---------------------------------------

  predicate SpecsClean(specs: seq<StreamSpec>) { forall s <- specs :: Distinct(s.subjects) }

  /** Distinct names, none of which is another's dead-letter name. */
  predicate NamesApart(specs: seq<StreamSpec>) {
    && (forall i, j :: 0 <= i < j < |specs| ==> specs[i].name != specs[j].name)
    && (forall i, j :: 0 <= i < |specs| && 0 <= j < |specs| ==> specs[i].name != DlqName(specs[j].name))
  }

  lemma EntriesClean(specs: seq<StreamSpec>, replicas: nat)
    requires SpecsClean(specs)
    ensures Clean(Entries(specs, replicas))
  {
    var es := Entries(specs, replicas);
    forall k | 0 <= k < |es|
      ensures Distinct(es[k].config.subjects)
    {
      assert k == 2 * (k / 2) || k == 2 * (k / 2) + 1;
      assert specs[k / 2] in specs;
    }
  }

  lemma DlqNamesDiffer(a: string, b: string)
    requires a != b
    ensures DlqName(a) != DlqName(b)
  {
    assert a == DlqName(a)[..|DlqName(a)| - 4] && b == DlqName(b)[..|DlqName(b)| - 4];
  }

  lemma EntryNamesDiffer(specs: seq<StreamSpec>, replicas: nat, i: nat, j: nat)
    requires NamesApart(specs) && i < j < 2 * |specs|
    ensures Entries(specs, replicas)[i].name != Entries(specs, replicas)[j].name
  {
    hide PrimaryConfig, DlqConfig, DlqName;
    var es, a, b := Entries(specs, replicas), i / 2, j / 2;
    assert (i == 2 * a || i == 2 * a + 1) && (j == 2 * b || j == 2 * b + 1);
    assert es[2 * a].name == specs[a].name && es[2 * a + 1].name == DlqName(specs[a].name);
    assert es[2 * b].name == specs[b].name && es[2 * b + 1].name == DlqName(specs[b].name);
    if i == 2 * a + 1 && j == 2 * b + 1 {
      DlqNamesDiffer(specs[a].name, specs[b].name);
    }
  }

  lemma NamesApartConsistent(specs: seq<StreamSpec>, replicas: nat)
    requires SpecsClean(specs) && NamesApart(specs)
    ensures Consistent(Entries(specs, replicas))
  {
    hide Drifted, NamesApart;
    var es := Entries(specs, replicas);
    EntriesClean(specs, replicas);
    forall i, j | 0 <= i < |es| && 0 <= j < |es| && es[i].name == es[j].name
      ensures !Drifted(es[i].config, es[j].config)
    {
      if i < j {
        EntryNamesDiffer(specs, replicas, i, j);
      } else if j < i {
        EntryNamesDiffer(specs, replicas, j, i);
      }
      AlikeIsNoDrift(es[i].config, es[j].config);
    }
  }

  /** Distinct names alone do not make the bootstrap idempotent: a stream named like another's
      dead-letter stream is rewritten twice on every start. */
  lemma DlqNameClash(name: string, subject: string, other: string, replicas: nat, m: Account)
    requires other != "dms.dlq." + Lower(name) + ".>"
    ensures var specs := [StreamSpec(name, [subject], false), StreamSpec(DlqName(name), [other], false)];
      && specs[0].name != specs[1].name && SpecsClean(specs)
      && Calls(Pass(m, Entries(specs, replicas)), Entries(specs, replicas)) > 0
  {
    var specs := [StreamSpec(name, [subject], false), StreamSpec(DlqName(name), [other], false)];
    hide Lower;
    var es := Entries(specs, replicas);
    EntriesClean(specs, replicas);
    assert |name| < |DlqName(name)|;
    assert es[2 * 0 + 1] == Entry(DlqName(specs[0].name), DlqConfig(specs[0].name, replicas), true);
    assert es[2 * 1] == Entry(specs[1].name, PrimaryConfig(specs[1], replicas), false);
    assert other !in es[1].config.subjects && other in es[2].config.subjects;
    assert Drifted(es[1].config, es[2].config);
    SecondPassQuietIff(m, es);
  }

  // ---- the live account ---------------------------------------------------------------

  datatype Report = Report(added: seq<string>, updated: seq<string>, skipped: seq<string>, dlq: seq<string>)

  function Live(m: Account, specs: seq<StreamSpec>): seq<StreamSpec> {
    if specs == [] then []
    else
      var s := specs[|specs| - 1];
      Live(m, specs[..|specs| - 1]) + if s.name in m then [StreamSpec(s.name, m[s.name].subjects, s.discardNew)] else []
  }

  class JetStream {
    var streams: Account

    constructor (streams: Account)
      ensures this.streams == streams
    {
      this.streams := streams;
    }

    /** `blind` holds the names whose lookup fails for a reason other than absence, `failing` those
        whose add or update the broker refuses. A stream that cannot be seen is added like one that
        does not exist; the broker accepts that for a stream it already has only if the
        configurations are identical. */
    method EnsureOne(e: Entry, blind: set<string>, failing: set<string>, report: Report) returns (ok: bool, report': Report)
      modifies this
      ensures ok ==> streams == Ensure(old(streams), e)
      ensures !ok ==> streams == old(streams) && report' == report
      ensures !ok ==> e.name in failing || (e.name in blind && e.name in streams && streams[e.name] != e.config)
      ensures ok && e.name !in blind && Unchanged(old(streams), e) ==> report' == report.(skipped := report.skipped + [e.name])
      ensures ok && (e.name in blind || !Unchanged(old(streams), e)) ==>
        report' == if e.dlq then report.(dlq := report.dlq + [e.name])
                   else if e.name !in blind && e.name in old(streams) then report.(updated := report.updated + [e.name])
                   else report.(added := report.added + [e.name])
    {
      if e.name in blind || e.name !in streams {
        if e.name in failing || (e.name in streams && streams[e.name] != e.config) {
          return false, report;
        }
        SameConfigSame(e.config);
        streams := streams[e.name := e.config];
        return true, if e.dlq then report.(dlq := report.dlq + [e.name]) else report.(added := report.added + [e.name]);
      }
      var same := CompareSubjects(streams[e.name].subjects, e.config.subjects);
      if same && streams[e.name].discardNew == e.config.discardNew {
        return true, report.(skipped := report.skipped + [e.name]);
      }
      if e.name in failing {
        return false, report;
      }
      streams := streams[e.name := e.config];
      return true, if e.dlq then report.(dlq := report.dlq + [e.name]) else report.(updated := report.updated + [e.name]);
    }

    /** A refused call ends the pass; what was done stays. The report lists every add or update, and
        besides those only streams that could not be looked up. */
    method EnsureStreams(specs: seq<StreamSpec>, replicas: nat, blind: set<string>, failing: set<string>) returns (ok: bool, report: Report, ghost done: nat)
      modifies this
      ensures done <= 2 * |specs| && streams == Pass(old(streams), Entries(specs, replicas)[..done])
      ensures ok <==> done == 2 * |specs|
      ensures ok <== blind == {} && failing == {}
      ensures |report.added| + |report.updated| + |report.dlq| >= Calls(old(streams), Entries(specs, replicas)[..done])
      ensures blind == {} ==> |report.added| + |report.updated| + |report.dlq| == Calls(old(streams), Entries(specs, replicas)[..done])
    {
      hide Pass, Calls, Ensure, Drifted, Unchanged, PrimaryConfig, DlqConfig, DlqName;
      PassStart(streams, Entries(specs, replicas));
      report := Report([], [], [], []);
      ghost var es := Entries(specs, replicas);
      done := 0;
      for i := 0 to |specs|
        invariant done == 2 * i && streams == Pass(old(streams), es[..done])
        invariant |report.added| + |report.updated| + |report.dlq| >= Calls(old(streams), es[..done])
        invariant blind == {} ==> |report.added| + |report.updated| + |report.dlq| == Calls(old(streams), es[..done])
      {
        PassStep(old(streams), es, done);
        PassStep(old(streams), es, done + 1);
        ok, report := EnsureOne(Entry(specs[i].name, PrimaryConfig(specs[i], replicas), false), blind, failing, report);
        if !ok {
          return;
        }
        done := done + 1;
        ok, report := EnsureOne(Entry(DlqName(specs[i].name), DlqConfig(specs[i].name, replicas), true), blind, failing, report);
        if !ok {
          return;
        }
        done := done + 1;
      }
      ok := true;
    }

    /** Passes if and only if every lookup answers and no subject is missing from the streams that
        exist. */
    method AssertLiveCoverage(subjects: seq<string>, specs: seq<StreamSpec>, blind: set<string>) returns (ok: bool)
      ensures ok <==> (forall s <- specs :: s.name !in blind) && Missing(subjects, Live(streams, specs)) == []
    {
      var live := [];
      for i := 0 to |specs|
        invariant live == Live(streams, specs[..i])
        invariant forall s <- specs[..i] :: s.name !in blind
      {
        assert specs[..i + 1] == specs[..i] + [specs[i]];
        var name := specs[i].name;
        if name in blind {
          assert specs[i] in specs;
          return false;
        }
        if name in streams {
          live := live + [StreamSpec(name, streams[name].subjects, specs[i].discardNew)];
        }
      }
      assert specs[..|specs|] == specs;
      var missing := CheckCoverage(subjects, live);
      ok := missing == [];
    }
  }

  // ---- the startup check means what the specs say --------------------------------------

  lemma {:induction false} LiveMirrors(m: Account, specs: seq<StreamSpec>)
    requires forall s <- specs :: s.name in m && Elems(m[s.name].subjects) == Elems(s.subjects)
    ensures |Live(m, specs)| == |specs|
    ensures forall i :: 0 <= i < |specs| ==> Elems(Live(m, specs)[i].subjects) == Elems(specs[i].subjects)
  {
    if specs != [] {
      LiveMirrors(m, specs[..|specs| - 1]);
    }
  }

  /** Coverage only depends on each stream's set of subjects. */
  lemma CoveredBySets(a: seq<StreamSpec>, b: seq<StreamSpec>, subj: string)
    requires |a| == |b| && forall i :: 0 <= i < |a| ==> Elems(a[i].subjects) == Elems(b[i].subjects)
    requires CoveredBy(a, subj)
    ensures CoveredBy(b, subj)
  {
    var i, j :| 0 <= i < |a| && 0 <= j < |a[i].subjects| && Covers(Split(a[i].subjects[j]), Split(subj));
    assert a[i].subjects[j] in Elems(b[i].subjects);
    var k :| 0 <= k < |b[i].subjects| && b[i].subjects[k] == a[i].subjects[j];
  }

  /** After a complete bootstrap from any account, the live check passes if and only if the
      build-time check on the specs does. */
  lemma StartupCheckMeaning(m: Account, specs: seq<StreamSpec>, replicas: nat, subjects: seq<string>)
    requires SpecsClean(specs) && Consistent(Entries(specs, replicas))
    ensures Missing(subjects, Live(Pass(m, Entries(specs, replicas)), specs)) == [] <==> Missing(subjects, specs) == []
  {
    var es := Entries(specs, replicas);
    var f := Pass(m, es);
    EntriesClean(specs, replicas);
    SecondPassQuietIff(m, es);
    QuietPass(f, es);
    forall i | 0 <= i < |specs|
      ensures specs[i].name in f && Elems(f[specs[i].name].subjects) == Elems(specs[i].subjects)
    {
      assert es[2 * i] in es && Unchanged(f, es[2 * i]);
      AlikeIsNoDrift(f[specs[i].name], es[2 * i].config);
    }
    LiveMirrors(f, specs);
    var live := Live(f, specs);
    MissingEmpty(subjects, live);
    MissingEmpty(subjects, specs);
    forall s | s in subjects
      ensures CoveredBy(live, s) <==> CoveredBy(specs, s)
    {
      if CoveredBy(live, s) { CoveredBySets(live, specs, s); }
      if CoveredBy(specs, s) { CoveredBySets(specs, live, s); }
    }
  }

  /** The coverage check passes on one list of streams exactly when it passes on the other. */
  ghost predicate ChecksAgree(a: seq<StreamSpec>, b: seq<StreamSpec>) {
    forall subjects: seq<string> :: Missing(subjects, a) == [] <==> Missing(subjects, b) == []
  }

  /** Two lists agree on every check if and only if their filters cover each other. */
  lemma ChecksAgreeIff(a: seq<StreamSpec>, b: seq<StreamSpec>)
    ensures ChecksAgree(a, b) <==> FiltersCovered(a, b) && FiltersCovered(b, a)
  {
    hide FiltersCovered, CoveredBy, Missing;
    CoverageOrder(a, b);
    CoverageOrder(b, a);
    if ChecksAgree(a, b) {
      forall s: string
        ensures CoveredBy(a, s) <==> CoveredBy(b, s)
      {
        assert Missing([s], a) == [] <==> Missing([s], b) == [];
        MissingEmpty([s], a);
        MissingEmpty([s], b);
        assert s in [s];
      }
    }
    if FiltersCovered(a, b) && FiltersCovered(b, a) {
      forall subjects
        ensures Missing(subjects, a) == [] <==> Missing(subjects, b) == []
      {
        MissingEmpty(subjects, a);
        MissingEmpty(subjects, b);
      }
    }
  }

  /** The subjects of the last stream that a pass over the specs sets up under this name, as a primary
      or as a dead-letter stream. */
  function FinalSubjects(specs: seq<StreamSpec>, name: string): seq<string> {
    if specs == [] then []
    else
      var s := specs[|specs| - 1];
      if DlqName(s.name) == name then ["dms.dlq." + Lower(s.name) + ".>"]
      else if s.name == name then s.subjects
      else FinalSubjects(specs[..|specs| - 1], name)
  }

  /** And its discard policy: a dead-letter stream always drops its oldest messages. */
  function FinalDiscard(specs: seq<StreamSpec>, name: string): bool {
    if specs == [] then false
    else
      var s := specs[|specs| - 1];
      if DlqName(s.name) == name then false
      else if s.name == name then s.discardNew
      else FinalDiscard(specs[..|specs| - 1], name)
  }

  /** The specs as the bootstrap leaves them. */
  function Final(specs: seq<StreamSpec>): seq<StreamSpec> {
    seq(|specs|, i requires 0 <= i < |specs| => specs[i].(subjects := FinalSubjects(specs, specs[i].name)))
  }

  lemma EnsureSettles(m: Account, e: Entry)
    requires Distinct(e.config.subjects)
    ensures e.name in Ensure(m, e) && Elems(Ensure(m, e)[e.name].subjects) == Elems(e.config.subjects)
    ensures Ensure(m, e)[e.name].discardNew == e.config.discardNew && (e.name !in m ==> Ensure(m, e)[e.name] == e.config)
    ensures forall x <- m :: x != e.name ==> x in Ensure(m, e) && Ensure(m, e)[x] == m[x]
  {
    hide Drifted;
    if Unchanged(m, e) {
      AlikeIsNoDrift(m[e.name], e.config);
    }
  }

  /** Whatever the account was, the last spec to name a stream decides what it takes. */
  lemma {:induction false} PassIsFinal(m: Account, specs: seq<StreamSpec>, replicas: nat, name: string)
    requires SpecsClean(specs) && exists i :: 0 <= i < |specs| && (specs[i].name == name || DlqName(specs[i].name) == name)
    ensures var f := Pass(m, Entries(specs, replicas));
      name in f && Elems(f[name].subjects) == Elems(FinalSubjects(specs, name)) && f[name].discardNew == FinalDiscard(specs, name)
    decreases |specs|
  {
    hide Pass, Ensure, DlqName, Lower, Elems, Entries, PrimaryConfig, DlqConfig;
    var n := |specs| - 1;
    var s, before := specs[n], specs[..n];
    var primary, dlq := Entry(s.name, PrimaryConfig(s, replicas), false), Entry(DlqName(s.name), DlqConfig(s.name, replicas), true);
    PassSpec(m, specs, replicas);
    assert s in specs && forall x <- before :: x in specs;
    ConfigSubjects(s, replicas);
    var f0 := Pass(m, Entries(before, replicas));
    EnsureSettles(f0, primary);
    EnsureSettles(Ensure(f0, primary), dlq);
    if DlqName(s.name) != name && s.name != name {
      var i :| 0 <= i < |specs| && (specs[i].name == name || DlqName(specs[i].name) == name);
      assert before[i] == specs[i];
      PassIsFinal(m, before, replicas, name);
    }
  }

  lemma ConfigSubjects(s: StreamSpec, replicas: nat)
    ensures PrimaryConfig(s, replicas).subjects == s.subjects && PrimaryConfig(s, replicas).discardNew == s.discardNew
    ensures !DlqConfig(s.name, replicas).discardNew
    ensures DlqConfig(s.name, replicas).subjects == ["dms.dlq." + Lower(s.name) + ".>"] && Distinct(DlqConfig(s.name, replicas).subjects)
  {
  }

  lemma PassSpec(m: Account, specs: seq<StreamSpec>, replicas: nat)
    requires specs != []
    ensures var n := |specs| - 1;
      Pass(m, Entries(specs, replicas)) ==
        Ensure(Ensure(Pass(m, Entries(specs[..n], replicas)), Entry(specs[n].name, PrimaryConfig(specs[n], replicas), false)),
               Entry(DlqName(specs[n].name), DlqConfig(specs[n].name, replicas), true))
  {
    hide Pass, Ensure, PrimaryConfig, DlqConfig, DlqName;
    var n, es := |specs| - 1, Entries(specs, replicas);
    assert es[..2 * n] == Entries(specs[..n], replicas) && es[..2 * n + 2] == es;
    PassStep(m, es, 2 * n);
    PassStep(m, es, 2 * n + 1);
  }

  /** No spec from `from` on sets up a stream of this name. */
  predicate Unused(specs: seq<StreamSpec>, name: string, from: nat) {
    forall j :: from <= j < |specs| ==> specs[j].name != name && DlqName(specs[j].name) != name
  }

  lemma {:induction false} FinalOf(specs: seq<StreamSpec>, name: string, i: nat)
    requires i < |specs| && Unused(specs, name, i + 1) && (specs[i].name == name || DlqName(specs[i].name) == name)
    ensures var dlq := DlqName(specs[i].name) == name;
      && FinalSubjects(specs, name) == (if dlq then ["dms.dlq." + Lower(specs[i].name) + ".>"] else specs[i].subjects)
      && FinalDiscard(specs, name) == (!dlq && specs[i].discardNew)
    decreases |specs|
  {
    hide DlqName, Lower;
    var n := |specs| - 1;
    if i < n {
      assert specs[..n][i] == specs[i];
      FinalOf(specs[..n], name, i);
    }
  }

  /** After a complete bootstrap from any account: a stream that no later spec sets up again takes its
      spec's subjects and discards as the spec says, and a dead-letter stream takes its own subject and
      drops its oldest. */
  lemma BootstrapGives(m: Account, specs: seq<StreamSpec>, replicas: nat, i: nat)
    requires SpecsClean(specs) && i < |specs|
    ensures var f, name := Pass(m, Entries(specs, replicas)), specs[i].name;
      && (Unused(specs, name, i + 1) ==>
            name in f && Elems(f[name].subjects) == Elems(specs[i].subjects) && f[name].discardNew == specs[i].discardNew)
      && (Unused(specs, DlqName(name), i + 1) ==>
            && DlqName(name) in f && !f[DlqName(name)].discardNew
            && Elems(f[DlqName(name)].subjects) == {"dms.dlq." + Lower(name) + ".>"})
  {
    hide Pass, Lower, SpecsClean;
    var name := specs[i].name;
    assert |DlqName(name)| > |name|;
    if Unused(specs, name, i + 1) {
      PassIsFinal(m, specs, replicas, name);
      FinalOf(specs, name, i);
    }
    if Unused(specs, DlqName(name), i + 1) {
      PassIsFinal(m, specs, replicas, DlqName(name));
      FinalOf(specs, DlqName(name), i);
    }
  }

  lemma {:induction false} PassMisses(m: Account, specs: seq<StreamSpec>, replicas: nat, name: string)
    requires Unused(specs, name, 0) && name !in m
    ensures name !in Pass(m, Entries(specs, replicas))
    decreases |specs|
  {
    hide Pass, DlqName, Entries, PrimaryConfig, DlqConfig;
    if specs == [] {
      PassNothing(m, replicas);
    } else {
      PassSpec(m, specs, replicas);
      PassMisses(m, specs[..|specs| - 1], replicas, name);
    }
  }

  lemma PassNothing(m: Account, replicas: nat)
    ensures Pass(m, Entries([], replicas)) == m
  {
  }

  lemma {:induction false} PassKeepsOther(m: Account, specs: seq<StreamSpec>, replicas: nat, i: nat, name: string)
    requires SpecsClean(specs) && i <= |specs| && Unused(specs, name, i) && name in Pass(m, Entries(specs[..i], replicas))
    ensures name in Pass(m, Entries(specs, replicas))
    ensures Pass(m, Entries(specs, replicas))[name] == Pass(m, Entries(specs[..i], replicas))[name]
    decreases |specs|
  {
    hide Pass, DlqName, Entries, PrimaryConfig, DlqConfig, Ensure;
    if i == |specs| {
      assert specs[..i] == specs;
    } else {
      var n := |specs| - 1;
      var s := specs[n];
      assert specs[..n][..i] == specs[..i] && s in specs && forall x <- specs[..n] :: x in specs;
      PassKeepsOther(m, specs[..n], replicas, i, name);
      PassSpec(m, specs, replicas);
      ConfigSubjects(s, replicas);
      var f0 := Pass(m, Entries(specs[..n], replicas));
      EnsureSettles(f0, Entry(s.name, PrimaryConfig(s, replicas), false));
      EnsureSettles(Ensure(f0, Entry(s.name, PrimaryConfig(s, replicas), false)), Entry(DlqName(s.name), DlqConfig(s.name, replicas), true));
    }
  }

  /** A stream that did not exist before and that only one spec sets up is created as documented: a
      primary keeps a week, 10 GiB and a duplicate window of two minutes, a dead-letter stream a month
      and 5 GiB. */
  lemma CreatedAsDocumented(m: Account, specs: seq<StreamSpec>, replicas: nat, i: nat)
    requires SpecsClean(specs) && i < |specs|
    ensures var f, name, dead := Pass(m, Entries(specs, replicas)), specs[i].name, specs[i].name + "_DLQ";
      && (name !in m && Unused(specs[..i], name, 0) && Unused(specs, name, i + 1) ==>
            name in f && f[name] == Config(specs[i].subjects, specs[i].discardNew, Limits(7 * 24, 10 * 1_073_741_824, replicas, 2)))
      && (dead !in m && Unused(specs[..i], dead, 0) && Unused(specs, dead, i + 1) ==>
            && dead in f
            && f[dead] == Config(["dms.dlq." + Lower(name) + ".>"], false, Limits(30 * 24, 5 * 1_073_741_824, replicas, 0)))
  {
    hide Pass, Lower, Entries;
    var s, name := specs[i], specs[i].name;
    assert |DlqName(name)| > |name| && DlqName(name) == name + "_DLQ";
    hide DlqName;
    assert specs[..i + 1][..i] == specs[..i] && specs[..i + 1][i] == s && s in specs;
    PassSpec(m, specs[..i + 1], replicas);
    var f0 := Pass(m, Entries(specs[..i], replicas));
    var primary, dlq := Entry(name, PrimaryConfig(s, replicas), false), Entry(DlqName(name), DlqConfig(name, replicas), true);
    ConfigSubjects(s, replicas);
    EnsureSettles(f0, primary);
    EnsureSettles(Ensure(f0, primary), dlq);
    if name !in m && Unused(specs[..i], name, 0) && Unused(specs, name, i + 1) {
      PassMisses(m, specs[..i], replicas, name);
      PassKeepsOther(m, specs, replicas, i + 1, name);
    }
    if DlqName(name) !in m && Unused(specs[..i], DlqName(name), 0) && Unused(specs, DlqName(name), i + 1) {
      PassMisses(m, specs[..i], replicas, DlqName(name));
      PassKeepsOther(m, specs, replicas, i + 1, DlqName(name));
    }
  }

  /** Exactly when the startup check means what the specs say: from any account, the live check and the
      build-time check agree on every list of subjects if and only if the specs' filters and those
      that the last spec of each name sets up cover each other. */
  lemma StartupCheckIff(m: Account, specs: seq<StreamSpec>, replicas: nat)
    requires SpecsClean(specs)
    ensures ChecksAgree(Live(Pass(m, Entries(specs, replicas)), specs), specs)
       <==> FiltersCovered(specs, Final(specs)) && FiltersCovered(Final(specs), specs)
  {
    hide Pass, FinalSubjects, FiltersCovered, CoveredBy, Missing, SpecsClean, Elems;
    var f := Pass(m, Entries(specs, replicas));
    var live, final := Live(f, specs), Final(specs);
    forall i | 0 <= i < |specs|
      ensures specs[i].name in f && Elems(f[specs[i].name].subjects) == Elems(final[i].subjects)
    {
      PassIsFinal(m, specs, replicas, specs[i].name);
    }
    LiveIs(f, specs);
    ChecksAgreeIff(final, specs);
    forall s: string
      ensures CoveredBy(live, s) <==> CoveredBy(final, s)
    {
      if CoveredBy(live, s) { CoveredBySets(live, final, s); }
      if CoveredBy(final, s) { CoveredBySets(final, live, s); }
    }
    forall subjects: seq<string>
      ensures Missing(subjects, live) == [] <==> Missing(subjects, final) == []
    {
      MissingEmpty(subjects, live);
      MissingEmpty(subjects, final);
    }
    SameChecks(live, final, specs);
  }

  lemma SameChecks(a: seq<StreamSpec>, b: seq<StreamSpec>, c: seq<StreamSpec>)
    requires ChecksAgree(a, b)
    ensures ChecksAgree(a, c) <==> ChecksAgree(b, c)
  {
    hide Missing;
  }

  lemma {:induction false} LiveIs(m: Account, specs: seq<StreamSpec>)
    requires forall i :: 0 <= i < |specs| ==> specs[i].name in m
    ensures |Live(m, specs)| == |specs|
    ensures forall i :: 0 <= i < |specs| ==> Live(m, specs)[i].subjects == m[specs[i].name].subjects
  {
    if specs != [] {
      LiveIs(m, specs[..|specs| - 1]);
    }
  }

  /** Distinct names alone do not suffice here either: a stream listed before the one whose dead-letter
      stream it is named like is overwritten, so the live check refuses a start that the build-time
      check passed. */
  lemma DlqNameHidesStream(name: string, subject: string, other: string, replicas: nat, m: Account)
    requires !Covers(Split("dms.dlq." + Lower(name) + ".>"), Split(other)) && !Covers(Split(subject), Split(other))
    ensures var specs := [StreamSpec(DlqName(name), [other], false), StreamSpec(name, [subject], false)];
      && specs[0].name != specs[1].name && SpecsClean(specs)
      && Missing([other], specs) == [] && Missing([other], Live(Pass(m, Entries(specs, replicas)), specs)) != []
  {
    hide Split, Covers, Lower, Pass, Live, Missing, CoveredBy;
    var specs := [StreamSpec(DlqName(name), [other], false), StreamSpec(name, [subject], false)];
    var f := Pass(m, Entries(specs, replicas));
    assert |name| < |DlqName(name)|;
    OverwrittenByDlq(name, subject, other, replicas, m);
    LiveOfTwo(f, specs);
    var live := Live(f, specs);
    CoversItself(Split(other));
    CoveredByFirst(specs, other);
    assert live[0].subjects == ["dms.dlq." + Lower(name) + ".>"] && live[1].subjects == [subject];
    NotCoveredByTwo(live, other);
    MissingEmpty([other], specs);
    MissingEmpty([other], live);
    assert other in [other];
  }

  lemma OverwrittenByDlq(name: string, subject: string, other: string, replicas: nat, m: Account)
    ensures var specs := [StreamSpec(DlqName(name), [other], false), StreamSpec(name, [subject], false)];
      var f := Pass(m, Entries(specs, replicas));
      && DlqName(name) in f && f[DlqName(name)].subjects == ["dms.dlq." + Lower(name) + ".>"]
      && name in f && f[name].subjects == [subject]
  {
    hide Lower, Pass;
    var specs := [StreamSpec(DlqName(name), [other], false), StreamSpec(name, [subject], false)];
    var es := Entries(specs, replicas);
    assert |name| < |DlqName(name)|;
    assert es[2 * 1] == Entry(name, PrimaryConfig(specs[1], replicas), false);
    assert es[2 * 1 + 1] == Entry(DlqName(name), DlqConfig(name, replicas), true);
    OverwrittenLast(m, es, 2);
    OverwrittenLast(m, es, 3);
  }

  lemma CoveredByFirst(streams: seq<StreamSpec>, subj: string)
    requires streams != [] && streams[0].subjects != [] && Covers(Split(streams[0].subjects[0]), Split(subj))
    ensures CoveredBy(streams, subj)
  {
    hide Split, Covers;
  }

  lemma NotCoveredByTwo(streams: seq<StreamSpec>, subj: string)
    requires |streams| == 2 && |streams[0].subjects| == |streams[1].subjects| == 1
    requires !Covers(Split(streams[0].subjects[0]), Split(subj)) && !Covers(Split(streams[1].subjects[0]), Split(subj))
    ensures !CoveredBy(streams, subj)
  {
    hide Split, Covers;
  }

  lemma LiveOfTwo(m: Account, specs: seq<StreamSpec>)
    requires |specs| == 2 && specs[0].name in m && specs[1].name in m
    ensures Live(m, specs) == [StreamSpec(specs[0].name, m[specs[0].name].subjects, specs[0].discardNew),
                               StreamSpec(specs[1].name, m[specs[1].name].subjects, specs[1].discardNew)]
  {
    assert specs[..1][..0] == [] && Live(m, []) == [];
    assert Live(m, specs[..1]) == [StreamSpec(specs[0].name, m[specs[0].name].subjects, specs[0].discardNew)];
  }

  /** The last entry of a name decides a stream with one subject. */
  lemma {:induction false} OverwrittenLast(m: Account, es: seq<Entry>, i: nat)
    requires i < |es| && |es[i].config.subjects| == 1 && forall j :: i < j < |es| ==> es[j].name != es[i].name
    ensures es[i].name in Pass(m, es) && Pass(m, es)[es[i].name].subjects == es[i].config.subjects
    decreases |es|
  {
    hide Pass;
    var n := |es| - 1;
    assert es[..n + 1] == es;
    PassStep(m, es, n);
    if i < n {
      assert es[..n][i] == es[i];
      OverwrittenLast(m, es[..n], i);
    } else {
      var live := Pass(m, es[..n]);
      if Unchanged(live, es[n]) {
        assert es[n].config.subjects[0] in es[n].config.subjects;
        assert live[es[n].name].subjects == [es[n].config.subjects[0]];
      }
    }
  }
}
