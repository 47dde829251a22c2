/** NATS subject patterns: does one filter cover every message that another pattern can match? */
module Subjects {
  import Text

  // ---- tokens ----------------------------------------------------------------

  function Split(s: string): (ts: seq<string>)
    ensures |ts| >= 1 && forall t <- ts :: '.' !in t
  {
    Text.Split(s, '.')
  }

  function Join(ts: seq<string>): string
    requires |ts| >= 1
  {
    Text.Join(ts, '.')
  }

  lemma SplitJoin(ts: seq<string>)
    requires |ts| >= 1 && forall t <- ts :: '.' !in t
    ensures Split(Join(ts)) == ts
  {
    Text.SplitJoin(ts, '.');
  }

  // ---- the meaning of a pattern ------------------------------------------------

  predicate WellFormed(p: seq<string>) {
    && |p| >= 1
    && (forall i :: 0 <= i < |p| ==> p[i] != "" && '.' !in p[i])
    && (forall i :: 0 <= i < |p| - 1 ==> p[i] != ">")
  }

  predicate Concrete(m: seq<string>) {
    |m| >= 1 && forall t <- m :: t != "" && '.' !in t && t != "*" && t != ">"
  }

  /** `*` stands for one token, a final `>` for one or more. */
  predicate Matches(p: seq<string>, m: seq<string>) {
    if p == [] then m == []
    else if p == [">"] then m != []
    else m != [] && (p[0] == "*" || p[0] == m[0]) && Matches(p[1..], m[1..])
  }

  /** The algorithm's decision, read on the tokens still ahead. */
  predicate Covers(f: seq<string>, s: seq<string>) {
    if f == [] then s == []
    else if f[0] == ">" then s != []
    else s != [] && (if f[0] == "*" then s[0] != ">" else f[0] == s[0]) && Covers(f[1..], s[1..])
  }

  /** Soundness: what the pattern matches, the filter matches. */
  lemma {:induction false} CoversSound(f: seq<string>, s: seq<string>, m: seq<string>)
    requires (f == [] || WellFormed(f)) && (s == [] || WellFormed(s))
    requires Covers(f, s) && Matches(s, m)
    ensures Matches(f, m)
    decreases |f|
  {
    if f != [] && f[0] != ">" {
      assert s[0] != ">" && s != [">"];
      CoversSound(f[1..], s[1..], m[1..]);
    } else if f != [] {
      assert f == [">"];
    }
  }

  /** Some concrete message a pattern matches: "x" for each wildcard. */
  function Sample(p: seq<string>): seq<string> {
    seq(|p|, i requires 0 <= i < |p| => if p[i] == "*" || p[i] == ">" then "x" else p[i])
  }

  lemma {:induction false} SampleMatches(p: seq<string>)
    requires p == [] || WellFormed(p)
    ensures Matches(p, Sample(p)) && (p != [] ==> Concrete(Sample(p)))
    decreases |p|
  {
    if p != [] && p != [">"] {
      assert Sample(p)[1..] == Sample(p[1..]);
      SampleMatches(p[1..]);
    }
  }

  /** Completeness: a filter that does not cover comes with a message to show it. */
  lemma {:induction false} Counterexample(f: seq<string>, s: seq<string>) returns (m: seq<string>)
    requires (f == [] || WellFormed(f)) && (s == [] || WellFormed(s))
    requires !Covers(f, s)
    ensures Matches(s, m) && !Matches(f, m) && (s != [] ==> Concrete(m)) && (s == [] ==> m == [])
    decreases |f|
  {
    m := Sample(s);
    SampleMatches(s);
    if f == [] || s == [] {
      return;
    }
    if s[0] == ">" {
      // the filter fixes the number of tokens, or needs more than one: one or two tokens refute it
      if f[0] == "*" {
        if f[1..] == [] {
          m := ["x", "x"];
          assert m[1..] == ["x"];
        } else {
          assert m[1..] == [] && f != [">"];
        }
      } else {
        m := [f[0] + "x"];
      }
    } else if f[0] != "*" && f[0] != s[0] {
      if s[0] == "*" {
        // any token but the filter's literal
        m := m[0 := f[0] + "x"];
        assert m[1..] == Sample(s[1..]);
        SampleMatches(s[1..]);
      }
    } else {
      var tail := Counterexample(f[1..], s[1..]);
      m := [m[0]] + tail;
      assert m[1..] == tail;
      assert s != [">"] && Matches(s, m);
      assert f != [">"];
    }
  }

  // ---- on strings ----------------------------------------------------------------

  ghost predicate Included(filter: string, subj: string) {
    forall m: string :: Concrete(Split(m)) && Matches(Split(subj), Split(m)) ==> Matches(Split(filter), Split(m))
  }

  /** The loop decides inclusion exactly: for well-formed patterns it answers yes if and only if
      every concrete message matching `subj` also matches `filter`. */
  method SubjectCovers(filter: string, subj: string) returns (covered: bool)
    ensures covered == Covers(Split(filter), Split(subj))
    ensures WellFormed(Split(filter)) && WellFormed(Split(subj)) ==> (covered <==> Included(filter, subj))
  {
    var ft, st := Split(filter), Split(subj);
    covered := CoversLoop(ft, st);
    if WellFormed(ft) && WellFormed(st) {
      CoversExact(filter, subj);
    }
  }

  method CoversLoop(ft: seq<string>, st: seq<string>) returns (covered: bool)
    ensures covered == Covers(ft, st)
  {
    var i := 0;
    while i < |ft|
      invariant 0 <= i <= |ft| && i <= |st|
      invariant Covers(ft, st) == Covers(ft[i..], st[i..])
    {
      if ft[i] == ">" {
        return i < |st|;
      }
      if i >= |st| {
        return false;
      }
      assert ft[i..][1..] == ft[i + 1..] && st[i..][1..] == st[i + 1..];
      if ft[i] == "*" {
        if st[i] == ">" {
          return false;
        }
      } else if ft[i] != st[i] {
        return false;
      }
      i := i + 1;
    }
    return |ft| == |st|;
  }

  lemma CoversExact(filter: string, subj: string)
    requires WellFormed(Split(filter)) && WellFormed(Split(subj))
    ensures Covers(Split(filter), Split(subj)) <==> Included(filter, subj)
  {
    var f, s := Split(filter), Split(subj);
    if Covers(f, s) {
      forall m: string | Concrete(Split(m)) && Matches(s, Split(m))
        ensures Matches(f, Split(m))
      {
        CoversSound(f, s, Split(m));
      }
    } else {
      var ts := Counterexample(f, s);
      SplitJoin(ts);
      assert Concrete(Split(Join(ts)));
    }
  }

  // ---- coverage of a list of subjects ----------------------------------------------

  datatype StreamSpec = StreamSpec(name: string, subjects: seq<string>, discardNew: bool)

  predicate CoveredBy(streams: seq<StreamSpec>, subj: string) {
    exists i, j :: 0 <= i < |streams| && 0 <= j < |streams[i].subjects|
      && Covers(Split(streams[i].subjects[j]), Split(subj))
  }

  /** The uncovered subjects, in input order. */
  function Missing(subjects: seq<string>, streams: seq<StreamSpec>): seq<string> {
    if subjects == [] then []
    else
      var n := |subjects| - 1;
      Missing(subjects[..n], streams) + if CoveredBy(streams, subjects[n]) then [] else [subjects[n]]
  }

  lemma {:induction false} MissingEmpty(subjects: seq<string>, streams: seq<StreamSpec>)
    ensures Missing(subjects, streams) == [] <==> forall s <- subjects :: CoveredBy(streams, s)
    ensures forall s :: s in Missing(subjects, streams) <==> s in subjects && !CoveredBy(streams, s)
  {
    if subjects != [] {
      var n := |subjects| - 1;
      MissingEmpty(subjects[..n], streams);
      assert subjects == subjects[..n] + [subjects[n]];
    }
  }

  method CheckCoverage(subjects: seq<string>, streams: seq<StreamSpec>) returns (missing: seq<string>)
    ensures missing == Missing(subjects, streams)
    ensures missing == [] <==> forall s <- subjects :: CoveredBy(streams, s)
  {
    missing := [];
    for k := 0 to |subjects|
      invariant missing == Missing(subjects[..k], streams)
    {
      var covered := false;
      var i := 0;
      while i < |streams|
        invariant 0 <= i <= |streams| && !covered
        invariant forall a, b :: 0 <= a < i && 0 <= b < |streams[a].subjects|
                    ==> !Covers(Split(streams[a].subjects[b]), Split(subjects[k]))
      {
        var j := 0;
        while j < |streams[i].subjects|
          invariant 0 <= j <= |streams[i].subjects|
          invariant forall b :: 0 <= b < j ==> !Covers(Split(streams[i].subjects[b]), Split(subjects[k]))
        {
          var c := SubjectCovers(streams[i].subjects[j], subjects[k]);
          if c {
            covered := true;
            break;
          }
          j := j + 1;
        }
        if covered {
          break;
        }
        i := i + 1;
      }
      assert subjects[..k + 1][..k] == subjects[..k];
      if !covered {
        missing := missing + [subjects[k]];
      }
    }
    assert subjects[..|subjects|] == subjects;
    MissingEmpty(subjects, streams);
  }

  ghost predicate Delivered(streams: seq<StreamSpec>, m: string) {
    exists i, j :: 0 <= i < |streams| && 0 <= j < |streams[i].subjects| && Matches(Split(streams[i].subjects[j]), Split(m))
  }

  predicate AllWellFormed(streams: seq<StreamSpec>) {
    forall i, j :: 0 <= i < |streams| && 0 <= j < |streams[i].subjects| ==> WellFormed(Split(streams[i].subjects[j]))
  }

  /** An empty answer means no message of any listed subject goes unstored. */
  lemma CoverageDelivers(subjects: seq<string>, streams: seq<StreamSpec>, subj: string, m: string)
    requires Missing(subjects, streams) == [] && subj in subjects
    requires AllWellFormed(streams) && WellFormed(Split(subj))
    requires Concrete(Split(m)) && Matches(Split(subj), Split(m))
    ensures Delivered(streams, m)
  {
    MissingEmpty(subjects, streams);
    CoveredIsDelivered(streams, subj);
  }

  // ---- filters against filters ----------------------------------------------------------

  lemma {:induction false} CoversItself(f: seq<string>)
    ensures Covers(f, f)
  {
    if f != [] {
      CoversItself(f[1..]);
    }
  }

  lemma {:induction false} CoversTransitive(a: seq<string>, b: seq<string>, c: seq<string>)
    requires Covers(a, b) && Covers(b, c)
    ensures Covers(a, c)
    decreases |a|
  {
    if a != [] && a[0] != ">" {
      assert b != [] && b[0] != ">";
      CoversTransitive(a[1..], b[1..], c[1..]);
    }
  }

  /** Every filter of `a` is covered by one of `b`. */
  ghost predicate FiltersCovered(a: seq<StreamSpec>, b: seq<StreamSpec>) {
    forall i, j :: 0 <= i < |a| && 0 <= j < |a[i].subjects| ==> CoveredBy(b, a[i].subjects[j])
  }

  /** `b` covers all that `a` covers if and only if it covers `a`'s own filters. */
  lemma CoverageOrder(a: seq<StreamSpec>, b: seq<StreamSpec>)
    ensures (forall s: string :: CoveredBy(a, s) ==> CoveredBy(b, s)) <==> FiltersCovered(a, b)
  {
    hide Covers, Split;
    if forall s: string :: CoveredBy(a, s) ==> CoveredBy(b, s) {
      forall i, j | 0 <= i < |a| && 0 <= j < |a[i].subjects|
        ensures CoveredBy(b, a[i].subjects[j])
      {
        CoversItself(Split(a[i].subjects[j]));
      }
    }
    if FiltersCovered(a, b) {
      forall s: string | CoveredBy(a, s)
        ensures CoveredBy(b, s)
      {
        var i, j :| 0 <= i < |a| && 0 <= j < |a[i].subjects| && Covers(Split(a[i].subjects[j]), Split(s));
        assert CoveredBy(b, a[i].subjects[j]);
        var k, l :| 0 <= k < |b| && 0 <= l < |b[k].subjects| && Covers(Split(b[k].subjects[l]), Split(a[i].subjects[j]));
        CoversTransitive(Split(b[k].subjects[l]), Split(a[i].subjects[j]), Split(s));
      }
    }
  }

  // ---- when is the report exact? ------------------------------------------------------

  /** Every message of the subject is stored by some stream. */
  ghost predicate AllDelivered(streams: seq<StreamSpec>, subj: string) {
    forall m: string :: Concrete(Split(m)) && Matches(Split(subj), Split(m)) ==> Delivered(streams, m)
  }

  /** For every list of streams, the subject is reported if and only if one of its messages is lost. */
  ghost predicate ReportExact(subj: string) {
    forall streams | AllWellFormed(streams) :: CoveredBy(streams, subj) <==> AllDelivered(streams, subj)
  }

  /** The subject ends in ">", so it stands for messages of every length. */
  predicate OpenEnded(subj: string) { Split(subj)[|Split(subj)| - 1] == ">" }

  lemma CoveredIsDelivered(streams: seq<StreamSpec>, subj: string)
    requires AllWellFormed(streams) && WellFormed(Split(subj)) && CoveredBy(streams, subj)
    ensures AllDelivered(streams, subj)
  {
    var i, j :| 0 <= i < |streams| && 0 <= j < |streams[i].subjects| && Covers(Split(streams[i].subjects[j]), Split(subj));
    forall m: string | Concrete(Split(m)) && Matches(Split(subj), Split(m))
      ensures Delivered(streams, m)
    {
      CoversSound(Split(streams[i].subjects[j]), Split(subj), Split(m));
    }
  }

  function FilterTokens(streams: seq<StreamSpec>): set<string> {
    set i, j, k | 0 <= i < |streams| && 0 <= j < |streams[i].subjects| && 0 <= k < |Split(streams[i].subjects[j])|
      :: Split(streams[i].subjects[j])[k]
  }

  lemma {:induction false} LengthBound(used: set<string>) returns (n: nat)
    ensures forall t <- used :: |t| < n
    decreases used
  {
    n := 0;
    if used != {} {
      var t :| t in used;
      n := LengthBound(used - {t});
      n := if |t| < n then n else |t| + 1;
      assert used == used - {t} + {t};
    }
  }

  lemma FreshToken(used: set<string>) returns (x: string)
    ensures x !in used && Concrete([x])
  {
    var n := LengthBound(used);
    x := seq(n + 1, _ => 'x');
    assert x[0] == 'x';
  }

  /** The pattern with one and the same token for each `*`. */
  function Filled(s: seq<string>, x: string): seq<string> {
    seq(|s|, i requires 0 <= i < |s| => if s[i] == "*" then x else s[i])
  }

  lemma {:induction false} FilledMatches(s: seq<string>, x: string)
    requires (s == [] || WellFormed(s)) && ">" !in s && Concrete([x])
    ensures Matches(s, Filled(s, x)) && (s != [] ==> Concrete(Filled(s, x)))
    decreases |s|
  {
    assert x in [x];
    if s != [] {
      assert s[0] in s && Filled(s, x)[1..] == Filled(s[1..], x);
      FilledMatches(s[1..], x);
    }
  }

  /** A filter that does not know the token can match the filled pattern only by covering it. */
  lemma {:induction false} FilledDecides(f: seq<string>, s: seq<string>, x: string)
    requires (f == [] || WellFormed(f)) && ">" !in s && x !in f && Matches(f, Filled(s, x))
    ensures Covers(f, s)
    decreases |f|
  {
    if f != [] && f[0] != ">" {
      assert f != [">"] && f[0] in f && s != [] && s[0] in s;
      assert Filled(s, x)[1..] == Filled(s[1..], x);
      FilledDecides(f[1..], s[1..], x);
    }
  }

  /** Without a final ">" one message decides: it carries a token that no filter mentions, so any
      filter that stores it covers the whole subject. */
  lemma ClosedSubjectDecided(streams: seq<StreamSpec>, subj: string)
    requires AllWellFormed(streams) && WellFormed(Split(subj)) && !OpenEnded(subj)
    requires AllDelivered(streams, subj)
    ensures CoveredBy(streams, subj)
  {
    hide Split, Join;
    var s := Split(subj);
    var x := FreshToken(FilterTokens(streams));
    FilledMatches(s, x);
    var ts := Filled(s, x);
    SplitJoin(ts);
    assert Delivered(streams, Join(ts));
    var i, j :| 0 <= i < |streams| && 0 <= j < |streams[i].subjects| && Matches(Split(streams[i].subjects[j]), ts);
    FilledDecides(Split(streams[i].subjects[j]), s, x);
  }

  lemma {:induction false} JointTokens(p: seq<string>, ts: seq<string>)
    requires ">" !in p
    ensures !Covers(p + ["*"], p + [">"]) && !Covers(p + ["*", ">"], p + [">"])
    ensures Matches(p + [">"], ts) ==> Matches(p + ["*"], ts) || Matches(p + ["*", ">"], ts)
    decreases |p|
  {
    if p == [] {
      assert p + [">"] == [">"] && p + ["*"] == ["*"] && p + ["*", ">"] == ["*", ">"];
      assert ["*"][1..] == [] && ["*", ">"][1..] == [">"];
    } else {
      var t, q := p[0], p[1..];
      assert t in p;
      JointTokens(q, if ts == [] then [] else ts[1..]);
      Shift(p, [">"]);
      Shift(p, ["*"]);
      Shift(p, ["*", ">"]);
    }
  }

  lemma Shift(p: seq<string>, end: seq<string>)
    requires p != [] && ">" !in p
    ensures p + end != [">"] && (p + end)[0] == p[0] && (p + end)[1..] == p[1..] + end && p[0] != ">"
  {
    assert p[0] in p && (p + end)[0] == p[0];
  }

  /** The two filters that share the work of `p.>`: one for a single further token, one for more. */
  function SharedWork(p: seq<string>): seq<StreamSpec> {
    [StreamSpec("S", [Join(p + ["*"]), Join(p + ["*", ">"])], false)]
  }

  /** The filters "p.*" and "p.*.>" together store every message of "p.>", yet neither covers it
      alone, so the report names a subject that loses nothing. */
  lemma JointCoverNotSeen(p: seq<string>, subj: string)
    requires WellFormed(p + [">"]) && Split(subj) == p + [">"]
    ensures AllWellFormed(SharedWork(p)) && !CoveredBy(SharedWork(p), subj) && AllDelivered(SharedWork(p), subj)
  {
    hide Split, Join, Covers, Matches;
    var one, more, streams := p + ["*"], p + ["*", ">"], SharedWork(p);
    forall i | 0 <= i < |p|
      ensures p[i] != "" && '.' !in p[i] && p[i] != ">"
    {
      assert p[i] == (p + [">"])[i];
    }
    SplitJoin(one);
    SplitJoin(more);
    JointTokens(p, []);
    assert streams[0].subjects[0] == Join(one) && streams[0].subjects[1] == Join(more);
    forall m: string | Matches(Split(subj), Split(m))
      ensures Delivered(streams, m)
    {
      JointTokens(p, Split(m));
    }
  }

  /** The report on a subject is right for every list of streams if and only if the subject does not
      end in ">". */
  lemma ReportExactIff(subj: string)
    requires WellFormed(Split(subj))
    ensures ReportExact(subj) <==> !OpenEnded(subj)
  {
    hide Split, Join, CoveredBy, AllDelivered, AllWellFormed;
    if OpenEnded(subj) {
      var s := Split(subj);
      var p := s[..|s| - 1];
      assert s == p + [">"];
      JointCoverNotSeen(p, subj);
    } else {
      forall streams | AllWellFormed(streams)
        ensures CoveredBy(streams, subj) <==> AllDelivered(streams, subj)
      {
        if CoveredBy(streams, subj) {
          CoveredIsDelivered(streams, subj);
        } else if AllDelivered(streams, subj) {
          ClosedSubjectDecided(streams, subj);
        }
      }
    }
  }
}
