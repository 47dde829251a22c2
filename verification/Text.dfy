/** Splitting and joining strings at a separator. */
module Text {

  /** `strings.Split(s, sep)` for a one-character separator: the empty string has one empty token. */
  function Split(s: string, sep: char): (ts: seq<string>)
    ensures |ts| >= 1 && forall t <- ts :: sep !in t
  {
    if s == "" then [""]
    else
      var rest := Split(s[1..], sep);
      if s[0] == sep then [""] + rest else [[s[0]] + rest[0]] + rest[1..]
  }

  function Join(ts: seq<string>, sep: char): string
    requires |ts| >= 1
  {
    if |ts| == 1 then ts[0] else ts[0] + [sep] + Join(ts[1..], sep)
  }

  lemma {:induction false} SplitToken(t: string, sep: char)
    requires sep !in t
    ensures Split(t, sep) == [t]
  {
    if t != "" {
      assert t[0] in t && forall c <- t[1..] :: c in t;
      SplitToken(t[1..], sep);
      assert [t[0]] + t[1..] == t;
    }
  }

  lemma {:induction false} SplitFirst(t: string, rest: string, sep: char)
    requires sep !in t
    ensures Split(t + [sep] + rest, sep) == [t] + Split(rest, sep)
  {
    var s := t + [sep] + rest;
    if t == "" {
      assert s[0] == sep && s[1..] == rest;
    } else {
      assert t[0] in t && forall c <- t[1..] :: c in t;
      SplitFirst(t[1..], rest, sep);
      assert s[0] == t[0] && s[1..] == t[1..] + [sep] + rest;
      assert [t[0]] + t[1..] == t;
      assert Split(s, sep) == [[s[0]] + Split(s[1..], sep)[0]] + Split(s[1..], sep)[1..];
    }
  }

  /** Splitting undoes joining. */
  lemma {:induction false} SplitJoin(ts: seq<string>, sep: char)
    requires |ts| >= 1 && forall t <- ts :: sep !in t
    ensures Split(Join(ts, sep), sep) == ts
  {
    if |ts| == 1 {
      SplitToken(ts[0], sep);
    } else {
      SplitJoin(ts[1..], sep);
      SplitFirst(ts[0], Join(ts[1..], sep), sep);
      assert [ts[0]] + ts[1..] == ts;
    }
  }

  lemma SplitStep(s: string, sep: char)
    requires s != ""
    ensures var rest := Split(s[1..], sep);
      Split(s, sep) == if s[0] == sep then [""] + rest else [[s[0]] + rest[0]] + rest[1..]
  {
  }

  /** Text without a separator in front joins the first token. */
  lemma {:induction false} SplitPrepend(t: string, s: string, sep: char)
    requires sep !in t
    ensures Split(t + s, sep) == [t + Split(s, sep)[0]] + Split(s, sep)[1..]
  {
    hide Split;
    var ts := Split(s, sep);
    if t == "" {
      assert t + s == s && t + ts[0] == ts[0] && [ts[0]] + ts[1..] == ts;
    } else {
      assert t[0] in t && forall c <- t[1..] :: c in t;
      SplitPrepend(t[1..], s, sep);
      assert (t + s)[0] == t[0] && (t + s)[1..] == t[1..] + s;
      SplitStep(t + s, sep);
      assert [t[0]] + (t[1..] + ts[0]) == t + ts[0];
    }
  }

  /** Text without a separator behind joins the last token. */
  lemma {:induction false} SplitAppend(s: string, t: string, sep: char)
    requires sep !in t
    ensures var ts, n := Split(s, sep), |Split(s, sep)| - 1;
      Split(s + t, sep) == ts[..n] + [ts[n] + t]
  {
    hide Split;
    if s == "" {
      assert s + t == t;
      SplitToken(t, sep);
      SplitToken(s, sep);
      assert "" + t == t;
    } else {
      var rest := Split(s[1..], sep);
      var more := rest[..|rest| - 1] + [rest[|rest| - 1] + t];
      SplitAppend(s[1..], t, sep);
      assert (s + t)[1..] == s[1..] + t && (s + t)[0] == s[0];
      SplitStep(s, sep);
      SplitStep(s + t, sep);
      assert Split(s + t, sep) == if s[0] == sep then [""] + more else [[s[0]] + more[0]] + more[1..];
      AppendLast(s[0], rest, t, s[0] == sep);
    }
  }

  lemma AppendLast(c: char, rest: seq<string>, t: string, separate: bool)
    requires |rest| >= 1
    ensures var n := |rest| - 1;
      var more := rest[..n] + [rest[n] + t];
      var a := if separate then [""] + rest else [[c] + rest[0]] + rest[1..];
      var b := if separate then [""] + more else [[c] + more[0]] + more[1..];
      b == a[..|a| - 1] + [a[|a| - 1] + t]
  {
    if !separate && |rest| == 1 {
      assert [c] + (rest[0] + t) == [c] + rest[0] + t;
    }
  }
}
