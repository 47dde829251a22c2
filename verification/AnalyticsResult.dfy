/** What a compiled query answers: grouping, aggregates, order and limit over the physical rows. */
module AnalyticsResult {
  import opened Basics
  import opened Sorting
  import opened AnalyticsCompile

  type Key = seq<Option<string>>

  /** One result line: the group's key and its measures. */
  datatype Line = Line(key: Key, values: seq<int>)

  /** An aggregate is a function of the bag of rows in a group. */
  type Aggregate = (string, multiset<Row>) -> int

  function Keep(c: Compiled, rows: seq<Row>): seq<Row> {
    if rows == [] then []
    else (if HoldsAll(c.conds, c.args, rows[0]) then [rows[0]] else []) + Keep(c, rows[1..])
  }

  function KeyOf(dims: seq<string>, r: Row): Key {
    seq(|dims|, i requires 0 <= i < |dims| => DimOf(r, dims[i]))
  }

  function GroupRows(dims: seq<string>, rows: seq<Row>, key: Key): seq<Row> {
    if rows == [] then []
    else (if KeyOf(dims, rows[0]) == key then [rows[0]] else []) + GroupRows(dims, rows[1..], key)
  }

  /** With no dimensions there is one group, even over no rows. */
  function Keys(dims: seq<string>, rows: seq<Row>): set<Key> {
    if dims == [] then {[]} else set r | r in rows :: KeyOf(dims, r)
  }

  function MeasureNames(c: Compiled): seq<string> { c.columns[if |c.groupBy| <= |c.columns| then |c.groupBy| else |c.columns|..] }

  function LineFor(c: Compiled, agg: Aggregate, rows: seq<Row>, key: Key): Line {
    var group := multiset(GroupRows(c.groupBy, rows, key));
    var names := MeasureNames(c);
    Line(key, seq(|names|, i requires 0 <= i < |names| => agg(names[i], group)))
  }

  function Lines(c: Compiled, agg: Aggregate, rows: seq<Row>): set<Line> {
    set key | key in Keys(c.groupBy, rows) :: LineFor(c, agg, rows, key)
  }

  /** ORDER BY the first measure, descending, then the group keys. */
  predicate Precedes(less: (Key, Key) -> bool, x: Line, y: Line) {
    var a, b := if x.values == [] then 0 else x.values[0], if y.values == [] then 0 else y.values[0];
    a > b || (a == b && (less(x.key, y.key) || (x.key == y.key && LessValues(x.values, y.values))))
  }

  /** Never decides between two lines of one result, whose keys differ; it only makes the order of
      lines total. */
  predicate LessValues(a: seq<int>, b: seq<int>) {
    if b == [] then false
    else a == [] || a[0] < b[0] || (a[0] == b[0] && LessValues(a[1..], b[1..]))
  }

  function Take(n: int, s: seq<Line>): seq<Line> { if n < 0 then [] else if |s| <= n then s else s[..n] }

  /** `out` is an answer to the compiled query over these rows. */
  ghost predicate IsAnswer(c: Compiled, agg: Aggregate, less: (Key, Key) -> bool, rows: seq<Row>, out: seq<Line>) {
    exists all: seq<Line> :: Lists((x, y) => Precedes(less, x, y), all, Lines(c, agg, Keep(c, rows))) && out == Take(c.limit, all)
  }

  // ---- the order is strict and total ----------------------------------------------------

  lemma {:induction false} LessValuesTotal(a: seq<int>, b: seq<int>)
    ensures a == b || LessValues(a, b) || LessValues(b, a)
    ensures !(LessValues(a, b) && LessValues(b, a))
    decreases |a|
  {
    if a != [] && b != [] {
      LessValuesTotal(a[1..], b[1..]);
      if a[0] == b[0] && a[1..] == b[1..] {
        assert a == [a[0]] + a[1..] && b == [b[0]] + b[1..];
      }
    }
  }

  lemma {:induction false} LessValuesTransitive(a: seq<int>, b: seq<int>, d: seq<int>)
    requires LessValues(a, b) && LessValues(b, d)
    ensures LessValues(a, d)
    decreases |a|
  {
    if a != [] && a[0] == b[0] && b[0] == d[0] {
      LessValuesTransitive(a[1..], b[1..], d[1..]);
    }
  }

  lemma PrecedesStrictTotal(less: (Key, Key) -> bool)
    requires StrictTotal(less)
    ensures StrictTotal((x: Line, y: Line) => Precedes(less, x, y))
  {
    forall x: Line, y: Line
      ensures x == y || Precedes(less, x, y) || Precedes(less, y, x)
      ensures Precedes(less, x, y) ==> !Precedes(less, y, x)
    {
      LessValuesTotal(x.values, y.values);
    }
    forall x: Line, y: Line, z: Line | Precedes(less, x, y) && Precedes(less, y, z)
      ensures Precedes(less, x, z)
    {
      if LessValues(x.values, y.values) && LessValues(y.values, z.values) {
        LessValuesTransitive(x.values, y.values, z.values);
      }
    }
  }

  // ---- everything is a function of the bag of kept rows -----------------------------------

  lemma {:induction false} KeepBag(c: Compiled, rows: seq<Row>, r: Row)
    ensures multiset(Keep(c, rows))[r] == if HoldsAll(c.conds, c.args, r) then multiset(rows)[r] else 0
  {
    if rows != [] {
      hide HoldsAll;
      KeepBag(c, rows[1..], r);
      assert rows == [rows[0]] + rows[1..];
    }
  }

  lemma {:induction false} GroupBag(dims: seq<string>, rows: seq<Row>, key: Key, r: Row)
    ensures multiset(GroupRows(dims, rows, key))[r] == if KeyOf(dims, r) == key then multiset(rows)[r] else 0
  {
    if rows != [] {
      hide KeyOf;
      GroupBag(dims, rows[1..], key, r);
      assert rows == [rows[0]] + rows[1..];
    }
  }

  lemma SameLines(c: Compiled, agg: Aggregate, a: seq<Row>, b: seq<Row>)
    requires multiset(a) == multiset(b)
    ensures Lines(c, agg, a) == Lines(c, agg, b)
  {
    assert Keys(c.groupBy, a) == Keys(c.groupBy, b) by {
      hide KeyOf;
      assert forall r :: r in a <==> r in multiset(a);
      assert forall r :: r in b <==> r in multiset(b);
    }
    forall key
      ensures LineFor(c, agg, a, key) == LineFor(c, agg, b, key)
    {
      hide KeyOf;
      forall r: Row
        ensures multiset(GroupRows(c.groupBy, a, key))[r] == multiset(GroupRows(c.groupBy, b, key))[r]
      {
        GroupBag(c.groupBy, a, key, r);
        GroupBag(c.groupBy, b, key, r);
      }
      assert multiset(GroupRows(c.groupBy, a, key)) == multiset(GroupRows(c.groupBy, b, key));
    }
  }

  /** The answer is a function of the tenant's rows alone: any physical order of the rows and any
      change to other tenants' rows give the same sequence of lines, cut at the same point. */
  lemma AnswerDependsOnTenantOnly(c: Compiled, tenant: int, agg: Aggregate, less: (Key, Key) -> bool,
                                  rows1: seq<Row>, rows2: seq<Row>, out1: seq<Line>, out2: seq<Line>)
    requires StrictTotal(less)
    requires forall r: Row :: HoldsAll(c.conds, c.args, r) ==> r.tenant == tenant
    requires forall r: Row :: r.tenant == tenant ==> multiset(rows1)[r] == multiset(rows2)[r]
    requires IsAnswer(c, agg, less, rows1, out1) && IsAnswer(c, agg, less, rows2, out2)
    ensures out1 == out2
  {
    hide HoldsAll, Lines, Precedes;
    forall r: Row
      ensures multiset(Keep(c, rows1))[r] == multiset(Keep(c, rows2))[r]
    {
      KeepBag(c, rows1, r);
      KeepBag(c, rows2, r);
    }
    assert multiset(Keep(c, rows1)) == multiset(Keep(c, rows2));
    SameLines(c, agg, Keep(c, rows1), Keep(c, rows2));
    PrecedesStrictTotal(less);
    var order := (x: Line, y: Line) => Precedes(less, x, y);
    var all1: seq<Line> :| Lists(order, all1, Lines(c, agg, Keep(c, rows1))) && out1 == Take(c.limit, all1);
    var all2: seq<Line> :| Lists(order, all2, Lines(c, agg, Keep(c, rows2))) && out2 == Take(c.limit, all2);
    ListingUnique(order, all1, all2);
  }

  /** An answer always exists, so the previous statement is not empty. */
  method Execute(c: Compiled, agg: Aggregate, less: (Key, Key) -> bool, rows: seq<Row>) returns (out: seq<Line>)
    requires StrictTotal(less)
    ensures IsAnswer(c, agg, less, rows, out)
  {
    hide Lines, Precedes, Keep;
    PrecedesStrictTotal(less);
    var all := SortSet((x: Line, y: Line) => Precedes(less, x, y), Lines(c, agg, Keep(c, rows)));
    out := Take(c.limit, all);
  }

  // ---- what an answer says, read off the rows --------------------------------------------------

  /** A line of the answer is the line of its key. */
  lemma LineOfKey(c: Compiled, agg: Aggregate, less: (Key, Key) -> bool, rows: seq<Row>, out: seq<Line>, line: Line)
    requires IsAnswer(c, agg, less, rows, out) && line in out
    ensures line == LineFor(c, agg, Keep(c, rows), line.key)
  {
    hide Precedes, Keep, LineFor;
    var order := (x: Line, y: Line) => Precedes(less, x, y);
    var all: seq<Line> :| Lists(order, all, Lines(c, agg, Keep(c, rows))) && out == Take(c.limit, all);
    assert line in Elems(all);
    var key :| key in Keys(c.groupBy, Keep(c, rows)) && line == LineFor(c, agg, Keep(c, rows), key);
    LineKey(c, agg, Keep(c, rows), key);
  }

  lemma LineKey(c: Compiled, agg: Aggregate, rows: seq<Row>, key: Key)
    ensures LineFor(c, agg, rows, key).key == key && |LineFor(c, agg, rows, key).values| == |MeasureNames(c)|
    ensures forall i :: 0 <= i < |MeasureNames(c)| ==>
      LineFor(c, agg, rows, key).values[i] == agg(MeasureNames(c)[i], multiset(GroupRows(c.groupBy, rows, key)))
  {
    hide GroupRows;
  }

  predicate InGroup(c: Compiled, key: Key, r: Row) {
    HoldsAll(c.conds, c.args, r) && |key| == |c.groupBy| && forall i :: 0 <= i < |key| ==> key[i] == DimOf(r, c.groupBy[i])
  }

  /** `bag` holds the rows that pass the WHERE and carry the key's values, each as often as it is stored.
      Without dimensions there is one group, even an empty one. */
  ghost predicate IsGroup(c: Compiled, rows: seq<Row>, key: Key, bag: multiset<Row>) {
    && |key| == |c.groupBy| && (c.groupBy != [] ==> bag != multiset{})
    && forall r: Row :: bag[r] == if InGroup(c, key, r) then multiset(rows)[r] else 0
  }

  ghost predicate HasGroup(c: Compiled, rows: seq<Row>, key: Key) { exists bag :: IsGroup(c, rows, key, bag) }

  lemma InGroupIs(c: Compiled, key: Key, r: Row)
    ensures InGroup(c, key, r) <==> HoldsAll(c.conds, c.args, r) && KeyOf(c.groupBy, r) == key
  {
    hide HoldsAll;
  }

  lemma GroupBagIs(c: Compiled, rows: seq<Row>, key: Key, r: Row)
    ensures multiset(GroupRows(c.groupBy, Keep(c, rows), key))[r] == if InGroup(c, key, r) then multiset(rows)[r] else 0
  {
    hide HoldsAll, KeyOf, InGroup, GroupRows, Keep;
    GroupBag(c.groupBy, Keep(c, rows), key, r);
    KeepBag(c, rows, r);
    InGroupIs(c, key, r);
  }

  /** The groups are the keys, with their rows. */
  lemma GroupIs(c: Compiled, rows: seq<Row>, key: Key, bag: multiset<Row>)
    ensures IsGroup(c, rows, key, bag) <==>
      key in Keys(c.groupBy, Keep(c, rows)) && bag == multiset(GroupRows(c.groupBy, Keep(c, rows), key))
  {
    hide HoldsAll, InGroup, GroupRows, Keep, KeyOf;
    var kept := Keep(c, rows);
    var group := multiset(GroupRows(c.groupBy, kept, key));
    forall r: Row
      ensures group[r] == if InGroup(c, key, r) then multiset(rows)[r] else 0
    {
      GroupBagIs(c, rows, key, r);
    }
    KeyListed(c.groupBy, kept, key);
    if IsGroup(c, rows, key, bag) {
      assert bag == group;
    }
  }

  lemma KeyListed(dims: seq<string>, rows: seq<Row>, key: Key)
    ensures key in Keys(dims, rows) <==> |key| == |dims| && (dims != [] ==> multiset(GroupRows(dims, rows, key)) != multiset{})
  {
    if dims == [] {
      assert |key| == 0 <==> key == [];
    } else {
      if key in Keys(dims, rows) {
        var r :| r in rows && KeyOf(dims, r) == key;
        hide KeyOf;
        GroupBag(dims, rows, key, r);
        assert multiset(rows)[r] > 0;
        assert multiset(GroupRows(dims, rows, key))[r] > 0;
      } else {
        hide KeyOf;
        NoneInGroup(dims, rows, key);
      }
    }
  }

  lemma {:induction false} NoneInGroup(dims: seq<string>, rows: seq<Row>, key: Key)
    requires forall r <- rows :: KeyOf(dims, r) != key
    ensures GroupRows(dims, rows, key) == []
  {
    hide KeyOf;
    if rows != [] {
      NoneInGroup(dims, rows[1..], key);
    }
  }

  /** The first line beats the second: a larger first measure, or an equal one and an earlier key. */
  predicate Beats(less: (Key, Key) -> bool, v: int, key: Key, v': int, key': Key) {
    v > v' || (v == v' && less(key, key'))
  }

  /** What every answer is, said of the rows: its lines are groups with their measures; they come by the
      first measure, largest first, ties by key; and a group is left out only when the limit is reached
      by lines that all beat it. */
  lemma AnswerIsTopGroups(c: Compiled, agg: Aggregate, less: (Key, Key) -> bool, rows: seq<Row>, out: seq<Line>)
    requires StrictTotal(less) && IsAnswer(c, agg, less, rows, out) && c.limit >= 0
    requires |c.groupBy| < |c.columns|
    ensures var names := c.columns[|c.groupBy|..];
      && |out| <= c.limit
      && (forall i :: 0 <= i < |out| ==> |out[i].values| == |names|)
      && (forall i :: 0 <= i < |out| ==> HasGroup(c, rows, out[i].key))
      && (forall i, bag :: 0 <= i < |out| && IsGroup(c, rows, out[i].key, bag) ==>
            forall j :: 0 <= j < |names| ==> out[i].values[j] == agg(names[j], bag))
      && (forall i, j :: 0 <= i < j < |out| ==> Beats(less, out[i].values[0], out[i].key, out[j].values[0], out[j].key))
      && (forall key, bag :: IsGroup(c, rows, key, bag) && (forall i :: 0 <= i < |out| ==> out[i].key != key) ==>
            |out| == c.limit && forall i :: 0 <= i < |out| ==> Beats(less, out[i].values[0], out[i].key, agg(names[0], bag), key))
  {
    hide HoldsAll, IsGroup, Precedes, Keep, LineFor, GroupRows, Keys, Beats;
    var names, kept := c.columns[|c.groupBy|..], Keep(c, rows);
    assert MeasureNames(c) == names;
    var order := (x: Line, y: Line) => Precedes(less, x, y);
    var all: seq<Line> :| Lists(order, all, Lines(c, agg, kept)) && out == Take(c.limit, all);
    forall k | 0 <= k < |all|
      ensures all[k].key in Keys(c.groupBy, kept) && all[k] == LineFor(c, agg, kept, all[k].key) && |all[k].values| == |names|
    {
      assert all[k] in Elems(all);
      var key :| key in Keys(c.groupBy, kept) && all[k] == LineFor(c, agg, kept, key);
      LineKey(c, agg, kept, key);
    }
    assert forall i :: 0 <= i < |out| ==> out[i] == all[i];
    forall i | 0 <= i < |out|
      ensures HasGroup(c, rows, out[i].key)
    {
      GroupIs(c, rows, out[i].key, multiset(GroupRows(c.groupBy, kept, out[i].key)));
    }
    forall i, bag | 0 <= i < |out| && IsGroup(c, rows, out[i].key, bag)
      ensures forall j :: 0 <= j < |names| ==> out[i].values[j] == agg(names[j], bag)
    {
      GroupIs(c, rows, out[i].key, bag);
      LineKey(c, agg, kept, out[i].key);
    }
    forall i, j | 0 <= i < j < |all|
      ensures Beats(less, all[i].values[0], all[i].key, all[j].values[0], all[j].key)
    {
      assert order(all[i], all[j]);
      OneLinePerKey(c, agg, kept, all[i], all[j], less);
    }
    forall key, bag | IsGroup(c, rows, key, bag) && (forall i :: 0 <= i < |out| ==> out[i].key != key)
      ensures |out| == c.limit && forall i :: 0 <= i < |out| ==> Beats(less, out[i].values[0], out[i].key, agg(names[0], bag), key)
    {
      GroupIs(c, rows, key, bag);
      LineKey(c, agg, kept, key);
      var k := LeftOut(c, agg, kept, all, out, key);
    }
  }

  lemma LeftOut(c: Compiled, agg: Aggregate, kept: seq<Row>, all: seq<Line>, out: seq<Line>, key: Key) returns (k: nat)
    requires Elems(all) == Lines(c, agg, kept) && out == Take(c.limit, all) && key in Keys(c.groupBy, kept) && c.limit >= 0
    requires forall i :: 0 <= i < |out| ==> out[i].key != key
    ensures |out| == c.limit <= k < |all| && all[k] == LineFor(c, agg, kept, key)
  {
    hide LineFor, Keys;
    LineKey(c, agg, kept, key);
    assert LineFor(c, agg, kept, key) in Elems(all);
    k :| 0 <= k < |all| && all[k] == LineFor(c, agg, kept, key);
    assert forall i :: 0 <= i < |out| ==> out[i] == all[i];
  }

  lemma OneLinePerKey(c: Compiled, agg: Aggregate, kept: seq<Row>, x: Line, y: Line, less: (Key, Key) -> bool)
    requires x == LineFor(c, agg, kept, x.key) && y == LineFor(c, agg, kept, y.key) && Precedes(less, x, y)
    requires StrictTotal(less) && |x.values| > 0 && |y.values| > 0
    ensures Beats(less, x.values[0], x.key, y.values[0], y.key)
  {
    hide LineFor;
    LessValuesTotal(x.values, y.values);
    assert less(x.key, x.key) ==> !less(x.key, x.key);
  }
}
