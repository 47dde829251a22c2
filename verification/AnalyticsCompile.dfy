/** The governed query compiler: a named query becomes SQL with numbered placeholders, here an
    abstract syntax tree with a meaning over rows. */
module AnalyticsCompile {
  import opened Basics
  import opened Sorting

  datatype Result<T, E> = Ok(value: T) | Err(error: E)

  // ---- registry --------------------------------------------------------------------

  datatype Dataset = Dataset(hasBase: bool, dimensions: set<string>, measures: set<string>)

  const REGISTRY: map<string, Dataset> := map[
    "documents" := Dataset(true,
      {"document_class", "lifecycle_state", "doc_type", "mime_type", "region_pin", "workspace_id", "created_by",
       "created_day", "created_month"},
      {"count", "total_size_bytes"}),
    "versions" := Dataset(true,
      {"mime_type", "workspace_id", "document_class", "created_by", "created_day", "created_month"},
      {"count", "total_size_bytes", "avg_size_bytes"}),
    "tasks" := Dataset(true,
      {"status", "priority", "assignee_id", "created_day", "created_month"},
      {"count"})]

  const DEFAULT_LIMIT := 100
  const MAX_LIMIT := 1000
  const MAX_FILTER_VALUES := 50

  // ---- queries and compiled queries ---------------------------------------------------

  datatype Query = Query(dataset: string, dimensions: seq<string>, measures: seq<string>,
                         filters: map<string, seq<string>>, from: Option<int>, to: Option<int>, limit: int)

  datatype Value = TenantValue(id: int) | TextValue(text: string) | TimeValue(at: int)

  /** Conditions refer to arguments only by position, counted from 1 as in SQL. */
  datatype Cond =
    | TenantIs(n: nat)
    | Base
    | DimIn(dim: string, ns: seq<nat>)
    | CreatedFrom(n: nat)
    | CreatedBefore(n: nat)

  datatype Select = SelectDim(name: string) | SelectMeasure(name: string)

  datatype Compiled = Compiled(selects: seq<Select>, conds: seq<Cond>, groupBy: seq<string>, orderBy: string,
                               limit: int, args: seq<Value>, columns: seq<string>)

  datatype Error =
    | UnknownDataset | NoMeasure | TooManyDimensions
    | NoSuchDimension(name: string) | NoSuchMeasure(name: string)
    | NoSuchFilter(name: string) | TooManyValues(name: string)

  // ---- meaning ----------------------------------------------------------------------------

  /** A joined row: the driving row's tenant and time, the dataset's base predicate, and the value
      of each dimension expression (None is NULL). */
  datatype Row = Row(tenant: int, createdAt: int, base: bool, dims: map<string, Option<string>>, sizes: map<string, int>)

  function DimOf(r: Row, dim: string): Option<string> { if dim in r.dims then r.dims[dim] else None }

  predicate ArgIs(args: seq<Value>, n: nat, v: Value) { 1 <= n <= |args| && args[n - 1] == v }

  predicate Holds(c: Cond, args: seq<Value>, r: Row) {
    match c
    case TenantIs(n) => ArgIs(args, n, TenantValue(r.tenant))
    case Base => r.base
    case DimIn(dim, ns) => DimOf(r, dim).Some? && exists n <- ns :: ArgIs(args, n, TextValue(DimOf(r, dim).value))
    case CreatedFrom(n) => 1 <= n <= |args| && args[n - 1].TimeValue? && r.createdAt >= args[n - 1].at
    case CreatedBefore(n) => 1 <= n <= |args| && args[n - 1].TimeValue? && r.createdAt < args[n - 1].at
  }

  predicate HoldsAll(cs: seq<Cond>, args: seq<Value>, r: Row) { forall i :: 0 <= i < |cs| ==> Holds(cs[i], args, r) }

  /** What the query asks for, without any mention of placeholders. */
  predicate Wanted(ds: Dataset, q: Query, tenant: int, r: Row) {
    && r.tenant == tenant
    && (ds.hasBase ==> r.base)
    && (forall name <- q.filters :: q.filters[name] != [] ==> DimOf(r, name).Some? && DimOf(r, name).value in q.filters[name])
    && (q.from.Some? ==> r.createdAt >= q.from.value)
    && (q.to.Some? ==> r.createdAt < q.to.value)
  }

  /** Every placeholder of a condition, in order of appearance. */
  function Holes(c: Cond): seq<nat> {
    match c
    case TenantIs(n) => [n]
    case Base => []
    case DimIn(_, ns) => ns
    case CreatedFrom(n) => [n]
    case CreatedBefore(n) => [n]
  }

  function AllHoles(cs: seq<Cond>): seq<nat> {
    if cs == [] then [] else AllHoles(cs[..|cs| - 1]) + Holes(cs[|cs| - 1])
  }

  function Upto(n: nat): seq<nat> { seq(n, i => i + 1) }

  // ---- sorting the filter names --------------------------------------------------------------

  predicate Before(a: string, b: string) {
    if b == "" then false
    else if a == "" then true
    else a[0] < b[0] || (a[0] == b[0] && Before(a[1..], b[1..]))
  }

  lemma {:induction false} BeforeTotal(a: string, b: string)
    ensures a == b || Before(a, b) || Before(b, a)
    ensures !(Before(a, b) && Before(b, a))
    decreases |a|
  {
    if a != "" && b != "" {
      BeforeTotal(a[1..], b[1..]);
      if a[0] == b[0] && a[1..] == b[1..] {
        assert a == [a[0]] + a[1..] && b == [b[0]] + b[1..];
      }
    }
  }

  lemma {:induction false} BeforeTransitive(a: string, b: string, c: string)
    requires Before(a, b) && Before(b, c)
    ensures Before(a, c)
    decreases |a|
  {
    if a != "" && a[0] == b[0] && b[0] == c[0] {
      BeforeTransitive(a[1..], b[1..], c[1..]);
    }
  }

  /** Dictionary order: a proper prefix comes first, otherwise the first difference decides. */
  lemma {:induction false} BeforeReads(a: string, b: string)
    ensures Before(a, b) <==> a < b || exists i :: DiffersAt(a, b, i) && a[i] < b[i]
    decreases |a|
  {
    if a != "" && b != "" {
      var a', b' := a[1..], b[1..];
      BeforeReads(a', b');
      if a[0] == b[0] {
        assert a == [a[0]] + a' && b == [b[0]] + b';
        assert a < b <==> a' < b';
        if i :| DiffersAt(a', b', i) && a'[i] < b'[i] {
          assert a[..i + 1] == [a[0]] + a'[..i] && b[..i + 1] == [b[0]] + b'[..i];
          assert DiffersAt(a, b, i + 1);
        }
        if i :| DiffersAt(a, b, i) && a[i] < b[i] {
          assert i > 0 && a'[..i - 1] == a[..i][1..] && b'[..i - 1] == b[..i][1..];
          assert DiffersAt(a', b', i - 1);
        }
      } else {
        assert DiffersAt(a, b, 0);
        assert forall i :: DiffersAt(a, b, i) && i > 0 ==> a[..i][0] == b[..i][0];
      }
    }
  }

  predicate DiffersAt(a: string, b: string, i: int) { 0 <= i < |a| && i < |b| && a[..i] == b[..i] && a[i] != b[i] }

  lemma BeforeIsStrictTotal()
    ensures StrictTotal(Before)
  {
    forall a, b
      ensures a == b || Before(a, b) || Before(b, a)
      ensures Before(a, b) ==> !Before(b, a)
    {
      BeforeTotal(a, b);
    }
    forall a, b, c | Before(a, b) && Before(b, c)
      ensures Before(a, c)
    {
      BeforeTransitive(a, b, c);
    }
  }

  // ---- the filter part -------------------------------------------------------------------------

  predicate FilterFails(ds: Dataset, q: Query, name: string)
    requires name in q.filters
  {
    name !in ds.dimensions || |q.filters[name]| > MAX_FILTER_VALUES
  }

  function Texts(vals: seq<string>): seq<Value> { seq(|vals|, i requires 0 <= i < |vals| => TextValue(vals[i])) }

  /** Positions start+1 .. start+n, the placeholders of n values appended after `start`. */
  function Fresh(start: nat, n: nat): seq<nat> { seq(n, i => start + i + 1) }

  /** Arguments and conditions for the filters in `names`, after the given ones. */
  function Filtered(q: Query, names: seq<string>, args: seq<Value>, conds: seq<Cond>): (seq<Value>, seq<Cond>)
    requires forall x <- names :: x in q.filters
  {
    if names == [] then (args, conds)
    else
      var name := names[|names| - 1];
      var (args1, conds1) := Filtered(q, names[..|names| - 1], args, conds);
      var vals := q.filters[name];
      if vals == [] then (args1, conds1)
      else (args1 + Texts(vals), conds1 + [DimIn(name, Fresh(|args1|, |vals|))])
  }

  /** Conditions already built do not change their meaning when arguments are appended. */
  lemma HoldsExtends(c: Cond, args: seq<Value>, more: seq<Value>, r: Row)
    requires forall n <- Holes(c) :: 1 <= n <= |args|
    ensures Holds(c, args + more, r) <==> Holds(c, args, r)
  {
    if c.TenantIs? || c.CreatedFrom? || c.CreatedBefore? {
      assert c.n in Holes(c);
    } else if c.DimIn? && DimOf(r, c.dim).Some? {
      var v := TextValue(DimOf(r, c.dim).value);
      forall n | n in c.ns
        ensures ArgIs(args + more, n, v) == ArgIs(args, n, v)
      {
        assert n in Holes(c);
      }
    }
  }

  predicate InRange(cs: seq<Cond>, n: nat) { forall i :: 0 <= i < |cs| ==> forall h <- Holes(cs[i]) :: 1 <= h <= n }

  lemma HoldsAllExtends(cs: seq<Cond>, args: seq<Value>, more: seq<Value>, r: Row)
    requires InRange(cs, |args|)
    ensures HoldsAll(cs, args + more, r) <==> HoldsAll(cs, args, r)
  {
    forall i | 0 <= i < |cs|
      ensures Holds(cs[i], args + more, r) <==> Holds(cs[i], args, r)
    {
      HoldsExtends(cs[i], args, more, r);
    }
  }

  lemma NewFilterHolds(dim: string, args: seq<Value>, vals: seq<string>, r: Row)
    ensures Holds(DimIn(dim, Fresh(|args|, |vals|)), args + Texts(vals), r) <==> DimOf(r, dim).Some? && DimOf(r, dim).value in vals
  {
    var all, ns := args + Texts(vals), Fresh(|args|, |vals|);
    forall i | 0 <= i < |vals|
      ensures all[|args| + i] == TextValue(vals[i]) && ns[i] == |args| + i + 1 && ns[i] in ns
    {
    }
    if DimOf(r, dim).Some? && DimOf(r, dim).value in vals {
      var i :| 0 <= i < |vals| && vals[i] == DimOf(r, dim).value;
      assert ArgIs(all, ns[i], TextValue(vals[i]));
    }
  }

  lemma HoldsAllSnoc(cs: seq<Cond>, c: Cond, args: seq<Value>, r: Row)
    ensures HoldsAll(cs + [c], args, r) <==> HoldsAll(cs, args, r) && Holds(c, args, r)
  {
    assert (cs + [c])[|cs|] == c && forall i :: 0 <= i < |cs| ==> (cs + [c])[i] == cs[i];
  }

  predicate FiltersMet(q: Query, names: seq<string>, r: Row)
    requires forall x <- names :: x in q.filters
  {
    forall x <- names :: q.filters[x] != [] ==> DimOf(r, x).Some? && DimOf(r, x).value in q.filters[x]
  }

  lemma AllHolesSnoc(cs: seq<Cond>, c: Cond)
    ensures AllHoles(cs + [c]) == AllHoles(cs) + Holes(c)
  {
    assert (cs + [c])[..|cs|] == cs;
  }

  lemma {:induction false} HolesInRange(cs: seq<Cond>, n: nat)
    requires AllHoles(cs) == Upto(n)
    ensures InRange(cs, n)
  {
    forall i | 0 <= i < |cs|
      ensures forall h <- Holes(cs[i]) :: h in AllHoles(cs)
    {
      HoleListed(cs, i);
    }
  }

  lemma {:induction false} HoleListed(cs: seq<Cond>, i: nat)
    requires i < |cs|
    ensures forall h <- Holes(cs[i]) :: h in AllHoles(cs)
    decreases |cs|
  {
    if i < |cs| - 1 {
      HoleListed(cs[..|cs| - 1], i);
    }
  }

  lemma OneFilter(args: seq<Value>, conds: seq<Cond>, name: string, vals: seq<string>, r: Row)
    requires AllHoles(conds) == Upto(|args|)
    ensures var c := DimIn(name, Fresh(|args|, |vals|));
      && AllHoles(conds + [c]) == Upto(|args + Texts(vals)|)
      && (HoldsAll(conds + [c], args + Texts(vals), r) <==>
            HoldsAll(conds, args, r) && DimOf(r, name).Some? && DimOf(r, name).value in vals)
  {
    hide HoldsAll, Holds, AllHoles;
    var c := DimIn(name, Fresh(|args|, |vals|));
    HolesInRange(conds, |args|);
    HoldsAllExtends(conds, args, Texts(vals), r);
    NewFilterHolds(name, args, vals, r);
    HoldsAllSnoc(conds, c, args + Texts(vals), r);
    AllHolesSnoc(conds, c);
    assert Upto(|args|) + Fresh(|args|, |vals|) == Upto(|args| + |vals|);
  }

  /** The filter loop keeps the placeholders in step with the arguments and adds exactly the
      filters' meaning. */
  lemma {:induction false} FilteredMeaning(q: Query, names: seq<string>, args: seq<Value>, conds: seq<Cond>, r: Row)
    requires forall x <- names :: x in q.filters
    requires AllHoles(conds) == Upto(|args|)
    ensures var (args', conds') := Filtered(q, names, args, conds);
      && AllHoles(conds') == Upto(|args'|)
      && (HoldsAll(conds', args', r) <==> HoldsAll(conds, args, r) && FiltersMet(q, names, r))
    decreases |names|
  {
    hide HoldsAll, Holds, AllHoles, Upto;
    if names != [] {
      var n := |names| - 1;
      var name, before := names[n], names[..n];
      assert names == before + [name];
      FilteredMeaning(q, before, args, conds, r);
      var (args1, conds1) := Filtered(q, before, args, conds);
      if q.filters[name] != [] {
        OneFilter(args1, conds1, name, q.filters[name], r);
      }
    }
  }

  // ---- the time range and the whole WHERE ---------------------------------------------------------

  function WithFrom(t: Option<int>, p: (seq<Value>, seq<Cond>)): (seq<Value>, seq<Cond>) {
    if t.None? then p else (p.0 + [TimeValue(t.value)], p.1 + [CreatedFrom(|p.0| + 1)])
  }

  function WithTo(t: Option<int>, p: (seq<Value>, seq<Cond>)): (seq<Value>, seq<Cond>) {
    if t.None? then p else (p.0 + [TimeValue(t.value)], p.1 + [CreatedBefore(|p.0| + 1)])
  }

  function Start(ds: Dataset, tenant: int): (seq<Value>, seq<Cond>) {
    ([TenantValue(tenant)], if ds.hasBase then [TenantIs(1), Base] else [TenantIs(1)])
  }

  function Where(ds: Dataset, q: Query, tenant: int, names: seq<string>): (seq<Value>, seq<Cond>)
    requires forall x <- names :: x in q.filters
  {
    var start := Start(ds, tenant);
    WithTo(q.to, WithFrom(q.from, Filtered(q, names, start.0, start.1)))
  }

  lemma StartMeaning(ds: Dataset, tenant: int, r: Row)
    ensures var (args, conds) := Start(ds, tenant);
      AllHoles(conds) == Upto(|args|) && (HoldsAll(conds, args, r) <==> r.tenant == tenant && (ds.hasBase ==> r.base))
  {
    var (args, conds) := Start(ds, tenant);
    assert [TenantIs(1)] == [] + [TenantIs(1)];
    AllHolesSnoc([], TenantIs(1));
    HoldsAllSnoc([], TenantIs(1), args, r);
    if ds.hasBase {
      assert conds == [TenantIs(1)] + [Base];
      AllHolesSnoc([TenantIs(1)], Base);
      HoldsAllSnoc([TenantIs(1)], Base, args, r);
    }
  }

  lemma BoundMeaning(p: (seq<Value>, seq<Cond>), t: int, c: Cond, r: Row)
    requires AllHoles(p.1) == Upto(|p.0|) && (c == CreatedFrom(|p.0| + 1) || c == CreatedBefore(|p.0| + 1))
    ensures AllHoles(p.1 + [c]) == Upto(|p.0| + 1)
    ensures HoldsAll(p.1 + [c], p.0 + [TimeValue(t)], r) <==>
            HoldsAll(p.1, p.0, r) && if c.CreatedFrom? then r.createdAt >= t else r.createdAt < t
  {
    AllHolesSnoc(p.1, c);
    assert Upto(|p.0|) + [|p.0| + 1] == Upto(|p.0| + 1);
    HolesInRange(p.1, |p.0|);
    HoldsAllExtends(p.1, p.0, [TimeValue(t)], r);
    HoldsAllSnoc(p.1, c, p.0 + [TimeValue(t)], r);
  }

  /** A row satisfies the compiled WHERE under the compiled arguments if and only if the query
      wants it, and the placeholders are $1, $2, ... in order, one for each argument. */
  lemma WhereMeaning(ds: Dataset, q: Query, tenant: int, names: seq<string>, r: Row)
    requires Elems(names) == q.filters.Keys
    ensures (forall x <- names :: x in q.filters) &&
      var (args, conds) := Where(ds, q, tenant, names);
      AllHoles(conds) == Upto(|args|) && (HoldsAll(conds, args, r) <==> Wanted(ds, q, tenant, r))
  {
    forall x | x in names
      ensures x in q.filters
    {
      assert x in Elems(names);
    }
    hide HoldsAll, Holds, AllHoles, Filtered, FiltersMet, Upto, Start, WithFrom, WithTo;
    var start := Start(ds, tenant);
    StartMeaning(ds, tenant, r);
    FilteredMeaning(q, names, start.0, start.1, r);
    var p := Filtered(q, names, start.0, start.1);
    FromMeaning(q.from, p, r);
    ToMeaning(q.to, WithFrom(q.from, p), r);
    FiltersMetByAll(q, names, r);
  }

  lemma FromMeaning(t: Option<int>, p: (seq<Value>, seq<Cond>), r: Row)
    requires AllHoles(p.1) == Upto(|p.0|)
    ensures var p' := WithFrom(t, p);
      AllHoles(p'.1) == Upto(|p'.0|) && (HoldsAll(p'.1, p'.0, r) <==> HoldsAll(p.1, p.0, r) && (t.Some? ==> r.createdAt >= t.value))
  {
    hide HoldsAll, AllHoles, Upto;
    if t.Some? {
      BoundMeaning(p, t.value, CreatedFrom(|p.0| + 1), r);
    }
  }

  lemma ToMeaning(t: Option<int>, p: (seq<Value>, seq<Cond>), r: Row)
    requires AllHoles(p.1) == Upto(|p.0|)
    ensures var p' := WithTo(t, p);
      AllHoles(p'.1) == Upto(|p'.0|) && (HoldsAll(p'.1, p'.0, r) <==> HoldsAll(p.1, p.0, r) && (t.Some? ==> r.createdAt < t.value))
  {
    hide HoldsAll, AllHoles, Upto;
    if t.Some? {
      BoundMeaning(p, t.value, CreatedBefore(|p.0| + 1), r);
    }
  }

  lemma FiltersMetByAll(q: Query, names: seq<string>, r: Row)
    requires Elems(names) == q.filters.Keys && forall x <- names :: x in q.filters
    ensures FiltersMet(q, names, r) <==>
      forall x <- q.filters :: q.filters[x] != [] ==> DimOf(r, x).Some? && DimOf(r, x).value in q.filters[x]
  {
    assert forall x <- q.filters :: x in Elems(names);
  }

  // ---- the compiler ----------------------------------------------------------------------------------

  predicate Accepted(q: Query) {
    && q.dataset in REGISTRY
    && var ds := REGISTRY[q.dataset];
    && q.measures != [] && |q.dimensions| <= 3
    && (forall d <- q.dimensions :: d in ds.dimensions)
    && (forall m <- q.measures :: m in ds.measures)
    && (forall f <- q.filters :: !FilterFails(ds, q, f))
  }

  function Limit(n: int): int { if n <= 0 then DEFAULT_LIMIT else if n > MAX_LIMIT then MAX_LIMIT else n }

  function Selects(q: Query): seq<Select> {
    seq(|q.dimensions|, i requires 0 <= i < |q.dimensions| => SelectDim(q.dimensions[i]))
    + seq(|q.measures|, i requires 0 <= i < |q.measures| => SelectMeasure(q.measures[i]))
  }

  /** Succeeds exactly on accepted queries. The output is fixed by the query alone, whatever order
      the filter map is walked in; a row satisfies it if and only if the query wants the row; and
      the placeholders are exactly $1 .. $n for n arguments. */
  method Compile(q: Query, tenant: int) returns (r: Result<Compiled, Error>)
    ensures r.Ok? <==> Accepted(q)
    ensures r == Err(UnknownDataset) <==> q.dataset !in REGISTRY
    ensures r == Err(NoMeasure) <==> q.dataset in REGISTRY && q.measures == []
    ensures r == Err(TooManyDimensions) <==> q.dataset in REGISTRY && q.measures != [] && |q.dimensions| > 3
    ensures r.Ok? ==> forall f <- q.filters :: |q.filters[f]| <= 50
    ensures r.Ok? ==> r.value.limit == if q.limit <= 0 then 100 else if q.limit > 1000 then 1000 else q.limit
    ensures r.Ok? ==> forall names: seq<string> :: Lists(Before, names, q.filters.Keys) && (forall x <- names :: x in q.filters) ==>
      (r.value.args, r.value.conds) == Where(REGISTRY[q.dataset], q, tenant, names)
    ensures r.Ok? ==> forall row: Row :: HoldsAll(r.value.conds, r.value.args, row) <==> Wanted(REGISTRY[q.dataset], q, tenant, row)
    ensures r.Ok? ==> AllHoles(r.value.conds) == Upto(|r.value.args|)
    ensures r.Ok? ==> r.value.selects == Selects(q) && r.value.columns == q.dimensions + q.measures
    ensures r.Ok? ==> r.value.groupBy == q.dimensions && r.value.orderBy == q.measures[0] && r.value.limit == Limit(q.limit)
  {
    if q.dataset !in REGISTRY {
      return Err(UnknownDataset);
    }
    var ds := REGISTRY[q.dataset];
    if q.measures == [] {
      return Err(NoMeasure);
    }
    if |q.dimensions| > 3 {
      return Err(TooManyDimensions);
    }
    hide HoldsAll, Holds, AllHoles, Wanted, Selects, Where, Lists, Upto, REGISTRY;
    var failure, selects, groupBy, cols := SelectList(ds, q);
    if failure.Some? {
      return Err(failure.value);
    }
    var failed, args, conds := WhereList(ds, q, tenant);
    if failed.Some? {
      return Err(failed.value);
    }
    return Ok(Compiled(selects, conds, groupBy, q.measures[0], Limit(q.limit), args, cols));
  }

  method WhereList(ds: Dataset, q: Query, tenant: int) returns (failure: Option<Error>, args: seq<Value>, conds: seq<Cond>)
    ensures failure.Some? ==> failure.value.NoSuchFilter? || failure.value.TooManyValues?
    ensures failure.None? <==> forall f <- q.filters :: !FilterFails(ds, q, f)
    ensures failure.None? ==> forall names: seq<string> :: Lists(Before, names, q.filters.Keys) && (forall x <- names :: x in q.filters) ==>
      (args, conds) == Where(ds, q, tenant, names)
    ensures failure.None? ==> forall row: Row :: HoldsAll(conds, args, row) <==> Wanted(ds, q, tenant, row)
    ensures failure.None? ==> AllHoles(conds) == Upto(|args|)
  {
    hide HoldsAll, Holds, AllHoles, Wanted, Filtered, FilterFails, Start, Upto;
    var start := Start(ds, tenant);
    args, conds := start.0, start.1;
    BeforeIsStrictTotal();
    var fnames := SortSet(Before, q.filters.Keys);
    failure, args, conds := FilterList(ds, q, fnames, args, conds);
    if failure.Some? {
      return;
    }
    if q.from.Some? {
      args := args + [TimeValue(q.from.value)];
      conds := conds + [CreatedFrom(|args|)];
    }
    if q.to.Some? {
      args := args + [TimeValue(q.to.value)];
      conds := conds + [CreatedBefore(|args|)];
    }
    assert (args, conds) == Where(ds, q, tenant, fnames);
    hide Where;
    forall row: Row
      ensures HoldsAll(conds, args, row) <==> Wanted(ds, q, tenant, row)
    {
      WhereMeaning(ds, q, tenant, fnames, row);
    }
    WhereMeaning(ds, q, tenant, fnames, Row(0, 0, false, map[], map[]));
    forall names: seq<string> | Lists(Before, names, q.filters.Keys)
      ensures names == fnames
    {
      ListingUnique(Before, names, fnames);
    }
  }

  method SelectList(ds: Dataset, q: Query) returns (failure: Option<Error>, selects: seq<Select>, groupBy: seq<string>, cols: seq<string>)
    ensures failure.Some? ==> failure.value.NoSuchDimension? || failure.value.NoSuchMeasure?
    ensures failure.None? <==> (forall d <- q.dimensions :: d in ds.dimensions) && (forall m <- q.measures :: m in ds.measures)
    ensures failure.None? ==> |selects| == |q.dimensions| + |q.measures|
    ensures failure.None? ==> selects == Selects(q) && groupBy == q.dimensions && cols == q.dimensions + q.measures
  {
    selects, groupBy, cols := [], [], [];
    for i := 0 to |q.dimensions|
      invariant forall d <- q.dimensions[..i] :: d in ds.dimensions
      invariant groupBy == q.dimensions[..i] && cols == groupBy && |selects| == i
      invariant forall j :: 0 <= j < i ==> selects[j] == SelectDim(q.dimensions[j])
    {
      var name := q.dimensions[i];
      if name !in ds.dimensions {
        return Some(NoSuchDimension(name)), selects, groupBy, cols;
      }
      selects, groupBy, cols := selects + [SelectDim(name)], groupBy + [name], cols + [name];
    }
    assert q.dimensions[..|q.dimensions|] == q.dimensions;
    for i := 0 to |q.measures|
      invariant forall m <- q.measures[..i] :: m in ds.measures
      invariant cols == q.dimensions + q.measures[..i] && |selects| == |q.dimensions| + i
      invariant forall j :: 0 <= j < |q.dimensions| ==> selects[j] == SelectDim(q.dimensions[j])
      invariant forall j :: 0 <= j < i ==> selects[|q.dimensions| + j] == SelectMeasure(q.measures[j])
    {
      var name := q.measures[i];
      if name !in ds.measures {
        return Some(NoSuchMeasure(name)), selects, groupBy, cols;
      }
      selects, cols := selects + [SelectMeasure(name)], cols + [name];
    }
    assert q.measures[..|q.measures|] == q.measures;
    failure := None;
  }

  method FilterList(ds: Dataset, q: Query, fnames: seq<string>, args0: seq<Value>, conds0: seq<Cond>)
    returns (failure: Option<Error>, args: seq<Value>, conds: seq<Cond>)
    requires Elems(fnames) == q.filters.Keys
    ensures forall x <- fnames :: x in q.filters
    ensures failure.None? <==> forall f <- q.filters :: !FilterFails(ds, q, f)
    ensures failure.None? ==> (args, conds) == Filtered(q, fnames, args0, conds0)
    ensures failure.Some? ==>
      var f := failure.value;
      || (f.NoSuchFilter? && f.name in q.filters && f.name !in ds.dimensions)
      || (f.TooManyValues? && f.name in q.filters && |q.filters[f.name]| > 50)
  {
    forall x | x in fnames
      ensures x in q.filters
    {
      assert x in Elems(fnames);
    }
    args, conds := args0, conds0;
    for i := 0 to |fnames|
      invariant forall x <- fnames[..i] :: x in q.filters && !FilterFails(ds, q, x)
      invariant (args, conds) == Filtered(q, fnames[..i], args0, conds0)
    {
      var name := fnames[i];
      assert fnames[..i + 1][..i] == fnames[..i];
      assert fnames[..i + 1] == fnames[..i] + [name];
      assert name in q.filters;
      if name !in ds.dimensions {
        assert FilterFails(ds, q, name);
        return Some(NoSuchFilter(name)), args, conds;
      }
      var vals := q.filters[name];
      if |vals| == 0 {
        continue;
      }
      if |vals| > MAX_FILTER_VALUES {
        assert FilterFails(ds, q, name);
        return Some(TooManyValues(name)), args, conds;
      }
      var ph: seq<nat> := [];
      ghost var before := args;
      for j := 0 to |vals|
        invariant args == before + Texts(vals[..j]) && ph == Fresh(|before|, j)
      {
        assert Texts(vals[..j]) + [TextValue(vals[j])] == Texts(vals[..j + 1]);
        args := args + [TextValue(vals[j])];
        ph := ph + [|args|];
        assert Fresh(|before|, j) + [|before| + j + 1] == Fresh(|before|, j + 1);
      }
      assert vals[..|vals|] == vals;
      conds := conds + [DimIn(name, ph)];
    }
    assert fnames[..|fnames|] == fnames;
    forall f | f in q.filters
      ensures !FilterFails(ds, q, f)
    {
      assert f in Elems(fnames);
    }
    failure := None;
  }
}
