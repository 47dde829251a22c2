/** The FROM clauses behind the datasets: per-tenant tables, joins on (tenant, id), the first-assignee
    pick, and the dimension expressions over the joined records. */
module AnalyticsJoins {
  import opened Basics
  import opened Sorting
  import opened AnalyticsCompile
  import opened AnalyticsResult

  // ---- tables and FROM clauses --------------------------------------------------------

  /** A stored row. A column missing from `cols` is NULL. */
  datatype Rec = Rec(tenant: int, id: string, createdAt: int, deleted: bool, size: int, cols: map<string, string>)

  /** Each table lists its rows in physical order. */
  type Db = map<string, seq<Rec>>

  function TableOf(db: Db, name: string): seq<Rec> { if name in db then db[name] else [] }

  datatype Join =
    | OnKey(alias: string, table: string, inner: bool, via: string, column: string)
      // [LEFT] JOIN table alias ON alias.tenant_id = t.tenant_id AND alias.id = via.column
    | FirstOf(alias: string, table: string, column: string)
      // LEFT JOIN LATERAL (the id of the earliest row with tenant_id = t.tenant_id AND column = t.id)

  datatype Expr = Coalesce(refs: seq<(string, string)>, orEmpty: bool) | Day | Month

  /** A dataset's FROM clause, the alias whose deleted_at the base predicate tests, and its dimensions. */
  datatype Source = Source(table: string, joins: seq<Join>, base: string, dims: map<string, Expr>)

  /** Date texts of a timestamp. */
  datatype Calendar = Calendar(day: int -> string, month: int -> string)

  const USERS := OnKey("u", "users", false, "t", "created_by")
  const AUTHOR := Coalesce([("u", "display_name"), ("u", "email"), ("t", "created_by")], true)

  const DOCUMENTS := Source("documents",
    [USERS, OnKey("w", "workspaces", false, "t", "workspace_id")], "t", map[
      "document_class" := Coalesce([("t", "document_class")], false),
      "lifecycle_state" := Coalesce([("t", "lifecycle_state")], false),
      "doc_type" := Coalesce([("t", "doc_type")], false),
      "mime_type" := Coalesce([("t", "mime_type")], true),
      "region_pin" := Coalesce([("t", "region_pin")], false),
      "workspace_id" := Coalesce([("w", "name"), ("t", "workspace_id")], false),
      "created_by" := AUTHOR, "created_day" := Day, "created_month" := Month])

  const VERSIONS := Source("document_versions",
    [OnKey("d", "documents", true, "t", "document_id"), USERS, OnKey("w", "workspaces", false, "d", "workspace_id")], "d", map[
      "mime_type" := Coalesce([("t", "mime_type")], true),
      "workspace_id" := Coalesce([("w", "name"), ("d", "workspace_id")], false),
      "document_class" := Coalesce([("d", "document_class")], false),
      "created_by" := AUTHOR, "created_day" := Day, "created_month" := Month])

  const TASKS := Source("tasks",
    [FirstOf("a1", "task_assignees", "task_id"), OnKey("u", "users", false, "a1", "id")], "t", map[
      "status" := Coalesce([("t", "status")], false),
      "priority" := Coalesce([("t", "priority")], false),
      "assignee_id" := Coalesce([("u", "display_name"), ("u", "email"), ("a1", "id")], true),
      "created_day" := Day, "created_month" := Month])

  const SOURCES: map<string, Source> := map["documents" := DOCUMENTS, "versions" := VERSIONS, "tasks" := TASKS]

  /** The sources are those of the compiler's registry, dimension by dimension. */
  lemma SourcesMatchRegistry(name: string)
    ensures name in SOURCES <==> name in REGISTRY
    ensures name in SOURCES ==> SOURCES[name].dims.Keys == REGISTRY[name].dimensions && REGISTRY[name].hasBase
    ensures name in REGISTRY ==>
      && name in {"documents", "versions", "tasks"} && "count" in REGISTRY[name].measures
      && ("total_size_bytes" in REGISTRY[name].measures <==> name != "tasks")
      && ("avg_size_bytes" in REGISTRY[name].measures <==> name == "versions")
  {
  }

  // ---- what a FROM clause yields ------------------------------------------------------------

  /** One joined row: the driving record and what each alias is bound to (None is a row of NULLs). */
  datatype Env = Env(t: Rec, others: map<string, Option<Rec>>)

  function At(e: Env, alias: string): Option<Rec> {
    if alias == "t" then Some(e.t) else if alias in e.others then e.others[alias] else None
  }

  function Column(r: Option<Rec>, name: string): Option<string> {
    if r.None? then None
    else if name == "id" then Some(r.value.id)
    else if name in r.value.cols then Some(r.value.cols[name])
    else None
  }

  predicate Hit(j: Join, e: Env, r: Rec) {
    && r.tenant == e.t.tenant
    && match j
       case OnKey(_, _, _, via, column) => Column(At(e, via), column) == Some(r.id)
       case FirstOf(_, _, column) => Column(Some(r), column) == Some(e.t.id)
  }

  function Hits(rs: seq<Rec>, j: Join, e: Env): seq<Rec> {
    if rs == [] then [] else (if Hit(j, e, rs[0]) then [rs[0]] else []) + Hits(rs[1..], j, e)
  }

  predicate Earlier(a: Rec, b: Rec) { a.createdAt < b.createdAt || (a.createdAt == b.createdAt && Before(a.id, b.id)) }

  /** ORDER BY added_at, user_id LIMIT 1. */
  function Earliest(rs: seq<Rec>): Rec
    requires rs != []
  {
    if |rs| == 1 then rs[0]
    else var e := Earliest(rs[1..]); if Earlier(e, rs[0]) then e else rs[0]
  }

  function Bind(e: Env, alias: string, r: Option<Rec>): Env { e.(others := e.others[alias := r]) }

  /** Only the user id is selected from the assignee. */
  function UserId(r: Rec): Rec { Rec(r.tenant, r.id, 0, false, 0, map[]) }

  function Step(db: Db, j: Join, e: Env): seq<Env> {
    var hits := Hits(TableOf(db, j.table), j, e);
    match j
    case OnKey(alias, _, inner, _, _) =>
      if hits == [] then (if inner then [] else [Bind(e, alias, None)])
      else seq(|hits|, i requires 0 <= i < |hits| => Bind(e, alias, Some(hits[i])))
    case FirstOf(alias, _, _) =>
      [Bind(e, alias, if hits == [] then None else Some(UserId(Earliest(hits))))]
  }

  function FlatMap<A, B>(s: seq<A>, f: A -> seq<B>): seq<B> {
    if s == [] then [] else f(s[0]) + FlatMap(s[1..], f)
  }

  function Expand(db: Db, joins: seq<Join>, envs: seq<Env>): seq<Env>
    decreases |joins|
  {
    if joins == [] then envs else Expand(db, joins[1..], FlatMap(envs, e => Step(db, joins[0], e)))
  }

  function Start(rs: seq<Rec>): seq<Env> { FlatMap(rs, (r: Rec) => [Env(r, map[])]) }

  function FirstNonNull(e: Env, refs: seq<(string, string)>): Option<string> {
    if refs == [] then None
    else
      var v := Column(At(e, refs[0].0), refs[0].1);
      if v.Some? then v else FirstNonNull(e, refs[1..])
  }

  function Eval(cal: Calendar, x: Expr, e: Env): Option<string> {
    match x
    case Coalesce(refs, orEmpty) => var v := FirstNonNull(e, refs); if v.None? && orEmpty then Some("") else v
    case Day => Some(cal.day(e.t.createdAt))
    case Month => Some(cal.month(e.t.createdAt))
  }

  /** The compiler's view of a joined row. `d.deleted_at IS NULL` holds of a row of NULLs too. */
  function RowOf(cal: Calendar, src: Source, e: Env): Row {
    var b := At(e, src.base);
    Row(e.t.tenant, e.t.createdAt, b.None? || !b.value.deleted,
        map d | d in src.dims :: Eval(cal, src.dims[d], e), map["size" := e.t.size])
  }

  function Joined(db: Db, src: Source): seq<Env> { Expand(db, src.joins, Start(TableOf(db, src.table))) }

  function Rows(cal: Calendar, src: Source, envs: seq<Env>): seq<Row> { FlatMap(envs, e => [RowOf(cal, src, e)]) }

  // ---- bags under FlatMap ---------------------------------------------------------------------

  lemma {:induction false} FlatMapConcat<A, B>(a: seq<A>, b: seq<A>, f: A -> seq<B>)
    ensures FlatMap(a + b, f) == FlatMap(a, f) + FlatMap(b, f)
  {
    if a == [] {
      assert a + b == b;
    } else {
      assert (a + b)[0] == a[0] && (a + b)[1..] == a[1..] + b;
      FlatMapConcat(a[1..], b, f);
    }
  }

  lemma {:induction false} FlatMapFrom<A, B>(s: seq<A>, f: A -> seq<B>, y: B) returns (k: nat)
    requires y in FlatMap(s, f)
    ensures k < |s| && y in f(s[k])
  {
    if y in f(s[0]) {
      k := 0;
    } else {
      k := FlatMapFrom(s[1..], f, y);
      k := k + 1;
    }
  }

  /** Removing one element removes its images. */
  lemma FlatMapWithout<A, B>(s: seq<A>, k: nat, f: A -> seq<B>)
    requires k < |s|
    ensures multiset(s) == multiset{s[k]} + multiset(s[..k] + s[k + 1..])
    ensures multiset(FlatMap(s, f)) == multiset(f(s[k])) + multiset(FlatMap(s[..k] + s[k + 1..], f))
  {
    hide FlatMap;
    var u, x, v := s[..k], s[k], s[k + 1..];
    assert s == u + ([x] + v);
    FlatMapConcat(u, [x] + v, f);
    FlatMapConcat([x], v, f);
    FlatMapConcat(u, v, f);
    FlatMapOne(x, f);
  }

  lemma FlatMapOne<A, B>(x: A, f: A -> seq<B>)
    ensures FlatMap([x], f) == f(x)
  {
    assert [x][1..] == [] && FlatMap([], f) == [] && f(x) + [] == f(x);
  }

  /** f sends inputs that are kept to outputs that are kept, and the others to the others. */
  ghost predicate Respects<A(!new), B(!new)>(f: A -> seq<B>, p: A -> bool, q: B -> bool) {
    forall x, y :: y in f(x) ==> (q(y) <==> p(x))
  }

  ghost predicate SameBag<A(!new)>(a: seq<A>, b: seq<A>, p: A -> bool) {
    forall x | p(x) :: multiset(a)[x] == multiset(b)[x]
  }

  lemma NoneKept<A(!new), B(!new)>(s: seq<A>, f: A -> seq<B>, p: A -> bool, q: B -> bool, y: B)
    requires Respects(f, p, q) && q(y) && forall x <- s :: !p(x)
    ensures multiset(FlatMap(s, f))[y] == 0
  {
    if y in FlatMap(s, f) {
      var k := FlatMapFrom(s, f, y);
    }
  }

  /** Bags that agree on what is kept are sent to bags that agree on what is kept. */
  lemma {:induction false} FlatMapBag<A(!new), B(!new)>(a: seq<A>, b: seq<A>, f: A -> seq<B>, g: A -> seq<B>, p: A -> bool, q: B -> bool)
    requires SameBag(a, b, p) && Respects(f, p, q) && Respects(g, p, q)
    requires forall x | p(x) :: multiset(f(x)) == multiset(g(x))
    ensures SameBag(FlatMap(a, f), FlatMap(b, g), q)
    decreases |a|
  {
    hide FlatMap;
    if a == [] {
      forall y | q(y)
        ensures multiset(FlatMap(a, f))[y] == multiset(FlatMap(b, g))[y]
      {
        assert forall x <- b :: multiset(b)[x] > 0;
        NoneKept(a, f, p, q, y);
        NoneKept(b, g, p, q, y);
      }
    } else {
      var x, rest := a[0], a[1..];
      assert a[..0] + a[1..] == rest;
      FlatMapWithout(a, 0, f);
      if p(x) {
        assert multiset(b)[x] == multiset(a)[x] > 0;
        var k :| 0 <= k < |b| && b[k] == x;
        FlatMapWithout(b, k, g);
        FlatMapBag(rest, b[..k] + b[k + 1..], f, g, p, q);
      } else {
        FlatMapBag(rest, b, f, g, p, q);
        assert forall y | q(y) :: multiset(f(x))[y] == 0;
      }
    }
  }

  // ---- only the tenant's rows matter -----------------------------------------------------------

  /** The databases hold the same rows of this tenant, in any physical order; their other rows may
      differ in every table. */
  ghost predicate AgreeOn(db1: Db, db2: Db, tenant: int) {
    forall name: string, r: Rec :: r.tenant == tenant ==> multiset(TableOf(db1, name))[r] == multiset(TableOf(db2, name))[r]
  }

  lemma {:induction false} HitsBag(rs: seq<Rec>, j: Join, e: Env, r: Rec)
    ensures multiset(Hits(rs, j, e))[r] == if Hit(j, e, r) then multiset(rs)[r] else 0
  {
    hide Hit;
    if rs != [] {
      HitsBag(rs[1..], j, e, r);
      assert rs == [rs[0]] + rs[1..];
    }
  }

  lemma HitTenant(j: Join, e: Env, r: Rec)
    ensures Hit(j, e, r) ==> r.tenant == e.t.tenant
  {
  }

  lemma {:induction false} SameHits(db1: Db, db2: Db, j: Join, e: Env)
    requires AgreeOn(db1, db2, e.t.tenant)
    ensures multiset(Hits(TableOf(db1, j.table), j, e)) == multiset(Hits(TableOf(db2, j.table), j, e))
  {
    hide Hit, Hits, TableOf;
    forall r: Rec
      ensures multiset(Hits(TableOf(db1, j.table), j, e))[r] == multiset(Hits(TableOf(db2, j.table), j, e))[r]
    {
      HitsBag(TableOf(db1, j.table), j, e, r);
      HitsBag(TableOf(db2, j.table), j, e, r);
      HitTenant(j, e, r);
    }
  }

  lemma {:induction false} EarliestIsLeast(rs: seq<Rec>)
    requires rs != []
    ensures Earliest(rs) in rs && forall r <- rs :: !Earlier(r, Earliest(rs))
    ensures forall r <- rs :: Earliest(rs).createdAt < r.createdAt
                           || (Earliest(rs).createdAt == r.createdAt && !Before(r.id, Earliest(rs).id))
    decreases |rs|
  {
    hide Before;
    BeforeIsStrictTotal();
    if |rs| > 1 {
      EarliestIsLeast(rs[1..]);
      assert rs == [rs[0]] + rs[1..];
    }
  }

  lemma SameEarliest(a: seq<Rec>, b: seq<Rec>)
    requires multiset(a) == multiset(b) && a != [] && b != []
    ensures Earliest(a).id == Earliest(b).id
  {
    hide Before, Earliest;
    EarliestIsLeast(a);
    EarliestIsLeast(b);
    var x, y := Earliest(a), Earliest(b);
    assert x in multiset(b) && y in multiset(a);
    assert !Earlier(x, y) && !Earlier(y, x);
    BeforeTotal(x.id, y.id);
  }

  lemma {:induction false} BindBag(hits: seq<Rec>, e: Env, alias: string, x: Env)
    ensures var out := seq(|hits|, i requires 0 <= i < |hits| => Bind(e, alias, Some(hits[i])));
      multiset(out)[x] ==
        if alias in x.others && x.others[alias].Some? && x == Bind(e, alias, x.others[alias]) then multiset(hits)[x.others[alias].value] else 0
  {
    var out := seq(|hits|, i requires 0 <= i < |hits| => Bind(e, alias, Some(hits[i])));
    if hits != [] {
      BindBag(hits[1..], e, alias, x);
      var rest := seq(|hits[1..]|, i requires 0 <= i < |hits[1..]| => Bind(e, alias, Some(hits[1..][i])));
      assert out == [Bind(e, alias, Some(hits[0]))] + rest;
      assert hits == [hits[0]] + hits[1..];
    }
  }

  /** A join binds the same records for a row of this tenant in both databases: its condition on
      tenant_id keeps every other tenant's row out. */
  lemma {:induction false} SameStep(db1: Db, db2: Db, j: Join, e: Env)
    requires AgreeOn(db1, db2, e.t.tenant)
    ensures multiset(Step(db1, j, e)) == multiset(Step(db2, j, e))
  {
    hide AgreeOn, Earliest, Hit, Hits;
    SameHits(db1, db2, j, e);
    var h1, h2 := Hits(TableOf(db1, j.table), j, e), Hits(TableOf(db2, j.table), j, e);
    SameEmpty(h1, h2);
    if h1 != [] {
      if j.FirstOf? {
        SameEarliest(h1, h2);
        SameTenant(TableOf(db1, j.table), j, e);
        SameTenant(TableOf(db2, j.table), j, e);
        EarliestIsLeast(h1);
        EarliestIsLeast(h2);
      } else {
        forall x: Env
          ensures multiset(Step(db1, j, e))[x] == multiset(Step(db2, j, e))[x]
        {
          BindBag(h1, e, j.alias, x);
          BindBag(h2, e, j.alias, x);
        }
      }
    }
  }

  lemma SameEmpty<A>(a: seq<A>, b: seq<A>)
    requires multiset(a) == multiset(b)
    ensures a == [] <==> b == []
  {
    assert |multiset(a)| == |a| && |multiset(b)| == |b|;
  }

  lemma SameTenant(rs: seq<Rec>, j: Join, e: Env)
    ensures forall r <- Hits(rs, j, e) :: r.tenant == e.t.tenant
  {
    forall r | r in Hits(rs, j, e)
      ensures r.tenant == e.t.tenant
    {
      HitsBag(rs, j, e, r);
      assert multiset(Hits(rs, j, e))[r] > 0;
    }
  }

  predicate OwnedBy(tenant: int, e: Env) { e.t.tenant == tenant }

  lemma {:induction false} StepKeepsDriving(db: Db, j: Join, e: Env)
    ensures forall x <- Step(db, j, e) :: x.t == e.t
  {
    hide Hits, Earliest;
  }

  lemma {:induction false} ExpandBag(db1: Db, db2: Db, joins: seq<Join>, a: seq<Env>, b: seq<Env>, tenant: int)
    requires AgreeOn(db1, db2, tenant) && SameBag(a, b, e => OwnedBy(tenant, e))
    ensures SameBag(Expand(db1, joins, a), Expand(db2, joins, b), e => OwnedBy(tenant, e))
    decreases |joins|
  {
    hide AgreeOn, Step, FlatMap;
    if joins != [] {
      var own := (e: Env) => OwnedBy(tenant, e);
      var f, g := (e: Env) => Step(db1, joins[0], e), (e: Env) => Step(db2, joins[0], e);
      forall e: Env
        ensures OwnedBy(tenant, e) ==> multiset(f(e)) == multiset(g(e))
        ensures (forall x <- f(e) :: x.t == e.t) && (forall x <- g(e) :: x.t == e.t)
      {
        if OwnedBy(tenant, e) {
          SameStep(db1, db2, joins[0], e);
        }
        StepKeepsDriving(db1, joins[0], e);
        StepKeepsDriving(db2, joins[0], e);
      }
      FlatMapBag(a, b, f, g, own, own);
      ExpandBag(db1, db2, joins[1..], FlatMap(a, f), FlatMap(b, g), tenant);
    }
  }

  lemma {:induction false} RowsBag(cal: Calendar, src: Source, db1: Db, db2: Db, tenant: int)
    requires AgreeOn(db1, db2, tenant)
    ensures SameBag(Rows(cal, src, Joined(db1, src)), Rows(cal, src, Joined(db2, src)), (r: Row) => r.tenant == tenant)
  {
    hide Expand, FlatMap, Eval;
    var mine := (r: Rec) => r.tenant == tenant;
    var own := (e: Env) => OwnedBy(tenant, e);
    var wrap := (r: Rec) => [Env(r, map[])];
    FlatMapBag(TableOf(db1, src.table), TableOf(db2, src.table), wrap, wrap, mine, own);
    ExpandBag(db1, db2, src.joins, Start(TableOf(db1, src.table)), Start(TableOf(db2, src.table)), tenant);
    var row := (e: Env) => [RowOf(cal, src, e)];
    FlatMapBag(Joined(db1, src), Joined(db2, src), row, row, own, (r: Row) => r.tenant == tenant);
  }

  /** The answer to a compiled query is a function of the tenant's own rows: whatever other tenants
      store in any table, joined ones included, and in whatever order rows are stored, the lines come
      out the same. */
  lemma QueryDependsOnTenantOnly(cal: Calendar, q: Query, tenant: int, c: Compiled, agg: Aggregate, less: (Key, Key) -> bool,
                                 db1: Db, db2: Db, out1: seq<Line>, out2: seq<Line>)
    requires q.dataset in SOURCES && q.dataset in REGISTRY && StrictTotal(less) && AgreeOn(db1, db2, tenant)
    requires forall r: Row :: HoldsAll(c.conds, c.args, r) <==> Wanted(REGISTRY[q.dataset], q, tenant, r)
    requires var src := SOURCES[q.dataset];
      && IsAnswer(c, agg, less, Rows(cal, src, Joined(db1, src)), out1)
      && IsAnswer(c, agg, less, Rows(cal, src, Joined(db2, src)), out2)
    ensures out1 == out2
  {
    hide IsAnswer, HoldsAll, Rows, Joined, AgreeOn, SOURCES, REGISTRY;
    var src := SOURCES[q.dataset];
    RowsBag(cal, src, db1, db2, tenant);
    var rows1, rows2 := Rows(cal, src, Joined(db1, src)), Rows(cal, src, Joined(db2, src));
    var mine := (r: Row) => r.tenant == tenant;
    assert forall r: Row :: mine(r) ==> multiset(rows1)[r] == multiset(rows2)[r];
    AnswerDependsOnTenantOnly(c, tenant, agg, less, rows1, rows2, out1, out2);
  }

  // ---- each driving row counts once ----------------------------------------------------------------

  /** (tenant_id, id) is a key. */
  predicate UniqueKey(rs: seq<Rec>) {
    forall i, k :: 0 <= i < k < |rs| ==> rs[i].tenant != rs[k].tenant || rs[i].id != rs[k].id
  }

  ghost predicate KeysUnique(db: Db, joins: seq<Join>) {
    forall i :: 0 <= i < |joins| && joins[i].OnKey? ==> UniqueKey(TableOf(db, joins[i].table))
  }

  lemma {:induction false} HitsOnce(rs: seq<Rec>, j: Join, e: Env)
    requires UniqueKey(rs) && j.OnKey?
    ensures |Hits(rs, j, e)| <= 1
    ensures Hits(rs, j, e) == [] <==> forall r <- rs :: !Hit(j, e, r)
  {
    if rs != [] {
      assert forall i :: 0 <= i < |rs[1..]| ==> rs[1..][i] == rs[i + 1];
      HitsOnce(rs[1..], j, e);
      assert forall r <- rs[1..] :: Hit(j, e, rs[0]) && Hit(j, e, r) ==> r.tenant == rs[0].tenant && r.id == rs[0].id;
      assert rs == [rs[0]] + rs[1..];
    }
  }

  /** The one joined row a driving row can have. */
  function Resolve(db: Db, joins: seq<Join>, e: Env): Option<Env>
    decreases |joins|
  {
    if joins == [] then Some(e)
    else
      var next := Step(db, joins[0], e);
      if next == [] then None else Resolve(db, joins[1..], next[0])
  }

  function AsSeq<A>(x: Option<A>): seq<A> { if x.Some? then [x.value] else [] }

  lemma {:induction false} StepOnce(db: Db, j: Join, e: Env)
    requires j.OnKey? ==> UniqueKey(TableOf(db, j.table))
    ensures |Step(db, j, e)| <= 1
    ensures Step(db, j, e) == [] <==> j.OnKey? && j.inner && forall r <- TableOf(db, j.table) :: !Hit(j, e, r)
  {
    hide Hit, Hits, Earliest, UniqueKey;
    if j.OnKey? {
      HitsOnce(TableOf(db, j.table), j, e);
    }
  }

  lemma {:induction false} FlatMapThen<A, B, C>(s: seq<A>, f: A -> seq<B>, g: B -> seq<C>, h: A -> seq<C>)
    requires forall i :: 0 <= i < |s| ==> FlatMap(f(s[i]), g) == h(s[i])
    ensures FlatMap(FlatMap(s, f), g) == FlatMap(s, h)
  {
    if s != [] {
      assert forall i :: 0 <= i < |s[1..]| ==> s[1..][i] == s[i + 1];
      FlatMapThen(s[1..], f, g, h);
      FlatMapConcat(f(s[0]), FlatMap(s[1..], f), g);
    }
  }

  lemma FlatMapHead<A, B>(s: seq<A>, f: A -> seq<B>)
    requires s != []
    ensures FlatMap(s, f) == f(s[0]) + FlatMap(s[1..], f)
  {
  }

  lemma {:induction false} FlatMapSelf<A>(s: seq<A>, f: A -> seq<A>)
    requires forall i :: 0 <= i < |s| ==> f(s[i]) == [s[i]]
    ensures FlatMap(s, f) == s
  {
    if s == [] {
      FlatMapNone(f);
    } else {
      hide FlatMap;
      assert forall i :: 0 <= i < |s[1..]| ==> s[1..][i] == s[i + 1];
      FlatMapSelf(s[1..], f);
      FlatMapHead(s, f);
      assert s == [s[0]] + s[1..];
    }
  }

  /** With unique keys the joins give each driving row at most one joined row, in the driving order. */
  lemma {:induction false} ExpandResolves(db: Db, joins: seq<Join>, envs: seq<Env>)
    requires KeysUnique(db, joins)
    ensures Expand(db, joins, envs) == FlatMap(envs, e => AsSeq(Resolve(db, joins, e)))
    decreases |joins|
  {
    hide Step, FlatMap, UniqueKey;
    var all := (e: Env) => AsSeq(Resolve(db, joins, e));
    if joins == [] {
      FlatMapSelf(envs, all);
    } else {
      var first, rest := (e: Env) => Step(db, joins[0], e), (e: Env) => AsSeq(Resolve(db, joins[1..], e));
      assert KeysUnique(db, joins[1..]) by {
        assert forall i :: 0 <= i < |joins[1..]| ==> joins[1..][i] == joins[i + 1];
      }
      ExpandResolves(db, joins[1..], FlatMap(envs, first));
      forall e: Env
        ensures FlatMap(first(e), rest) == all(e)
      {
        StepOnce(db, joins[0], e);
        if first(e) == [] {
          FlatMapNone(rest);
        } else {
          assert first(e) == [first(e)[0]];
          FlatMapOne(first(e)[0], rest);
        }
      }
      FlatMapThen(envs, first, rest, all);
    }
  }

  lemma FlatMapNone<A, B>(f: A -> seq<B>)
    ensures FlatMap([], f) == []
  {
  }

  /** An inner join finds no partner for this driving row. */
  predicate Orphan(db: Db, joins: seq<Join>, t: Rec) {
    exists i :: 0 <= i < |joins| && joins[i].OnKey? && joins[i].inner
      && forall r <- TableOf(db, joins[i].table) :: !Hit(joins[i], Env(t, map[]), r)
  }

  predicate InnerFromDriving(joins: seq<Join>) {
    forall i :: 0 <= i < |joins| && joins[i].OnKey? && joins[i].inner ==> joins[i].via == "t"
  }

  lemma {:induction false} OrphanHead(db: Db, joins: seq<Join>, t: Rec)
    requires joins != []
    ensures Orphan(db, joins, t) <==>
      || (joins[0].OnKey? && joins[0].inner && forall r <- TableOf(db, joins[0].table) :: !Hit(joins[0], Env(t, map[]), r))
      || Orphan(db, joins[1..], t)
  {
    hide Hit;
    assert forall i :: 0 <= i < |joins[1..]| ==> joins[1..][i] == joins[i + 1];
    if Orphan(db, joins, t) {
      var i :| 0 <= i < |joins| && joins[i].OnKey? && joins[i].inner
        && forall r <- TableOf(db, joins[i].table) :: !Hit(joins[i], Env(t, map[]), r);
      if i > 0 { assert joins[1..][i - 1] == joins[i]; }
    }
    if Orphan(db, joins[1..], t) {
      var i :| 0 <= i < |joins[1..]| && joins[1..][i].OnKey? && joins[1..][i].inner
        && forall r <- TableOf(db, joins[1..][i].table) :: !Hit(joins[1..][i], Env(t, map[]), r);
      assert joins[i + 1] == joins[1..][i];
    }
  }

  lemma {:induction false} ResolveExact(db: Db, joins: seq<Join>, e: Env)
    requires KeysUnique(db, joins) && InnerFromDriving(joins)
    ensures Resolve(db, joins, e).None? <==> Orphan(db, joins, e.t)
    ensures Resolve(db, joins, e).Some? ==> Resolve(db, joins, e).value.t == e.t
    decreases |joins|
  {
    hide Step, UniqueKey, Orphan;
    if joins == [] {
      assert !Orphan(db, joins, e.t) by { NoJoinNoOrphan(db, e.t); }
    } else {
      var j := joins[0];
      assert forall i :: 0 <= i < |joins[1..]| ==> joins[1..][i] == joins[i + 1];
      OrphanHead(db, joins, e.t);
      StepOnce(db, j, e);
      StepKeepsDriving(db, j, e);
      assert j.OnKey? && j.inner ==> forall r <- TableOf(db, j.table) :: Hit(j, e, r) == Hit(j, Env(e.t, map[]), r);
      var next := Step(db, j, e);
      if next != [] {
        assert next[0] in next;
        ResolveExact(db, joins[1..], next[0]);
      }
    }
  }

  lemma {:induction false} NoJoinNoOrphan(db: Db, t: Rec)
    ensures !Orphan(db, [], t)
  {
  }

  /** The joined row of one driving row, if it has one. */
  function RowFor(cal: Calendar, db: Db, src: Source, t: Rec): Option<Row> {
    var e := Resolve(db, src.joins, Env(t, map[]));
    if e.Some? then Some(RowOf(cal, src, e.value)) else None
  }

  /** The rows behind a query are the driving table's rows, in order and once each, less the orphans
      of inner joins. So the count is that of the driving table if and only if there is no orphan. */
  lemma {:induction false} RowsFollowDriving(cal: Calendar, db: Db, src: Source)
    requires KeysUnique(db, src.joins) && InnerFromDriving(src.joins)
    ensures Rows(cal, src, Joined(db, src)) == FlatMap(TableOf(db, src.table), t => AsSeq(RowFor(cal, db, src, t)))
    ensures forall t <- TableOf(db, src.table) :: RowFor(cal, db, src, t).None? <==> Orphan(db, src.joins, t)
    ensures |Rows(cal, src, Joined(db, src))| <= |TableOf(db, src.table)|
    ensures |Rows(cal, src, Joined(db, src))| == |TableOf(db, src.table)| <==> forall t <- TableOf(db, src.table) :: !Orphan(db, src.joins, t)
  {
    hide Orphan, FlatMap, Resolve, Expand, UniqueKey, RowOf;
    var table := TableOf(db, src.table);
    var wrap := (r: Rec) => [Env(r, map[])];
    var resolve := (e: Env) => AsSeq(Resolve(db, src.joins, e));
    var row := (e: Env) => [RowOf(cal, src, e)];
    var byRec := (t: Rec) => AsSeq(Resolve(db, src.joins, Env(t, map[])));
    var final := (t: Rec) => AsSeq(RowFor(cal, db, src, t));
    ExpandResolves(db, src.joins, Start(table));
    forall t: Rec
      ensures FlatMap(wrap(t), resolve) == byRec(t)
      ensures FlatMap(byRec(t), row) == final(t)
      ensures RowFor(cal, db, src, t).None? <==> Orphan(db, src.joins, t)
    {
      FlatMapOne(Env(t, map[]), resolve);
      ResolveExact(db, src.joins, Env(t, map[]));
      var e := Resolve(db, src.joins, Env(t, map[]));
      if e.Some? {
        FlatMapOne(e.value, row);
      } else {
        FlatMapNone(row);
      }
    }
    FlatMapThen(table, wrap, resolve, byRec);
    FlatMapThen(table, byRec, row, final);
    AtMostOnce(table, final);
  }

  lemma {:induction false} AtMostOnce<A, B>(s: seq<A>, f: A -> seq<B>)
    requires forall x :: |f(x)| <= 1
    ensures |FlatMap(s, f)| <= |s|
    ensures |FlatMap(s, f)| == |s| <==> forall x <- s :: f(x) != []
  {
    if s != [] {
      AtMostOnce(s[1..], f);
      assert s == [s[0]] + s[1..];
    }
  }

  // ---- the total count, end to end ----------------------------------------------------------------

  lemma {:induction false} ResolveKeeps(db: Db, joins: seq<Join>, e: Env, alias: string)
    requires forall i :: 0 <= i < |joins| ==> joins[i].alias != alias
    ensures Resolve(db, joins, e).Some? ==> At(Resolve(db, joins, e).value, alias) == At(e, alias)
    decreases |joins|
  {
    hide Hits, Earliest;
    if joins != [] {
      assert forall i :: 0 <= i < |joins[1..]| ==> joins[1..][i] == joins[i + 1];
      var next := Step(db, joins[0], e);
      if next != [] {
        assert joins[0].alias != alias;
        assert At(next[0], alias) == At(e, alias);
        ResolveKeeps(db, joins[1..], next[0], alias);
      }
    }
  }

  /** The driving rows a query without filters asks for, said without joins: the tenant's, in the time
      range, and not deleted (for versions: of a document that is not deleted). */
  predicate Counted(db: Db, q: Query, tenant: int, t: Rec) {
    && t.tenant == tenant
    && (q.from.Some? ==> t.createdAt >= q.from.value)
    && (q.to.Some? ==> t.createdAt < q.to.value)
    && (if q.dataset == "versions" then LiveParent(db, t) else !t.deleted)
  }

  predicate LiveParent(db: Db, t: Rec) {
    exists d <- TableOf(db, "documents") :: d.tenant == t.tenant && Column(Some(t), "document_id") == Some(d.id) && !d.deleted
  }

  lemma {:induction false} ParentBound(db: Db, t: Rec)
    requires KeysUnique(db, SOURCES["versions"].joins)
    ensures var e := Resolve(db, SOURCES["versions"].joins, Env(t, map[]));
      && (e.Some? ==> At(e.value, "d").Some?)
      && (LiveParent(db, t) <==> e.Some? && !At(e.value, "d").value.deleted)
  {
    var joins, e, docs := SOURCES["versions"].joins, Env(t, map[]), TableOf(db, "documents");
    var j := joins[0];
    hide Resolve, SOURCES, UniqueKey, Hits;
    assert j == OnKey("d", "documents", true, "t", "document_id") && UniqueKey(TableOf(db, joins[0].table));
    HitsOnce(docs, j, e);
    ResolveStep(db, joins, e);
    if Hits(docs, j, e) != [] {
      var d := Hits(docs, j, e)[0];
      assert Hits(docs, j, e) == [d];
      assert Step(db, j, e) == [Bind(e, "d", Some(d))];
      ResolveKeeps(db, joins[1..], Bind(e, "d", Some(d)), "d");
      LaterJoinsAreLeft(db, Bind(e, "d", Some(d)));
      forall r: Rec
        ensures r in docs && Hit(j, e, r) <==> r == d
      {
        HitsBag(docs, j, e, r);
      }
    }
  }

  lemma {:induction false} ResolveStep(db: Db, joins: seq<Join>, e: Env)
    requires joins != []
    ensures Resolve(db, joins, e) ==
      if Step(db, joins[0], e) == [] then None else Resolve(db, joins[1..], Step(db, joins[0], e)[0])
  {
    hide Step;
  }

  lemma {:induction false} LaterJoinsAreLeft(db: Db, e: Env)
    requires KeysUnique(db, SOURCES["versions"].joins)
    ensures Resolve(db, SOURCES["versions"].joins[1..], e).Some?
  {
    var joins := SOURCES["versions"].joins;
    var rest := joins[1..];
    hide UniqueKey, Resolve;
    assert forall i :: 0 <= i < |rest| ==> rest[i] == joins[i + 1];
    ResolveExact(db, rest, e);
  }

  lemma {:induction false} RowForMeaning(cal: Calendar, db: Db, q: Query, tenant: int, t: Rec)
    requires q.dataset in SOURCES && q.dataset in REGISTRY && q.filters == map[]
    requires KeysUnique(db, SOURCES[q.dataset].joins)
    ensures var r := RowFor(cal, db, SOURCES[q.dataset], t);
      (r.Some? && Wanted(REGISTRY[q.dataset], q, tenant, r.value)) <==> Counted(db, q, tenant, t)
  {
    hide Resolve, UniqueKey, Eval, LiveParent;
    var src := SOURCES[q.dataset];
    ResolveExact(db, src.joins, Env(t, map[]));
    if q.dataset == "versions" {
      ParentBound(db, t);
    } else {
      assert !Orphan(db, src.joins, t);
    }
  }

  lemma {:induction false} KeepConcat(c: Compiled, a: seq<Row>, b: seq<Row>)
    ensures Keep(c, a + b) == Keep(c, a) + Keep(c, b)
  {
    hide HoldsAll;
    if a == [] {
      assert a + b == b;
    } else {
      assert (a + b)[0] == a[0] && (a + b)[1..] == a[1..] + b;
      KeepConcat(c, a[1..], b);
    }
  }

  lemma {:induction false} KeepCount(c: Compiled, s: seq<Rec>, f: Rec -> Option<Row>, wanted: Rec -> bool)
    requires forall t :: wanted(t) <==> f(t).Some? && HoldsAll(c.conds, c.args, f(t).value)
    ensures |Keep(c, FlatMap(s, t => AsSeq(f(t))))| == |FlatMap(s, t => if wanted(t) then [t] else [])|
  {
    hide HoldsAll;
    if s != [] {
      KeepCount(c, s[1..], f, wanted);
      KeepConcat(c, AsSeq(f(s[0])), FlatMap(s[1..], t => AsSeq(f(t))));
      KeepOne(c, f(s[0]));
    }
  }

  lemma KeepOne(c: Compiled, r: Option<Row>)
    ensures |Keep(c, AsSeq(r))| == if r.Some? && HoldsAll(c.conds, c.args, r.value) then 1 else 0
  {
    hide HoldsAll;
    if r.Some? {
      assert [r.value][1..] == [];
    }
  }

  lemma {:induction false} OneGroup(rows: seq<Row>)
    ensures GroupRows([], rows, []) == rows
  {
    if rows != [] {
      OneGroup(rows[1..]);
      assert KeyOf([], rows[0]) == [];
      assert rows == [rows[0]] + rows[1..];
    }
  }

  lemma SingleLine(c: Compiled, agg: Aggregate, less: (Key, Key) -> bool, rows: seq<Row>, out: seq<Line>)
    requires StrictTotal(less) && IsAnswer(c, agg, less, rows, out)
    requires c.groupBy == [] && c.columns == ["count"] && c.limit >= 1
    ensures out == [Line([], [agg("count", multiset(Keep(c, rows)))])]
  {
    hide Precedes, Keep, GroupRows;
    var kept := Keep(c, rows);
    var order := (x: Line, y: Line) => Precedes(less, x, y);
    var line := Line([], [agg("count", multiset(kept))]);
    OneGroup(kept);
    assert MeasureNames(c) == ["count"];
    assert LineFor(c, agg, kept, []) == line;
    assert Lines(c, agg, kept) == {line};
    var all: seq<Line> :| Lists(order, all, Lines(c, agg, kept)) && out == Take(c.limit, all);
    PrecedesStrictTotal(less);
    assert Sorted(order, [line]) && Elems([line]) == {line};
    ListingUnique(order, all, [line]);
  }

  /** The plain count of a dataset, whatever it joins, is the number of driving rows asked for, as
      long as the joined tables have their keys. */
  lemma {:induction false} TotalCount(cal: Calendar, q: Query, tenant: int, c: Compiled, agg: Aggregate, less: (Key, Key) -> bool, db: Db, out: seq<Line>)
    requires q.dataset in SOURCES && q.dataset in REGISTRY && q.filters == map[] && StrictTotal(less)
    requires KeysUnique(db, SOURCES[q.dataset].joins)
    requires forall r: Row :: HoldsAll(c.conds, c.args, r) <==> Wanted(REGISTRY[q.dataset], q, tenant, r)
    requires c.groupBy == [] && c.columns == ["count"] && c.limit >= 1 && forall bag :: agg("count", bag) == |bag|
    requires var src := SOURCES[q.dataset]; IsAnswer(c, agg, less, Rows(cal, src, Joined(db, src)), out)
    ensures var n := |FlatMap(TableOf(db, SOURCES[q.dataset].table), t => if Counted(db, q, tenant, t) then [t] else [])|;
      out == [Line([], [n])]
  {
    hide IsAnswer, HoldsAll, Wanted, Keep, Rows, Joined, Counted, FlatMap, KeysUnique, RowFor, REGISTRY;
    var src := SOURCES[q.dataset];
    assert InnerFromDriving(src.joins);
    hide SOURCES;
    var table := TableOf(db, src.table);
    var rows := Rows(cal, src, Joined(db, src));
    RowsFollowDriving(cal, db, src);
    var f, wanted := (t: Rec) => RowFor(cal, db, src, t), (t: Rec) => Counted(db, q, tenant, t);
    forall t: Rec
      ensures wanted(t) <==> f(t).Some? && HoldsAll(c.conds, c.args, f(t).value)
    {
      RowForMeaning(cal, db, q, tenant, t);
    }
    KeepCount(c, table, f, wanted);
    SameMapping(table, t => AsSeq(f(t)), t => AsSeq(RowFor(cal, db, src, t)));
    SameMapping(table, t => if wanted(t) then [t] else [], t => if Counted(db, q, tenant, t) then [t] else []);
    SingleLine(c, agg, less, rows, out);
    assert |multiset(Keep(c, rows))| == |Keep(c, rows)|;
  }

  lemma {:induction false} SameMapping<A, B>(s: seq<A>, f: A -> seq<B>, g: A -> seq<B>)
    requires forall x :: f(x) == g(x)
    ensures FlatMap(s, f) == FlatMap(s, g)
  {
    if s != [] {
      SameMapping(s[1..], f, g);
    }
  }

  // ---- the count of each group ---------------------------------------------------------------------

  /** A driving row that the query asks for, with this group key. */
  predicate Tallied(cal: Calendar, db: Db, q: Query, tenant: int, key: Key, t: Rec)
    requires q.dataset in SOURCES && q.dataset in REGISTRY
  {
    var r := RowFor(cal, db, SOURCES[q.dataset], t);
    r.Some? && Wanted(REGISTRY[q.dataset], q, tenant, r.value) && KeyOf(q.dimensions, r.value) == key
  }

  lemma GroupHead(dims: seq<string>, rows: seq<Row>, key: Key)
    requires rows != []
    ensures GroupRows(dims, rows, key) == (if KeyOf(dims, rows[0]) == key then [rows[0]] else []) + GroupRows(dims, rows[1..], key)
  {
    hide KeyOf;
  }

  lemma {:induction false} GroupConcat(dims: seq<string>, a: seq<Row>, b: seq<Row>, key: Key)
    ensures GroupRows(dims, a + b, key) == GroupRows(dims, a, key) + GroupRows(dims, b, key)
  {
    if a == [] {
      assert a + b == b;
    } else {
      hide KeyOf, GroupRows;
      assert (a + b)[0] == a[0] && (a + b)[1..] == a[1..] + b;
      GroupConcat(dims, a[1..], b, key);
      GroupHead(dims, a + b, key);
      GroupHead(dims, a, key);
    }
  }

  lemma GroupOne(c: Compiled, dims: seq<string>, r: Option<Row>, key: Key)
    ensures |GroupRows(dims, Keep(c, AsSeq(r)), key)| ==
      if r.Some? && HoldsAll(c.conds, c.args, r.value) && KeyOf(dims, r.value) == key then 1 else 0
  {
    hide HoldsAll, KeyOf;
    if r.Some? {
      assert [r.value][1..] == [] && Keep(c, []) == [] && GroupRows(dims, [], key) == [];
      assert Keep(c, [r.value]) == if HoldsAll(c.conds, c.args, r.value) then [r.value] else [];
    }
  }

  lemma {:induction false} GroupCount(c: Compiled, dims: seq<string>, key: Key, s: seq<Rec>, f: Rec -> Option<Row>, wanted: Rec -> bool)
    requires forall t :: wanted(t) <==> f(t).Some? && HoldsAll(c.conds, c.args, f(t).value) && KeyOf(dims, f(t).value) == key
    ensures |GroupRows(dims, Keep(c, FlatMap(s, t => AsSeq(f(t)))), key)| == |FlatMap(s, t => if wanted(t) then [t] else [])|
  {
    hide HoldsAll, KeyOf, Keep, GroupRows;
    if s == [] {
      NothingGrouped(c, dims, key);
    } else {
      var first, rest := AsSeq(f(s[0])), FlatMap(s[1..], t => AsSeq(f(t)));
      GroupCount(c, dims, key, s[1..], f, wanted);
      KeepConcat(c, first, rest);
      GroupConcat(dims, Keep(c, first), Keep(c, rest), key);
      GroupOne(c, dims, f(s[0]), key);
    }
  }

  lemma NothingGrouped(c: Compiled, dims: seq<string>, key: Key)
    ensures GroupRows(dims, Keep(c, []), key) == []
  {
  }

  lemma {:induction false} CountOfGroup(cal: Calendar, q: Query, tenant: int, c: Compiled, db: Db, key: Key)
    requires q.dataset in SOURCES && q.dataset in REGISTRY && KeysUnique(db, SOURCES[q.dataset].joins)
    requires forall r: Row :: HoldsAll(c.conds, c.args, r) <==> Wanted(REGISTRY[q.dataset], q, tenant, r)
    ensures var src := SOURCES[q.dataset];
      |GroupRows(q.dimensions, Keep(c, Rows(cal, src, Joined(db, src))), key)|
        == |FlatMap(TableOf(db, src.table), t => if Tallied(cal, db, q, tenant, key, t) then [t] else [])|
  {
    hide HoldsAll, Wanted, Keep, Rows, Joined, FlatMap, KeysUnique, RowFor, REGISTRY, KeyOf, GroupRows;
    var src := SOURCES[q.dataset];
    assert InnerFromDriving(src.joins);
    hide SOURCES;
    var table := TableOf(db, src.table);
    RowsFollowDriving(cal, db, src);
    var f, wanted := (t: Rec) => RowFor(cal, db, src, t), (t: Rec) => Tallied(cal, db, q, tenant, key, t);
    GroupCount(c, q.dimensions, key, table, f, wanted);
    SameMapping(table, t => AsSeq(f(t)), t => AsSeq(RowFor(cal, db, src, t)));
    SameMapping(table, t => if wanted(t) then [t] else [], t => if Tallied(cal, db, q, tenant, key, t) then [t] else []);
  }

  /** For every compiled query, filtered and grouped as it may be, each count(*) in the answer is the
      number of the tenant's driving rows that carry the line's key and pass the filters and the time
      range: no join adds or drops one. */
  lemma CountsAreDriving(cal: Calendar, q: Query, tenant: int, c: Compiled, agg: Aggregate, less: (Key, Key) -> bool,
                         db: Db, out: seq<Line>, line: Line, i: nat)
    requires q.dataset in SOURCES && q.dataset in REGISTRY && KeysUnique(db, SOURCES[q.dataset].joins)
    requires forall r: Row :: HoldsAll(c.conds, c.args, r) <==> Wanted(REGISTRY[q.dataset], q, tenant, r)
    requires c.groupBy == q.dimensions && c.columns == q.dimensions + q.measures && forall bag :: agg("count", bag) == |bag|
    requires var src := SOURCES[q.dataset]; IsAnswer(c, agg, less, Rows(cal, src, Joined(db, src)), out)
    requires line in out && i < |q.measures| && q.measures[i] == "count"
    ensures |line.values| == |q.measures|
    ensures line.values[i] ==
      |FlatMap(TableOf(db, SOURCES[q.dataset].table), t => if Tallied(cal, db, q, tenant, line.key, t) then [t] else [])|
  {
    hide IsAnswer, HoldsAll, Wanted, Keep, Rows, Joined, FlatMap, KeysUnique, Tallied, REGISTRY, LineFor, GroupRows, SOURCES;
    var src := SOURCES[q.dataset];
    var rows := Rows(cal, src, Joined(db, src));
    var kept := Keep(c, rows);
    LineOfKey(c, agg, less, rows, out, line);
    LineKey(c, agg, kept, line.key);
    assert MeasureNames(c) == q.measures;
    CountOfGroup(cal, q, tenant, c, db, line.key);
    assert |multiset(GroupRows(q.dimensions, kept, line.key))| == |GroupRows(q.dimensions, kept, line.key)|;
  }

  /** And no group is missing but by the limit. */
  lemma EveryGroupAnswered(cal: Calendar, q: Query, tenant: int, c: Compiled, agg: Aggregate, less: (Key, Key) -> bool,
                           db: Db, out: seq<Line>, t: Rec)
    requires q.dataset in SOURCES && q.dataset in REGISTRY && KeysUnique(db, SOURCES[q.dataset].joins)
    requires forall r: Row :: HoldsAll(c.conds, c.args, r) <==> Wanted(REGISTRY[q.dataset], q, tenant, r)
    requires c.groupBy == q.dimensions
    requires var src := SOURCES[q.dataset]; IsAnswer(c, agg, less, Rows(cal, src, Joined(db, src)), out)
    requires t in TableOf(db, SOURCES[q.dataset].table)
    requires var r := RowFor(cal, db, SOURCES[q.dataset], t); r.Some? && Wanted(REGISTRY[q.dataset], q, tenant, r.value)
    ensures |out| < c.limit ==> exists line <- out :: line.key == KeyOf(q.dimensions, RowFor(cal, db, SOURCES[q.dataset], t).value)
  {
    hide HoldsAll, Wanted, Rows, Joined, KeysUnique, RowFor, REGISTRY, KeyOf, SOURCES, IsAnswer, Keep;
    var src := SOURCES[q.dataset];
    var rows, row := Rows(cal, src, Joined(db, src)), RowFor(cal, db, src, t).value;
    AllInnerFromDriving(q.dataset);
    DrivingRowKept(cal, src, db, c, t);
    if |out| < c.limit {
      AllLines(c, agg, less, rows, out, row);
    }
  }

  lemma AllInnerFromDriving(name: string)
    requires name in SOURCES
    ensures InnerFromDriving(SOURCES[name].joins)
  {
  }

  lemma {:induction false} DrivingRowKept(cal: Calendar, src: Source, db: Db, c: Compiled, t: Rec)
    requires KeysUnique(db, src.joins) && InnerFromDriving(src.joins) && t in TableOf(db, src.table)
    requires var r := RowFor(cal, db, src, t); r.Some? && HoldsAll(c.conds, c.args, r.value)
    ensures RowFor(cal, db, src, t).value in Keep(c, Rows(cal, src, Joined(db, src)))
  {
    hide HoldsAll, Rows, Joined, FlatMap, KeysUnique, RowFor, Keep, InnerFromDriving;
    var rows, row := Rows(cal, src, Joined(db, src)), RowFor(cal, db, src, t).value;
    RowsFollowDriving(cal, db, src);
    InFlatMap(TableOf(db, src.table), t, (x: Rec) => AsSeq(RowFor(cal, db, src, x)), row);
    KeepBag(c, rows, row);
    assert multiset(Keep(c, rows))[row] > 0;
  }

  lemma {:induction false} InFlatMap<A, B>(s: seq<A>, x: A, f: A -> seq<B>, y: B)
    requires x in s && y in f(x)
    ensures y in FlatMap(s, f)
  {
    if x != s[0] {
      InFlatMap(s[1..], x, f, y);
    }
  }

  lemma AllLines(c: Compiled, agg: Aggregate, less: (Key, Key) -> bool, rows: seq<Row>, out: seq<Line>, row: Row)
    requires IsAnswer(c, agg, less, rows, out) && |out| < c.limit && row in Keep(c, rows)
    ensures exists line <- out :: line.key == KeyOf(c.groupBy, row)
  {
    hide Precedes, Keep, LineFor;
    var order := (x: Line, y: Line) => Precedes(less, x, y);
    var kept := Keep(c, rows);
    var all: seq<Line> :| Lists(order, all, Lines(c, agg, kept)) && out == Take(c.limit, all);
    var key := KeyOf(c.groupBy, row);
    assert c.groupBy == [] ==> key == [];
    assert key in Keys(c.groupBy, kept);
    LineKey(c, agg, kept, key);
    assert LineFor(c, agg, kept, key) in Elems(all);
    assert out == all;
  }

  // ---- what the dimensions show ---------------------------------------------------------------------

  /** An alias is bound to the record its condition names, or to nothing when there is none. */
  ghost predicate Bound(db: Db, j: Join, e: Env) {
    var table := TableOf(db, j.table);
    match j
    case OnKey(alias, _, _, _, _) =>
      && (forall r <- table :: Hit(j, e, r) ==> At(e, alias) == Some(r))
      && ((forall r <- table :: !Hit(j, e, r)) ==> At(e, alias) == None)
    case FirstOf(alias, _, _) =>
      At(e, alias) == if Hits(table, j, e) == [] then None else Some(UserId(Earliest(Hits(table, j, e))))
  }

  /** No alias is bound twice, and conditions look at aliases bound before. */
  predicate Tidy(joins: seq<Join>) {
    forall i :: 0 <= i < |joins| ==>
      && joins[i].alias != "t" && (joins[i].OnKey? ==> joins[i].via != joins[i].alias)
      && forall k :: i < k < |joins| ==> joins[k].alias != joins[i].alias && (joins[i].OnKey? ==> joins[k].alias != joins[i].via)
  }

  lemma {:induction false} HitsSame(rs: seq<Rec>, j: Join, e: Env, e': Env)
    requires e'.t == e.t && (j.OnKey? ==> At(e', j.via) == At(e, j.via))
    ensures Hits(rs, j, e') == Hits(rs, j, e) && forall r :: Hit(j, e', r) == Hit(j, e, r)
  {
    if rs != [] {
      HitsSame(rs[1..], j, e, e');
    }
  }

  lemma {:induction false} BoundKept(db: Db, j: Join, e: Env, e': Env)
    requires Bound(db, j, e) && e'.t == e.t && At(e', j.alias) == At(e, j.alias) && (j.OnKey? ==> At(e', j.via) == At(e, j.via))
    ensures Bound(db, j, e')
  {
    hide Hit, Hits, Earliest, At;
    HitsSame(TableOf(db, j.table), j, e, e');
  }

  lemma {:induction false} StepBinds(db: Db, j: Join, e: Env)
    requires Step(db, j, e) != [] && (j.OnKey? ==> UniqueKey(TableOf(db, j.table)) && j.via != j.alias) && j.alias != "t"
    ensures Bound(db, j, Step(db, j, e)[0]) && Step(db, j, e)[0].t == e.t
  {
    hide Hit, Hits, Earliest, UniqueKey;
    var table, e1 := TableOf(db, j.table), Step(db, j, e)[0];
    HitsSame(table, j, e, e1);
    if j.OnKey? {
      HitsOnce(table, j, e);
      if Hits(table, j, e) != [] {
        var d := Hits(table, j, e)[0];
        assert Hits(table, j, e) == [d];
        forall r | r in table && Hit(j, e, r)
          ensures r == d
        {
          HitsBag(table, j, e, r);
        }
        HitsBag(table, j, e, d);
        assert multiset([d])[d] == 1;
      }
    }
  }

  /** In a joined row every alias is bound as its join says. */
  lemma {:induction false} ResolveBinds(db: Db, joins: seq<Join>, e: Env, i: nat)
    requires KeysUnique(db, joins) && Tidy(joins) && Resolve(db, joins, e).Some? && i < |joins|
    ensures Resolve(db, joins, e).value.t == e.t && Bound(db, joins[i], Resolve(db, joins, e).value)
    decreases |joins|
  {
    hide Step, Bound, UniqueKey, At;
    var j, rest, next := joins[0], joins[1..], Step(db, joins[0], e);
    ResolveStep(db, joins, e);
    assert forall k :: 0 <= k < |rest| ==> rest[k] == joins[k + 1];
    StepBinds(db, j, e);
    ResolveDriving(db, rest, next[0]);
    if i == 0 {
      ResolveKeeps(db, rest, next[0], j.alias);
      if j.OnKey? {
        ResolveKeeps(db, rest, next[0], j.via);
      }
      BoundKept(db, j, next[0], Resolve(db, joins, e).value);
    } else {
      ResolveBinds(db, rest, next[0], i - 1);
    }
  }

  lemma {:induction false} ResolveDriving(db: Db, joins: seq<Join>, e: Env)
    ensures Resolve(db, joins, e).Some? ==> Resolve(db, joins, e).value.t == e.t
    decreases |joins|
  {
    hide Step;
    if joins != [] && Step(db, joins[0], e) != [] {
      StepKeepsDriving(db, joins[0], e);
      assert Step(db, joins[0], e)[0] in Step(db, joins[0], e);
      ResolveDriving(db, joins[1..], Step(db, joins[0], e)[0]);
    }
  }

  /** `r` is the tenant's record with this id, if there is one. */
  ghost predicate IsRecord(db: Db, table: string, tenant: int, id: Option<string>, r: Option<Rec>) {
    if r.Some? then r.value in TableOf(db, table) && r.value.tenant == tenant && id == Some(r.value.id)
    else forall x <- TableOf(db, table) :: !(x.tenant == tenant && id == Some(x.id))
  }

  lemma {:induction false} BoundToRecord(db: Db, j: Join, e: Env, r: Option<Rec>)
    requires j.OnKey? && Bound(db, j, e) && IsRecord(db, j.table, e.t.tenant, Column(At(e, j.via), j.column), r)
    ensures At(e, j.alias) == r
  {
  }

  /** A person as reports show them: display name, else e-mail, else the raw id, else nothing. */
  function Person(u: Option<Rec>, id: Option<string>): string {
    if Column(u, "display_name").Some? then Column(u, "display_name").value
    else if Column(u, "email").Some? then Column(u, "email").value
    else if id.Some? then id.value
    else ""
  }

  function TextOr(v: Option<string>, other: Option<string>): Option<string> { if v.Some? then v else other }

  function Ref(e: Env, a: (string, string)): Option<string> { Column(At(e, a.0), a.1) }

  /** Reading lists of one, two and three columns. */
  lemma RefsRead(e: Env)
    ensures forall a :: FirstNonNull(e, [a]) == Ref(e, a)
    ensures forall a, b :: FirstNonNull(e, [a, b]) == TextOr(Ref(e, a), Ref(e, b))
    ensures forall a, b, c :: FirstNonNull(e, [a, b, c]) == TextOr(Ref(e, a), TextOr(Ref(e, b), Ref(e, c)))
  {
    assert FirstNonNull(e, []) == None;
    forall c
      ensures FirstNonNull(e, [c]) == Ref(e, c)
    {
      assert [c][1..] == [];
    }
    forall b, c
      ensures FirstNonNull(e, [b, c]) == TextOr(Ref(e, b), Ref(e, c))
    {
      assert [b, c][1..] == [c];
    }
    forall a, b, c
      ensures FirstNonNull(e, [a, b, c]) == TextOr(Ref(e, a), TextOr(Ref(e, b), Ref(e, c)))
    {
      assert [a, b, c][1..] == [b, c];
    }
  }

  lemma DimIs(cal: Calendar, src: Source, e: Env, name: string, x: Expr)
    requires name in src.dims && src.dims[name] == x
    ensures DimOf(RowOf(cal, src, e), name) == Eval(cal, x, e)
  {
    hide Eval;
  }

  lemma OneColumn(cal: Calendar, src: Source, e: Env, name: string, a: (string, string), orEmpty: bool)
    requires name in src.dims && src.dims[name] == Coalesce([a], orEmpty)
    ensures DimOf(RowOf(cal, src, e), name) == if orEmpty then TextOr(Ref(e, a), Some("")) else Ref(e, a)
  {
    hide RowOf, FirstNonNull, Ref;
    DimIs(cal, src, e, name, Coalesce([a], orEmpty));
    RefsRead(e);
  }

  lemma TwoColumns(cal: Calendar, src: Source, e: Env, name: string, a: (string, string), b: (string, string))
    requires name in src.dims && src.dims[name] == Coalesce([a, b], false)
    ensures DimOf(RowOf(cal, src, e), name) == TextOr(Ref(e, a), Ref(e, b))
  {
    hide RowOf, FirstNonNull, Ref;
    DimIs(cal, src, e, name, Coalesce([a, b], false));
    RefsRead(e);
  }

  lemma PersonColumns(cal: Calendar, src: Source, e: Env, name: string, c: (string, string))
    requires name in src.dims && src.dims[name] == Coalesce([("u", "display_name"), ("u", "email"), c], true)
    ensures DimOf(RowOf(cal, src, e), name) == Some(Person(At(e, "u"), Ref(e, c)))
  {
    hide RowOf, FirstNonNull, Column, At;
    DimIs(cal, src, e, name, Coalesce([("u", "display_name"), ("u", "email"), c], true));
    RefsRead(e);
  }

  lemma Dates(cal: Calendar, src: Source, e: Env)
    requires "created_day" in src.dims && src.dims["created_day"] == Day
    requires "created_month" in src.dims && src.dims["created_month"] == Month
    ensures DimOf(RowOf(cal, src, e), "created_day") == Some(cal.day(e.t.createdAt))
    ensures DimOf(RowOf(cal, src, e), "created_month") == Some(cal.month(e.t.createdAt))
  {
    hide RowOf;
    DimIs(cal, src, e, "created_day", Day);
    DimIs(cal, src, e, "created_month", Month);
  }

  /** What a row says besides its dimensions. */
  predicate Carries(row: Row, t: Rec, deleted: bool) {
    row.tenant == t.tenant && row.createdAt == t.createdAt && row.base == !deleted && row.sizes == map["size" := t.size]
  }

  lemma {:induction false} DocumentEnv(db: Db, t: Rec, u: Option<Rec>, w: Option<Rec>)
    requires KeysUnique(db, DOCUMENTS.joins) && Resolve(db, DOCUMENTS.joins, Env(t, map[])).Some?
    requires IsRecord(db, "users", t.tenant, Column(Some(t), "created_by"), u)
    requires IsRecord(db, "workspaces", t.tenant, Column(Some(t), "workspace_id"), w)
    ensures var e := Resolve(db, DOCUMENTS.joins, Env(t, map[])).value; e.t == t && At(e, "u") == u && At(e, "w") == w
  {
    var joins := [USERS, OnKey("w", "workspaces", false, "t", "workspace_id")];
    assert DOCUMENTS.joins == joins;
    var e := Resolve(db, joins, Env(t, map[])).value;
    hide Resolve, Bound, KeysUnique, IsRecord, DOCUMENTS, Tidy, Column;
    SourcesTidy();
    ResolveBinds(db, joins, Env(t, map[]), 0);
    ResolveBinds(db, joins, Env(t, map[]), 1);
    BoundToRecord(db, joins[0], e, u);
    BoundToRecord(db, joins[1], e, w);
  }

  /** A documents row: the author and the workspace by name, everything else from the document itself. */
  lemma {:induction false} DocumentDims(cal: Calendar, db: Db, t: Rec, u: Option<Rec>, w: Option<Rec>)
    requires KeysUnique(db, DOCUMENTS.joins) && Resolve(db, DOCUMENTS.joins, Env(t, map[])).Some?
    requires IsRecord(db, "users", t.tenant, Column(Some(t), "created_by"), u)
    requires IsRecord(db, "workspaces", t.tenant, Column(Some(t), "workspace_id"), w)
    ensures RowFor(cal, db, SOURCES["documents"], t).Some?
    ensures var row, doc := RowFor(cal, db, SOURCES["documents"], t).value, Some(t);
      && Carries(row, t, t.deleted)
      && DimOf(row, "created_by") == Some(Person(u, Column(doc, "created_by")))
      && DimOf(row, "workspace_id") == TextOr(Column(w, "name"), Column(doc, "workspace_id"))
      && DimOf(row, "mime_type") == TextOr(Column(doc, "mime_type"), Some(""))
      && DimOf(row, "created_day") == Some(cal.day(t.createdAt)) && DimOf(row, "created_month") == Some(cal.month(t.createdAt))
      && DimOf(row, "document_class") == Column(doc, "document_class")
      && DimOf(row, "lifecycle_state") == Column(doc, "lifecycle_state")
      && DimOf(row, "doc_type") == Column(doc, "doc_type")
      && DimOf(row, "region_pin") == Column(doc, "region_pin")
  {
    hide Resolve, KeysUnique, IsRecord, Eval, DimOf, Person, TextOr, Column;
    var e := Resolve(db, DOCUMENTS.joins, Env(t, map[])).value;
    DocumentEnv(db, t, u, w);
    PersonColumns(cal, DOCUMENTS, e, "created_by", ("t", "created_by"));
    TwoColumns(cal, DOCUMENTS, e, "workspace_id", ("w", "name"), ("t", "workspace_id"));
    OneColumn(cal, DOCUMENTS, e, "mime_type", ("t", "mime_type"), true);
    Dates(cal, DOCUMENTS, e);
    OneColumn(cal, DOCUMENTS, e, "document_class", ("t", "document_class"), false);
    OneColumn(cal, DOCUMENTS, e, "lifecycle_state", ("t", "lifecycle_state"), false);
    OneColumn(cal, DOCUMENTS, e, "doc_type", ("t", "doc_type"), false);
    OneColumn(cal, DOCUMENTS, e, "region_pin", ("t", "region_pin"), false);
  }

  lemma SourcesTidy()
    ensures Tidy(DOCUMENTS.joins) && Tidy(VERSIONS.joins) && Tidy(TASKS.joins)
  {
  }

  lemma {:induction false} VersionEnv(db: Db, t: Rec, d: Rec, u: Option<Rec>, w: Option<Rec>)
    requires KeysUnique(db, VERSIONS.joins) && Resolve(db, VERSIONS.joins, Env(t, map[])).Some?
    requires IsRecord(db, "documents", t.tenant, Column(Some(t), "document_id"), Some(d))
    requires IsRecord(db, "users", t.tenant, Column(Some(t), "created_by"), u)
    requires IsRecord(db, "workspaces", t.tenant, Column(Some(d), "workspace_id"), w)
    ensures var e := Resolve(db, VERSIONS.joins, Env(t, map[])).value;
      e.t == t && At(e, "d") == Some(d) && At(e, "u") == u && At(e, "w") == w
  {
    var joins := [OnKey("d", "documents", true, "t", "document_id"), USERS, OnKey("w", "workspaces", false, "d", "workspace_id")];
    assert VERSIONS.joins == joins;
    var e := Resolve(db, joins, Env(t, map[])).value;
    hide Resolve, Bound, KeysUnique, IsRecord, VERSIONS, Tidy, Column;
    SourcesTidy();
    ResolveBinds(db, joins, Env(t, map[]), 0);
    ResolveBinds(db, joins, Env(t, map[]), 1);
    ResolveBinds(db, joins, Env(t, map[]), 2);
    BoundToRecord(db, joins[0], e, Some(d));
    BoundToRecord(db, joins[1], e, u);
    BoundToRecord(db, joins[2], e, w);
  }

  /** A versions row: class and workspace are its document's, the author is the version's own. */
  lemma {:induction false} VersionDims(cal: Calendar, db: Db, t: Rec, d: Rec, u: Option<Rec>, w: Option<Rec>)
    requires KeysUnique(db, VERSIONS.joins) && Resolve(db, VERSIONS.joins, Env(t, map[])).Some?
    requires IsRecord(db, "documents", t.tenant, Column(Some(t), "document_id"), Some(d))
    requires IsRecord(db, "users", t.tenant, Column(Some(t), "created_by"), u)
    requires IsRecord(db, "workspaces", t.tenant, Column(Some(d), "workspace_id"), w)
    ensures RowFor(cal, db, SOURCES["versions"], t).Some?
    ensures var row, ver, doc := RowFor(cal, db, SOURCES["versions"], t).value, Some(t), Some(d);
      && Carries(row, t, d.deleted)
      && DimOf(row, "created_by") == Some(Person(u, Column(ver, "created_by")))
      && DimOf(row, "workspace_id") == TextOr(Column(w, "name"), Column(doc, "workspace_id"))
      && DimOf(row, "document_class") == Column(doc, "document_class")
      && DimOf(row, "mime_type") == TextOr(Column(ver, "mime_type"), Some(""))
      && DimOf(row, "created_day") == Some(cal.day(t.createdAt)) && DimOf(row, "created_month") == Some(cal.month(t.createdAt))
  {
    hide Resolve, KeysUnique, IsRecord, Eval, DimOf, Person, TextOr, Column;
    var e := Resolve(db, VERSIONS.joins, Env(t, map[])).value;
    VersionEnv(db, t, d, u, w);
    PersonColumns(cal, VERSIONS, e, "created_by", ("t", "created_by"));
    TwoColumns(cal, VERSIONS, e, "workspace_id", ("w", "name"), ("d", "workspace_id"));
    OneColumn(cal, VERSIONS, e, "document_class", ("d", "document_class"), false);
    OneColumn(cal, VERSIONS, e, "mime_type", ("t", "mime_type"), true);
    Dates(cal, VERSIONS, e);
  }

  /** The assignments of a task. */
  predicate AssignedTo(a: Rec, t: Rec) { a.tenant == t.tenant && Column(Some(a), "task_id") == Some(t.id) }

  /** `first` is the task's earliest assignment, by time and then by user, if it has any. */
  ghost predicate IsFirst(db: Db, t: Rec, first: Option<Rec>) {
    var all := TableOf(db, "task_assignees");
    if first.None? then forall a <- all :: !AssignedTo(a, t)
    else first.value in all && AssignedTo(first.value, t) && forall a <- all :: AssignedTo(a, t) ==>
           a == first.value || first.value.createdAt < a.createdAt || (first.value.createdAt == a.createdAt && Before(first.value.id, a.id))
  }

  function IdOf(r: Option<Rec>): Option<string> { if r.Some? then Some(r.value.id) else None }

  lemma {:induction false} TaskEnv(db: Db, t: Rec, first: Option<Rec>, u: Option<Rec>)
    requires KeysUnique(db, TASKS.joins) && Resolve(db, TASKS.joins, Env(t, map[])).Some?
    requires IsFirst(db, t, first) && IsRecord(db, "users", t.tenant, IdOf(first), u)
    ensures var e := Resolve(db, TASKS.joins, Env(t, map[])).value;
      e.t == t && At(e, "u") == u && Column(At(e, "a1"), "id") == IdOf(first)
  {
    var joins := [FirstOf("a1", "task_assignees", "task_id"), OnKey("u", "users", false, "a1", "id")];
    assert TASKS.joins == joins;
    var e := Resolve(db, joins, Env(t, map[])).value;
    hide Resolve, KeysUnique, TASKS, IsFirst, IsRecord, Bound, Tidy;
    SourcesTidy();
    ResolveBinds(db, joins, Env(t, map[]), 0);
    ResolveBinds(db, joins, Env(t, map[]), 1);
    FirstBound(db, joins[0], e, first);
    BoundToRecord(db, joins[1], e, u);
  }

  lemma {:induction false} FirstBound(db: Db, j: Join, e: Env, first: Option<Rec>)
    requires j == FirstOf("a1", "task_assignees", "task_id") && Bound(db, j, e) && IsFirst(db, e.t, first)
    ensures Column(At(e, "a1"), "id") == IdOf(first)
  {
    var all := TableOf(db, "task_assignees");
    var hits := Hits(all, j, e);
    assert At(e, "a1") == if hits == [] then None else Some(UserId(Earliest(hits)));
    hide Bound, Hits, Before;
    forall r
      ensures r in hits <==> r in all && AssignedTo(r, e.t)
    {
      HitsBag(all, j, e, r);
      assert r in hits <==> multiset(hits)[r] > 0;
      assert r in all <==> multiset(all)[r] > 0;
    }
    if hits != [] {
      EarliestIsLeast(hits);
      assert Earliest(hits) in all && AssignedTo(Earliest(hits), e.t);
      assert first.value in hits;
    }
    assert first.Some? ==> first.value in hits;
  }

  /** A tasks row shows the person assigned first, whoever else is assigned; a task that nobody is
      assigned to shows an empty name. */
  lemma {:induction false} TaskDims(cal: Calendar, db: Db, t: Rec, first: Option<Rec>, u: Option<Rec>)
    requires KeysUnique(db, TASKS.joins) && Resolve(db, TASKS.joins, Env(t, map[])).Some?
    requires IsFirst(db, t, first) && IsRecord(db, "users", t.tenant, IdOf(first), u)
    ensures RowFor(cal, db, SOURCES["tasks"], t).Some?
    ensures var row, task := RowFor(cal, db, SOURCES["tasks"], t).value, Some(t);
      && Carries(row, t, t.deleted)
      && DimOf(row, "assignee_id") == Some(Person(u, IdOf(first)))
      && DimOf(row, "created_day") == Some(cal.day(t.createdAt)) && DimOf(row, "created_month") == Some(cal.month(t.createdAt))
      && DimOf(row, "status") == Column(task, "status") && DimOf(row, "priority") == Column(task, "priority")
  {
    hide Resolve, KeysUnique, IsRecord, IsFirst, Eval, DimOf, Person, TextOr, Column;
    var e := Resolve(db, TASKS.joins, Env(t, map[])).value;
    TaskEnv(db, t, first, u);
    PersonColumns(cal, TASKS, e, "assignee_id", ("a1", "id"));
    OneColumn(cal, TASKS, e, "status", ("t", "status"), false);
    OneColumn(cal, TASKS, e, "priority", ("t", "priority"), false);
    Dates(cal, TASKS, e);
  }
}
