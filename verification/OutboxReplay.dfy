/** Replaying dead-lettered rows into the outbox: a tenant loop with a shrinking limit. */
module OutboxReplay {
  import opened Basics
  import opened Outbox

  /** Replay order: oldest dead-lettered first, ties by id. */
  predicate Older(dlq: DlqTable, a: Id, b: Id) {
    a in dlq && b in dlq && (dlq[a].deadAt < dlq[b].deadAt || (dlq[a].deadAt == dlq[b].deadAt && a <= b))
  }

  function Of(dlq: DlqTable, tenant: Tenant): set<Id> { set id | id in dlq && dlq[id].event.tenant == tenant }

  lemma {:induction false} OldestExists(dlq: DlqTable, ids: set<Id>) returns (m: Id)
    requires ids != {} && ids <= dlq.Keys
    ensures m in ids && forall x <- ids :: Older(dlq, m, x)
    decreases ids
  {
    m :| m in ids;
    if ids != {m} {
      var n := OldestExists(dlq, ids - {m});
      assert ids == ids - {m} + {m};
      if Older(dlq, n, m) {
        m := n;
      }
    }
  }

  /** `ids` are the oldest `limit` rows of `tenant` that nobody has locked, in order. */
  ghost predicate IsPick(dlq: DlqTable, tenant: Tenant, locked: set<Id>, limit: nat, ids: seq<Id>) {
    var free := Of(dlq, tenant) - locked;
    && Distinct(ids) && Elems(ids) <= free && |ids| <= limit
    && (forall i, j :: 0 <= i < j < |ids| ==> Older(dlq, ids[i], ids[j]))
    && (forall i, x :: 0 <= i < |ids| && x in free && x !in ids ==> Older(dlq, ids[i], x))
    && (|ids| < limit ==> free <= Elems(ids))
  }

  /** A free dead row of the tenant that was not picked. */
  predicate LeftBehind(dlq: DlqTable, tenant: Tenant, locked: set<Id>, ids: seq<Id>, x: Id) {
    x in dlq && dlq[x].event.tenant == tenant && x !in locked && x !in ids
  }

  /** By time of death, then by id. */
  predicate Earlier(at: int, id: Id, at': int, id': Id) { at < at' || (at == at' && id < id') }

  lemma PickReads(dlq: DlqTable, tenant: Tenant, locked: set<Id>, limit: nat, ids: seq<Id>)
    requires IsPick(dlq, tenant, locked, limit, ids)
    ensures forall i :: 0 <= i < |ids| ==> ids[i] in dlq && ids[i] !in locked && dlq[ids[i]].event.tenant == tenant
    ensures forall i, j :: 0 <= i < j < |ids| ==> Earlier(dlq[ids[i]].deadAt, ids[i], dlq[ids[j]].deadAt, ids[j])
    ensures forall x :: LeftBehind(dlq, tenant, locked, ids, x) ==>
      |ids| == limit && forall i :: 0 <= i < |ids| ==> Earlier(dlq[ids[i]].deadAt, ids[i], dlq[x].deadAt, x)
  {
    assert forall i :: 0 <= i < |ids| ==> ids[i] in Elems(ids);
    forall x | LeftBehind(dlq, tenant, locked, ids, x)
      ensures |ids| == limit && forall i :: 0 <= i < |ids| ==> Earlier(dlq[ids[i]].deadAt, ids[i], dlq[x].deadAt, x)
    {
      assert x in Of(dlq, tenant) - locked && x !in Elems(ids);
      assert forall i :: 0 <= i < |ids| ==> Older(dlq, ids[i], x);
    }
  }

  /** A row locked by another replay is passed over, not waited for. */
  method Pick(dlq: DlqTable, tenant: Tenant, locked: set<Id>, limit: nat) returns (ids: seq<Id>)
    ensures IsPick(dlq, tenant, locked, limit, ids)
    ensures forall i :: 0 <= i < |ids| ==> ids[i] in dlq && ids[i] !in locked && dlq[ids[i]].event.tenant == tenant
    ensures forall i, j :: 0 <= i < j < |ids| ==> Earlier(dlq[ids[i]].deadAt, ids[i], dlq[ids[j]].deadAt, ids[j])
    ensures forall x :: LeftBehind(dlq, tenant, locked, ids, x) ==>
      |ids| == limit && forall i :: 0 <= i < |ids| ==> Earlier(dlq[ids[i]].deadAt, ids[i], dlq[x].deadAt, x)
  {
    ids := [];
    var rest := Of(dlq, tenant) - locked;
    while |ids| < limit && rest != {}
      invariant |ids| <= limit && Distinct(ids)
      invariant Elems(ids) + rest == Of(dlq, tenant) - locked && Elems(ids) !! rest
      invariant forall i, j :: 0 <= i < j < |ids| ==> Older(dlq, ids[i], ids[j])
      invariant forall i, x :: 0 <= i < |ids| && x in rest ==> Older(dlq, ids[i], x)
      decreases rest
    {
      ghost var oldest := OldestExists(dlq, rest);
      var m :| m in rest && forall x <- rest :: Older(dlq, m, x);
      assert Elems(ids + [m]) == Elems(ids) + {m};
      assert m !in ids by { assert m !in Elems(ids); }
      ids, rest := ids + [m], rest - {m};
    }
    assert forall x <- Of(dlq, tenant) - locked :: x in Elems(ids) || x in rest;
    PickReads(dlq, tenant, locked, limit, ids);
  }

  /** A pick depends only on the tenant's own rows. */
  lemma PickAgrees(before: DlqTable, now: DlqTable, tenant: Tenant, limit: nat, got: seq<Id>)
    requires IsPick(now, tenant, {}, limit, got) && Of(now, tenant) == Of(before, tenant)
    requires forall id <- now :: id in before && before[id] == now[id]
    ensures IsPick(before, tenant, {}, limit, got)
  {
    assert forall id <- got :: id in Elems(got);
  }

  lemma RequeueMore(outbox: OutboxTable, dlq: DlqTable, out: seq<Id>, got: seq<Id>)
    requires Elems(out) !! Elems(got)
    ensures outbox + Requeued(dlq, Elems(out)) + Requeued(dlq - Elems(out), Elems(got)) == outbox + Requeued(dlq, Elems(out + got))
    ensures dlq - Elems(out) - Elems(got) == dlq - Elems(out + got)
  {
    assert Elems(out + got) == Elems(out) + Elems(got);
  }

  /** After the tenants in `done`: at most `cap` rows chosen, each tenant's oldest first, and all
      of their rows chosen while there was room. */
  ghost predicate Progress(dlq: DlqTable, done: seq<Tenant>, cap: nat, out: seq<Id>) {
    && Distinct(out) && |out| <= cap
    && (forall id <- out :: id in dlq && dlq[id].event.tenant in done)
    && (|out| < cap ==> forall x <- dlq :: dlq[x].event.tenant in done ==> x in out)
    && (forall id, x :: id in out && x in dlq && x !in out && dlq[x].event.tenant == dlq[id].event.tenant ==> Older(dlq, id, x))
  }

  /** A call nobody disturbed: its choice over the dead letters at the start, and its effect. */
  ghost predicate Undisturbed(w: World, w': World, done: seq<Tenant>, cap: nat, dryRun: bool, out: seq<Id>) {
    && Progress(w.dlq, done, cap, out)
    && (dryRun ==> w' == w)
    && (!dryRun ==> w'.outbox == w.outbox + Requeued(w.dlq, Elems(out)) && w'.dlq == w.dlq - Elems(out))
  }

  lemma ProgressStep(dlq: DlqTable, done: seq<Tenant>, tenant: Tenant, cap: nat, out: seq<Id>, got: seq<Id>)
    requires Progress(dlq, done, cap, out) && tenant !in done && |out| < cap
    requires IsPick(dlq, tenant, {}, cap - |out|, got)
    ensures Elems(out) !! Elems(got) && Progress(dlq, done + [tenant], cap, out + got)
  {
    forall id | id in got
      ensures id in dlq && dlq[id].event.tenant == tenant
    {
      assert id in Elems(got);
    }
    forall i, j | 0 <= i < j < |out + got|
      ensures (out + got)[i] != (out + got)[j]
    {
      if i < |out| <= j {
        assert out[i] in out && got[j - |out|] in got;
      }
    }
    forall x | x in dlq && |out + got| < cap && dlq[x].event.tenant in done + [tenant]
      ensures x in out + got
    {
      if dlq[x].event.tenant == tenant {
        assert x in Of(dlq, tenant) && x in Elems(got);
      }
    }
    forall id, x | id in out + got && x in dlq && x !in out + got && dlq[x].event.tenant == dlq[id].event.tenant
      ensures Older(dlq, id, x)
    {
      if id in got {
        assert x in Of(dlq, tenant);
      }
    }
  }

  // ---- the call, with other processes at work between its transactions ----------------------

  /** One tenant's transaction: the dead letters it found and the rows it chose. */
  datatype Round = Round(dlq: DlqTable, got: seq<Id>)

  function Chosen(rounds: seq<Round>): seq<Id> {
    if rounds == [] then [] else Chosen(rounds[..|rounds| - 1]) + rounds[|rounds| - 1].got
  }

  /** The protocol run behind the rounds: before each, whatever others do; then its replay step. */
  function Steps(others: nat -> seq<Action>, dryRun: bool, rounds: seq<Round>): seq<Action> {
    if rounds == [] then []
    else
      var k := |rounds| - 1;
      Steps(others, dryRun, rounds[..k]) + others(k) + if dryRun then [] else [Replay(Elems(rounds[k].got))]
  }

  /** A round, after those in `before`, chose the tenant's oldest free rows of its own moment, within
      what was left of the cap. */
  ghost predicate RoundAt(c: Config, w: World, tenant: Tenant, cap: nat, dryRun: bool,
                          locked: nat -> set<Id>, others: nat -> seq<Action>, before: seq<Round>, r: Round) {
    var i := |before|;
    && r.dlq == Run(c, w, Steps(others, dryRun, before) + others(i)).dlq
    && |Chosen(before)| < cap
    && IsPick(r.dlq, tenant, if dryRun then {} else locked(i), cap - |Chosen(before)|, r.got)
  }

  ghost predicate RoundsOk(c: Config, w: World, tenants: seq<Tenant>, cap: nat, dryRun: bool,
                           locked: nat -> set<Id>, others: nat -> seq<Action>, rounds: seq<Round>) {
    |rounds| <= |tenants| && forall i :: 0 <= i < |rounds| ==>
      RoundAt(c, w, tenants[i], cap, dryRun, locked, others, rounds[..i], rounds[i])
  }

  lemma RoundsMore(c: Config, w: World, tenants: seq<Tenant>, cap: nat, dryRun: bool,
                   locked: nat -> set<Id>, others: nat -> seq<Action>, rounds: seq<Round>, r: Round)
    requires RoundsOk(c, w, tenants, cap, dryRun, locked, others, rounds) && |rounds| < |tenants|
    requires RoundAt(c, w, tenants[|rounds|], cap, dryRun, locked, others, rounds, r)
    ensures RoundsOk(c, w, tenants, cap, dryRun, locked, others, rounds + [r])
  {
    hide RoundAt;
    var more := rounds + [r];
    assert more[..|rounds|] == rounds && more[|rounds|] == r;
    forall i | 0 <= i < |more|
      ensures RoundAt(c, w, tenants[i], cap, dryRun, locked, others, more[..i], more[i])
    {
      if i < |rounds| {
        assert more[i] == rounds[i] && more[..i] == rounds[..i];
      }
    }
  }

  lemma StepsSnoc(others: nat -> seq<Action>, dryRun: bool, rounds: seq<Round>, r: Round)
    ensures Chosen(rounds + [r]) == Chosen(rounds) + r.got
    ensures Steps(others, dryRun, rounds + [r]) ==
      Steps(others, dryRun, rounds) + others(|rounds|) + if dryRun then [] else [Replay(Elems(r.got))]
  {
    assert (rounds + [r])[..|rounds|] == rounds;
  }

  /** Picked rows are in the dead letters, and requeued they are ready. */
  lemma ReadyAgain(outbox: OutboxTable, dlq: DlqTable, tenant: Tenant, locked: set<Id>, limit: nat, got: seq<Id>)
    requires IsPick(dlq, tenant, locked, limit, got)
    ensures Elems(got) * dlq.Keys == Elems(got)
    ensures var outbox' := outbox + Requeued(dlq, Elems(got));
      forall id <- got :: id in dlq && id in outbox' && Ready(outbox'[id], dlq[id].event)
  {
    assert forall id <- got :: id in Elems(got);
  }

  class DeadLetters {
    const config: Config
    var world: World

    constructor (config: Config, world: World)
      ensures this.config == config && this.world == world
    {
      this.config, this.world := config, world;
    }

    /** One tenant's transaction: one statement that deletes the rows from one table and inserts
        them in the other. */
    method ReplayTenant(tenant: Tenant, limit: nat, dryRun: bool, locked: set<Id>) returns (got: seq<Id>)
      modifies this
      ensures IsPick(old(world.dlq), tenant, if dryRun then {} else locked, limit, got)
      ensures world == if dryRun then old(world) else Next(config, old(world), Replay(Elems(got)))
      ensures !dryRun ==> world.outbox == old(world.outbox) + Requeued(old(world.dlq), Elems(got))
      ensures !dryRun ==> world.dlq == old(world.dlq) - Elems(got)
      ensures !dryRun ==> forall id <- got :: id in old(world.dlq) && id in world.outbox && Ready(world.outbox[id], old(world.dlq)[id].event)
    {
      hide IsPick, Requeued, Ready;
      got := Pick(world.dlq, tenant, if dryRun then {} else locked, limit);
      if !dryRun {
        var moved := Elems(got);
        ReadyAgain(world.outbox, world.dlq, tenant, if dryRun then {} else locked, limit, got);
        world := world.(outbox := world.outbox + Requeued(world.dlq, moved), dlq := world.dlq - moved,
                        failures := world.failures + map id | id in moved :: 0);
      }
    }

    /** Each tenant's rows move in one transaction, until `limit` rows have moved; before each, other
        processes may take any steps of the protocol. A tenant in `failing` rolls back and ends the
        call; earlier ones stay moved. When nobody else is at work, the call as a whole takes every
        tenant's oldest rows. */
    method ReplayDLQ(tenants: seq<Tenant>, limit: int, dryRun: bool, failing: set<Tenant>,
                     locked: nat -> set<Id>, others: nat -> seq<Action>)
      returns (out: seq<Id>, ok: bool, n: nat, ghost rounds: seq<Round>)
      requires Distinct(tenants)
      modifies this
      ensures |rounds| == n <= |tenants| && out == Chosen(rounds) && |out| <= if limit <= 0 then 100 else limit
      ensures RoundsOk(config, old(world), tenants, if limit <= 0 then 100 else limit, dryRun, locked, others, rounds)
      ensures world == Run(config, old(world), Steps(others, dryRun, rounds) + if ok then [] else others(n))
      ensures ok ==> n == |tenants| || |out| == if limit <= 0 then 100 else limit
      ensures !ok ==> n < |tenants| && tenants[n] in failing
      ensures (forall i :: others(i) == [] && locked(i) == {}) ==>
        Undisturbed(old(world), world, tenants[..n], if limit <= 0 then 100 else limit, dryRun, out)
    {
      hide IsPick, Undisturbed, RoundsOk, Run, Next, Steps, Chosen, Requeued, Elems;
      var cap := if limit <= 0 then 100 else limit;
      ghost var quiet := forall i :: others(i) == [] && locked(i) == {};
      out, n, rounds := [], 0, [];
      Start(config, world, tenants, cap, dryRun, locked, others);
      assert tenants[..0] == [];
      while n < |tenants| && |out| < cap
        invariant |rounds| == n <= |tenants| && out == Chosen(rounds) && |out| <= cap
        invariant RoundsOk(config, old(world), tenants, cap, dryRun, locked, others, rounds)
        invariant world == Run(config, old(world), Steps(others, dryRun, rounds))
        invariant quiet ==> Undisturbed(old(world), world, tenants[..n], cap, dryRun, out)
      {
        var tenant := tenants[n];
        assert tenant !in tenants[..n] && tenants[..n + 1] == tenants[..n] + [tenant];
        RunConcat(config, old(world), Steps(others, dryRun, rounds), others(n));
        RunNothing(config, world);
        world := Run(config, world, others(n));
        if tenant in failing {
          return out, false, n, rounds;
        }
        ghost var before := world;
        var got := ReplayTenant(tenant, cap - |out|, dryRun, locked(n));
        if quiet {
          QuietRound(old(world), before, world, tenants[..n], tenant, cap, dryRun, out, got);
        }
        PickBound(before.dlq, tenant, if dryRun then {} else locked(n), cap - |out|, got);
        ghost var r := Round(before.dlq, got);
        RoundsMore(config, old(world), tenants, cap, dryRun, locked, others, rounds, r);
        StepsSnoc(others, dryRun, rounds, r);
        LastStep(config, old(world), Steps(others, dryRun, rounds) + others(n), Replay(Elems(got)));
        assert Steps(others, dryRun, rounds) + others(n) + [] == Steps(others, dryRun, rounds) + others(n);
        out, n, rounds := out + got, n + 1, rounds + [r];
      }
      assert Steps(others, dryRun, rounds) + [] == Steps(others, dryRun, rounds);
      return out, true, n, rounds;
    }
  }

  lemma Start(c: Config, w: World, tenants: seq<Tenant>, cap: nat, dryRun: bool, locked: nat -> set<Id>, others: nat -> seq<Action>)
    ensures RoundsOk(c, w, tenants, cap, dryRun, locked, others, []) && Chosen([]) == [] && Steps(others, dryRun, []) == []
    ensures Run(c, w, []) == w && Undisturbed(w, w, [], cap, dryRun, [])
  {
    assert Elems<Id>([]) == {};
    assert w.outbox + Requeued(w.dlq, {}) == w.outbox && w.dlq - {} == w.dlq;
  }

  lemma RunNothing(c: Config, w: World)
    ensures Run(c, w, []) == w
  {
  }

  lemma LastStep(c: Config, w: World, a: seq<Action>, last: Action)
    ensures Run(c, w, a + [last]) == Next(c, Run(c, w, a), last)
  {
    hide Next;
    RunConcat(c, w, a, [last]);
    assert [last][1..] == [];
    RunNothing(c, Next(c, Run(c, w, a), last));
  }

  lemma PickBound(dlq: DlqTable, tenant: Tenant, locked: set<Id>, limit: nat, got: seq<Id>)
    requires IsPick(dlq, tenant, locked, limit, got)
    ensures |got| <= limit
  {
  }

  /** A round that nobody disturbed continues the choice over the dead letters at the start. */
  lemma QuietRound(w: World, before: World, after: World, done: seq<Tenant>, tenant: Tenant, cap: nat, dryRun: bool, out: seq<Id>, got: seq<Id>)
    requires Undisturbed(w, before, done, cap, dryRun, out) && tenant !in done && |out| < cap
    requires IsPick(before.dlq, tenant, {}, cap - |out|, got)
    requires dryRun ==> after == before
    requires !dryRun ==> after.outbox == before.outbox + Requeued(before.dlq, Elems(got)) && after.dlq == before.dlq - Elems(got)
    ensures Undisturbed(w, after, done + [tenant], cap, dryRun, out + got)
  {
    hide IsPick, Progress, Older, Requeued;
    OthersUntouched(w.dlq, done, tenant, cap, out);
    PickAgrees(w.dlq, before.dlq, tenant, cap - |out|, got);
    ProgressStep(w.dlq, done, tenant, cap, out, got);
    RequeueMore(w.outbox, w.dlq, out, got);
  }

  lemma OthersUntouched(dlq: DlqTable, done: seq<Tenant>, tenant: Tenant, cap: nat, out: seq<Id>)
    requires Progress(dlq, done, cap, out) && tenant !in done
    ensures Of(dlq - Elems(out), tenant) == Of(dlq, tenant)
  {
  }
}
