/** One poll cycle of a publisher, as the loop runs it, proved against the protocol's steps. */
module OutboxDrain {
  import opened Basics
  import opened Backoff
  import opened Outbox

  function Begin(outbox: OutboxTable, ids: seq<Id>, now: int): Txn {
    Txn(ids, map id | id in ids && id in outbox :: outbox[id], now, [], map[])
  }

  /** The transaction after its first `k` publishes. */
  function After(c: Config, t: Txn, results: seq<Outcome>, k: nat): Txn
    requires |results| == |t.ids| && forall id <- t.ids :: id in t.rows
    requires k <= |t.ids| && forall j :: 0 <= j < k - 1 ==> !results[j].Transient?
    requires t.log == []
    ensures var r := After(c, t, results, k);
      r.ids == t.ids && r.rows == t.rows && r.at == t.at && r.log == results[..k]
  {
    if k == 0 then t else
      var p := After(c, t, results, k - 1);
      assert results[..k] == results[..k - 1] + [results[k - 1]];
      Process(c, p, results[k - 1])
  }

  lemma NoneYet(c: Config, t: Txn, results: seq<Outcome>)
    requires |results| == |t.ids| && (forall id <- t.ids :: id in t.rows) && t.log == []
    ensures After(c, t, results, 0) == t && StoredIds(t.ids, results, 0) == []
  {
  }

  lemma AfterStep(c: Config, t: Txn, results: seq<Outcome>, k: nat)
    requires |results| == |t.ids| && (forall id <- t.ids :: id in t.rows) && t.log == []
    requires 0 < k <= |t.ids| && forall j :: 0 <= j < k - 1 ==> !results[j].Transient?
    ensures var id := t.ids[k - 1];
      After(c, t, results, k).marks == After(c, t, results, k - 1).marks[id := MarkOf(c, t.at, t.rows[id], results[k - 1])]
  {
  }

  function StoredIds(ids: seq<Id>, results: seq<Outcome>, k: nat): seq<Id>
    requires |ids| == |results| && k <= |ids|
  {
    if k == 0 then [] else
      StoredIds(ids, results, k - 1) + if Stored(results[k - 1]) then [ids[k - 1]] else []
  }

  lemma StoredStep(broker: seq<Id>, ids: seq<Id>, results: seq<Outcome>, k: nat)
    requires |ids| == |results| && 0 < k <= |ids|
    ensures broker + StoredIds(ids, results, k) ==
            if Stored(results[k - 1]) then broker + StoredIds(ids, results, k - 1) + [ids[k - 1]]
            else broker + StoredIds(ids, results, k - 1)
  {
  }

  /** A statement run with the tenant set sees only that tenant's rows. */
  function UpdatePublished(t: OutboxTable, tenant: Tenant, ids: seq<Id>, at: int): OutboxTable {
    map id | id in t :: if id in ids && t[id].event.tenant == tenant then Marked(t[id], MarkPublished, at) else t[id]
  }

  /** The marks already written: failures at once, successes tenant by tenant at the end. */
  ghost function Written(outbox: OutboxTable, marks: map<Id, Mark>, done: set<Tenant>): map<Id, Mark> {
    map id | id in marks && id in outbox && (!marks[id].MarkPublished? || outbox[id].event.tenant in done) :: marks[id]
  }

  ghost predicate Grouped(outbox: OutboxTable, marks: map<Id, Mark>, published: map<Tenant, seq<Id>>) {
    && (forall id <- marks :: id in outbox)
    && (forall id <- marks :: marks[id].MarkPublished? ==>
          outbox[id].event.tenant in published && id in published[outbox[id].event.tenant])
    && (forall tenant <- published, id <- published[tenant] ::
          id in marks && marks[id].MarkPublished? && outbox[id].event.tenant == tenant)
  }

  lemma NoMarks(outbox: OutboxTable, dlq: DlqTable, at: int)
    ensures ApplyOutbox(outbox, Written(outbox, map[], {}), at) == outbox
    ensures ApplyDlq(outbox, dlq, map[], at) == dlq
    ensures Grouped(outbox, map[], map[])
  {
  }

  lemma AllWritten(outbox: OutboxTable, marks: map<Id, Mark>, published: map<Tenant, seq<Id>>)
    requires Grouped(outbox, marks, published)
    ensures Written(outbox, marks, published.Keys) == marks
  {
  }

  lemma ApplyOneMore(outbox: OutboxTable, marks: map<Id, Mark>, id: Id, m: Mark, at: int)
    requires id in outbox && id !in marks
    ensures var ob := ApplyOutbox(outbox, marks, at);
      && id in ob && ob[id] == outbox[id]
      && ApplyOutbox(outbox, marks[id := m], at) == if m.MarkDead? then ob - {id} else ob[id := Marked(outbox[id], m, at)]
  {
  }

  lemma WriteFailureMark(outbox: OutboxTable, marks: map<Id, Mark>, id: Id, m: Mark, at: int)
    requires id in outbox && id !in marks && !m.MarkPublished?
    ensures var ob := ApplyOutbox(outbox, Written(outbox, marks, {}), at);
      && id in ob && ob[id] == outbox[id]
      && ApplyOutbox(outbox, Written(outbox, marks[id := m], {}), at)
         == if m.MarkDead? then ob - {id} else ob[id := Marked(outbox[id], m, at)]
  {
    assert Written(outbox, marks[id := m], {}) == Written(outbox, marks, {})[id := m];
    ApplyOneMore(outbox, Written(outbox, marks, {}), id, m, at);
  }

  lemma WriteSuccessMark(outbox: OutboxTable, marks: map<Id, Mark>, id: Id)
    requires id in outbox && id !in marks
    ensures Written(outbox, marks[id := MarkPublished], {}) == Written(outbox, marks, {})
  {
  }

  lemma WriteDlq(outbox: OutboxTable, dlq: DlqTable, marks: map<Id, Mark>, id: Id, m: Mark, at: int)
    requires id in outbox && id !in marks
    ensures ApplyDlq(outbox, dlq, marks[id := m], at) ==
            if m.MarkDead? then ApplyDlq(outbox, dlq, marks, at)[id := DeadRow(outbox[id].event, m.attempts, m.error, at)]
            else ApplyDlq(outbox, dlq, marks, at)
  {
  }

  /** Adding a success to its tenant's list, or any other mark, keeps the lists right. */
  lemma GroupedStep(outbox: OutboxTable, marks: map<Id, Mark>, published: map<Tenant, seq<Id>>, id: Id, m: Mark)
    requires Grouped(outbox, marks, published) && id in outbox && id !in marks
    ensures var tenant := outbox[id].event.tenant;
      Grouped(outbox, marks[id := m],
        if !m.MarkPublished? then published
        else published[tenant := (if tenant in published then published[tenant] else []) + [id]])
  {
  }

  lemma WriteTenant(outbox: OutboxTable, marks: map<Id, Mark>, published: map<Tenant, seq<Id>>, done: set<Tenant>, tenant: Tenant, at: int)
    requires Grouped(outbox, marks, published) && tenant in published && tenant !in done
    ensures UpdatePublished(ApplyOutbox(outbox, Written(outbox, marks, done), at), tenant, published[tenant], at)
         == ApplyOutbox(outbox, Written(outbox, marks, done + {tenant}), at)
  {
    var ob := ApplyOutbox(outbox, Written(outbox, marks, done), at);
    var ob' := ApplyOutbox(outbox, Written(outbox, marks, done + {tenant}), at);
    forall id | id in outbox
      ensures id in ob <==> id in ob'
      ensures id in ob ==>
        ob[id].event.tenant == outbox[id].event.tenant &&
        ob'[id] == if id in published[tenant] then Marked(ob[id], MarkPublished, at) else ob[id]
    {
    }
  }

  /** The two tables and the broker, as one publisher process sees them. */
  class Publisher {
    var outbox: OutboxTable
    var dlq: DlqTable
    var broker: seq<Id>

    constructor ()
      ensures outbox == map[] && dlq == map[] && broker == []
    {
      outbox, dlq, broker := map[], map[], [];
    }

    /** The writes for one failed row: defer it without counting, dead-letter it, or schedule its
        next attempt. */
    static method RecordFailure(c: Config, now: int, id: Id, row: Row, result: Outcome, ob: OutboxTable, dq: DlqTable)
      returns (ob': OutboxTable, dq': DlqTable)
      requires !result.Accepted? && id in ob && ob[id] == row
      ensures var m := MarkOf(c, now, row, result);
        && !m.MarkPublished?
        && ob' == (if m.MarkDead? then ob - {id} else ob[id := Marked(row, m, now)])
        && dq' == (if m.MarkDead? then dq[id := DeadRow(row.event, m.attempts, m.error, now)] else dq)
    {
      hide Delay, Min, Max;
      if result.Transient? {
        var failures := row.transientFailures + 1;
        var wait, _ := TransientBackoff(c.baseBackoff, c.maxBackoff, failures);
        return ob[id := row.(transientFailures := failures, nextAttemptAt := Some(now + wait), lastError := Some(result.error))], dq;
      }
      var attempts := row.attempts + 1;
      if attempts >= c.maxAttempts {
        return ob - {id}, dq[id := DeadRow(row.event, attempts, result.error, now)];
      }
      var wait, _ := CountedBackoff(c.baseBackoff, c.maxBackoff, attempts);
      return ob[id := row.(attempts := attempts, nextAttemptAt := Some(now + wait), lastError := Some(result.error))], dq;
    }

    /** The publish loop: the broker is told at once, failures are written to the transaction's
        view of the tables, successes are only collected per tenant. */
    method PublishRows(c: Config, now: int, batch: seq<Id>, results: seq<Outcome>, failing: set<Id>)
      returns (ok: bool, k: nat, ob: OutboxTable, dq: DlqTable, published: map<Tenant, seq<Id>>)
      requires Distinct(batch) && |results| == |batch|
      requires forall id <- batch :: id in outbox
      modifies this`broker
      ensures k <= |batch| && forall j :: 0 <= j < k - 1 ==> !results[j].Transient?
      ensures broker == old(broker) + StoredIds(batch, results, k)
      ensures !ok <==> exists j :: 0 <= j < k && !results[j].Accepted? && batch[j] in failing
      ensures ok ==>
        var t := After(c, Begin(outbox, batch, now), results, k);
        && Stopped(t) && Grouped(outbox, t.marks, published)
        && ob == ApplyOutbox(outbox, Written(outbox, t.marks, {}), now)
        && dq == ApplyDlq(outbox, dlq, t.marks, now)
    {
      hide ApplyOutbox, ApplyDlq, Written, Grouped, After, StoredIds, Marked, Delay;
      ob, dq := outbox, dlq;
      published := map[];
      ghost var start := Begin(outbox, batch, now);
      ghost var marks: map<Id, Mark> := map[];
      k := 0;
      NoMarks(outbox, dlq, now);
      NoneYet(c, start, results);
      while k < |batch|
        invariant k <= |batch| && forall j :: 0 <= j < k ==> !results[j].Transient?
        invariant forall j :: 0 <= j < k && batch[j] in failing ==> results[j].Accepted?
        invariant marks == After(c, start, results, k).marks
        invariant forall j :: k <= j < |batch| ==> batch[j] !in marks
        invariant ob == ApplyOutbox(outbox, Written(outbox, marks, {}), now)
        invariant dq == ApplyDlq(outbox, dlq, marks, now)
        invariant Grouped(outbox, marks, published)
        invariant broker == old(broker) + StoredIds(batch, results, k)
      {
        var id, result := batch[k], results[k];
        ghost var m := MarkOf(c, now, outbox[id], result);
        if Stored(result) {
          broker := broker + [id];
        }
        k := k + 1;
        AfterStep(c, start, results, k);
        StoredStep(old(broker), batch, results, k);
        GroupedStep(outbox, marks, published, id, m);
        WriteDlq(outbox, dlq, marks, id, m, now);
        if result.Accepted? {
          WriteSuccessMark(outbox, marks, id);
          marks := marks[id := m];
          var tenant := outbox[id].event.tenant;
          published := published[tenant := (if tenant in published then published[tenant] else []) + [id]];
          continue;
        }
        if id in failing {
          return false, k, ob, dq, published;
        }
        WriteFailureMark(outbox, marks, id, m, now);
        marks := marks[id := m];
        ob, dq := RecordFailure(c, now, id, outbox[id], result, ob, dq);
        if result.Transient? {
          break;
        }
      }
      ok := true;
    }

    /** Marks the collected successes, one statement per tenant, in any tenant order. */
    static method MarkTenants(ghost before: OutboxTable, ghost marks: map<Id, Mark>, view: OutboxTable,
                              published: map<Tenant, seq<Id>>, now: int) returns (ob: OutboxTable)
      requires Grouped(before, marks, published)
      requires view == ApplyOutbox(before, Written(before, marks, {}), now)
      ensures ob == ApplyOutbox(before, marks, now)
    {
      hide ApplyOutbox, Written, Grouped;
      ob := view;
      var todo := published.Keys;
      assert published.Keys - todo == {};
      while todo != {}
        invariant todo <= published.Keys
        invariant ob == ApplyOutbox(before, Written(before, marks, published.Keys - todo), now)
        decreases todo
      {
        var tenant :| tenant in todo;
        WriteTenant(before, marks, published, published.Keys - todo, tenant, now);
        assert published.Keys - (todo - {tenant}) == published.Keys - todo + {tenant};
        ob := UpdatePublished(ob, tenant, published[tenant], now);
        todo := todo - {tenant};
      }
      assert published.Keys - {} == published.Keys;
      AllWritten(before, marks, published);
    }

    /** One poll cycle. `results` are the broker's answers; `failing` are the rows whose retry or
        dead-letter write errors, and `commitFails` covers the rest of the transaction. An error
        rolls both tables back, but not the broker. */
    method DrainBatch(c: Config, now: int, batch: seq<Id>, results: seq<Outcome>, failing: set<Id>, commitFails: bool)
      returns (committed: bool, k: nat)
      requires Distinct(batch) && |results| == |batch|
      requires forall id <- batch :: id in outbox
      modifies this
      ensures k <= |batch| && forall j :: 0 <= j < k - 1 ==> !results[j].Transient?
      ensures broker == old(broker) + StoredIds(batch, results, k)
      ensures committed ==>
        var t := After(c, Begin(old(outbox), batch, now), results, k);
        && Stopped(t)
        && outbox == ApplyOutbox(old(outbox), t.marks, now) && dlq == ApplyDlq(old(outbox), old(dlq), t.marks, now)
      ensures !committed ==> outbox == old(outbox) && dlq == old(dlq)
      ensures !committed <==> commitFails || exists j :: 0 <= j < k && !results[j].Accepted? && batch[j] in failing
    {
      hide ApplyOutbox, ApplyDlq, Written, Grouped, After, StoredIds, Stopped;
      var ok, n, ob, dq, published := PublishRows(c, now, batch, results, failing);
      k := n;
      if !ok {
        return false, k;
      }
      ob := MarkTenants(outbox, After(c, Begin(outbox, batch, now), results, k).marks, ob, published, now);
      if commitFails {
        return false, k;
      }
      outbox, dlq := ob, dq;
      committed := true;
    }
  }

  // ---- the loop is a run of the protocol ------------------------------------

  function Publishes(rep: Replica, results: seq<Outcome>): seq<Action> {
    if results == [] then [] else [Publish(rep, results[0])] + Publishes(rep, results[1..])
  }

  lemma {:induction false} PublishesSnoc(rep: Replica, results: seq<Outcome>, k: nat)
    requires k < |results|
    ensures Publishes(rep, results[..k + 1]) == Publishes(rep, results[..k]) + [Publish(rep, results[k])]
    decreases |results|
  {
    if k > 0 {
      PublishesSnoc(rep, results[1..], k - 1);
      assert results[..k + 1][1..] == results[1..][..k] && results[..k][1..] == results[1..][..k - 1];
    } else {
      assert results[..1][1..] == [] && results[..0] == [];
    }
  }

  /** Claiming the batch and publishing `k` rows is what the loop does before it commits. */
  lemma {:induction false} LoopIsRun(c: Config, w: World, rep: Replica, ids: seq<Id>, results: seq<Outcome>, k: nat)
    requires CanClaim(c, w, rep, ids) && |results| == |ids|
    requires k <= |ids| && forall j :: 0 <= j < k - 1 ==> !results[j].Transient?
    ensures Run(c, w, [Claim(rep, ids)] + Publishes(rep, results[..k])) ==
      w.(open := w.open[rep := After(c, Begin(w.outbox, ids, w.now), results, k)],
         broker := w.broker + StoredIds(ids, results, k))
    decreases k
  {
    hide After, StoredIds, MarkOf, DoPublish;
    if k == 0 {
      NoneYet(c, Begin(w.outbox, ids, w.now), results);
      assert [Claim(rep, ids)] + Publishes(rep, results[..0]) == [Claim(rep, ids)];
      RunOne(c, w, Claim(rep, ids));
    } else {
      LoopIsRun(c, w, rep, ids, results, k - 1);
      PublishesSnoc(rep, results, k - 1);
      var prefix := [Claim(rep, ids)] + Publishes(rep, results[..k - 1]);
      var last := Publish(rep, results[k - 1]);
      assert [Claim(rep, ids)] + Publishes(rep, results[..k]) == prefix + [last];
      RunConcat(c, w, prefix, [last]);
      RunOne(c, Run(c, w, prefix), last);
      PublishOnce(c, w, rep, ids, results, k);
    }
  }

  lemma RunOne(c: Config, w: World, a: Action)
    ensures Run(c, w, [a]) == Next(c, w, a)
  {
    assert [a][1..] == [];
    assert Run(c, Next(c, w, a), []) == Next(c, w, a);
  }

  lemma PublishOnce(c: Config, w: World, rep: Replica, ids: seq<Id>, results: seq<Outcome>, k: nat)
    requires CanClaim(c, w, rep, ids) && |results| == |ids|
    requires 0 < k <= |ids| && forall j :: 0 <= j < k - 1 ==> !results[j].Transient?
    ensures var start := Begin(w.outbox, ids, w.now);
      var w1 := w.(open := w.open[rep := After(c, start, results, k - 1)], broker := w.broker + StoredIds(ids, results, k - 1));
      DoPublish(c, w1, rep, results[k - 1])
        == w.(open := w.open[rep := After(c, start, results, k)], broker := w.broker + StoredIds(ids, results, k))
  {
    hide MarkOf;
    var start := Begin(w.outbox, ids, w.now);
    var p := After(c, start, results, k - 1);
    assert !Stopped(p);
    assert w.open[rep := p][rep := Process(c, p, results[k - 1])] == w.open[rep := After(c, start, results, k)];
  }

  /** So the tables a committed DrainBatch leaves are those of a protocol run, and everything
      proved of every run holds of them. */
  lemma DrainIsRun(c: Config, w: World, rep: Replica, ids: seq<Id>, results: seq<Outcome>, k: nat, committed: bool)
    requires CanClaim(c, w, rep, ids) && |results| == |ids|
    requires k <= |ids| && forall j :: 0 <= j < k - 1 ==> !results[j].Transient?
    requires committed ==> Stopped(After(c, Begin(w.outbox, ids, w.now), results, k))
    ensures var t := After(c, Begin(w.outbox, ids, w.now), results, k);
      var w' := Run(c, w, [Claim(rep, ids)] + Publishes(rep, results[..k]) + [if committed then Commit(rep) else Abort(rep)]);
      && w'.open == w.open && w'.broker == w.broker + StoredIds(ids, results, k)
      && (committed ==> w'.outbox == ApplyOutbox(w.outbox, t.marks, w.now) && w'.dlq == ApplyDlq(w.outbox, w.dlq, t.marks, w.now))
      && (!committed ==> w'.outbox == w.outbox && w'.dlq == w.dlq)
  {
    LoopIsRun(c, w, rep, ids, results, k);
    var prefix := [Claim(rep, ids)] + Publishes(rep, results[..k]);
    var last := if committed then Commit(rep) else Abort(rep);
    RunConcat(c, w, prefix, [last]);
    var w1 := Run(c, w, prefix);
    RunOne(c, w1, last);
    assert w1.open - {rep} == w.open;
  }
}
