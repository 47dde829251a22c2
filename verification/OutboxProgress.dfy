/** Drains make progress: the retry budget left in the outbox falls with every counted outcome. */
module OutboxProgress {
  import opened Basics
  import opened Outbox

  function Cost(c: Config, r: Row): nat {
    if r.published || c.maxAttempts <= r.attempts then 0 else c.maxAttempts - r.attempts
  }

  /** The attempts that unpublished rows may still use, summed over `ids`. */
  ghost function BudgetOver(c: Config, t: OutboxTable, ids: set<Id>): nat {
    if ids == {} then 0
    else
      var id :| id in ids;
      (if id in t then Cost(c, t[id]) else 0) + BudgetOver(c, t, ids - {id})
  }

  ghost function Budget(c: Config, t: OutboxTable): nat { BudgetOver(c, t, t.Keys) }

  lemma {:induction false} BudgetSplit(c: Config, t: OutboxTable, ids: set<Id>, x: Id)
    requires x in ids
    ensures BudgetOver(c, t, ids) == (if x in t then Cost(c, t[x]) else 0) + BudgetOver(c, t, ids - {x})
    decreases ids
  {
    var id :| id in ids && BudgetOver(c, t, ids) == (if id in t then Cost(c, t[id]) else 0) + BudgetOver(c, t, ids - {id});
    if id != x {
      BudgetSplit(c, t, ids - {id}, x);
      BudgetSplit(c, t, ids - {x}, id);
      assert ids - {id} - {x} == ids - {x} - {id};
    }
  }

  lemma {:induction false} BudgetAgree(c: Config, t: OutboxTable, t': OutboxTable, ids: set<Id>)
    requires forall id <- ids :: (id in t <==> id in t') && (id in t ==> t[id] == t'[id])
    ensures BudgetOver(c, t, ids) == BudgetOver(c, t', ids)
    decreases ids
  {
    if ids != {} {
      var id :| id in ids;
      BudgetSplit(c, t, ids, id);
      BudgetSplit(c, t', ids, id);
      BudgetAgree(c, t, t', ids - {id});
    }
  }

  /** A table without the row `x` has the budget of the others. */
  lemma BudgetWithout(c: Config, t: OutboxTable, x: Id)
    requires x in t
    ensures Budget(c, t) == Cost(c, t[x]) + Budget(c, t - {x})
  {
    BudgetSplit(c, t, t.Keys, x);
    assert (t - {x}).Keys == t.Keys - {x};
    BudgetAgree(c, t, t - {x}, t.Keys - {x});
  }

  /** Changing or dropping the one row `x` changes the budget by that row's cost. */
  lemma BudgetChange(c: Config, t: OutboxTable, t': OutboxTable, x: Id)
    requires x in t && t' - {x} == t - {x}
    ensures Budget(c, t') + Cost(c, t[x]) == Budget(c, t) + if x in t' then Cost(c, t'[x]) else 0
  {
    BudgetWithout(c, t, x);
    if x in t' {
      BudgetWithout(c, t', x);
    } else {
      assert t' - {x} == t';
    }
  }

  function Drop(t: OutboxTable, gone: set<Id>): OutboxTable { t - gone }

  lemma {:induction false} BudgetDrop(c: Config, t: OutboxTable, gone: set<Id>)
    ensures Budget(c, Drop(t, gone)) <= Budget(c, t)
    decreases gone
  {
    if gone == {} {
      assert Drop(t, gone) == t;
    } else {
      var id :| id in gone;
      BudgetDrop(c, t, gone - {id});
      var t1 := Drop(t, gone - {id});
      if id in t1 {
        BudgetWithout(c, t1, id);
        assert t1 - {id} == Drop(t, gone);
      } else {
        assert t1 == Drop(t, gone);
      }
    }
  }

  /** The outcomes that use up budget: everything but transient failures. */
  function Decisive(log: seq<Outcome>): nat {
    if log == [] then 0 else Decisive(log[..|log| - 1]) + if log[|log| - 1].Transient? then 0 else 1
  }

  function FirstMarks(t: Txn, k: nat): map<Id, Mark>
    requires k <= |t.ids|
  {
    map id | id in t.marks && id in t.ids[..k] :: t.marks[id]
  }

  lemma FirstMarksStep(t: Txn, k: nat)
    requires Distinct(t.ids) && k < |t.ids| && t.ids[k] in t.marks
    ensures t.ids[k] !in FirstMarks(t, k)
    ensures FirstMarks(t, k + 1) == FirstMarks(t, k)[t.ids[k] := t.marks[t.ids[k]]]
  {
    assert t.ids[..k + 1] == t.ids[..k] + [t.ids[k]];
  }

  /** Writing one more mark changes exactly one row. */
  lemma OneMoreMark(outbox: OutboxTable, m: map<Id, Mark>, id: Id, mark: Mark, at: int)
    requires id !in m && id in outbox
    ensures var before, after := ApplyOutbox(outbox, m, at), ApplyOutbox(outbox, m[id := mark], at);
      && id in before && before[id] == outbox[id] && after - {id} == before - {id}
      && (if mark.MarkDead? then id !in after else id in after && after[id] == Marked(outbox[id], mark, at))
  {
    var before, after := ApplyOutbox(outbox, m, at), ApplyOutbox(outbox, m[id := mark], at);
    assert after - {id} == before - {id};
  }

  lemma OneMarkSpends(c: Config, outbox: OutboxTable, m: map<Id, Mark>, id: Id, o: Outcome, at: int)
    requires id !in m && id in outbox && !outbox[id].published && outbox[id].attempts < c.maxAttempts
    ensures var mark := MarkOf(c, at, outbox[id], o);
      Budget(c, ApplyOutbox(outbox, m[id := mark], at)) + (if o.Transient? then 0 else 1)
        <= Budget(c, ApplyOutbox(outbox, m, at))
  {
    var mark := MarkOf(c, at, outbox[id], o);
    OneMoreMark(outbox, m, id, mark, at);
    BudgetChange(c, ApplyOutbox(outbox, m, at), ApplyOutbox(outbox, m[id := mark], at), id);
  }

  lemma LoggedMark(c: Config, outbox: OutboxTable, broker: seq<Id>, t: Txn, k: nat)
    requires TxnInv(c, outbox, broker, t) && k < |t.log|
    ensures var id := t.ids[k];
      && id in outbox && !outbox[id].published
      && id in t.marks && t.marks[id] == MarkOf(c, t.at, outbox[id], t.log[k])
  {
    assert t.ids[k] in t.ids;
  }

  lemma DecisiveStep(log: seq<Outcome>, k: nat)
    requires 0 < k <= |log|
    ensures Decisive(log[..k]) == Decisive(log[..k - 1]) + if log[k - 1].Transient? then 0 else 1
  {
    assert log[..k][..k - 1] == log[..k - 1];
  }

  lemma {:induction false} MarksSpend(c: Config, outbox: OutboxTable, broker: seq<Id>, t: Txn, k: nat)
    requires TxnInv(c, outbox, broker, t) && k <= |t.log|
    requires forall id <- outbox :: outbox[id].attempts < c.maxAttempts
    ensures Budget(c, ApplyOutbox(outbox, FirstMarks(t, k), t.at)) + Decisive(t.log[..k]) <= Budget(c, outbox)
    decreases k
  {
    if k == 0 {
      assert ApplyOutbox(outbox, FirstMarks(t, 0), t.at) == outbox;
    } else {
      MarksSpend(c, outbox, broker, t, k - 1);
      LoggedMark(c, outbox, broker, t, k - 1);
      DecisiveStep(t.log, k);
      FirstMarksStep(t, k - 1);
      OneMarkSpends(c, outbox, FirstMarks(t, k - 1), t.ids[k - 1], t.log[k - 1], t.at);
    }
  }

  /** A commit lowers the budget by at least one for each decisive outcome, so by at least one
      whenever it claimed a row and saw no transient failure. */
  lemma CommitSpends(c: Config, w: World, rep: Replica)
    requires Inv(c, w) && rep in w.open && Stopped(w.open[rep])
    ensures Budget(c, DoCommit(w, rep).outbox) + Decisive(w.open[rep].log) <= Budget(c, w.outbox)
    ensures w.open[rep].ids != [] && (forall o <- w.open[rep].log :: !o.Transient?) ==>
              Decisive(w.open[rep].log) >= 1
  {
    var t := w.open[rep];
    assert TxnInv(c, w.outbox, w.broker, t);
    forall id | id in w.outbox
      ensures w.outbox[id].attempts < c.maxAttempts
    {
      assert CountedAt(c, w, id);
    }
    var n := |t.log|;
    assert FirstMarks(t, n) == t.marks && t.log[..n] == t.log;
    MarksSpend(c, w.outbox, w.broker, t, n);
  }

  predicate AddsWork(a: Action) { a.Insert? || a.Replay? }

  /** Committed drains in the run that got at least one decisive answer from the broker. */
  function DecisiveDrains(c: Config, w: World, actions: seq<Action>): nat
    decreases |actions|
  {
    if actions == [] then 0
    else
      (if actions[0].Commit? && actions[0].rep in w.open && Stopped(w.open[actions[0].rep])
          && Decisive(w.open[actions[0].rep].log) > 0 then 1 else 0)
      + DecisiveDrains(c, Next(c, w, actions[0]), actions[1..])
  }

  lemma StepSpends(c: Config, w: World, a: Action)
    requires Inv(c, w) && !AddsWork(a)
    ensures Budget(c, Next(c, w, a).outbox) + DecisiveDrains(c, w, [a]) <= Budget(c, w.outbox)
  {
    assert [a][1..] == [];
    match a
    case Commit(rep) =>
      if rep in w.open && Stopped(w.open[rep]) {
        CommitSpends(c, w, rep);
      }
    case Cleanup(tenant, cutoff) => BudgetDrop(c, w.outbox, Expired(w.outbox, tenant, cutoff));
    case _ =>
  }

  /** Drains terminate: without new work, the number of drains that get a decisive answer is
      bounded by the budget at the start, over every interleaving of replicas, aborts, transient
      failures and cleanups. */
  lemma {:induction false} DrainsTerminate(c: Config, w: World, actions: seq<Action>)
    requires Inv(c, w) && c.maxAttempts >= 1
    requires forall a <- actions :: !AddsWork(a)
    ensures Budget(c, Run(c, w, actions).outbox) + DecisiveDrains(c, w, actions) <= Budget(c, w.outbox)
    decreases |actions|
  {
    if actions != [] {
      StepKeeps(c, w, actions[0]);
      StepSpends(c, w, actions[0]);
      assert [actions[0]][1..] == [];
      DrainsTerminate(c, Next(c, w, actions[0]), actions[1..]);
    }
  }
}
