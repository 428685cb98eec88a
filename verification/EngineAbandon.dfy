/** Forgetting a question: its tasks and transactions go, and nothing else does. */
module EngineAbandon {
  import opened Results
  import opened EngineModel
  import opened EngineSteps
  import opened EngineInvariant
  import opened EngineResume

  /** `s'` is `s` without the tasks listed and their transactions. */
  ghost predicate Lacking(s: State, ids: seq<TaskId>, s': State) {
    && s' == s.(tasks := s'.tasks, txs := s'.txs, lookups := s'.lookups)
    && (forall id :: id in s'.tasks <==> id in s.tasks && id !in ids)
    && (forall id :: id in s'.tasks ==> s'.tasks[id] == s.tasks[id])
    && (forall x :: x in s'.txs <==> x in s.txs && s.txs[x].task !in ids)
    && (forall x :: x in s'.txs ==> s'.txs[x] == s.txs[x])
  }

  /** Every task listed has its own transaction. */
  ghost predicate AllFlying(s: State, ids: seq<TaskId>) {
    && (forall id :: id in ids ==> id in s.tasks && s.tasks[id].tx.Some? && s.tasks[id].tx.value in s.txs)
    && (forall x :: x in s.txs && s.txs[x].task in ids ==>
          s.txs[x].task in s.tasks && s.tasks[s.txs[x].task].tx == Some(x))
    && (forall id :: id in ids ==> s.txs[s.tasks[id].tx.value].task == id)
  }

  function Dropped(s: State, id: TaskId): State
    requires id in s.tasks && s.tasks[id].tx.Some?
  {
    s.(tasks := s.tasks - {id}, txs := s.txs - {s.tasks[id].tx.value})
  }

  lemma DropOne(s: State, ids: seq<TaskId>)
    requires ids != [] && NoRepeats(ids) && AllFlying(s, ids)
    ensures ids[0] in s.tasks && s.tasks[ids[0]].tx.Some?
    ensures var s1 := Dropped(s, ids[0]);
            && AllFlying(s1, ids[1..]) && NoRepeats(ids[1..]) && |s1.txs| + 1 == |s.txs|
            && (forall x :: x in s1.txs <==> x in s.txs && s.txs[x].task != ids[0])
  {
    assert ids[0] in ids;
    var tx := s.tasks[ids[0]].tx.value;
    FewerTxs(s.txs, tx);
    assert forall id :: id in ids[1..] ==> id in ids && id != ids[0];
  }

  /** One cancel a task, in order. */
  ghost predicate CancelsEach(s: State, ids: seq<TaskId>, acts: seq<Action>) {
    && |acts| == |ids|
    && forall i :: 0 <= i < |ids| ==>
         ids[i] in s.tasks && s.tasks[ids[i]].tx.Some? && acts[i] == Cancel(s.tasks[ids[i]].tx.value)
  }

  lemma CancelsCons(s: State, ids: seq<TaskId>, acts: seq<Action>)
    requires ids != [] && NoRepeats(ids) && ids[0] in s.tasks && s.tasks[ids[0]].tx.Some?
    requires CancelsEach(Dropped(s, ids[0]), ids[1..], acts)
    ensures CancelsEach(s, ids, [Cancel(s.tasks[ids[0]].tx.value)] + acts)
  {
    forall i | 1 <= i < |ids| ensures ids[i] == ids[1..][i - 1] {}
  }

  lemma DropUnfold(s: State, ids: seq<TaskId>)
    requires ids != [] && ids[0] in s.tasks && s.tasks[ids[0]].tx.Some?
    ensures var rest := DropTasks(Dropped(s, ids[0]), ids[1..]);
            DropTasks(s, ids) == Out(rest.s, [Cancel(s.tasks[ids[0]].tx.value)] + rest.acts)
  {
  }

  lemma DropNone(s: State, ids: seq<TaskId>)
    requires ids == []
    ensures DropTasks(s, ids) == Out(s, []) && Lacking(s, ids, s) && CancelsEach(s, ids, [])
  {
  }

  lemma DroppedLookups(s: State, id: TaskId)
    requires id in s.tasks && s.tasks[id].tx.Some?
    ensures Dropped(s, id).lookups == s.lookups
  {
  }

  lemma LackingMore(s: State, ids: seq<TaskId>, s': State)
    requires ids != [] && ids[0] in s.tasks && s.tasks[ids[0]].tx.Some?
    requires Lacking(Dropped(s, ids[0]), ids[1..], s')
    requires forall x :: x in Dropped(s, ids[0]).txs <==> x in s.txs && s.txs[x].task != ids[0]
    ensures Lacking(s, ids, s')
  {
    forall id ensures id in ids <==> id == ids[0] || id in ids[1..] {}
  }

  lemma {:induction false} DropShape(s: State, ids: seq<TaskId>)
    requires NoRepeats(ids) && AllFlying(s, ids)
    ensures var o := DropTasks(s, ids);
            && Lacking(s, ids, o.s) && o.s.lookups == s.lookups
            && CancelsEach(s, ids, o.acts) && |o.acts| == |ids| && |o.s.txs| + |o.acts| == |s.txs|
    decreases |ids|
  {
    hide DropTasks, NoRepeats, Lacking, AllFlying, Dropped, CancelsEach;
    if ids == [] {
      DropNone(s, ids);
    } else {
      DropOne(s, ids);
      DropShape(Dropped(s, ids[0]), ids[1..]);
      DroppedLookups(s, ids[0]);
      DropUnfold(s, ids);
      LackingMore(s, ids, DropTasks(s, ids).s);
      CancelsCons(s, ids, DropTasks(Dropped(s, ids[0]), ids[1..]).acts);
    }
  }

  lemma {:induction false} CancelsNotDone(acts: seq<Action>, q: Qid)
    requires forall i :: 0 <= i < |acts| ==> acts[i].Cancel?
    ensures DoneCount(acts, q) == 0
  {
    if acts != [] { CancelsNotDone(acts[1..], q); }
  }

  // ------------------------------------------------------- what abandon keeps

  lemma LessLinked(s: State, ids: seq<TaskId>, s': State)
    requires Linked(s, {}) && Lacking(s, ids, s') && |s'.txs| <= |s.txs|
    ensures Linked(s', {})
  {
    forall id | id in s'.tasks ensures Flying(s', id) { assert Flying(s, id); }
  }

  lemma LessOwned(s: State, q: Qid, ids: seq<TaskId>, s': State)
    requires Owned(s) && Lacking(s, ids, s') && s'.lookups == s.lookups - {q}
    requires forall id :: id in ids <==> id in s.tasks && s.tasks[id].owner.qid == q
    ensures Owned(s')
  {
    hide NoRepeats;
    forall id | id in s'.tasks ensures s'.tasks[id].owner.qid != q {}
  }

  lemma LessValued(s: State, q: Qid, ids: seq<TaskId>, s': State)
    requires Valued(s) && Lacking(s, ids, s') && s'.lookups == s.lookups - {q}
    ensures Valued(s')
  {
    hide ValidTask, AsksFor, GoodCache, GoodParts;
    forall y | y in s'.lookups ensures Families(s'.lookups[y], s'.tasks) { assert Families(s.lookups[y], s.tasks); }
  }

  lemma LessLive(s: State, q: Qid, ids: seq<TaskId>, s': State, y: Qid)
    requires Lacking(s, ids, s')
    requires forall id :: id in ids <==> id in s.tasks && s.tasks[id].owner.qid == q
    ensures Live(s', y) == (Live(s, y) && y != q)
  {
    if Live(s, y) && y != q {
      var id :| id in s.tasks && s.tasks[id].owner.qid == y;
      assert id in s'.tasks;
    }
  }

  lemma AbandonFlying(s: State, q: Qid, ids: seq<TaskId>)
    requires Linked(s, {}) && forall id :: id in ids <==> id in s.tasks && s.tasks[id].owner.qid == q
    ensures AllFlying(s, ids)
  {
    forall id | id in ids ensures Flying(s, id) {}
  }

  /** Abandoning a question keeps the invariant and cancels exactly its transactions. */
  lemma AbandonKeeps(s: State, q: Qid, ids: seq<TaskId>)
    requires Inv(s, {}) && NoRepeats(ids) && forall id :: id in ids <==> id in s.tasks && s.tasks[id].owner.qid == q
    ensures var o := Abandon(s, q, ids);
            && Inv(o.s, {}) && Lacking(s, ids, o.s) && |o.s.txs| + |o.acts| == |s.txs|
            && CancelsEach(s, ids, o.acts) && (forall i :: 0 <= i < |o.acts| ==> o.acts[i].Cancel?)
            && (forall y :: Live(o.s, y) == (Live(s, y) && y != q))
  {
    hide DropTasks, Linked, Owned, Valued, NoRepeats, AllFlying, Live;
    AbandonFlying(s, q, ids);
    DropShape(s, ids);
    var o := Abandon(s, q, ids);
    LessLinked(s, ids, o.s);
    LessOwned(s, q, ids, o.s);
    LessValued(s, q, ids, o.s);
    forall y ensures Live(o.s, y) == (Live(s, y) && y != q) { LessLive(s, q, ids, o.s, y); }
  }
}
