/** New questions: tasks start idle, and each takes its first step. */
module EngineAsk {
  import opened Bytes
  import opened Names
  import opened Routing
  import opened EngineModel
  import opened EngineSteps
  import opened EngineInvariant
  import opened EngineResume

  // ---------------------------------------------------------- starting tasks

  /** A task no step has touched. */
  predicate Fresh(t: Task) {
    t.current.None? && t.candidates == [] && t.attempt == 0 && t.tx.None? && t.scope.None?
  }

  /** The tasks of one question, numbered from `from`. */
  function NewTasks(owner: Owner, name: Name, types: seq<u16>, noCache: bool, from: nat): map<TaskId, Task>
    decreases |types|
  {
    if types == [] then map[]
    else NewTasks(owner, name, types[1..], noCache, from + 1)[from := NewTask(owner, name, types[0], noCache)]
  }

  lemma {:induction false} NewTaskAt(owner: Owner, name: Name, types: seq<u16>, noCache: bool, from: nat, id: TaskId)
    ensures var m := NewTasks(owner, name, types, noCache, from);
            && (id in m <==> from <= id < from + |types|)
            && (id in m ==> m[id] == NewTask(owner, name, types[id - from], noCache))
    decreases |types|
  {
    if types != [] {
      NewTaskAt(owner, name, types[1..], noCache, from + 1, id);
      if from < id < from + |types| { assert types[1..][id - (from + 1)] == types[id - from]; }
    }
  }

  predicate Starts(s: State, s0: State, owner: Owner, name: Name, types: seq<u16>, noCache: bool) {
    s0 == s.(tasks := s.tasks + NewTasks(owner, name, types, noCache, s.nextId), nextId := s.nextId + |types|,
             lookups := s0.lookups)
  }

  lemma {:induction false} StartTasksStart(s: State, q: Qid, name: Name, types: seq<u16>)
    ensures Starts(s, StartTasks(s, q, name, types), LookupOwner(q), name, types, false)
    ensures StartTasks(s, q, name, types).lookups == s.lookups
    decreases |types|
  {
    if types != [] {
      hide NewTasks;
      var a := StartTask(s, LookupOwner(q), name, types[0], false);
      StartTasksStart(a, q, name, types[1..]);
      NewTasksCons(s.tasks, LookupOwner(q), name, types, false, s.nextId);
    } else {
      assert s.tasks + NewTasks(LookupOwner(q), name, types, false, s.nextId) == s.tasks;
    }
  }

  lemma NewTasksCons(tasks: map<TaskId, Task>, owner: Owner, name: Name, types: seq<u16>, noCache: bool, from: nat)
    requires types != []
    ensures tasks[from := NewTask(owner, name, types[0], noCache)]
            + NewTasks(owner, name, types[1..], noCache, from + 1)
            == tasks + NewTasks(owner, name, types, noCache, from)
  {
    NewTaskAt(owner, name, types[1..], noCache, from + 1, from);
  }

  lemma StartOne(s: State, owner: Owner, name: Name, t: u16, noCache: bool)
    ensures Starts(s, StartTask(s, owner, name, t, noCache), owner, name, [t], noCache)
  {
    assert s.tasks[s.nextId := NewTask(owner, name, t, noCache)]
           == s.tasks + NewTasks(owner, name, [t], noCache, s.nextId);
  }

  function IdsFrom(from: nat, n: nat): seq<TaskId> {
    seq(n, i => from + i)
  }

  function IdSet(ids: seq<TaskId>): set<TaskId> {
    set i | 0 <= i < |ids| :: ids[i]
  }

  lemma IdsAre(from: nat, n: nat)
    ensures forall id :: id in IdSet(IdsFrom(from, n)) <==> from <= id < from + n
    ensures forall id :: id in IdsFrom(from, n) <==> from <= id < from + n
    ensures NoRepeats(IdsFrom(from, n))
  {
    var ids := IdsFrom(from, n);
    forall id | from <= id < from + n ensures id in IdSet(ids) && id in ids { assert ids[id - from] == id; }
  }

  predicate NewFor(t: Task, owner: Owner, name: Name) {
    Fresh(t) && t.owner == owner && t.original == name && !t.cacheInvalidated
  }

  /** The task numbered `id` is for its type of the list. */
  predicate OfType(t: Task, types: seq<u16>, from: nat, id: TaskId) {
    from <= id < from + |types| && t.rtype == types[id - from]
  }

  /** Old tasks are as they were, and new ones are fresh. */
  ghost predicate Added(s: State, s0: State, owner: Owner, name: Name, types: seq<u16>) {
    && (forall id :: id in s.tasks ==> id in s0.tasks && s0.tasks[id] == s.tasks[id] && id < s.nextId)
    && (forall id :: id in s0.tasks && id !in s.tasks ==>
          NewFor(s0.tasks[id], owner, name) && OfType(s0.tasks[id], types, s.nextId, id))
    && (forall id :: id in IdsFrom(s.nextId, |types|) ==> id in s0.tasks && id !in s.tasks)
  }

  lemma StartAdds(s: State, s0: State, owner: Owner, name: Name, types: seq<u16>, noCache: bool)
    requires Starts(s, s0, owner, name, types, noCache) && forall id :: id in s.tasks ==> id < s.nextId
    ensures Added(s, s0, owner, name, types)
  {
    hide NewTasks, NewFor, OfType, IdsFrom;
    var m := NewTasks(owner, name, types, noCache, s.nextId);
    forall id | id in s.tasks ensures id !in m { NewAbsent(owner, name, types, noCache, s.nextId, id); }
    forall id | id in IdsFrom(s.nextId, |types|) ensures id in m {
      NewPresent(owner, name, types, noCache, s.nextId, id);
    }
    forall id | id in m ensures NewFor(m[id], owner, name) && OfType(m[id], types, s.nextId, id) {
      NewIs(owner, name, types, noCache, s.nextId, id);
    }
    MergeFacts(s.tasks, m, s0.tasks);
  }

  lemma NewAbsent(owner: Owner, name: Name, types: seq<u16>, noCache: bool, from: nat, id: TaskId)
    requires id < from
    ensures id !in NewTasks(owner, name, types, noCache, from)
  {
    NewTaskAt(owner, name, types, noCache, from, id);
  }

  lemma NewPresent(owner: Owner, name: Name, types: seq<u16>, noCache: bool, from: nat, id: TaskId)
    requires id in IdsFrom(from, |types|)
    ensures id in NewTasks(owner, name, types, noCache, from)
  {
    NewTaskAt(owner, name, types, noCache, from, id);
  }

  lemma NewIs(owner: Owner, name: Name, types: seq<u16>, noCache: bool, from: nat, id: TaskId)
    requires id in NewTasks(owner, name, types, noCache, from)
    ensures var t := NewTasks(owner, name, types, noCache, from)[id];
            NewFor(t, owner, name) && OfType(t, types, from, id)
  {
    NewTaskAt(owner, name, types, noCache, from, id);
  }

  lemma MergeFacts(a: map<TaskId, Task>, m: map<TaskId, Task>, b: map<TaskId, Task>)
    requires b == a + m && forall id :: id in a ==> id !in m
    ensures forall id :: id in a ==> id in b && b[id] == a[id]
    ensures forall id :: id in b && id !in a ==> id in m && b[id] == m[id]
    ensures forall id :: id in m ==> id in b && id !in a
  {
  }

  lemma StartLinked(s: State, s0: State, owner: Owner, name: Name, types: seq<u16>, ids: seq<TaskId>)
    requires Linked(s, {}) && Added(s, s0, owner, name, types) && ids == IdsFrom(s.nextId, |types|)
    requires s0.txs == s.txs && s0.nextId == s.nextId + |types|
    ensures Linked(s0, IdSet(ids))
  {
    hide Flying, NewFor;
    IdsAre(s.nextId, |types|);
    hide IdSet, IdsFrom;
    forall id | id in s.tasks ensures Flying(s0, id) { SameFlying(s, s0, id); }
    forall id | id in s0.tasks && id !in s.tasks ensures s0.tasks[id].tx.None? && s0.tasks[id].attempt == 0 {
      FreshIdle(s0.tasks[id], owner, name);
    }
    BackMore(s, s0);
  }

  lemma FreshIdle(t: Task, owner: Owner, name: Name)
    requires NewFor(t, owner, name)
    ensures t.tx.None? && t.attempt == 0
  {
  }

  lemma SameFlying(s: State, s0: State, id: TaskId)
    requires id in s.tasks && id in s0.tasks && s0.tasks[id] == s.tasks[id] && s0.txs == s.txs && Flying(s, id)
    ensures Flying(s0, id)
  {
  }

  lemma BackMore(s: State, s0: State)
    requires PointBack(s.tasks, s.txs, s.nextId) && s0.txs == s.txs && s.nextId <= s0.nextId
    requires forall id :: id in s.tasks ==> id in s0.tasks && s0.tasks[id] == s.tasks[id]
    ensures PointBack(s0.tasks, s0.txs, s0.nextId)
  {
  }

  /** A question with a lookup is live. */
  lemma WaitingIsLive(s: State, q: Qid)
    requires Owned(s) && q in s.lookups
    ensures Live(s, q)
  {
    assert s.lookups[q].pending[0] in s.lookups[q].pending;
  }

  lemma NotWaiting(s: State, q: Qid)
    requires Owned(s) && !Live(s, q)
    ensures q !in s.lookups
  {
    if q in s.lookups { WaitingIsLive(s, q); }
  }

  predicate AllDiffer(types: seq<u16>) {
    forall i, j :: 0 <= i < j < |types| ==> types[i] != types[j]
  }

  lemma StartLive(s: State, s0: State, owner: Owner, name: Name, types: seq<u16>, q: Qid)
    requires Added(s, s0, owner, name, types) && types != []
    ensures Live(s0, q) == (Live(s, q) || q == owner.qid)
  {
    hide Fresh;
    IdsAre(s.nextId, |types|);
    hide IdsFrom, IdSet;
    assert s.nextId in IdsFrom(s.nextId, |types|);
    if Live(s, q) {
      var id :| id in s.tasks && s.tasks[id].owner.qid == q;
      assert id in s0.tasks && s0.tasks[id].owner.qid == q;
    }
    assert s.nextId in s0.tasks && s0.tasks[s.nextId].owner.qid == owner.qid;
  }

  lemma StartOwned(s: State, s0: State, owner: Owner, name: Name, types: seq<u16>, ids: seq<TaskId>)
    requires Owned(s) && !Live(s, owner.qid) && Added(s, s0, owner, name, types)
    requires types != [] && ids == IdsFrom(s.nextId, |types|)
    requires owner.ResolveOwner? ==> |types| == 1 && s0.lookups == s.lookups
    requires owner.LookupOwner? ==> s0.lookups == s.lookups[owner.qid := Lookup(name, ids, [])]
    ensures Owned(s0)
  {
    hide Fresh;
    NotWaiting(s, owner.qid);
    IdsAre(s.nextId, |types|);
    hide IdsFrom, NoRepeats;
    forall id | id in s.tasks ensures s.tasks[id].owner.qid != owner.qid {}
  }

  lemma StartValued(s: State, s0: State, owner: Owner, name: Name, types: seq<u16>, ids: seq<TaskId>)
    requires Linked(s, {}) && Owned(s) && Valued(s) && Added(s, s0, owner, name, types) && ValidName(name)
    requires ids == IdsFrom(s.nextId, |types|) && AllDiffer(types) && owner.qid !in s.lookups
    requires s0.txs == s.txs && s0.cache == s.cache
    requires owner.ResolveOwner? ==> s0.lookups == s.lookups
    requires owner.LookupOwner? ==> s0.lookups == s.lookups[owner.qid := Lookup(name, ids, [])]
    ensures Valued(s0)
  {
    hide GoodParts, GoodCache, AsksFor, Flying, NoRepeats, ValidName, ValidTask, NewFor, IdsFrom, AllDiffer, Families;
    forall id | id in s0.tasks ensures ValidTask(s0.tasks[id]) {
      if id !in s.tasks { FreshValid(s0.tasks[id], owner, name); }
    }
    AsksMore(s, s0);
    NewParts(name, ids);
    IdsAre(s.nextId, |types|);
    forall q | q in s0.lookups ensures Families(s0.lookups[q], s0.tasks) {
      if q == owner.qid { NewFamilies(s, s0, owner, name, types, ids); } else { OldFamilies(s, s0, q); }
    }
  }

  lemma FreshValid(t: Task, owner: Owner, name: Name)
    requires NewFor(t, owner, name) && ValidName(name)
    ensures ValidTask(t)
  {
  }

  lemma AsksMore(s: State, s0: State)
    requires Valued(s) && PointBack(s.tasks, s.txs, s.nextId) && s0.txs == s.txs
    requires forall id :: id in s.tasks ==> id in s0.tasks && s0.tasks[id] == s.tasks[id]
    ensures forall x :: x in s0.txs && s0.txs[x].task in s0.tasks ==> AsksFor(s0.txs[x], s0.tasks[s0.txs[x].task])
  {
    hide AsksFor, ValidTask, GoodCache, GoodParts, Families;
  }

  lemma NewFamilies(s: State, s0: State, owner: Owner, name: Name, types: seq<u16>, ids: seq<TaskId>)
    requires Added(s, s0, owner, name, types) && AllDiffer(types) && ids == IdsFrom(s.nextId, |types|)
    ensures Families(Lookup(name, ids, []), s0.tasks)
  {
    hide NewFor, IdsFrom;
    forall a, b | a in ids && b in ids && a != b ensures s0.tasks[a].rtype != s0.tasks[b].rtype {
      assert types[a - s.nextId] != types[b - s.nextId];
    }
  }

  lemma OldFamilies(s: State, s0: State, q: Qid)
    requires Owned(s) && q in s.lookups && Families(s.lookups[q], s.tasks)
    requires forall id :: id in s.tasks ==> id in s0.tasks && s0.tasks[id] == s.tasks[id]
    ensures Families(s.lookups[q], s0.tasks)
  {
    hide NoRepeats;
  }

  lemma NewParts(name: Name, ids: seq<TaskId>)
    ensures GoodParts(Lookup(name, ids, []))
  {
  }

  lemma TasksBelow(s: State, idle: set<TaskId>)
    requires Linked(s, idle)
    ensures forall id :: id in s.tasks ==> id < s.nextId
  {
  }

  /** A fresh question's tasks are idle additions to everything the invariant says. */
  lemma StartKeeps(s: State, s0: State, owner: Owner, name: Name, types: seq<u16>, noCache: bool, ids: seq<TaskId>)
    requires Inv(s, {}) && !Live(s, owner.qid) && Starts(s, s0, owner, name, types, noCache) && ValidName(name)
    requires types != [] && ids == IdsFrom(s.nextId, |types|) && AllDiffer(types)
    requires owner.ResolveOwner? ==> |types| == 1 && s0.lookups == s.lookups
    requires owner.LookupOwner? ==> s0.lookups == s.lookups[owner.qid := Lookup(name, ids, [])]
    ensures Inv(s0, IdSet(ids)) && Added(s, s0, owner, name, types)
    ensures Balance(s0) == Balance(s) && s0.txs == s.txs && s0.nextId == s.nextId + |types|
    ensures forall q :: Live(s0, q) == (Live(s, q) || q == owner.qid)
  {
    hide Linked, Owned, Valued, Live, Added, IdSet, IdsFrom, NewTasks;
    NotWaiting(s, owner.qid);
    TasksBelow(s, {});
    StartAdds(s, s0, owner, name, types, noCache);
    StartLinked(s, s0, owner, name, types, ids);
    StartOwned(s, s0, owner, name, types, ids);
    StartValued(s, s0, owner, name, types, ids);
    forall q ensures Live(s0, q) == (Live(s, q) || q == owner.qid) { StartLive(s, s0, owner, name, types, q); }
  }

  // ------------------------------------------------------------ first steps

  lemma FinishOthers(s: State, id: TaskId, e: End, now: nat)
    requires id in s.tasks && s.tasks[id].tx.None?
    ensures var o := Finish(s, id, e, now);
            && (forall x :: x in s.tasks && x != id ==> x in o.s.tasks && o.s.tasks[x] == s.tasks[x])
            && (forall x :: x in o.s.tasks ==> x in s.tasks)
            && o.s.cfg == s.cfg && o.s.cache == s.cache
  {
    hide Settle, Launch, LookupsAfter, LaunchedTx;
    match e
    case EndSettle(a) => SettleShape(s, id, a);
    case EndSend(server, tcp, r) => LaunchShape(s, id, server, tcp, r, now);
  }

  /** One fresh task's first step, prepared and ended. */
  predicate AdvancedBy(s: State, id: TaskId, o: Out, now: nat, s1: State, e: End) {
    && Prep(s, s1, id) && GoodEnd(e) && o == Finish(s1, id, e, now)
    && NamesFrom(s.tasks[id], s1.tasks[id], Candidates(s.cfg, s.tasks[id].original))
    && (e.EndSend? ==>
          && var all := Candidates(s.cfg, s.tasks[id].original);
          && Room(s1, id) && OnRoute(s1, s1.tasks[id])
          && e.server in Configured(s.cfg, ScopeName(s1.tasks[id]))
          && |s1.tasks[id].candidates| < |all| && s1.tasks[id].current.value in all
          && NewTurn(all, s1.tasks[id], e.server) && !e.tcp)
  }

  lemma AdvanceBy(s: State, id: TaskId, now: nat) returns (s1: State, e: End)
    requires id in s.tasks && Fresh(s.tasks[id]) && ValidTask(s.tasks[id]) && GoodCache(s.cache) && ValidConfig(s.cfg)
    ensures AdvancedBy(s, id, Advance(s, id, now), now, s1, e)
  {
    hide Advance, Finish, Candidates, Configured, GoodCache, ValidConfig;
    s1, e := AdvanceEnds(s, id, now);
  }

  lemma AdvanceReady(s: State, id: TaskId, o: Out, now: nat, s1: State, e: End, idle: set<TaskId>)
    requires Inv(s, idle) && id in idle && AdvancedBy(s, id, o, now, s1, e)
    ensures Inv(s1, idle) && FairEnd(s1, id, e) && o == Finish(s1, id, e, now)
    ensures Balance(s1) == Balance(s) && s1.txs == s.txs && s1.nextId == s.nextId
    ensures forall q :: Live(s1, q) == Live(s, q)
  {
    hide Linked, Owned, Finish, Candidates, Configured, GoodEnd, Room, Route, Live;
    assert ValidTask(s.tasks[id]);
    hide Valued;
    CandidatesValid(s.cfg, s.tasks[id].original);
    NamesValid(s.tasks[id], s1.tasks[id], Candidates(s.cfg, s.tasks[id].original));
    PrepKeeps(s, s1, id, idle);
  }

  /** The other idle tasks are untouched, and the books stay balanced. */
  lemma AdvanceKeeps(s: State, id: TaskId, now: nat, idle: set<TaskId>)
    requires Inv(s, idle) && id in idle && Fresh(s.tasks[id]) && ValidConfig(s.cfg)
    ensures Steady(s, Advance(s, id, now), idle - {id})
    ensures forall x :: x in idle && x != id ==>
              x in Advance(s, id, now).s.tasks && Advance(s, id, now).s.tasks[x] == s.tasks[x]
  {
    hide Advance, Finish, Candidates, Configured, AdvancedBy, FairEnd, Sends, Cancels, ValidConfig;
    assert GoodCache(s.cache) && ValidTask(s.tasks[id]) && forall x :: x in idle ==> x in s.tasks;
    hide ValidTask, Linked, Owned, Valued, GoodCache;
    var s1, e := AdvanceBy(s, id, now);
    var o := Advance(s, id, now);
    AdvanceReady(s, id, o, now, s1, e, idle);
    AdvancePrep(s, id, o, now, s1, e);
    FinishKeeps(s1, id, e, now, idle);
    LinkedBounds(s1, idle, id);
    FinishOthers(s1, id, e, now);
  }

  lemma AdvancePrep(s: State, id: TaskId, o: Out, now: nat, s1: State, e: End)
    requires AdvancedBy(s, id, o, now, s1, e)
    ensures id in s.tasks && id in s1.tasks && s1.cfg == s.cfg && Shrunk(s.cache, s1.cache)
    ensures s1.tasks == s.tasks[id := s1.tasks[id]] && o == Finish(s1, id, e, now) && SameJob(s.tasks[id], s1.tasks[id])
  {
  }

  lemma AdvanceLive(s: State, id: TaskId, now: nat, idle: set<TaskId>, q: Qid)
    requires Inv(s, idle) && id in idle && Fresh(s.tasks[id]) && ValidConfig(s.cfg)
    ensures LiveCount(s, q) == LiveCount(Advance(s, id, now).s, q) + DoneCount(Advance(s, id, now).acts, q)
  {
    hide Advance, Finish, Candidates, Configured, AdvancedBy, FairEnd, Live, ValidConfig;
    assert GoodCache(s.cache) && ValidTask(s.tasks[id]);
    hide ValidTask, Linked, Owned, Valued, GoodCache;
    var s1, e := AdvanceBy(s, id, now);
    AdvanceReady(s, id, Advance(s, id, now), now, s1, e, idle);
    FinishLive(s1, id, e, now, idle, q);
  }
}
