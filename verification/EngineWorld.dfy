/**
 * The engine with a ledger of its history beside it, and what is true of the two
 * after every step: how often a question is sent, where each cached answer came
 * from, and which scope each query went to.
 */
module EngineWorld {
  import opened Bytes
  import opened Results
  import opened Sets
  import opened Names
  import opened Dns
  import opened Caches
  import opened Routing
  import opened EngineModel
  import opened EngineSteps
  import opened EngineInvariant
  import opened EngineResume
  import opened EngineAsk
  import opened EngineEffect

  datatype World = World(
    s: State,
    trace: seq<Action>,           // every action so far
    asked: set<Qid>,              // every question so far
    dropped: set<Qid>,            // those abandoned while live
    cancelled: nat,               // transactions abandoned
    errors: nat,                  // replies accepted and counted as failures for their code
    issued: map<Txid, Tx>,        // every transaction ever started
    budget: map<TaskId, nat>,     // the most sends each task may make
    origin: map<CacheKey, Txid>,  // the transaction each cached answer came from
    epoch: map<string, nat>,      // the next id when each scope was last invalidated
    flushed: nat,                 // the next id when the cache was last flushed
    mark: nat)                    // the next id when the scopes or servers last changed

  /** Answers under a scope must come from transactions numbered from here. */
  function Since(w: World, scope: string): nat {
    var e := if scope in w.epoch then w.epoch[scope] else 0;
    if e > w.flushed then e else w.flushed
  }

  function Origins(w: World, cache: Entries, tx: Txid): map<CacheKey, Txid> {
    map k | k in cache :: if k in w.s.cache && w.s.cache[k] == cache[k] && k in w.origin then w.origin[k] else tx
  }

  /** The ledger after a task's step that ended transaction `tx`. */
  function Noted(w: World, s': State, tx: Txid): World {
    w.(s := s', issued := w.issued + s'.txs, origin := Origins(w, s'.cache, tx))
  }

  // -------------------------------------------------------------- the ledger

  /** Live transactions are on record, and no two tasks or times share a number. */
  ghost predicate Recorded(w: World) {
    && (forall x :: x in w.s.txs ==> x in w.issued && w.issued[x] == w.s.txs[x])
    && (forall x :: x in w.issued ==> x < w.s.nextId && w.issued[x].task in w.budget)
    && (forall id :: id in w.budget ==> id < w.s.nextId)
    && (forall id :: id in w.s.tasks ==> id in w.budget)
  }

  /** The transactions on record for a task. */
  function SendsOf(issued: map<Txid, Tx>, id: TaskId): set<Txid> {
    set x | x in issued && issued[x].task == id
  }

  /** No task sends more than its budget, and a live one has its potential left within it. */
  ghost predicate Bounded(w: World, idle: set<TaskId>) {
    && (forall id :: id in w.budget ==> |SendsOf(w.issued, id)| <= w.budget[id])
    && (forall id :: id in w.s.tasks && id in w.budget && id !in idle ==>
          |SendsOf(w.issued, id)| + Potential(w.s.tasks[id]) <= w.budget[id])
    && (forall id :: id in idle && id in w.s.tasks && id in w.budget ==>
          && SendsOf(w.issued, id) == {} && Fresh(w.s.tasks[id])
          && w.budget[id] == Budget(|Candidates(w.s.cfg, w.s.tasks[id].original)|))
  }

  /** A task that may still store answers asked its scope's server since the scope was last invalidated. */
  predicate MayStore(w: World, t: Task) {
    t.tx.Some? && t.tx.value in w.s.txs && t.scope.Some? && !t.cacheInvalidated ==>
      Since(w, t.scope.value) <= t.tx.value && w.s.txs[t.tx.value].server in Configured(w.s.cfg, t.scope.value)
  }

  /** A cached answer's origin: a query for its name and type, since the scope was last invalidated. */
  predicate Sourced(w: World, k: CacheKey)
    requires k in w.s.cache
  {
    && k in w.origin && w.origin[k] in w.issued && Since(w, k.scope) <= w.origin[k]
    && w.issued[w.origin[k]].server == w.s.cache[k].server
    && w.s.cache[k].server in Configured(w.s.cfg, k.scope)
    && Lower(w.issued[w.origin[k]].question.name) == k.name && w.issued[w.origin[k]].question.rtype == k.rtype
  }

  ghost predicate Provenance(w: World) {
    && (forall id :: id in w.s.tasks ==> MayStore(w, w.s.tasks[id]))
    && (forall k :: k in w.s.cache ==> Sourced(w, k)) && |w.s.cache| <= MAX_ENTRIES
    && w.flushed <= w.s.nextId && (forall c :: c in w.epoch ==> w.epoch[c] <= w.s.nextId)
  }

  /** A task as old as the configuration goes where the configuration routes it. */
  predicate WellRouted(w: World, t: Task) {
    && OnRoute(w.s, t)
    && (t.tx.Some? && t.tx.value in w.s.txs ==> w.s.txs[t.tx.value].server in Configured(w.s.cfg, ScopeName(t)))
  }

  predicate Whole(n: Name) {
    |n| != 1
  }

  predicate WholeNames(t: Task) {
    && (t.current.Some? ==> Whole(t.current.value))
    && (forall c :: c in t.candidates ==> Whole(c))
  }

  /** Queries go by the routing in force, and never carry a bare label. */
  ghost predicate Directed(w: World, idle: set<TaskId>) {
    && (forall id :: id in w.s.tasks && id >= w.mark && id !in idle ==> WellRouted(w, w.s.tasks[id]))
    && (forall id :: id in w.s.tasks ==> WholeNames(w.s.tasks[id]))
    && (forall x :: x in w.issued ==> Whole(w.issued[x].question.name))
    && w.mark <= w.s.nextId && ValidConfig(w.s.cfg)
  }

  /** A query sent for a task begun under the present configuration went where it routes the query's name. */
  predicate WellSent(cfg: Config, mark: nat, x: Tx) {
    x.task >= mark ==>
      Route(cfg, x.question.name).Some? && x.server in Configured(cfg, Route(cfg, x.question.name).value)
  }

  ghost predicate Aimed(w: World) {
    forall x :: x in w.issued ==> WellSent(w.s.cfg, w.mark, w.issued[x])
  }

  /** The servers asked for the name on the task's behalf. */
  function AskedOf(issued: map<Txid, Tx>, id: TaskId, name: Name): set<IpAddr> {
    set y | y in SendsOf(issued, id) && y in issued && SameName(issued[y].question.name, name) :: issued[y].server
  }

  predicate NoTwins(names: seq<Name>) {
    forall i, j :: 0 <= i < j < |names| ==> !SameName(names[i], names[j])
  }

  /** None of the names has been asked for on the task's behalf, and no two are the same. */
  predicate Unasked(issued: map<Txid, Tx>, id: TaskId, names: seq<Name>) {
    && NoTwins(names)
    && forall y, c :: y in SendsOf(issued, id) && y in issued && c in names ==> !SameName(issued[y].question.name, c)
  }

  /** A task remembers exactly the servers asked for its present name, and has asked for none of the names left. */
  ghost predicate Tracked(issued: map<Txid, Tx>, id: TaskId, t: Task) {
    && Unasked(issued, id, t.candidates)
    && (t.current.Some? ==>
          && (forall c :: c in t.candidates ==> !SameName(t.current.value, c))
          && forall v :: v in t.tried <==> v in AskedOf(issued, id, t.current.value))
  }

  ghost predicate Tracks(w: World) {
    forall id :: id in w.s.tasks ==> Tracked(w.issued, id, w.s.tasks[id])
  }

  ghost predicate Ledger(w: World, idle: set<TaskId>) {
    Recorded(w) && Bounded(w, idle) && Provenance(w) && Directed(w, idle) && Aimed(w) && Tracks(w)
  }

  // --------------------------------------------------- after a task's step

  lemma StepRecorded(w: World, gone: set<Txid>, s': State, id: TaskId, pool: seq<Name>, left: int, last: Option<IpAddr>,
                     now: nat, tx: Txid)
    requires Recorded(w) && Effect(w.s, gone, s', id, pool, left, last, now)
    ensures Recorded(Noted(w, s', tx))
  {
    hide StartedBy, CacheStep, KeyOf, Origins;
    if id in s'.tasks { assert s'.txs[w.s.nextId].task == id; }
  }

  /** A step adds to the record the transaction it started, if it started one. */
  lemma StepSends(w: World, gone: set<Txid>, s': State, id: TaskId, pool: seq<Name>, left: int, last: Option<IpAddr>,
                  now: nat, y: TaskId)
    requires Recorded(w) && Effect(w.s, gone, s', id, pool, left, last, now)
    ensures SendsOf(w.issued + s'.txs, y)
            == SendsOf(w.issued, y) + (if y == id && id in s'.tasks then {w.s.nextId} else {})
  {
    hide StartedBy, CacheStep, KeyOf;
    var all := w.issued + s'.txs;
    forall x ensures x in SendsOf(all, y)
                     <==> x in SendsOf(w.issued, y) || (y == id && id in s'.tasks && x == w.s.nextId)
    {
      if x in s'.txs && x != w.s.nextId { assert x in w.s.txs; }
    }
  }

  /** The stepping task: one send at most, paid for by its potential. */
  lemma StepPaid(w: World, gone: set<Txid>, s': State, id: TaskId, pool: seq<Name>, left: int, last: Option<IpAddr>,
                 now: nat)
    requires Recorded(w) && Effect(w.s, gone, s', id, pool, left, last, now)
    requires id in w.budget && |SendsOf(w.issued, id)| <= w.budget[id]
    requires |SendsOf(w.issued, id)| + left <= w.budget[id]
    ensures |SendsOf(w.issued + s'.txs, id)| <= w.budget[id]
    ensures id in s'.tasks ==> |SendsOf(w.issued + s'.txs, id)| + Potential(s'.tasks[id]) <= w.budget[id]
  {
    hide CacheStep, KeyOf, SendsOf, NamesFrom, FairServer, SameName, Recorded;
    StepSends(w, gone, s', id, pool, left, last, now, id);
    if id in s'.tasks {
      SizeOfMore(SendsOf(w.issued, id), w.s.nextId);
    } else {
      assert SendsOf(w.issued, id) + {} == SendsOf(w.issued, id);
    }
  }

  lemma StepOther(w: World, gone: set<Txid>, s': State, id: TaskId, pool: seq<Name>, left: int, last: Option<IpAddr>,
                  now: nat, y: TaskId)
    requires Recorded(w) && Effect(w.s, gone, s', id, pool, left, last, now) && y != id
    ensures SendsOf(w.issued + s'.txs, y) == SendsOf(w.issued, y)
    ensures y in s'.tasks <==> y in w.s.tasks
    ensures y in s'.tasks ==> s'.tasks[y] == w.s.tasks[y]
    ensures s'.cfg == w.s.cfg
  {
    hide CacheStep, KeyOf, SendsOf, StartedBy, Recorded;
    StepSends(w, gone, s', id, pool, left, last, now, y);
  }

  lemma StepBounded(w: World, gone: set<Txid>, s': State, id: TaskId, pool: seq<Name>, left: int, last: Option<IpAddr>,
                    now: nat, tx: Txid, idle: set<TaskId>)
    requires Recorded(w) && Bounded(w, idle) && Effect(w.s, gone, s', id, pool, left, last, now)
    requires id in w.budget && |SendsOf(w.issued, id)| + left <= w.budget[id]
    ensures Bounded(Noted(w, s', tx), idle - {id})
  {
    hide Effect, Recorded, SendsOf, Origins, Candidates, Potential, Fresh, Budget;
    var w' := Noted(w, s', tx);
    StepPaid(w, gone, s', id, pool, left, last, now);
    forall y | y != id
      ensures SendsOf(w'.issued, y) == SendsOf(w.issued, y) && (y in s'.tasks <==> y in w.s.tasks)
              && (y in s'.tasks ==> s'.tasks[y] == w.s.tasks[y])
      ensures s'.cfg == w.s.cfg
    {
      StepOther(w, gone, s', id, pool, left, last, now, y);
    }
  }

  lemma SizeOfMore(a: set<Txid>, x: Txid)
    ensures |a + {x}| <= |a| + 1
  {
    if x in a { assert a + {x} == a; } else { assert |a + {x}| == |a| + 1; }
  }

  /** The record only grows. */
  lemma RecordGrows(w: World, gone: set<Txid>, s': State, id: TaskId, pool: seq<Name>, left: int,
                    last: Option<IpAddr>, now: nat)
    requires Recorded(w) && Effect(w.s, gone, s', id, pool, left, last, now)
    ensures forall x :: x in w.issued ==> x in w.issued + s'.txs && (w.issued + s'.txs)[x] == w.issued[x]
    ensures forall x :: x in s'.txs && x != w.s.nextId ==> x in w.s.txs && s'.txs[x] == w.s.txs[x]
  {
    hide StartedBy, CacheStep, KeyOf;
  }

  /** The transaction a step ended was the task's own. */
  ghost predicate Closed(w: World, gone: set<Txid>, id: TaskId, last: Option<IpAddr>, tx: Txid)
    requires id in w.s.tasks
  {
    && (last.None? ==> gone == {})
    && (last.Some? ==>
          && gone == {tx} && tx in w.s.txs && last.value == w.s.txs[tx].server
          && w.s.tasks[id].tx == Some(tx) && w.s.tasks[id].scope.Some? && AsksFor(w.s.txs[tx], w.s.tasks[id]))
  }

  lemma SinceBounded(w: World, scope: string)
    requires Provenance(w)
    ensures Since(w, scope) <= w.s.nextId
  {
  }

  lemma StepMayStore(w: World, gone: set<Txid>, s': State, id: TaskId, pool: seq<Name>, left: int, last: Option<IpAddr>,
                     now: nat, tx: Txid, y: TaskId)
    requires Recorded(w) && Provenance(w) && Effect(w.s, gone, s', id, pool, left, last, now)
    requires Closed(w, gone, id, last, tx) && y in s'.tasks
    requires y != id ==> w.s.tasks[y].tx != Some(w.s.nextId)
    ensures MayStore(Noted(w, s', tx), s'.tasks[y])
  {
    hide Recorded, CacheStep, KeyOf, Origins, NamesFrom, SameName, Configured, Route, Sourced, AsksFor;
    RecordGrows(w, gone, s', id, pool, left, last, now);
    if y == id {
      SinceBounded(w, s'.tasks[id].scope.value);
      assert MayStore(w, w.s.tasks[id]);
    } else {
      assert MayStore(w, w.s.tasks[y]);
    }
  }

  /** An entry that was there before keeps its origin. */
  lemma OldSourced(w: World, s': State, tx: Txid, k: CacheKey)
    requires k in w.s.cache && k in s'.cache && w.s.cache[k] == s'.cache[k] && Sourced(w, k) && s'.cfg == w.s.cfg
    requires forall x :: x in w.issued ==> x in w.issued + s'.txs && (w.issued + s'.txs)[x] == w.issued[x]
    ensures Sourced(Noted(w, s', tx), k)
  {
    hide Configured, Lower;
  }

  /** The answer a task stored comes from the transaction that just ended. */
  lemma NewSourced(w: World, s': State, id: TaskId, tx: Txid, k: CacheKey)
    requires id in w.s.tasks && k in s'.cache && tx in w.s.txs && tx in w.issued && w.issued[tx] == w.s.txs[tx]
    requires s'.cfg == w.s.cfg && !(k in w.s.cache && w.s.cache[k] == s'.cache[k])
    requires k == TaskKey(w.s.tasks[id]) && s'.cache[k].server == w.s.txs[tx].server
    requires w.s.tasks[id].tx == Some(tx) && w.s.tasks[id].scope.Some? && !w.s.tasks[id].cacheInvalidated
    requires MayStore(w, w.s.tasks[id]) && AsksFor(w.s.txs[tx], w.s.tasks[id])
    requires forall x :: x in w.issued ==> x in w.issued + s'.txs && (w.issued + s'.txs)[x] == w.issued[x]
    ensures Sourced(Noted(w, s', tx), k)
  {
    hide Configured, Lower, ValidName;
  }

  lemma StepSourced(w: World, gone: set<Txid>, s': State, id: TaskId, pool: seq<Name>, left: int, last: Option<IpAddr>,
                    now: nat, tx: Txid, k: CacheKey)
    requires Recorded(w) && Provenance(w) && Effect(w.s, gone, s', id, pool, left, last, now)
    requires Closed(w, gone, id, last, tx) && k in s'.cache
    ensures Sourced(Noted(w, s', tx), k)
  {
    hide StartedBy, Configured, Route, ValidName, GoodEntry, Lower, TaskKey, MayStore, Sourced, AsksFor, Noted;
    RecordGrows(w, gone, s', id, pool, left, last, now);
    if k in w.s.cache && w.s.cache[k] == s'.cache[k] {
      OldSourced(w, s', tx, k);
    } else {
      NewSourced(w, s', id, tx, k);
    }
  }

  lemma StepProvenance(w: World, gone: set<Txid>, s': State, id: TaskId, pool: seq<Name>, left: int,
                       last: Option<IpAddr>,
                       now: nat, tx: Txid, idle: set<TaskId>)
    requires Linked(w.s, idle) && Recorded(w) && Provenance(w) && Effect(w.s, gone, s', id, pool, left, last, now)
    requires Closed(w, gone, id, last, tx)
    ensures Provenance(Noted(w, s', tx))
  {
    hide Recorded, Closed, MayStore, Sourced, StartedBy, KeyOf, Origins, Flying, PointBack, GoodEntry;
    assert w.s.nextId <= s'.nextId && |s'.cache| <= MAX_ENTRIES;
    hide CacheStep;
    forall y | y in s'.tasks ensures MayStore(Noted(w, s', tx), s'.tasks[y]) {
      if y != id { TxBelow(w.s, idle, y); }
      StepMayStore(w, gone, s', id, pool, left, last, now, tx, y);
    }
    forall k | k in s'.cache ensures Sourced(Noted(w, s', tx), k) {
      StepSourced(w, gone, s', id, pool, left, last, now, tx, k);
    }
  }

  lemma TxBelow(s: State, idle: set<TaskId>, y: TaskId)
    requires Linked(s, idle) && y in s.tasks
    ensures s.tasks[y].tx != Some(s.nextId)
  {
    if y !in idle { assert Flying(s, y); }
  }

  // ------------------------------------------------------------- directions

  lemma SameNameLength(a: Name, b: Name)
    requires SameName(a, b)
    ensures |a| == |b|
  {
    assert |Lower(a)| == |Lower(b)|;
  }

  lemma StepRouted(w: World, gone: set<Txid>, s': State, id: TaskId, pool: seq<Name>, left: int, last: Option<IpAddr>,
                   now: nat, tx: Txid, y: TaskId, idle: set<TaskId>)
    requires Linked(w.s, idle) && Recorded(w) && Directed(w, idle) && Effect(w.s, gone, s', id, pool, left, last, now)
    requires Closed(w, gone, id, last, tx) && y in s'.tasks && y >= w.mark && y !in idle - {id}
    requires id in idle ==> last.None? && w.s.tasks[id].scope.None?
    ensures WellRouted(Noted(w, s', tx), s'.tasks[y])
  {
    hide Recorded, Linked, CacheStep, KeyOf, Origins, NamesFrom, SameName, Configured, Route, AsksFor, ValidConfig;
    RecordGrows(w, gone, s', id, pool, left, last, now);
    if y != id {
      TxBelow(w.s, idle, y);
      assert WellRouted(w, w.s.tasks[y]);
    } else if id !in idle {
      assert WellRouted(w, w.s.tasks[id]);
    }
  }

  lemma StepWhole(w: World, gone: set<Txid>, s': State, id: TaskId, pool: seq<Name>, left: int, last: Option<IpAddr>,
                  now: nat, tx: Txid, idle: set<TaskId>)
    requires Recorded(w) && Directed(w, idle) && Effect(w.s, gone, s', id, pool, left, last, now)
    requires forall c :: c in pool ==> Whole(c)
    ensures forall y :: y in s'.tasks ==> WholeNames(s'.tasks[y])
    ensures forall x :: x in w.issued + s'.txs ==> Whole((w.issued + s'.txs)[x].question.name)
  {
    hide CacheStep, KeyOf, SameName, FairServer, ValidConfig, WellRouted;
    assert WholeNames(w.s.tasks[id]);
    if id in s'.tasks {
      assert WholeNames(s'.tasks[id]);
      SameNameLength(s'.txs[w.s.nextId].question.name, CurrentName(s'.tasks[id]));
    }
  }

  lemma StepDirected(w: World, gone: set<Txid>, s': State, id: TaskId, pool: seq<Name>, left: int, last: Option<IpAddr>,
                     now: nat, tx: Txid, idle: set<TaskId>)
    requires Linked(w.s, idle) && Recorded(w) && Directed(w, idle) && Effect(w.s, gone, s', id, pool, left, last, now)
    requires Closed(w, gone, id, last, tx) && forall c :: c in pool ==> Whole(c)
    requires id in idle ==> last.None? && w.s.tasks[id].scope.None?
    ensures Directed(Noted(w, s', tx), idle - {id})
  {
    hide Recorded, Linked, Closed, StartedBy, CacheStep, KeyOf, Origins, WellRouted, WholeNames, ValidConfig;
    assert w.s.nextId <= s'.nextId && s'.cfg == w.s.cfg;
    StepWhole(w, gone, s', id, pool, left, last, now, tx, idle);
    forall y | y in s'.tasks && y >= w.mark && y !in idle - {id} ensures WellRouted(Noted(w, s', tx), s'.tasks[y]) {
      StepRouted(w, gone, s', id, pool, left, last, now, tx, y, idle);
    }
  }

  /** The query just sent for a well-routed task is well sent: case plays no part in routing. */
  lemma RoutedSent(w: World, t: Task, x: Txid)
    requires WellRouted(w, t) && t.tx == Some(x) && x in w.s.txs
    requires SameName(w.s.txs[x].question.name, CurrentName(t))
    ensures WellSent(w.s.cfg, w.mark, w.s.txs[x])
  {
    hide Configured, Route, SameName;
    RouteIgnoresCase(w.s.cfg, w.s.txs[x].question.name, CurrentName(t));
  }

  lemma StepAimed(w: World, gone: set<Txid>, s': State, id: TaskId, pool: seq<Name>, left: int, last: Option<IpAddr>,
                  now: nat, tx: Txid, idle: set<TaskId>)
    requires Recorded(w) && Aimed(w) && Effect(w.s, gone, s', id, pool, left, last, now)
    requires Directed(Noted(w, s', tx), idle - {id})
    ensures Aimed(Noted(w, s', tx))
  {
    hide Recorded, CacheStep, KeyOf, Origins, NamesFrom, SameName, WellRouted, WholeNames, ValidConfig, WellSent,
         FairServer;
    var w' := Noted(w, s', tx);
    RecordGrows(w, gone, s', id, pool, left, last, now);
    if id in s'.tasks {
      if id >= w.mark {
        RoutedSent(w', s'.tasks[id], w.s.nextId);
      } else {
        OldSent(s'.cfg, w.mark, s'.txs[w.s.nextId]);
      }
    }
    forall x | x in w'.issued ensures WellSent(s'.cfg, w.mark, w'.issued[x]) {
      assert x in w.issued || x == w.s.nextId || x in w.s.txs;
      if x in w.s.txs { RecordedTx(w, x); }
    }
  }

  lemma OldSent(cfg: Config, mark: nat, x: Tx)
    requires x.task < mark
    ensures WellSent(cfg, mark, x)
  {
  }

  lemma RecordedTx(w: World, x: Txid)
    requires Recorded(w) && x in w.s.txs
    ensures x in w.issued && w.issued[x] == w.s.txs[x]
  {
  }

  lemma AimedAs(w: World, w': World)
    requires Aimed(w) && w'.issued == w.issued && w'.mark == w.mark
    requires forall n :: Route(w'.s.cfg, n) == Route(w.s.cfg, n)
    requires forall c :: Configured(w'.s.cfg, c) == Configured(w.s.cfg, c)
    ensures Aimed(w')
  {
    hide Route, Configured;
  }

  /** Tracking depends on the task's sends, names and servers alone. */
  lemma TrackedAs(issued: map<Txid, Tx>, issued': map<Txid, Tx>, id: TaskId, t: Task, t': Task)
    requires Tracked(issued, id, t) && SendsOf(issued', id) == SendsOf(issued, id)
    requires forall y :: y in SendsOf(issued, id) ==> y in issued && y in issued' && issued'[y] == issued[y]
    requires t'.candidates == t.candidates && t'.current == t.current && t'.tried == t.tried
    ensures Tracked(issued', id, t')
  {
    hide SameName, SendsOf;
    if t.current.Some? {
      assert AskedOf(issued', id, t.current.value) == AskedOf(issued, id, t.current.value);
    }
  }

  /** One more send, for the name. */
  lemma AskedMore(issued: map<Txid, Tx>, issued': map<Txid, Tx>, id: TaskId, name: Name, x: Txid)
    requires x in issued' && SendsOf(issued', id) == SendsOf(issued, id) + {x}
    requires forall y :: y in SendsOf(issued, id) ==> y in issued && y in issued' && issued'[y] == issued[y]
    requires SameName(issued'[x].question.name, name) && x !in SendsOf(issued, id)
    ensures AskedOf(issued', id, name) == AskedOf(issued, id, name) + {issued'[x].server}
  {
    hide SameName, SendsOf;
  }

  lemma SameNameTwo(a: Name, b: Name, c: Name)
    requires SameName(a, b)
    ensures SameName(a, c) == SameName(b, c)
  {
  }

  /** A turn to another server, or the same one over TCP, for the name being asked. */
  lemma SameTurnTracked(issued: map<Txid, Tx>, issued': map<Txid, Tx>, id: TaskId, t: Task, t': Task, x: Txid)
    requires Tracked(issued, id, t) && x in issued' && SendsOf(issued', id) == SendsOf(issued, id) + {x}
    requires forall y :: y in SendsOf(issued, id) ==> y in issued && y in issued' && issued'[y] == issued[y]
    requires x !in SendsOf(issued, id) && t.current.Some? && SameRoute(t, t')
    requires SameName(issued'[x].question.name, t.current.value)
    requires t'.tried == if issued'[x].tcp then t.tried else t.tried + [issued'[x].server]
    requires issued'[x].tcp ==> issued'[x].server in t.tried
    ensures Tracked(issued', id, t')
  {
    AskedMore(issued, issued', id, t.current.value, x);
    forall c | c in t.candidates ensures !SameName(issued'[x].question.name, c) {
      SameNameTwo(issued'[x].question.name, t.current.value, c);
    }
    hide SameName, SendsOf, AskedOf, NoTwins;
  }

  /** A turn to the first server for a name not asked for yet. */
  lemma NewTurnTracked(issued: map<Txid, Tx>, issued': map<Txid, Tx>, id: TaskId, pool: seq<Name>, t': Task, x: Txid)
    requires Unasked(issued, id, pool) && x in issued' && SendsOf(issued', id) == SendsOf(issued, id) + {x}
    requires forall y :: y in SendsOf(issued, id) ==> y in issued && y in issued' && issued'[y] == issued[y]
    requires x !in SendsOf(issued, id) && NewTurn(pool, t', issued'[x].server)
    requires SameName(issued'[x].question.name, t'.current.value)
    ensures Tracked(issued', id, t')
  {
    var k, name := |pool| - |t'.candidates|, t'.current.value;
    assert name == pool[k - 1] && name in pool;
    AskedMore(issued, issued', id, name, x);
    assert AskedOf(issued, id, name) == {};
    forall c | c in t'.candidates ensures c in pool && !SameName(name, c) && !SameName(issued'[x].question.name, c) {
      var i :| 0 <= i < |t'.candidates| && t'.candidates[i] == c;
      assert pool[k + i] == c;
      SameNameTwo(issued'[x].question.name, name, c);
    }
    hide SameName, SendsOf, AskedOf;
    assert NoTwins(t'.candidates) by {
      forall i, j | 0 <= i < j < |t'.candidates| ensures !SameName(t'.candidates[i], t'.candidates[j]) {
        assert t'.candidates[i] == pool[k + i] && t'.candidates[j] == pool[k + j];
      }
    }
  }

  /** The transaction a step ended is on record for the task, at a server it remembers. */
  lemma ClosedTried(w: World, gone: set<Txid>, id: TaskId, last: Option<IpAddr>, tx: Txid, idle: set<TaskId>)
    requires Linked(w.s, idle) && Recorded(w) && Tracks(w) && id in w.s.tasks && Closed(w, gone, id, last, tx)
    requires last.Some? && id !in idle
    ensures last.value in w.s.tasks[id].tried && w.s.tasks[id].current.Some?
  {
    hide Unasked, PointBack;
    assert Flying(w.s, id) && Tracked(w.issued, id, w.s.tasks[id]);
    assert tx in SendsOf(w.issued, id);
    assert w.issued[tx].server in AskedOf(w.issued, id, w.s.tasks[id].current.value);
  }

  lemma NextUnsent(w: World, id: TaskId)
    requires Recorded(w)
    ensures w.s.nextId !in SendsOf(w.issued, id)
  {
  }

  lemma StepTracks(w: World, gone: set<Txid>, s': State, id: TaskId, pool: seq<Name>, left: int, last: Option<IpAddr>,
                   now: nat, tx: Txid, idle: set<TaskId>)
    requires Linked(w.s, idle) && Recorded(w) && Tracks(w) && Effect(w.s, gone, s', id, pool, left, last, now)
    requires Closed(w, gone, id, last, tx) && Unasked(w.issued, id, pool)
    requires id in idle ==> last.None? && w.s.tasks[id].current.None?
    requires last.None? ==> id in idle
    ensures Tracks(Noted(w, s', tx))
  {
    hide Linked, Recorded, CacheStep, KeyOf, Origins, NamesFrom, FairServer, Unasked, Tracked, SendsOf, AskedOf,
         SameName, Closed;
    RecordGrows(w, gone, s', id, pool, left, last, now);
    var all := w.issued + s'.txs;
    forall y | y in s'.tasks && y != id ensures Tracked(all, y, s'.tasks[y]) {
      StepOther(w, gone, s', id, pool, left, last, now, y);
      SendsOn(w.issued, y);
      TrackedAs(w.issued, all, y, w.s.tasks[y], s'.tasks[y]);
    }
    if id in s'.tasks {
      StepSends(w, gone, s', id, pool, left, last, now, id);
      SendsOn(w.issued, id);
      NextUnsent(w, id);
      var x := w.s.nextId;
      assert all[x] == s'.txs[x];
      if SameRoute(w.s.tasks[id], s'.tasks[id]) && !NewTurn(pool, s'.tasks[id], s'.txs[x].server) {
        if id !in idle { ClosedTried(w, gone, id, last, tx, idle); }
        SameTurnTracked(w.issued, all, id, w.s.tasks[id], s'.tasks[id], x);
      } else {
        TurnNew(pool, w.s.tasks[id], s'.tasks[id], s'.txs[x].server, s'.txs[x].tcp);
        NewTurnTracked(w.issued, all, id, pool, s'.tasks[id], x);
      }
    }
  }

  lemma SendsOn(issued: map<Txid, Tx>, id: TaskId)
    ensures forall y :: y in SendsOf(issued, id) ==> y in issued && issued[y].task == id
  {
  }

  lemma TurnNew(pool: seq<Name>, t: Task, t': Task, server: IpAddr, tcp: bool)
    requires Turn(pool, t, t', server, tcp) && (!SameRoute(t, t') || NewTurn(pool, t', server))
    ensures NewTurn(pool, t', server) && t'.current.Some?
  {
  }

  lemma TracksAs(w: World, w': World)
    requires Tracks(w) && w'.issued == w.issued
    requires forall id :: id in w'.s.tasks ==>
               && id in w.s.tasks && w'.s.tasks[id].candidates == w.s.tasks[id].candidates
               && w'.s.tasks[id].current == w.s.tasks[id].current && w'.s.tasks[id].tried == w.s.tasks[id].tried
    ensures Tracks(w')
  {
    hide SendsOf, AskedOf, Unasked;
  }

  /** A task's step keeps the whole ledger. */
  lemma StepLedger(w: World, gone: set<Txid>, s': State, id: TaskId, pool: seq<Name>, left: int, last: Option<IpAddr>,
                   now: nat, tx: Txid, idle: set<TaskId>)
    requires Linked(w.s, idle) && Ledger(w, idle) && Effect(w.s, gone, s', id, pool, left, last, now)
    requires Closed(w, gone, id, last, tx) && forall c :: c in pool ==> Whole(c)
    requires id in idle ==> last.None? && w.s.tasks[id].scope.None?
    requires id in w.budget && |SendsOf(w.issued, id)| + left <= w.budget[id]
    requires Unasked(w.issued, id, pool)
    requires (id in idle ==> w.s.tasks[id].current.None?) && (last.None? ==> id in idle)
    ensures Ledger(Noted(w, s', tx), idle - {id})
  {
    hide Recorded, Bounded, Provenance, Directed, Aimed, Tracks, Effect, Linked, Closed, Noted, SendsOf, Unasked;
    StepRecorded(w, gone, s', id, pool, left, last, now, tx);
    StepBounded(w, gone, s', id, pool, left, last, now, tx, idle);
    StepProvenance(w, gone, s', id, pool, left, last, now, tx, idle);
    StepDirected(w, gone, s', id, pool, left, last, now, tx, idle);
    StepAimed(w, gone, s', id, pool, left, last, now, tx, idle);
    StepTracks(w, gone, s', id, pool, left, last, now, tx, idle);
  }

  // ------------------------------------------------------- other transitions

  /** The ledger with fresh tasks of one question. */
  function Begun(w: World, s0: State, name: Name, ids: seq<TaskId>): World {
    w.(s := s0, budget := w.budget + (map id | id in ids :: Budget(|Candidates(w.s.cfg, name)|)))
  }

  lemma BeginRecorded(w: World, s0: State, owner: Owner, name: Name, types: seq<u16>, ids: seq<TaskId>)
    requires Recorded(w) && Added(w.s, s0, owner, name, types) && ids == IdsFrom(w.s.nextId, |types|)
    requires s0.txs == w.s.txs && s0.nextId == w.s.nextId + |types|
    ensures Recorded(Begun(w, s0, name, ids))
  {
    hide NewFor, Budget, Candidates;
    IdsAre(w.s.nextId, |types|);
    hide IdsFrom, IdSet;
    forall id | id in s0.tasks && id !in w.s.tasks ensures id in ids {}
  }

  /** Nothing has been sent for a task that does not exist yet. */
  lemma NothingSent(w: World, id: TaskId)
    requires Recorded(w) && id >= w.s.nextId
    ensures SendsOf(w.issued, id) == {} && id !in w.budget && id !in w.s.tasks
  {
  }

  lemma BeginBounded(w: World, s0: State, owner: Owner, name: Name, types: seq<u16>, ids: seq<TaskId>)
    requires Recorded(w) && Bounded(w, {}) && Added(w.s, s0, owner, name, types) && ids == IdsFrom(w.s.nextId, |types|)
    requires s0.cfg == w.s.cfg
    ensures Bounded(Begun(w, s0, name, ids), IdSet(ids))
  {
    hide Budget, Candidates, Potential, SendsOf, Fresh, NewFor;
    IdsAre(w.s.nextId, |types|);
    hide IdsFrom, IdSet;
    forall id | id in ids ensures SendsOf(w.issued, id) == {} && id !in w.budget && id !in w.s.tasks {
      NothingSent(w, id);
    }
    hide Recorded;
    forall id | id in s0.tasks && id !in ids ensures id in w.s.tasks && s0.tasks[id] == w.s.tasks[id] {}
    forall id | id in ids && id in s0.tasks ensures Fresh(s0.tasks[id]) && s0.tasks[id].original == name {
      NewIsFresh(s0.tasks[id], owner, name);
    }
    BoundedMore(w, s0, name, ids);
  }

  lemma BoundedMore(w: World, s0: State, name: Name, ids: seq<TaskId>)
    requires Bounded(w, {}) && s0.cfg == w.s.cfg
    requires forall id :: id in ids ==> SendsOf(w.issued, id) == {} && id !in w.budget && id !in w.s.tasks
    requires forall id :: id in s0.tasks && id !in ids ==> id in w.s.tasks && s0.tasks[id] == w.s.tasks[id]
    requires forall id :: id in ids && id in s0.tasks ==> Fresh(s0.tasks[id]) && s0.tasks[id].original == name
    ensures Bounded(Begun(w, s0, name, ids), IdSet(ids))
  {
    hide Budget, Candidates, Potential, SendsOf, Fresh;
    forall id ensures id in IdSet(ids) <==> id in ids {}
    hide IdSet;
  }

  lemma NewIsFresh(t: Task, owner: Owner, name: Name)
    requires NewFor(t, owner, name)
    ensures Fresh(t) && t.original == name
  {
  }

  lemma BeginProvenance(w: World, s0: State, owner: Owner, name: Name, types: seq<u16>, ids: seq<TaskId>)
    requires Provenance(w) && Added(w.s, s0, owner, name, types)
    requires s0.txs == w.s.txs && s0.cfg == w.s.cfg && s0.cache == w.s.cache && s0.nextId == w.s.nextId + |types|
    ensures Provenance(Begun(w, s0, name, ids))
  {
    hide Budget, Candidates, Configured, Lower, IdsFrom, OfType;
    forall k | k in s0.cache ensures Sourced(Begun(w, s0, name, ids), k) { assert Sourced(w, k); }
    forall id | id in s0.tasks ensures MayStore(Begun(w, s0, name, ids), s0.tasks[id]) {
      if id in w.s.tasks { assert MayStore(w, w.s.tasks[id]); }
    }
  }

  lemma FreshWhole(t: Task)
    requires Fresh(t)
    ensures WholeNames(t)
  {
  }

  lemma BeginDirected(w: World, s0: State, owner: Owner, name: Name, types: seq<u16>, ids: seq<TaskId>)
    requires Directed(w, {}) && Added(w.s, s0, owner, name, types) && ids == IdsFrom(w.s.nextId, |types|)
    requires s0.txs == w.s.txs && s0.cfg == w.s.cfg && s0.nextId == w.s.nextId + |types|
    ensures Directed(Begun(w, s0, name, ids), IdSet(ids))
  {
    hide Budget, Candidates, ValidConfig, WellRouted, WholeNames, Fresh;
    IdsAre(w.s.nextId, |types|);
    hide IdsFrom, IdSet;
    var w' := Begun(w, s0, name, ids);
    forall id | id in s0.tasks && id >= w.mark && id !in ids ensures WellRouted(w', s0.tasks[id]) {
      assert id in w.s.tasks;
      RoutedAs(w, w', w.s.tasks[id], w.s.tasks[id]);
    }
    forall id | id in s0.tasks ensures WholeNames(s0.tasks[id]) {
      if id !in w.s.tasks { FreshWhole(s0.tasks[id]); }
    }
  }

  /** Routing depends on the configuration, and on the task's names, scope and transaction. */
  lemma RoutedAs(w: World, w': World, t: Task, t': Task)
    requires WellRouted(w, t) && t' == t.(cacheInvalidated := t'.cacheInvalidated)
    requires forall n :: Route(w'.s.cfg, n) == Route(w.s.cfg, n)
    requires forall c :: Configured(w'.s.cfg, c) == Configured(w.s.cfg, c)
    requires forall x :: x in w'.s.txs ==> x in w.s.txs && w'.s.txs[x] == w.s.txs[x]
    ensures WellRouted(w', t')
  {
    hide Route, Configured;
  }

  lemma BeginTracks(w: World, s0: State, owner: Owner, name: Name, types: seq<u16>, ids: seq<TaskId>)
    requires Recorded(w) && Tracks(w) && Added(w.s, s0, owner, name, types)
    requires s0.nextId == w.s.nextId + |types|
    ensures Tracks(Begun(w, s0, name, ids))
  {
    hide Budget, Candidates, SendsOf, AskedOf, Recorded;
    forall id | id in s0.tasks ensures Tracked(w.issued, id, s0.tasks[id]) {
      if id in w.s.tasks { assert Tracked(w.issued, id, w.s.tasks[id]); }
    }
  }

  /** Fresh tasks join the ledger idle, with nothing sent. */
  lemma BeginLedger(w: World, s0: State, owner: Owner, name: Name, types: seq<u16>, ids: seq<TaskId>)
    requires Ledger(w, {}) && Added(w.s, s0, owner, name, types) && ids == IdsFrom(w.s.nextId, |types|)
    requires s0.txs == w.s.txs && s0.cfg == w.s.cfg && s0.cache == w.s.cache && s0.nextId == w.s.nextId + |types|
    ensures Ledger(Begun(w, s0, name, ids), IdSet(ids))
  {
    BeginTracks(w, s0, owner, name, types, ids);
    hide Recorded, Bounded, Provenance, Directed, Tracks, Added, IdsFrom, IdSet, Budget, Candidates, WellSent;
    BeginRecorded(w, s0, owner, name, types, ids);
    BeginBounded(w, s0, owner, name, types, ids);
    BeginProvenance(w, s0, owner, name, types, ids);
    BeginDirected(w, s0, owner, name, types, ids);
  }

  lemma BoundedAs(w: World, w': World)
    requires Bounded(w, {}) && w'.issued == w.issued && w'.budget == w.budget
    requires forall id :: id in w'.s.tasks ==> id in w.s.tasks && Potential(w'.s.tasks[id]) == Potential(w.s.tasks[id])
    ensures Bounded(w', {})
  {
    hide SendsOf, Potential, Fresh, Candidates, Budget;
  }

  lemma DirectedAs(w: World, w': World)
    requires Directed(w, {}) && w'.issued == w.issued && w'.mark <= w'.s.nextId && ValidConfig(w'.s.cfg)
    requires forall id :: id in w'.s.tasks ==>
                 id in w.s.tasks && WholeNames(w'.s.tasks[id]) == WholeNames(w.s.tasks[id])
    requires forall id :: id in w'.s.tasks && id >= w'.mark ==> WellRouted(w', w'.s.tasks[id])
    ensures Directed(w', {})
  {
    hide WholeNames, WellRouted, ValidConfig;
  }

  lemma SourcedAs(w: World, w': World, k: CacheKey)
    requires k in w.s.cache && Sourced(w, k) && k in w'.s.cache && w'.s.cache[k] == w.s.cache[k]
    requires w'.issued == w.issued && w'.origin == w.origin && Since(w', k.scope) == Since(w, k.scope)
    requires Configured(w'.s.cfg, k.scope) == Configured(w.s.cfg, k.scope)
    ensures Sourced(w', k)
  {
    hide Configured, Since, Lower;
  }

  /** Forgetting tasks and transactions loses nothing else. */
  lemma LessLedger(w: World, s': State)
    requires Ledger(w, {}) && s'.cfg == w.s.cfg && s'.cache == w.s.cache && s'.nextId == w.s.nextId
    requires forall id :: id in s'.tasks ==> id in w.s.tasks && s'.tasks[id] == w.s.tasks[id]
    requires forall x :: x in s'.txs ==> x in w.s.txs && s'.txs[x] == w.s.txs[x]
    ensures Ledger(w.(s := s'), {})
  {
    hide Bounded, Directed, Tracks, Configured, Route, Potential, WholeNames, Sourced, WellRouted, WellSent;
    var w' := w.(s := s');
    BoundedAs(w, w');
    TracksAs(w, w');
    forall k | k in s'.cache ensures Sourced(w', k) { SourcedAs(w, w', k); }
    forall id | id in s'.tasks ensures MayStore(w', s'.tasks[id]) { assert MayStore(w, w.s.tasks[id]); }
    forall id | id in s'.tasks && id >= w.mark ensures WellRouted(w', s'.tasks[id]) {
      DirectedHas(w, {}, id);
      RoutedAs(w, w', w.s.tasks[id], w.s.tasks[id]);
    }
    DirectedHas(w, {}, 0);
    DirectedAs(w, w');
  }

  lemma DirectedHas(w: World, idle: set<TaskId>, id: TaskId)
    requires Directed(w, idle)
    ensures id in w.s.tasks && id >= w.mark && id !in idle ==> WellRouted(w, w.s.tasks[id])
    ensures w.mark <= w.s.nextId && ValidConfig(w.s.cfg)
  {
  }

  // ---------------------------------------------------------- configuration

  function Epochs(epoch: map<string, nat>, stale: set<string>, at: nat): map<string, nat> {
    map c | c in epoch.Keys + stale :: if c in stale then at else epoch[c]
  }

  /** The ledger after scopes were invalidated and the configuration replaced. */
  function Reconfigured(w: World, s': State, stale: set<string>): World {
    w.(s := s', epoch := Epochs(w.epoch, stale, w.s.nextId), mark := w.s.nextId)
  }

  /** Outside the stale scopes, the servers are the same. */
  ghost predicate Replaced(s: State, s': State, stale: set<string>) {
    && s' == Invalidate(s, stale).(cfg := s'.cfg) && ValidConfig(s'.cfg)
    && forall c :: c !in stale ==> Configured(s'.cfg, c) == Configured(s.cfg, c)
  }

  lemma SinceKept(w: World, s': State, stale: set<string>, c: string)
    requires c !in stale
    ensures Since(Reconfigured(w, s', stale), c) == Since(w, c)
  {
  }

  lemma InvalidTask(s: State, stale: set<string>, id: TaskId)
    requires id in s.tasks
    ensures var t, t' := s.tasks[id], Invalidate(s, stale).tasks[id];
            && t' == t.(cacheInvalidated := t'.cacheInvalidated)
            && (!t'.cacheInvalidated ==> !t.cacheInvalidated && !IsStale(t, stale))
  {
  }

  lemma ReplacedProvenance(w: World, s': State, stale: set<string>)
    requires Provenance(w) && Replaced(w.s, s', stale)
    ensures Provenance(Reconfigured(w, s', stale))
  {
    hide Configured, Sourced, ValidConfig, Since, Invalidate;
    var w' := Reconfigured(w, s', stale);
    InvalidShape(w.s, stale);
    forall k | k in s'.cache ensures Sourced(w', k) {
      SinceKept(w, s', stale, k.scope);
      SourcedAs(w, w', k);
    }
    SubsetSize(s'.cache.Keys, w.s.cache.Keys);
    forall id | id in s'.tasks ensures MayStore(w', s'.tasks[id]) {
      assert MayStore(w, w.s.tasks[id]);
      InvalidTask(w.s, stale, id);
      if s'.tasks[id].scope.Some? && !s'.tasks[id].cacheInvalidated {
        SinceKept(w, s', stale, s'.tasks[id].scope.value);
      }
    }
  }

  lemma InvalidShape(s: State, stale: set<string>)
    ensures var s' := Invalidate(s, stale);
            && s' == s.(cache := s'.cache, tasks := s'.tasks) && s'.tasks.Keys == s.tasks.Keys
            && (forall k :: k in s'.cache <==> k in s.cache && k.scope !in stale)
            && (forall k :: k in s'.cache ==> s'.cache[k] == s.cache[k])
  {
  }

  lemma ReplacedLedger(w: World, s': State, stale: set<string>)
    requires Ledger(w, {}) && Linked(w.s, {}) && Replaced(w.s, s', stale)
    ensures Ledger(Reconfigured(w, s', stale), {})
  {
    hide Tracks, Provenance, Configured, Route, ValidConfig, Invalidate, Flying, Bounded, Directed, Potential,
         WholeNames, WellRouted, Epochs;
    ReplacedProvenance(w, s', stale);
    InvalidShape(w.s, stale);
    forall id | id in s'.tasks
      ensures Potential(s'.tasks[id]) == Potential(w.s.tasks[id])
              && WholeNames(s'.tasks[id]) == WholeNames(w.s.tasks[id])
      ensures s'.tasks[id] == w.s.tasks[id].(cacheInvalidated := s'.tasks[id].cacheInvalidated)
    {
      InvalidTask(w.s, stale, id);
      SameWork(w.s.tasks[id], s'.tasks[id]);
    }
    forall x | x in w.issued ensures WellSent(s'.cfg, w.s.nextId, w.issued[x]) {
      OldSent(s'.cfg, w.s.nextId, w.issued[x]);
    }
    hide WellSent;
    TracksAs(w, Reconfigured(w, s', stale));
    BoundedAs(w, Reconfigured(w, s', stale));
    DirectedAs(w, Reconfigured(w, s', stale));
  }

  lemma SameWork(t: Task, t': Task)
    requires t' == t.(cacheInvalidated := t'.cacheInvalidated)
    ensures Potential(t') == Potential(t) && WholeNames(t') == WholeNames(t)
  {
  }

  /** Replacing the scopes leaves the servers of the others alone. */
  lemma ScopesReplaced(s: State, scopes: seq<Scope>)
    requires ValidConfig(s.cfg) && ValidConfig(s.cfg.(scopes := scopes))
    ensures Replaced(s, SetScopes(s, scopes), StaleScopes(s.cfg.scopes, scopes))
  {
    hide Invalidate, ValidConfig, ScopeIndex;
    var stale := StaleScopes(s.cfg.scopes, scopes);
    forall c | c !in stale ensures Configured(s.cfg.(scopes := scopes), c) == Configured(s.cfg, c) {
      SameServers(s.cfg, scopes, c);
    }
  }

  lemma SameServers(cfg: Config, scopes: seq<Scope>, c: string)
    requires c !in StaleScopes(cfg.scopes, scopes)
    ensures Configured(cfg.(scopes := scopes), c) == Configured(cfg, c)
  {
    var i, j := ScopeIndex(cfg.scopes, c), ScopeIndex(scopes, c);
    assert j < |scopes| ==> scopes[j].id == c;
    assert i < |cfg.scopes| ==> cfg.scopes[i].id == c;
  }

  lemma FallbackReplaced(s: State, servers: seq<IpAddr>, domains: seq<Name>)
    requires ValidConfig(s.cfg.(fallbackServers := servers, fallbackDomains := domains))
    ensures Replaced(s, SetFallback(s, servers, domains),
                     if servers != s.cfg.fallbackServers then {FALLBACK_SCOPE} else {})
  {
    hide ValidConfig, ScopeIndex;
    if servers == s.cfg.fallbackServers {
      var s' := Invalidate(s, {});
      assert s'.cache == s.cache && s'.tasks == s.tasks;
    }
  }

  /** Names and hosts play no part in routing. */
  lemma RouteOf(cfg: Config, cfg': Config)
    requires cfg' == cfg.(hostname := cfg'.hostname, hosts := cfg'.hosts)
    ensures forall c :: Configured(cfg', c) == Configured(cfg, c)
    ensures forall n :: Route(cfg', n) == Route(cfg, n)
  {
  }

  lemma NamesLedger(w: World, cfg: Config)
    requires Ledger(w, {}) && ValidConfig(cfg)
    requires cfg == w.s.cfg.(hostname := cfg.hostname, hosts := cfg.hosts)
    ensures Ledger(w.(s := w.s.(cfg := cfg)), {})
  {
    hide Bounded, Directed, Aimed, Tracks, ValidConfig, Potential, WholeNames, Sourced, WellRouted, Configured, Route;
    var w' := w.(s := w.s.(cfg := cfg));
    TracksAs(w, w');
    RouteOf(w.s.cfg, cfg);
    BoundedAs(w, w');
    AimedAs(w, w');
    forall k | k in w.s.cache ensures Sourced(w', k) { SourcedAs(w, w', k); }
    forall id | id in w.s.tasks ensures MayStore(w', w.s.tasks[id]) { assert MayStore(w, w.s.tasks[id]); }
    forall id | id in w.s.tasks && id >= w.mark ensures WellRouted(w', w.s.tasks[id]) {
      DirectedHas(w, {}, id);
      RoutedAs(w, w', w.s.tasks[id], w.s.tasks[id]);
    }
    DirectedHas(w, {}, 0);
    DirectedAs(w, w');
  }

  /** After a flush nothing is cached, and nothing asked before it will be. */
  lemma FlushLedger(w: World)
    requires Ledger(w, {})
    ensures Ledger(w.(s := Flush(w.s), flushed := w.s.nextId), {})
  {
    hide Bounded, Directed, Tracks, Configured, Route, Potential, WholeNames, WellRouted, Sourced, WellSent;
    var s' := Flush(w.s);
    var w' := w.(s := s', flushed := w.s.nextId);
    TracksAs(w, w');
    forall id | id in s'.tasks ensures Potential(s'.tasks[id]) == Potential(w.s.tasks[id])
                                       && WholeNames(s'.tasks[id]) == WholeNames(w.s.tasks[id])
    {
      SameWork(w.s.tasks[id], s'.tasks[id]);
    }
    BoundedAs(w, w');
    forall id | id in s'.tasks && id >= w.mark ensures WellRouted(w', s'.tasks[id]) {
      DirectedHas(w, {}, id);
      RoutedAs(w, w', w.s.tasks[id], s'.tasks[id]);
    }
    DirectedHas(w, {}, 0);
    DirectedAs(w, w');
  }
}
