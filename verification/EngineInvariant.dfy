/** What every operation of the engine keeps, shown for the two ways a task's step ends. */
module EngineInvariant {
  import opened Bytes
  import opened Results
  import opened Sets
  import opened Names
  import opened Dns
  import opened Lookups
  import opened Caches
  import opened Routing
  import opened EngineModel
  import opened EngineSteps
  import opened Queries

  // -------------------------------------------------------------- invariants

  /** The task's one transaction is live and points back at it. */
  predicate Flying(s: State, id: TaskId)
    requires id in s.tasks
  {
    var t := s.tasks[id];
    && t.tx.Some? && t.tx.value in s.txs && s.txs[t.tx.value].task == id
    && t.attempt >= 1 && t.current.Some? && t.scope.Some?
  }

  /** Tasks and transactions point at each other, one to one; `idle` tasks have none. */
  ghost predicate Linked(s: State, idle: set<TaskId>) {
    && (forall id :: id in s.tasks ==> id < s.nextId && s.tasks[id].attempt <= MAX_ATTEMPTS)
    && (forall id :: id in s.tasks && id !in idle ==> Flying(s, id))
    && (forall id :: id in idle ==> id in s.tasks && s.tasks[id].tx.None?)
    && PointBack(s.tasks, s.txs, s.nextId)
    && |s.txs| <= MAX_IN_FLIGHT
  }

  predicate PointBack(tasks: map<TaskId, Task>, txs: map<Txid, Tx>, nextId: nat) {
    forall x :: x in txs ==> x < nextId && txs[x].task in tasks && tasks[txs[x].task].tx == Some(x)
  }

  predicate NoRepeats(ids: seq<TaskId>) {
    forall i, j :: 0 <= i < j < |ids| ==> ids[i] != ids[j]
  }

  /** A lookup waits for exactly its live tasks, and a resolve has exactly one. */
  ghost predicate Owned(s: State) {
    && (forall q :: q in s.lookups ==>
          && s.lookups[q].pending != [] && NoRepeats(s.lookups[q].pending)
          && forall id :: id in s.lookups[q].pending ==> id in s.tasks && s.tasks[id].owner == LookupOwner(q))
    && (forall id :: id in s.tasks && s.tasks[id].owner.LookupOwner? ==>
          s.tasks[id].owner.qid in s.lookups && id in s.lookups[s.tasks[id].owner.qid].pending)
    && (forall id :: id in s.tasks && s.tasks[id].owner.ResolveOwner? ==> s.tasks[id].owner.qid !in s.lookups)
    && (forall a, b ::
          (a in s.tasks && b in s.tasks && s.tasks[a].owner.ResolveOwner? && s.tasks[a].owner == s.tasks[b].owner)
          ==> a == b)
  }

  /** A transaction asks its task's current name, up to case. */
  predicate AsksFor(x: Tx, t: Task) {
    && SameName(x.question.name, CurrentName(t)) && ValidName(x.question.name)
    && x.question.rtype == t.rtype && x.question.class_ == IN
  }

  predicate GoodParts(l: Lookup) {
    && DistinctTypes(l.results)
    && (forall i :: 0 <= i < |l.results| ==> GoodAnswer(l.results[i].answer))
  }

  /** No two of a lookup's answers and pending tasks are of the same family. */
  ghost predicate Families(l: Lookup, tasks: map<TaskId, Task>) {
    && (forall id, i :: id in l.pending && id in tasks && 0 <= i < |l.results| ==>
          l.results[i].rtype != tasks[id].rtype)
    && (forall a, b :: a in l.pending && b in l.pending && a in tasks && b in tasks && a != b ==>
          tasks[a].rtype != tasks[b].rtype)
  }

  /** Names are valid, queries match their tasks, answers are good, and families never repeat. */
  ghost predicate Valued(s: State) {
    && (forall id :: id in s.tasks ==> ValidTask(s.tasks[id]))
    && (forall x :: x in s.txs && s.txs[x].task in s.tasks ==> AsksFor(s.txs[x], s.tasks[s.txs[x].task]))
    && GoodCache(s.cache)
    && (forall q :: q in s.lookups ==> GoodParts(s.lookups[q]))
    && (forall q :: q in s.lookups ==> Families(s.lookups[q], s.tasks))
  }

  ghost predicate Inv(s: State, idle: set<TaskId>) {
    Linked(s, idle) && Owned(s) && Valued(s)
  }

  // ----------------------------------------------------- what a step counts

  /** The question has a live task. */
  ghost predicate Live(s: State, q: Qid) {
    exists id :: id in s.tasks && s.tasks[id].owner.qid == q
  }

  ghost function LiveCount(s: State, q: Qid): nat {
    if Live(s, q) then 1 else 0
  }

  function DoneCount(acts: seq<Action>, q: Qid): nat {
    if acts == [] then 0
    else (if acts[0].Done? && acts[0].qid == q then 1 else 0) + DoneCount(acts[1..], q)
  }

  lemma {:induction false} DoneConcat(a: seq<Action>, b: seq<Action>, q: Qid)
    ensures DoneCount(a + b, q) == DoneCount(a, q) + DoneCount(b, q)
  {
    if a == [] {
      assert a + b == b;
    } else {
      assert (a + b)[1..] == a[1..] + b;
      DoneConcat(a[1..], b, q);
    }
  }

  /** Sends and transactions in flight, less those sent. */
  function Balance(s: State): int {
    s.counters.upstreamSent - |s.txs|
  }

  // ------------------------------------------------------------ preparation

  lemma PrepLinked(s: State, s1: State, id: TaskId, idle: set<TaskId>)
    requires Linked(s, idle) && id in idle && Prep(s, s1, id)
    ensures Linked(s1, idle)
  {
    forall x | x in s1.tasks && x !in idle ensures Flying(s1, x) { assert Flying(s, x); }
    forall x | x in s.txs ensures s.txs[x].task != id {}
  }

  lemma PrepOwned(s: State, s1: State, id: TaskId)
    requires Owned(s) && Prep(s, s1, id)
    ensures Owned(s1)
    ensures forall q :: Live(s1, q) == Live(s, q)
  {
    hide NoRepeats;
    assert s1.tasks.Keys == s.tasks.Keys && s1.lookups == s.lookups;
    forall x | x in s.tasks ensures s1.tasks[x].owner == s.tasks[x].owner {}
  }

  lemma PrepValued(s: State, s1: State, id: TaskId, idle: set<TaskId>)
    requires Valued(s) && Linked(s, idle) && id in idle && Prep(s, s1, id) && ValidTask(s1.tasks[id])
    ensures Valued(s1)
  {
    hide GoodParts, ValidTask, AsksFor, GoodEntry, Flying, GoodCache;
    assert s1.tasks.Keys == s.tasks.Keys && s1.lookups == s.lookups;
    forall x | x in s.tasks ensures s1.tasks[x].rtype == s.tasks[x].rtype {}
    forall x | x in s.txs ensures s.txs[x].task != id {}
    forall q | q in s1.lookups ensures Families(s1.lookups[q], s1.tasks) { assert Families(s.lookups[q], s.tasks); }
    ShrunkGood(s.cache, s1.cache);
  }

  lemma ShrunkGood(m: Entries, m': Entries)
    requires GoodCache(m) && Shrunk(m, m')
    ensures GoodCache(m')
  {
  }

  /** Preparing a step changes nothing the invariant or the counts speak of. */
  lemma PrepKeeps(s: State, s1: State, id: TaskId, idle: set<TaskId>)
    requires Inv(s, idle) && id in idle && Prep(s, s1, id) && ValidTask(s1.tasks[id])
    ensures Inv(s1, idle)
    ensures forall q :: Live(s1, q) == Live(s, q)
    ensures s1.txs == s.txs && Balance(s1) == Balance(s)
  {
    hide Linked, Owned, Valued, ValidTask;
    PrepLinked(s, s1, id, idle);
    PrepOwned(s, s1, id);
    PrepValued(s, s1, id, idle);
  }

  // ------------------------------------------------------------- settlement

  lemma {:induction false} WithoutSpec(ids: seq<TaskId>, id: TaskId)
    requires NoRepeats(ids)
    ensures NoRepeats(Without(ids, id))
    ensures forall x :: x in Without(ids, id) <==> x in ids && x != id
  {
    if ids != [] {
      var rest := ids[1..];
      assert NoRepeats(rest);
      WithoutSpec(rest, id);
      assert forall x :: x in ids <==> x == ids[0] || x in rest;
      assert ids[0] !in rest;
    }
  }

  function Moved(l: Lookup, id: TaskId, t: u16, a: Answer): Lookup {
    l.(pending := Without(l.pending, id), results := l.results + [Part(t, a)])
  }

  /** The lookups after a task of this owner has settled. */
  function LookupsAfter(ls: map<Qid, Lookup>, id: TaskId, t: Task, a: Answer): map<Qid, Lookup> {
    if t.owner.ResolveOwner? || t.owner.qid !in ls then ls
    else
      var l := Moved(ls[t.owner.qid], id, t.rtype, a);
      if l.pending == [] then ls - {t.owner.qid} else ls[t.owner.qid := l]
  }

  lemma SettleShape(s: State, id: TaskId, a: Answer)
    requires id in s.tasks && s.tasks[id].tx.None?
    ensures Settle(s, id, a).s == s.(tasks := s.tasks - {id}, lookups := LookupsAfter(s.lookups, id, s.tasks[id], a))
  {
    hide Combine, Without;
  }

  lemma SettleActs(s: State, id: TaskId, a: Answer)
    requires id in s.tasks && s.tasks[id].tx.None?
    ensures var t, acts := s.tasks[id], Settle(s, id, a).acts;
            if t.owner.ResolveOwner? then acts == [Done(t.owner.qid, AnswerDone(a))]
            else if t.owner.qid in s.lookups && Without(s.lookups[t.owner.qid].pending, id) == [] then
              |acts| == 1 && acts[0].Done? && acts[0].qid == t.owner.qid
            else acts == []
  {
    hide Combine, Without;
  }

  lemma SettleLinked(s: State, s': State, id: TaskId, idle: set<TaskId>)
    requires Linked(s, idle) && id in idle
    requires s'.txs == s.txs && s'.tasks == s.tasks - {id} && s'.nextId == s.nextId
    ensures Linked(s', idle - {id})
  {
    forall x | x in s'.tasks && x !in idle - {id} ensures Flying(s', x) { assert Flying(s, x); }
    forall x | x in s.txs ensures s.txs[x].task != id {}
  }

  lemma SettleOwned(s: State, s': State, id: TaskId, a: Answer)
    requires Owned(s) && id in s.tasks
    requires s'.tasks == s.tasks - {id} && s'.lookups == LookupsAfter(s.lookups, id, s.tasks[id], a)
    ensures Owned(s')
  {
    hide NoRepeats, Without;
    var t := s.tasks[id];
    if t.owner.LookupOwner? {
      WithoutSpec(s.lookups[t.owner.qid].pending, id);
    }
  }

  lemma SettleLive(s: State, id: TaskId, a: Answer, q: Qid)
    requires Owned(s) && id in s.tasks && s.tasks[id].tx.None?
    ensures LiveCount(s, q) == LiveCount(Settle(s, id, a).s, q) + DoneCount(Settle(s, id, a).acts, q)
  {
    hide NoRepeats, Settle, Without, LookupsAfter;
    var t := s.tasks[id];
    var o := Settle(s, id, a);
    SettleShape(s, id, a);
    SettleActs(s, id, a);
    assert |o.acts| <= 1 && (|o.acts| == 1 ==> o.acts[1..] == []);
    if t.owner.qid != q {
      OthersLive(s.tasks, id, q);
    } else if t.owner.LookupOwner? {
      WithoutSpec(s.lookups[q].pending, id);
      PendingLive(s, id, q);
    }
  }

  lemma OthersLive(tasks: map<TaskId, Task>, id: TaskId, q: Qid)
    requires id in tasks && tasks[id].owner.qid != q
    ensures (exists x :: x in tasks && tasks[x].owner.qid == q)
            <==> (exists x :: x in tasks - {id} && (tasks - {id})[x].owner.qid == q)
  {
    if exists x :: x in tasks && tasks[x].owner.qid == q {
      var x :| x in tasks && tasks[x].owner.qid == q;
      assert x in tasks - {id} && (tasks - {id})[x].owner.qid == q;
    }
  }

  lemma PendingLive(s: State, id: TaskId, q: Qid)
    requires Owned(s) && id in s.tasks && s.tasks[id].owner == LookupOwner(q)
    ensures (exists x :: x in s.tasks - {id} && (s.tasks - {id})[x].owner.qid == q)
            <==> Without(s.lookups[q].pending, id) != []
  {
    hide NoRepeats, Without;
    var rest := Without(s.lookups[q].pending, id);
    WithoutSpec(s.lookups[q].pending, id);
    if rest != [] {
      assert rest[0] in rest;
      assert rest[0] in s.tasks - {id} && (s.tasks - {id})[rest[0]].owner.qid == q;
    }
  }

  lemma MovedParts(l: Lookup, id: TaskId, t: u16, a: Answer)
    requires GoodParts(l) && GoodAnswer(a) && forall i :: 0 <= i < |l.results| ==> l.results[i].rtype != t
    ensures GoodParts(Moved(l, id, t, a))
  {
  }

  lemma MovedFamilies(l: Lookup, tasks: map<TaskId, Task>, id: TaskId, a: Answer)
    requires Families(l, tasks) && id in l.pending && id in tasks && NoRepeats(l.pending)
    ensures Families(Moved(l, id, tasks[id].rtype, a), tasks - {id})
  {
    WithoutSpec(l.pending, id);
  }

  lemma SettleValued(s: State, s': State, id: TaskId, a: Answer)
    requires Valued(s) && Owned(s) && id in s.tasks && GoodAnswer(a)
    requires s'.tasks == s.tasks - {id} && s'.txs == s.txs && s'.cache == s.cache
    requires s'.lookups == LookupsAfter(s.lookups, id, s.tasks[id], a)
    ensures Valued(s')
  {
    hide NoRepeats, AsksFor, ValidTask, GoodAnswer, GoodParts, GoodCache, Without;
    var t := s.tasks[id];
    forall q | q in s'.lookups ensures GoodParts(s'.lookups[q]) && Families(s'.lookups[q], s'.tasks) {
      assert Families(s.lookups[q], s.tasks) && GoodParts(s.lookups[q]);
      if t.owner == LookupOwner(q) {
        MovedParts(s.lookups[q], id, t.rtype, a);
        MovedFamilies(s.lookups[q], s.tasks, id, a);
      }
    }
  }

  // ---------------------------------------------------------- transactions

  /** The task with its transaction started. */
  function Charged(t: Task, tx: Txid): Task {
    t.(attempt := t.attempt + 1, tx := Some(tx))
  }

  lemma LaunchLinked(s: State, s': State, id: TaskId, x: Tx, t: Task, idle: set<TaskId>)
    requires Linked(s, idle) && id in idle && x.task == id && |s.txs| < MAX_IN_FLIGHT
    requires t.current.Some? && t.scope.Some? && t.tx == Some(s.nextId) && 1 <= t.attempt <= MAX_ATTEMPTS
    requires s'.nextId == s.nextId + 1 && s'.txs == s.txs[s.nextId := x] && s'.tasks == s.tasks[id := t]
    ensures Linked(s', idle - {id})
  {
    MapMore(s.txs, s.nextId, x);
    forall y | y in s.txs ensures s.txs[y].task != id && y != s.nextId {}
    forall y | y in s'.tasks && y !in idle - {id} ensures Flying(s', y) {
      if y != id { FlyingStill(s, s', id, y); }
    }
    hide Flying;
    forall y | y in s'.txs
      ensures y < s'.nextId && s'.txs[y].task in s'.tasks && s'.tasks[s'.txs[y].task].tx == Some(y)
    {
      if y != s.nextId { assert s'.txs[y] == s.txs[y]; }
    }
  }

  lemma NewKey(txs: map<Txid, Tx>, k: Txid, x: Tx)
    ensures txs[k := x].Keys == txs.Keys + {k}
  {
  }

  lemma FlyingStill(s: State, s': State, id: TaskId, y: TaskId)
    requires y in s.tasks && y != id && Flying(s, y) && s.nextId !in s.txs
    requires id in s'.tasks && s'.tasks == s.tasks[id := s'.tasks[id]]
    requires s.nextId in s'.txs && s'.txs == s.txs[s.nextId := s'.txs[s.nextId]]
    ensures Flying(s', y)
  {
  }

  lemma LaunchOwned(s: State, s': State, id: TaskId, t: Task)
    requires Owned(s) && id in s.tasks && s'.lookups == s.lookups
    requires s'.tasks == s.tasks[id := t] && t.owner == s.tasks[id].owner
    ensures Owned(s')
    ensures forall q :: Live(s', q) == Live(s, q)
  {
    hide NoRepeats;
    assert s'.tasks.Keys == s.tasks.Keys;
    forall x | x in s.tasks ensures s'.tasks[x].owner == s.tasks[x].owner {}
  }

  lemma LaunchValued(s: State, s': State, id: TaskId, x: Tx, t: Task, idle: set<TaskId>)
    requires Valued(s) && Linked(s, idle) && id in idle && x.task == id && AsksFor(x, t) && ValidTask(t)
    requires s'.lookups == s.lookups && s'.cache == s.cache && s'.txs == s.txs[s.nextId := x]
    requires s'.tasks == s.tasks[id := t] && t.rtype == s.tasks[id].rtype
    ensures Valued(s')
  {
    hide GoodParts, GoodCache, Flying, AsksFor, ValidTask;
    assert s'.tasks.Keys == s.tasks.Keys;
    forall y | y in s.txs ensures s.txs[y].task != id && y != s.nextId {}
    forall y | y in s'.txs && s'.txs[y].task in s'.tasks ensures AsksFor(s'.txs[y], s'.tasks[s'.txs[y].task]) {
      if y != s.nextId { assert AsksFor(s.txs[y], s.tasks[s.txs[y].task]); }
    }
    forall q | q in s'.lookups ensures Families(s'.lookups[q], s'.tasks) {
      SameFamilies(s.lookups[q], s.tasks, s'.tasks);
    }
  }

  lemma SameFamilies(l: Lookup, a: map<TaskId, Task>, b: map<TaskId, Task>)
    requires Families(l, a) && a.Keys == b.Keys && forall id :: id in a ==> b[id].rtype == a[id].rtype
    ensures Families(l, b)
  {
  }

  /** The transaction a launch records. */
  function LaunchedTx(s: State, id: TaskId, server: IpAddr, tcp: bool, r: Random, now: nat): Tx
    requires id in s.tasks
  {
    Tx(id, IdOf(r), Question(RandomCase(CurrentName(s.tasks[id]), r, 0), s.tasks[id].rtype, IN),
       server, tcp, now + SERVER_TIMEOUT)
  }

  lemma LaunchShape(s: State, id: TaskId, server: IpAddr, tcp: bool, r: Random, now: nat)
    requires id in s.tasks
    ensures var o, t := Launch(s, id, server, tcp, r, now), s.tasks[id];
            && o.s == s.(nextId := s.nextId + 1,
                         txs := s.txs[s.nextId := LaunchedTx(s, id, server, tcp, r, now)],
                         tasks := s.tasks[id := Charged(t, s.nextId)],
                         counters := s.counters.(upstreamSent := s.counters.upstreamSent + 1))
            && |o.acts| == 1 && o.acts[0].Send? && o.acts[0].tx == s.nextId && o.acts[0].server == server
            && o.acts[0].tcp == tcp
            && o.acts[0].payload == QueryBytes(o.s.txs[s.nextId].dnsId, o.s.txs[s.nextId].question)
  {
    hide RandomCase, QueryBytes, InterfaceOf;
  }

  lemma LaunchAsks(s: State, id: TaskId, server: IpAddr, tcp: bool, r: Random, now: nat)
    requires id in s.tasks && ValidTask(s.tasks[id])
    ensures AsksFor(LaunchedTx(s, id, server, tcp, r, now), Charged(s.tasks[id], s.nextId))
    ensures ValidTask(Charged(s.tasks[id], s.nextId)) && LaunchedTx(s, id, server, tcp, r, now).task == id
  {
    var n := CurrentName(s.tasks[id]);
    RandomCaseSame(n, r, 0);
    SameNameShape(RandomCase(n, r, 0), n);
  }

  // ------------------------------------------------------------ either end

  /** An end a step may come to: a good answer, or a transaction there is room for. */
  predicate FairEnd(s: State, id: TaskId, e: End) {
    && GoodEnd(e) && id in s.tasks
    && (e.EndSend? ==> Room(s, id) && s.tasks[id].current.Some? && s.tasks[id].scope.Some?)
  }

  function Sends(acts: seq<Action>): set<Txid> {
    set i | 0 <= i < |acts| && acts[i].Send? :: acts[i].tx
  }

  function Cancels(acts: seq<Action>): set<Txid> {
    set i | 0 <= i < |acts| && acts[i].Cancel? :: acts[i].tx
  }

  lemma OneSend(acts: seq<Action>)
    requires |acts| == 1 && acts[0].Send?
    ensures Sends(acts) == {acts[0].tx} && Cancels(acts) == {}
    ensures forall q :: DoneCount(acts, q) == 0
  {
    assert acts[1..] == [];
  }

  lemma OnlyDone(acts: seq<Action>)
    requires |acts| <= 1 && forall i :: 0 <= i < |acts| ==> acts[i].Done?
    ensures Sends(acts) == {} && Cancels(acts) == {}
  {
  }

  /** What ending the step of an idle task leaves true. */
  ghost predicate Steady(s: State, o: Out, idle: set<TaskId>) {
    && Inv(o.s, idle) && Balance(o.s) == Balance(s) && s.nextId <= o.s.nextId
    && o.s.txs.Keys == s.txs.Keys + Sends(o.acts) && Sends(o.acts) !! s.txs.Keys && Cancels(o.acts) == {}
  }

  lemma SettleKeeps(s: State, id: TaskId, a: Answer, idle: set<TaskId>)
    requires Inv(s, idle) && id in idle && GoodAnswer(a)
    ensures Steady(s, Settle(s, id, a), idle - {id})
  {
    hide Settle, Linked, Owned, Valued, LookupsAfter, Without, Sends, Cancels, GoodAnswer;
    LinkedBounds(s, idle, id);
    var o := Settle(s, id, a);
    SettleShape(s, id, a);
    SettleQuiet(s, id, a);
    SettleLinked(s, o.s, id, idle);
    SettleOwned(s, o.s, id, a);
    SettleValued(s, o.s, id, a);
    assert s.txs.Keys + {} == s.txs.Keys;
  }

  lemma SettleQuiet(s: State, id: TaskId, a: Answer)
    requires id in s.tasks && s.tasks[id].tx.None?
    ensures Sends(Settle(s, id, a).acts) == {} && Cancels(Settle(s, id, a).acts) == {}
  {
    hide Settle, Without, Sends, Cancels;
    SettleActs(s, id, a);
    OnlyDone(Settle(s, id, a).acts);
  }

  lemma LaunchKeeps(s: State, id: TaskId, server: IpAddr, tcp: bool, r: Random, now: nat, idle: set<TaskId>)
    requires Inv(s, idle) && id in idle && Room(s, id) && s.tasks[id].current.Some? && s.tasks[id].scope.Some?
    ensures Steady(s, Launch(s, id, server, tcp, r, now), idle - {id})
  {
    hide Launch, Linked, Owned, Valued, ValidTask, AsksFor, LaunchedTx, Sends, Cancels;
    LinkedBounds(s, idle, id);
    var o := Launch(s, id, server, tcp, r, now);
    LaunchShape(s, id, server, tcp, r, now);
    ValuedTask(s, id);
    LaunchAsks(s, id, server, tcp, r, now);
    var x, t := LaunchedTx(s, id, server, tcp, r, now), Charged(s.tasks[id], s.nextId);
    LaunchLinked(s, o.s, id, x, t, idle);
    LaunchOwned(s, o.s, id, t);
    LaunchValued(s, o.s, id, x, t, idle);
    OneSend(o.acts);
    MapMore(s.txs, s.nextId, x);
    NewKey(s.txs, s.nextId, x);
  }

  /** Ending a step keeps the invariant and settles or starts exactly one thing. */
  lemma FinishKeeps(s: State, id: TaskId, e: End, now: nat, idle: set<TaskId>)
    requires Inv(s, idle) && id in idle && FairEnd(s, id, e)
    ensures Steady(s, Finish(s, id, e, now), idle - {id})
  {
    hide Settle, Launch, Inv, Steady;
    match e
    case EndSettle(a) => SettleKeeps(s, id, a, idle);
    case EndSend(server, tcp, r) => LaunchKeeps(s, id, server, tcp, r, now, idle);
  }

  lemma ValuedTask(s: State, id: TaskId)
    requires Valued(s) && id in s.tasks
    ensures ValidTask(s.tasks[id])
  {
  }

  lemma LinkedBounds(s: State, idle: set<TaskId>, id: TaskId)
    requires Linked(s, idle) && id in idle
    ensures s.nextId !in s.txs && id in s.tasks && s.tasks[id].tx.None?
  {
  }

  /** A question leaves the live ones exactly when it is answered, and is answered once. */
  lemma FinishLive(s: State, id: TaskId, e: End, now: nat, idle: set<TaskId>, q: Qid)
    requires Inv(s, idle) && id in idle && FairEnd(s, id, e)
    ensures LiveCount(s, q) == LiveCount(Finish(s, id, e, now).s, q) + DoneCount(Finish(s, id, e, now).acts, q)
  {
    hide Settle, Launch, Valued, Owned, Linked, LaunchedTx, Live;
    LinkedBounds(s, idle, id);
    match e
    case EndSettle(a) => SettleLive(s, id, a, q);
    case EndSend(server, tcp, r) =>
      LaunchShape(s, id, server, tcp, r, now);
      LaunchOwned(s, Launch(s, id, server, tcp, r, now).s, id, Charged(s.tasks[id], s.nextId));
      OneSend(Launch(s, id, server, tcp, r, now).acts);
  }

  lemma EmptyInv(s: State)
    requires s.tasks == map[] && s.txs == map[] && s.lookups == map[] && s.cache == map[]
    ensures Inv(s, {})
  {
  }
}
