/** One task's step from start to end, as a relation between the states around it. */
module EngineEffect {
  import opened Results
  import opened Sets
  import opened Names
  import opened Dns
  import opened Lookups
  import opened Caches
  import opened Routing
  import opened EngineModel
  import opened EngineSteps
  import opened EngineInvariant
  import opened EngineResume
  import opened EngineAsk

  /** How many more sends a task can make. */
  function Potential(t: Task): int {
    MAX_ATTEMPTS - t.attempt + |t.candidates|
  }

  /** The most sends a question with `n` candidate names can make. */
  function Budget(n: nat): nat {
    if n == 0 then 0 else MAX_ATTEMPTS + n - 1
  }

  /** The server asked is one of the scope's, or the one just asked for the same name. */
  predicate FairServer(cfg: Config, t: Task, t': Task, server: IpAddr, last: Option<IpAddr>) {
    || (server in Configured(cfg, ScopeName(t')) && (SameRoute(t, t') || t'.scope == Route(cfg, CurrentName(t'))))
    || (SameRoute(t, t') && last == Some(server))
  }

  /** The task after a step that started transaction `tx`, recorded as `x`. */
  predicate StartedBy(cfg: Config, t: Task, t': Task, x: Tx, tx: Txid, pool: seq<Name>,
                      left: int, last: Option<IpAddr>)
  {
    && t'.tx == Some(tx) && t'.owner == t.owner && t'.original == t.original && t'.rtype == t.rtype
    && t'.cacheInvalidated == t.cacheInvalidated && t'.scope.Some? && t'.current.Some?
    && NamesFrom(t, t', pool) && Potential(t') + 1 <= left && 1 <= t'.attempt <= MAX_ATTEMPTS
    && SameName(x.question.name, CurrentName(t')) && x.question.rtype == t'.rtype
    && FairServer(cfg, t, t', x.server, last)
    && Turn(pool, t, t', x.server, x.tcp) && (x.tcp ==> last == Some(x.server))
  }

  /**
   * The step of task `id` takes `s` to `s'`: the transactions in `gone` end, other
   * tasks stand still, and the task is over or has one new transaction in flight.
   */
  ghost predicate Effect(s: State, gone: set<Txid>, s': State, id: TaskId, pool: seq<Name>, left: int,
                         last: Option<IpAddr>, now: nat)
  {
    && id in s.tasks && s'.cfg == s.cfg
    && (forall y :: y != id ==> (y in s.tasks <==> y in s'.tasks) && (y in s.tasks ==> s'.tasks[y] == s.tasks[y]))
    && (id !in s'.tasks ==> s'.txs == s.txs - gone && s'.nextId == s.nextId)
    && (id in s'.tasks ==>
          && s'.nextId == s.nextId + 1 && s.nextId in s'.txs && s'.txs == (s.txs - gone)[s.nextId := s'.txs[s.nextId]]
          && s'.txs[s.nextId].task == id && s'.txs[s.nextId].deadline == now + SERVER_TIMEOUT
          && StartedBy(s.cfg, s.tasks[id], s'.tasks[id], s'.txs[s.nextId], s.nextId, pool, left, last))
    && StoredBy(s, s'.cache, id, last)
  }

  /** Only the reply of a server may be stored, and only for the task that asked it. */
  predicate StoredBy(s: State, cache: Entries, id: TaskId, last: Option<IpAddr>)
    requires id in s.tasks
  {
    CacheStep(s.cache, cache, TaskKey(s.tasks[id]), if last.Some? then last.value else V4(0),
              last.Some? && !s.tasks[id].cacheInvalidated)
  }

  /** The state the step of task `id` ends from, seen from the state it began in. */
  ghost predicate Prepared(s: State, gone: set<Txid>, s1: State, id: TaskId, last: Option<IpAddr>) {
    && id in s.tasks && id in s1.tasks && s1.cfg == s.cfg && s1.nextId == s.nextId
    && s1.txs == s.txs - gone && s1.tasks == s.tasks[id := s1.tasks[id]] && s1.tasks[id].tx.None?
    && StoredBy(s, s1.cache, id, last)
  }

  lemma SettledEffect(s: State, gone: set<Txid>, s1: State, id: TaskId, pool: seq<Name>, left: int,
                      last: Option<IpAddr>,
                      now: nat, a: Answer)
    requires Prepared(s, gone, s1, id, last)
    ensures Effect(s, gone, Settle(s1, id, a).s, id, pool, left, last, now)
  {
    hide Settle, StartedBy, StoredBy, LookupsAfter;
    SettleShape(s1, id, a);
  }

  lemma StartedEffect(s: State, gone: set<Txid>, s1: State, id: TaskId, pool: seq<Name>, left: int,
                      last: Option<IpAddr>,
                      now: nat, s': State)
    requires Prepared(s, gone, s1, id, last)
    requires s'.cfg == s1.cfg && s'.cache == s1.cache && s'.nextId == s1.nextId + 1 && s1.nextId in s'.txs
    requires s'.txs == s1.txs[s1.nextId := s'.txs[s1.nextId]] && s'.txs[s1.nextId].task == id
    requires s'.txs[s1.nextId].deadline == now + SERVER_TIMEOUT
    requires s'.tasks == s1.tasks[id := Charged(s1.tasks[id], s1.nextId)]
    requires StartedBy(s.cfg, s.tasks[id], s'.tasks[id], s'.txs[s.nextId], s.nextId, pool, left, last)
    ensures Effect(s, gone, s', id, pool, left, last, now)
  {
    hide StartedBy, StoredBy;
  }

  lemma CacheStepShrunk(a: Entries, b: Entries, c: Entries, key: CacheKey, server: IpAddr, allowed: bool)
    requires CacheStep(a, b, key, server, allowed) && Shrunk(b, c)
    ensures CacheStep(a, c, key, server, allowed)
  {
    hide GoodRecords;
    SubsetSize(c.Keys, b.Keys);
  }

  /** The state just after a launch, seen from the state before it. */
  lemma LaunchEffect(s1: State, id: TaskId, server: IpAddr, tcp: bool, r: Random, now: nat)
    requires id in s1.tasks && s1.tasks[id].tx.None? && ValidTask(s1.tasks[id])
    ensures var s' := Launch(s1, id, server, tcp, r, now).s;
            && s'.cfg == s1.cfg && s'.cache == s1.cache && s'.nextId == s1.nextId + 1 && s1.nextId in s'.txs
            && s'.txs == s1.txs[s1.nextId := s'.txs[s1.nextId]] && s'.txs[s1.nextId].task == id
            && s'.txs[s1.nextId].server == server && s'.txs[s1.nextId].deadline == now + SERVER_TIMEOUT
            && s'.txs[s1.nextId].tcp == tcp
            && SameName(s'.txs[s1.nextId].question.name, CurrentName(s1.tasks[id]))
            && s'.txs[s1.nextId].question.rtype == s1.tasks[id].rtype
            && s'.tasks == s1.tasks[id := Charged(s1.tasks[id], s1.nextId)]
  {
    hide Launch, SameName, ValidTask;
    LaunchShape(s1, id, server, tcp, r, now);
    LaunchAsks(s1, id, server, tcp, r, now);
  }

  lemma ResumedStarted(s: State, tx: Txid, o: Out, now: nat, r: Resume)
    requires Inv(s, {}) && ResumedBy(s, tx, o, now, r) && r.e.EndSend? && o.s.nextId == s.nextId + 1
    requires var id := s.txs[tx].task;
             && id in o.s.tasks && s.nextId in o.s.txs
             && o.s.tasks[id] == Charged(r.s1.tasks[id], s.nextId) && o.s.txs[s.nextId].server == r.e.server
             && o.s.txs[s.nextId].tcp == r.e.tcp
             && SameName(o.s.txs[s.nextId].question.name, CurrentName(r.s1.tasks[id]))
             && o.s.txs[s.nextId].question.rtype == r.s1.tasks[id].rtype
    ensures var id := s.txs[tx].task;
            StartedBy(s.cfg, s.tasks[id], o.s.tasks[id], o.s.txs[s.nextId], s.nextId, s.tasks[id].candidates,
                      Potential(s.tasks[id]), Some(s.txs[tx].server))
  {
    hide Inv, Finish, Configured, Route, SameName, CacheStep, GoodEnd, KeyOf;
    InvTask(s, s.txs[tx].task);
  }

  lemma ResumedPrepared(s: State, tx: Txid, o: Out, now: nat, r: Resume)
    requires ResumedBy(s, tx, o, now, r)
    requires r.s1.tasks[s.txs[tx].task].tx.None?
    ensures Prepared(s, {tx}, r.s1, s.txs[tx].task, Some(s.txs[tx].server))
  {
    hide Finish, Configured, Route, CacheStep, KeyOf, GoodEnd, NamesFrom, Spends, Room;
    var id := s.txs[tx].task;
    CacheStepShrunk(s.cache, r.s0.cache, r.s1.cache, TaskKey(s.tasks[id]), s.txs[tx].server,
                    !s.tasks[id].cacheInvalidated);
    assert r.s1.tasks == s.tasks[id := r.s1.tasks[id]];
  }

  /** Replies and failures have this effect. */
  lemma ResumedEffect(s: State, tx: Txid, o: Out, now: nat, r: Resume)
    requires Inv(s, {}) && ResumedBy(s, tx, o, now, r)
    ensures var id := s.txs[tx].task;
            Effect(s, {tx}, o.s, id, s.tasks[id].candidates, Potential(s.tasks[id]), Some(s.txs[tx].server), now)
  {
    hide Inv, ResumedBy, Settle, Launch, StartedBy, StoredBy, ValidTask, SameName, FairEnd, Live, Effect, Potential;
    ResumedTx(s, tx, o, now, r);
    var id := s.txs[tx].task;
    ResumedReady(s, tx, o, now, r);
    InvIdle(r.s1, id);
    ResumedPrepared(s, tx, o, now, r);
    match r.e
    case EndSettle(a) =>
      SettledEffect(s, {tx}, r.s1, id, s.tasks[id].candidates, Potential(s.tasks[id]), Some(s.txs[tx].server), now, a);
    case EndSend(server, tcp, rnd) =>
      LaunchEffect(r.s1, id, server, tcp, rnd, now);
      ResumedStarted(s, tx, o, now, r);
      StartedEffect(s, {tx}, r.s1, id, s.tasks[id].candidates, Potential(s.tasks[id]), Some(s.txs[tx].server), now,
                    o.s);
  }

  lemma InvIdle(s: State, id: TaskId)
    requires Inv(s, {id})
    ensures id in s.tasks && s.tasks[id].tx.None? && ValidTask(s.tasks[id])
  {
  }

  lemma AdvancedStarted(s: State, id: TaskId, o: Out, now: nat, s1: State, e: End)
    requires id in s.tasks && Fresh(s.tasks[id]) && AdvancedBy(s, id, o, now, s1, e) && e.EndSend?
    requires s.nextId in o.s.txs && id in o.s.tasks
    requires o.s.tasks[id] == Charged(s1.tasks[id], s.nextId) && o.s.txs[s.nextId].server == e.server
    requires o.s.txs[s.nextId].tcp == e.tcp
    requires SameName(o.s.txs[s.nextId].question.name, CurrentName(s1.tasks[id]))
    requires o.s.txs[s.nextId].question.rtype == s1.tasks[id].rtype
    ensures var all := Candidates(s.cfg, s.tasks[id].original);
            StartedBy(s.cfg, s.tasks[id], o.s.tasks[id], o.s.txs[s.nextId], s.nextId, all, Budget(|all|), None)
  {
    hide Finish, Configured, Route, SameName, Candidates, GoodEnd;
  }

  /** A fresh task's first step has this effect. */
  lemma AdvancedEffect(s: State, id: TaskId, o: Out, now: nat, s1: State, e: End, idle: set<TaskId>)
    requires Inv(s, idle) && id in idle && id in s.tasks && Fresh(s.tasks[id]) && AdvancedBy(s, id, o, now, s1, e)
    ensures var all := Candidates(s.cfg, s.tasks[id].original);
            Effect(s, {}, o.s, id, all, Budget(|all|), None, now)
  {
    hide Inv, Settle, Launch, StartedBy, StoredBy, Candidates, ValidTask, SameName, AdvancedBy, Effect, FairEnd, Live,
         Fresh, Budget;
    AdvancePrep(s, id, o, now, s1, e);
    AdvanceReady(s, id, o, now, s1, e, idle);
    InvIdleIn(s1, id, idle);
    ShrunkStored(s, s1.cache, id);
    assert s.txs - {} == s.txs;
    var all := Candidates(s.cfg, s.tasks[id].original);
    match e
    case EndSettle(a) =>
      SettledEffect(s, {}, s1, id, all, Budget(|all|), None, now, a);
    case EndSend(server, tcp, rnd) =>
      LaunchEffect(s1, id, server, tcp, rnd, now);
      AdvancedStarted(s, id, o, now, s1, e);
      StartedEffect(s, {}, s1, id, all, Budget(|all|), None, now, o.s);
  }

  lemma InvIdleIn(s: State, id: TaskId, idle: set<TaskId>)
    requires Inv(s, idle) && id in idle
    ensures id in s.tasks && s.tasks[id].tx.None? && ValidTask(s.tasks[id])
  {
  }

  lemma ShrunkStored(s: State, cache: Entries, id: TaskId)
    requires id in s.tasks && Shrunk(s.cache, cache)
    ensures StoredBy(s, cache, id, None)
  {
    SubsetSize(cache.Keys, s.cache.Keys);
  }
}
