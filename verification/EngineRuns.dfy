/**
 * Whole runs of the engine: any sequence of questions, replies, failures, ticks
 * and configuration changes, from the empty engine on.
 */
module EngineRuns {
  import opened Bytes
  import opened Results
  import opened Names
  import opened Dns
  import opened Lookups
  import opened Caches
  import opened Routing
  import opened ReverseNames
  import opened EngineModel
  import opened EngineSteps
  import opened EngineInvariant
  import opened EngineResume
  import opened EngineAsk
  import opened EngineEffect
  import opened EngineWorld
  import opened EngineTrace
  import opened EngineAbandon

  // ------------------------------------------------------------------ inputs

  datatype Input =
    | OnResolve(q: Qid, text: seq<byte>, rtype: u16, noCache: bool, now: nat)
    | OnQuestion(q: Qid, question: Question, now: nat)
    | OnReverse(q: Qid, addr: IpAddr, now: nat)
    | OnLookup(q: Qid, text: seq<byte>, family: Family, now: nat)
    | OnAbandon(q: Qid, tasks: seq<TaskId>)
    | OnReceived(tx: Txid, bytes: seq<byte>, now: nat, keys: seq<CacheKey>)
    | OnFailed(tx: Txid, now: nat)
    | OnLocalFailed(tx: Txid, now: nat)
    | OnTick(now: nat, expired: seq<Txid>)
    | OnScopes(scopes: seq<Scope>)
    | OnFallback(servers: seq<IpAddr>, domains: seq<Name>)
    | OnHostname(hostname: Option<seq<byte>>)
    | OnHosts(hosts: seq<Host>)
    | OnFlush
    | OnRefused

  function Step(s: State, i: Input): Out {
    match i
    case OnResolve(q, text, rtype, noCache, now) => Resolve(s, q, text, rtype, noCache, now)
    case OnQuestion(q, question, now) => ResolveQuestion(s, q, question, now)
    case OnReverse(q, addr, now) => Reverse(s, q, addr, now)
    case OnLookup(q, text, family, now) => LookupAddresses(s, q, text, family, now)
    case OnAbandon(q, tasks) => Abandon(s, q, tasks)
    case OnReceived(tx, bytes, now, keys) => Received(s, tx, bytes, now, keys)
    case OnFailed(tx, now) => Failed(s, tx, now)
    case OnLocalFailed(tx, now) => LocalFailed(s, tx, now)
    case OnTick(now, expired) => Tick(s, expired, now)
    case OnScopes(scopes) => Out(SetScopes(s, scopes), [])
    case OnFallback(servers, domains) => Out(SetFallback(s, servers, domains), [])
    case OnHostname(h) => Out(SetHostname(s, h), [])
    case OnHosts(hosts) => Out(SetHosts(s, hosts), [])
    case OnFlush => Out(Flush(s), [])
    case OnRefused => Out(Refused(s), [])
  }

  /** The walk of the question's tasks, each once. */
  ghost predicate TasksOf(s: State, q: Qid, ids: seq<TaskId>) {
    NoRepeats(ids) && forall id :: id in ids <==> id in s.tasks && s.tasks[id].owner.qid == q
  }

  /** The walk of the transactions whose time is up, each once. */
  ghost predicate Expired(s: State, now: nat, txs: seq<Txid>) {
    NoRepeats(txs) && forall x :: x in txs <==> x in s.txs && s.txs[x].deadline <= now
  }

  predicate IsAsk(i: Input) {
    i.OnResolve? || i.OnQuestion? || i.OnReverse? || i.OnLookup?
  }

  /**
   * What callers keep to: valid names, configurations with distinct ids, and walks that visit exactly
   * what they walk.
   */
  ghost predicate Admissible(s: State, i: Input) {
    match i
    case OnQuestion(_, question, _) => ValidName(question.name)
    case OnAbandon(q, tasks) => TasksOf(s, q, tasks)
    case OnReceived(_, _, _, keys) => Walks(keys, s.cache)
    case OnTick(now, expired) => Expired(s, now, expired)
    case OnScopes(scopes) => ValidConfig(s.cfg.(scopes := scopes))
    case OnFallback(servers, domains) => ValidConfig(s.cfg.(fallbackServers := servers, fallbackDomains := domains))
    case OnHosts(hosts) => DistinctHosts(hosts)
    case _ => true
  }

  /** An admissible input that, if it asks, does so under a number not used before. */
  ghost predicate Legal(w: World, i: Input) {
    (IsAsk(i) ==> i.q !in w.asked) && Admissible(w.s, i)
  }

  // ------------------------------------------------- the ledger, step by step

  /** One task's step that ended transaction `tx`. */
  function Stepped(w: World, o: Out, tx: Txid): World {
    Noted(w, o.s, tx).(trace := w.trace + o.acts)
  }

  function NextAll(w: World, ids: seq<TaskId>, now: nat): World
    decreases |ids|
  {
    if ids == [] then w else NextAll(Stepped(w, Advance(w.s, ids[0], now), 0), ids[1..], now)
  }

  /** A question that cannot be asked is answered at once. */
  function Rejected(w: World, q: Qid, c: Completion): World {
    w.(s := Asked(w.s), asked := w.asked + {q}, trace := w.trace + [Done(q, c)])
  }

  function Opened(w: World, s0: State, q: Qid, name: Name, n: nat): World {
    Begun(w, s0, name, IdsFrom(w.s.nextId, n)).(asked := w.asked + {q})
  }

  function NextResolve(w: World, q: Qid, name: Name, rtype: u16, noCache: bool, now: nat): World {
    NextAll(Opened(w, StartTask(Asked(w.s), ResolveOwner(q), name, rtype, noCache), q, name, 1), [w.s.nextId], now)
  }

  function NextLookup(w: World, q: Qid, name: Name, family: Family, now: nat): World {
    var types := FamilyTypes(family);
    var ids := IdsFrom(w.s.nextId, |types|);
    var s1 := StartTasks(Asked(w.s), q, name, types);
    NextAll(Opened(w, s1.(lookups := s1.lookups[q := Lookup(name, ids, [])]), q, name, |types|), ids, now)
  }

  function NextFailed(w: World, tx: Txid, now: nat): World {
    if tx in w.s.txs then Stepped(w, Failed(w.s, tx, now), tx) else w
  }

  function NextTick(w: World, expired: seq<Txid>, now: nat): World
    decreases |expired|
  {
    if expired == [] then w
    else NextTick(NextFailed(w.(trace := w.trace + [Cancel(expired[0])]), expired[0], now), expired[1..], now)
  }

  function NextReceived(w: World, tx: Txid, bytes: seq<byte>, now: nat, keys: seq<CacheKey>): World {
    match MatchingResponse(w.s, tx, bytes)
    case None => w
    case Some(m) =>
      Stepped(w, Received(w.s, tx, bytes, now, keys), tx).(
        errors := w.errors + if tx in w.s.txs && ErrorReply(w.s.txs[tx], m) then 1 else 0)
  }

  ghost function Next(w: World, i: Input): World {
    match i
    case OnResolve(q, text, rtype, noCache, now) =>
      if Parse(text).Err? then Rejected(w, q, AnswerDone(NOT_FOUND))
      else NextResolve(w, q, Parse(text).value, rtype, noCache, now)
    case OnQuestion(q, question, now) => NextResolve(w, q, question.name, question.rtype, false, now)
    case OnReverse(q, addr, now) =>
      if Parse(Show(ReverseName(addr))).Err? then Rejected(w, q, AnswerDone(NOT_FOUND))
      else NextResolve(w, q, Parse(Show(ReverseName(addr))).value, PTR, false, now)
    case OnLookup(q, text, family, now) =>
      if Parse(text).Err? then Rejected(w, q, AddressesDone(Addresses(NotFound, [], [], Local)))
      else NextLookup(w, q, Parse(text).value, family, now)
    case OnAbandon(q, tasks) =>
      var o := Abandon(w.s, q, tasks);
      w.(s := o.s, trace := w.trace + o.acts, cancelled := w.cancelled + |o.acts|,
         dropped := if Live(w.s, q) then w.dropped + {q} else w.dropped)
    case OnReceived(tx, bytes, now, keys) => NextReceived(w, tx, bytes, now, keys)
    case OnFailed(tx, now) => NextFailed(w, tx, now)
    case OnLocalFailed(tx, now) => if tx in w.s.txs then Stepped(w, LocalFailed(w.s, tx, now), tx) else w
    case OnTick(now, expired) => NextTick(w, expired, now)
    case OnScopes(scopes) => Reconfigured(w, SetScopes(w.s, scopes), StaleScopes(w.s.cfg.scopes, scopes))
    case OnFallback(servers, domains) =>
      Reconfigured(w, SetFallback(w.s, servers, domains),
                   if servers != w.s.cfg.fallbackServers then {FALLBACK_SCOPE} else {})
    case OnHostname(h) => w.(s := SetHostname(w.s, h))
    case OnHosts(hosts) => w.(s := SetHosts(w.s, hosts))
    case OnFlush => w.(s := Flush(w.s), flushed := w.s.nextId)
    case OnRefused => w.(s := Refused(w.s))
  }

  // -------------------------------------------------------------- the tallies

  /** Each question asked is live, was dropped, or has been answered: exactly one of these, and once. */
  ghost predicate Settled(w: World) {
    forall q :: DoneCount(w.trace, q) + LiveCount(w.s, q) + (if q in w.dropped then 1 else 0)
                == if q in w.asked then 1 else 0
  }

  /** Every query sent is in flight, was answered, failed, or was cancelled. */
  predicate Booked(w: World) {
    var c := w.s.counters;
    c.upstreamSent + w.errors == |w.s.txs| + c.upstreamAnswered + c.upstreamFailed + w.cancelled
  }

  ghost predicate Good(w: World, idle: set<TaskId>) {
    Inv(w.s, idle) && Ledger(w, idle) && Traced(w) && Settled(w) && Booked(w)
  }

  // ----------------------------------------------------------- single steps

  /** The ledger does not look at the tallies. */
  lemma LedgerSame(w: World, w': World, idle: set<TaskId>)
    requires Ledger(w, idle)
    requires w' == w.(trace := w'.trace, asked := w'.asked, dropped := w'.dropped,
                     cancelled := w'.cancelled, errors := w'.errors)
    ensures Ledger(w', idle)
  {
    hide Tracked, Configured, Route, ValidConfig, SendsOf, Potential, Sourced, Candidates, Budget, Fresh, WellSent;
    forall k | k in w.s.cache ensures Sourced(w', k) { SourcedAs(w, w', k); }
    forall id | id in w.s.tasks ensures MayStore(w', w.s.tasks[id]) { assert MayStore(w, w.s.tasks[id]); }
    forall id | id in w.s.tasks && id >= w.mark && id !in idle ensures WellRouted(w', w.s.tasks[id]) {
      assert WellRouted(w, w.s.tasks[id]);
    }
  }

  /** The tallies follow a step whose counts are right. */
  lemma SettledStep(w: World, w': World, acts: seq<Action>)
    requires Settled(w) && w'.trace == w.trace + acts && w'.asked == w.asked && w'.dropped == w.dropped
    requires forall q :: LiveCount(w.s, q) == LiveCount(w'.s, q) + DoneCount(acts, q)
    ensures Settled(w')
  {
    hide Live, DoneCount;
    forall q ensures DoneCount(w'.trace, q) == DoneCount(w.trace, q) + DoneCount(acts, q) {
      DoneConcat(w.trace, acts, q);
    }
  }

  lemma AdvanceLedger(w: World, id: TaskId, o: Out, now: nat, idle: set<TaskId>, s1: State, e: End)
    requires Inv(w.s, idle) && Ledger(w, idle) && id in idle && id in w.s.tasks && Fresh(w.s.tasks[id])
    requires AdvancedBy(w.s, id, o, now, s1, e)
    ensures Ledger(Noted(w, o.s, 0), idle - {id})
    ensures var all := Candidates(w.s.cfg, w.s.tasks[id].original);
            Effect(w.s, {}, o.s, id, all, Budget(|all|), None, now)
  {
    hide Inv, AdvancedBy, Effect, Noted, Candidates, Budget, Provenance, Directed, ValidConfig, Ledger, Unasked;
    var all := Candidates(w.s.cfg, w.s.tasks[id].original);
    AdvancedEffect(w.s, id, o, now, s1, e, idle);
    FreshBudget(w, id, idle);
    FreshUnasked(w, id, idle);
    forall c | c in all ensures Whole(c) { NoBareLabel(w.s.cfg, w.s.tasks[id].original, c); }
    InvLinked(w.s, idle);
    StepLedger(w, {}, o.s, id, all, Budget(|all|), None, now, 0, idle);
  }

  lemma InvLinked(s: State, idle: set<TaskId>)
    requires Inv(s, idle)
    ensures Linked(s, idle)
  {
  }

  lemma FreshUnasked(w: World, id: TaskId, idle: set<TaskId>)
    requires Ledger(w, idle) && id in idle && id in w.s.tasks
    ensures Unasked(w.issued, id, Candidates(w.s.cfg, w.s.tasks[id].original))
  {
    hide Provenance, Directed, Aimed, Tracks, Budget, SendsOf, Fresh, SameName, SearchDomains, Expand;
    ExpandSpec(w.s.tasks[id].original, SearchDomains(w.s.cfg));
  }

  lemma FreshBudget(w: World, id: TaskId, idle: set<TaskId>)
    requires Ledger(w, idle) && id in idle && id in w.s.tasks
    ensures id in w.budget
    ensures |SendsOf(w.issued, id)| + Budget(|Candidates(w.s.cfg, w.s.tasks[id].original)|) <= w.budget[id]
    ensures ValidConfig(w.s.cfg)
  {
    hide Provenance, Candidates, Budget, SendsOf, ValidConfig;
  }

  /** A fresh task's first step keeps every invariant. */
  lemma AdvanceGood(w: World, id: TaskId, now: nat, idle: set<TaskId>)
    requires Good(w, idle) && id in idle && id in w.s.tasks && Fresh(w.s.tasks[id])
    ensures Good(Stepped(w, Advance(w.s, id, now), 0), idle - {id})
    ensures forall x :: x in idle && x != id ==>
              x in Advance(w.s, id, now).s.tasks && Advance(w.s, id, now).s.tasks[x] == w.s.tasks[x]
    ensures Shrunk(w.s.cache, Advance(w.s, id, now).s.cache)
  {
    hide Inv, Ledger, Traced, Advance, AdvancedBy, Effect, Acted, Candidates, Budget, Recorded, DoneCount, Live,
         Settled;
    assert Linked(w.s, idle) by { InvLinked(w.s, idle); }
    var o := Advance(w.s, id, now);
    InvCache(w.s, idle);
    assert ValidConfig(w.s.cfg) by { FreshBudget(w, id, idle); }
    hide ValidConfig, ValidTask;
    var s1, e := AdvanceBy(w.s, id, now);
    AdvanceKeeps(w.s, id, now, idle);
    AdvanceLedger(w, id, o, now, idle, s1, e);
    AdvanceActed(w.s, id, o, now, s1, e, idle);
    AdvanceShrinks(w.s, id, o, now, s1, e);
    var w' := Stepped(w, o, 0);
    LedgerSame(Noted(w, o.s, 0), w', idle - {id});
    var all := Candidates(w.s.cfg, w.s.tasks[id].original);
    LedgerRecorded(w, idle);
    StepTraced(w, {}, o, id, all, Budget(|all|), None, now, w');
    forall q ensures LiveCount(w.s, q) == LiveCount(o.s, q) + DoneCount(o.acts, q) {
      AdvanceLive(w.s, id, now, idle, q);
    }
    SettledStep(w, w', o.acts);
  }

  lemma FinishCache(s: State, id: TaskId, e: End, now: nat)
    requires id in s.tasks && s.tasks[id].tx.None?
    ensures Finish(s, id, e, now).s.cache == s.cache
  {
    hide Settle, Launch, LaunchedTx, LookupsAfter;
    match e
    case EndSettle(a) => SettleShape(s, id, a);
    case EndSend(server, tcp, r) => LaunchShape(s, id, server, tcp, r, now);
  }

  /** Asking stores nothing. */
  lemma AdvanceShrinks(s: State, id: TaskId, o: Out, now: nat, s1: State, e: End)
    requires AdvancedBy(s, id, o, now, s1, e) && id in s.tasks && s.tasks[id].tx.None?
    ensures Shrunk(s.cache, o.s.cache)
  {
    hide AdvancedBy, Finish;
    AdvancePrep(s, id, o, now, s1, e);
    FinishCache(s1, id, e, now);
  }

  lemma LedgerRecorded(w: World, idle: set<TaskId>)
    requires Ledger(w, idle)
    ensures Recorded(w)
  {
  }

  lemma InvCache(s: State, idle: set<TaskId>)
    requires Inv(s, idle)
    ensures GoodCache(s.cache) && forall id :: id in s.tasks ==> ValidTask(s.tasks[id])
  {
    hide Linked, Owned, ValidTask, AsksFor, GoodCache, GoodParts, Families;
  }

  lemma SteppedIs(w: World, o: Out, tx: Txid)
    ensures var w' := Stepped(w, o, tx);
            && w'.s == o.s && w'.trace == w.trace + o.acts
            && w'.(errors := w.errors + 0) == w'
  {
    hide Origins;
  }

  /** First steps, task by task, keep every invariant. */
  lemma {:induction false} AllGood(w: World, ids: seq<TaskId>, now: nat)
    requires Good(w, IdSet(ids)) && NoRepeats(ids)
    requires forall id :: id in ids ==> id in w.s.tasks && Fresh(w.s.tasks[id])
    ensures Good(NextAll(w, ids, now), {})
    ensures NextAll(w, ids, now).s == AdvanceAll(w.s, ids, now).s
    ensures NextAll(w, ids, now).trace == w.trace + AdvanceAll(w.s, ids, now).acts
    ensures Shrunk(w.s.cache, NextAll(w, ids, now).s.cache)
    decreases |ids|
  {
    hide Good, Advance, Fresh, Stepped;
    if ids == [] {
      assert IdSet(ids) == {};
    } else {
      AdvanceGood(w, ids[0], now, IdSet(ids));
      assert IdSet(ids) - {ids[0]} == IdSet(ids[1..]) by { IdsRest(ids); }
      SteppedIs(w, Advance(w.s, ids[0], now), 0);
      AllGood(Stepped(w, Advance(w.s, ids[0], now), 0), ids[1..], now);
    }
  }

  lemma IdsRest(ids: seq<TaskId>)
    requires ids != [] && NoRepeats(ids)
    ensures IdSet(ids) - {ids[0]} == IdSet(ids[1..])
  {
    forall id ensures id in IdSet(ids) - {ids[0]} <==> id in IdSet(ids[1..]) {
      if id in IdSet(ids[1..]) {
        var i :| 0 <= i < |ids[1..]| && ids[1..][i] == id;
        assert ids[i + 1] == id;
      }
      if id in IdSet(ids) - {ids[0]} {
        var i :| 0 <= i < |ids| && ids[i] == id;
        assert ids[1..][i - 1] == id;
      }
    }
  }

  // -------------------------------------------------------------- questions

  /** Counting changes nothing else. */
  lemma CountedInv(s: State, s': State)
    requires Inv(s, {}) && s' == s.(counters := s'.counters)
    ensures Inv(s', {}) && forall q :: Live(s', q) == Live(s, q)
  {
    CountedLinked(s, s');
    CountedOwned(s, s');
    CountedValued(s, s');
  }

  lemma CountedLinked(s: State, s': State)
    requires Linked(s, {}) && s' == s.(counters := s'.counters)
    ensures Linked(s', {})
  {
    forall id | id in s.tasks ensures Flying(s', id) { assert Flying(s, id); }
  }

  lemma CountedOwned(s: State, s': State)
    requires Owned(s) && s' == s.(counters := s'.counters)
    ensures Owned(s')
  {
    hide NoRepeats;
  }

  lemma CountedValued(s: State, s': State)
    requires Valued(s) && s' == s.(counters := s'.counters)
    ensures Valued(s')
  {
    hide GoodParts, AsksFor, ValidTask, GoodCache, Families;
  }

  lemma UnaskedIdle(w: World, q: Qid)
    requires Settled(w) && q !in w.asked
    ensures !Live(w.s, q) && q !in w.dropped && DoneCount(w.trace, q) == 0
  {
    hide Live, DoneCount;
    assert LiveCount(w.s, q) == 0;
  }

  lemma OneDone(q: Qid, c: Completion, y: Qid)
    ensures DoneCount([Done(q, c)], y) == if y == q then 1 else 0
  {
    assert [Done(q, c)][1..] == [];
  }

  lemma RejectedGood(w: World, q: Qid, c: Completion)
    requires Good(w, {}) && q !in w.asked && GoodCompletion(c)
    ensures Good(Rejected(w, q, c), {})
  {
    hide Inv, Ledger, Traced, GoodCompletion, DoneCount, Live;
    var w' := Rejected(w, q, c);
    CountedInv(w.s, Asked(w.s));
    LessLedger(w, Asked(w.s));
    LedgerSame(w.(s := Asked(w.s)), w', {});
    TraceQuiet(w, w', [Done(q, c)]);
    forall y ensures DoneCount(w'.trace, y) + LiveCount(w'.s, y) + (if y in w'.dropped then 1 else 0)
                     == if y in w'.asked then 1 else 0
    {
      UnaskedIdle(w, q);
      DoneConcat(w.trace, [Done(q, c)], y);
      OneDone(q, c, y);
    }
  }

  /** A question turned away touches nothing but its count. */
  lemma RefusedGood(w: World)
    requires Good(w, {})
    ensures Good(w.(s := Refused(w.s)), {})
  {
    hide Inv, Ledger, Traced, DoneCount, Live, Settled;
    var w' := w.(s := Refused(w.s));
    CountedInv(w.s, w'.s);
    LessLedger(w, w'.s);
    assert w.trace + [] == w.trace;
    TraceQuiet(w, w', []);
    forall q ensures DoneCount([], q) == 0 { NoneDone(q); }
    SettledStep(w, w', []);
  }

  /** A question's tasks, started and idle. */
  lemma OpenGood(w: World, s0: State, owner: Owner, name: Name, types: seq<u16>, noCache: bool)
    requires Good(w, {}) && owner.qid !in w.asked && ValidName(name) && types != [] && AllDiffer(types)
    requires Starts(Asked(w.s), s0, owner, name, types, noCache)
    requires owner.ResolveOwner? ==> |types| == 1 && s0.lookups == w.s.lookups
    requires owner.LookupOwner? ==>
        s0.lookups == w.s.lookups[owner.qid := Lookup(name, IdsFrom(w.s.nextId, |types|), [])]
    ensures Good(Opened(w, s0, owner.qid, name, |types|), IdSet(IdsFrom(w.s.nextId, |types|)))
    ensures forall id :: id in IdsFrom(w.s.nextId, |types|) ==> id in s0.tasks && Fresh(s0.tasks[id])
  {
    hide Inv, Ledger, Traced, DoneCount, Live, IdsFrom, IdSet, Budget, Candidates, AllDiffer, NewTasks, Settled,
         ValidName;
    var ids := IdsFrom(w.s.nextId, |types|);
    var w' := Opened(w, s0, owner.qid, name, |types|);
    CountedInv(w.s, Asked(w.s));
    UnaskedIdle(w, owner.qid);
    StartKeeps(Asked(w.s), s0, owner, name, types, noCache, ids);
    AddedAsked(w.s, s0, owner, name, types);
    BeginLedger(w, s0, owner, name, types, ids);
    LedgerSame(Begun(w, s0, name, ids), w', IdSet(ids));
    assert w.trace + [] == w.trace;
    TraceQuiet(w, w', []);
    OpenSettled(w, w', owner.qid);
  }

  lemma AddedAsked(s: State, s0: State, owner: Owner, name: Name, types: seq<u16>)
    requires Added(Asked(s), s0, owner, name, types)
    ensures Added(s, s0, owner, name, types)
    ensures forall id :: id in IdsFrom(s.nextId, |types|) ==> id in s0.tasks && Fresh(s0.tasks[id])
  {
    hide OfType, IdsFrom, Fresh;
  }

  lemma OpenSettled(w: World, w': World, q: Qid)
    requires Settled(w) && q !in w.asked && w'.asked == w.asked + {q} && w'.trace == w.trace && w'.dropped == w.dropped
    requires forall y :: Live(w'.s, y) == (Live(w.s, y) || y == q)
    ensures Settled(w')
  {
    hide Live, DoneCount;
    UnaskedIdle(w, q);
  }

  lemma ResolveGood(w: World, q: Qid, name: Name, rtype: u16, noCache: bool, now: nat)
    requires Good(w, {}) && q !in w.asked && ValidName(name)
    ensures var w' := NextResolve(w, q, name, rtype, noCache, now);
            var o := ResolveName(Asked(w.s), q, name, rtype, noCache, now);
            Good(w', {}) && w'.s == o.s && w'.trace == w.trace + o.acts && Shrunk(w.s.cache, o.s.cache)
  {
    hide Good, ValidName, Advance, Fresh, NewTasks, IdSet, Budget, Candidates;
    var s0 := StartTask(Asked(w.s), ResolveOwner(q), name, rtype, noCache);
    StartOne(Asked(w.s), ResolveOwner(q), name, rtype, noCache);
    OpenGood(w, s0, ResolveOwner(q), name, [rtype], noCache);
    assert IdsFrom(w.s.nextId, 1) == [w.s.nextId];
    hide IdsFrom;
    var w1 := Opened(w, s0, q, name, 1);
    AllGood(w1, [w.s.nextId], now);
    AdvanceOne(s0, w.s.nextId, now);
  }

  lemma AdvanceOne(s: State, id: TaskId, now: nat)
    ensures AdvanceAll(s, [id], now) == Advance(s, id, now)
  {
    hide Advance;
    var o := Advance(s, id, now);
    assert [id][1..] == [];
    assert AdvanceAll(o.s, [], now) == Out(o.s, []);
    assert o.acts + [] == o.acts;
  }

  lemma LookupGood(w: World, q: Qid, name: Name, family: Family, now: nat)
    requires Good(w, {}) && q !in w.asked && ValidName(name)
    ensures var w' := NextLookup(w, q, name, family, now);
            var o := LookupName(Asked(w.s), q, name, family, now);
            Good(w', {}) && w'.s == o.s && w'.trace == w.trace + o.acts && Shrunk(w.s.cache, o.s.cache)
  {
    hide Good, ValidName, Fresh, NewTasks, IdSet, Budget, Candidates, StartTasks, AdvanceAll, NextAll;
    var types := FamilyTypes(family);
    var ids := IdsFrom(w.s.nextId, |types|);
    var s1 := StartTasks(Asked(w.s), q, name, types);
    StartTasksStart(Asked(w.s), q, name, types);
    var s0 := s1.(lookups := s1.lookups[q := Lookup(name, ids, [])]);
    OpenGood(w, s0, LookupOwner(q), name, types, false);
    IdsAre(w.s.nextId, |types|);
    assert ids == seq(|types|, i => Asked(w.s).nextId + i);
    hide IdsFrom;
    AllGood(Opened(w, s0, q, name, |types|), ids, now);
  }

  // ---------------------------------------------------------------- resuming

  lemma InvTx(s: State, tx: Txid)
    requires Inv(s, {}) && tx in s.txs
    ensures var id := s.txs[tx].task;
            id in s.tasks && s.tasks[id].tx == Some(tx) && s.tasks[id].scope.Some? && AsksFor(s.txs[tx], s.tasks[id])
  {
    hide Owned, GoodParts, GoodCache, Families, ValidTask, AsksFor;
    assert Flying(s, s.txs[tx].task);
  }

  lemma TaskPotential(w: World, id: TaskId)
    requires Ledger(w, {}) && id in w.s.tasks
    ensures id in w.budget && |SendsOf(w.issued, id)| + Potential(w.s.tasks[id]) <= w.budget[id]
    ensures forall c :: c in w.s.tasks[id].candidates ==> Whole(c)
  {
    hide Provenance, ValidConfig, WellRouted, SendsOf, Potential, Whole;
    assert WholeNames(w.s.tasks[id]);
  }

  lemma TaskTracked(w: World, idle: set<TaskId>, id: TaskId)
    requires Ledger(w, idle) && id in w.s.tasks
    ensures Tracked(w.issued, id, w.s.tasks[id]) && Unasked(w.issued, id, w.s.tasks[id].candidates)
  {
    hide Recorded, Bounded, Provenance, Directed, Aimed, Unasked, AskedOf;
    assert Tracked(w.issued, id, w.s.tasks[id]);
  }

  lemma ResumeLedger(w: World, tx: Txid, o: Out, now: nat, r: Resume)
    requires Inv(w.s, {}) && Ledger(w, {}) && ResumedBy(w.s, tx, o, now, r)
    ensures Ledger(Noted(w, o.s, tx), {})
    ensures var id := w.s.txs[tx].task;
            Effect(w.s, {tx}, o.s, id, w.s.tasks[id].candidates, Potential(w.s.tasks[id]),
                   Some(w.s.txs[tx].server), now)
  {
    hide Inv, ResumedBy, Effect, Noted, Potential, SendsOf, Whole, AsksFor, Ledger, Unasked, Tracked;
    ResumedTx(w.s, tx, o, now, r);
    var id := w.s.txs[tx].task;
    ResumedEffect(w.s, tx, o, now, r);
    InvTx(w.s, tx);
    TaskPotential(w, id);
    TaskTracked(w, {}, id);
    InvLinked(w.s, {});
    StepLedger(w, {tx}, o.s, id, w.s.tasks[id].candidates, Potential(w.s.tasks[id]), Some(w.s.txs[tx].server), now,
               tx, {});
    assert {} - {id} == {};
  }

  /** A step that ended a transaction keeps every invariant, when it is counted once. */
  lemma ResumeGood(w: World, tx: Txid, o: Out, now: nat, r: Resume, errors: nat)
    requires Good(w, {}) && ResumedBy(w.s, tx, o, now, r)
    requires var c, c' := w.s.counters, r.s0.counters;
             c'.upstreamAnswered + c'.upstreamFailed == c.upstreamAnswered + c.upstreamFailed + 1 + errors
    ensures Good(Stepped(w, o, tx).(errors := w.errors + errors), {})
  {
    hide Inv, Ledger, Traced, ResumedBy, Effect, Acted, Recorded, DoneCount, Live, Settled, Potential;
    ResumedTx(w.s, tx, o, now, r);
    ResumedKeeps(w.s, tx, o, now, r);
    ResumeLedger(w, tx, o, now, r);
    ResumeActed(w.s, tx, o, now, r);
    var w' := Stepped(w, o, tx).(errors := w.errors + errors);
    LedgerSame(Noted(w, o.s, tx), w', {});
    var id := w.s.txs[tx].task;
    LedgerRecorded(w, {});
    StepTraced(w, {tx}, o, id, w.s.tasks[id].candidates, Potential(w.s.tasks[id]), Some(w.s.txs[tx].server), now, w');
    forall q ensures LiveCount(w.s, q) == LiveCount(o.s, q) + DoneCount(o.acts, q) {
      ResumedLive(w.s, tx, o, now, r, q);
    }
    SettledStep(w, w', o.acts);
  }

  lemma GoodTx(w: World, tx: Txid)
    requires Good(w, {}) && tx in w.s.txs
    ensures w.s.txs[tx].task in w.s.tasks && w.s.tasks[w.s.txs[tx].task].attempt > 0 && GoodCache(w.s.cache)
    ensures ValidTask(w.s.tasks[w.s.txs[tx].task])
  {
    hide Ledger, Traced, Settled, Booked, Owned, ValidTask, AsksFor, GoodCache, GoodParts, Families;
    assert Flying(w.s, w.s.txs[tx].task);
  }

  /** A failure stores nothing. */
  lemma GoodShrinks(w: World, tx: Txid, o: Out, now: nat, r: Resume)
    requires Good(w, {}) && ResumedBy(w.s, tx, o, now, r) && r.s1.cache == w.s.cache
    ensures o.s.cache == w.s.cache && Shrunk(w.s.cache, o.s.cache)
  {
    hide Inv, Ledger, Traced, Settled, Booked, ResumedBy, Finish, FairEnd, Live;
    ResumedTx(w.s, tx, o, now, r);
    ResumedReady(w.s, tx, o, now, r);
    InvIdle(r.s1, w.s.txs[tx].task);
    FinishCache(r.s1, w.s.txs[tx].task, r.e, now);
  }

  /** A reply stores what it says and nothing else. */
  lemma GoodFills(w: World, tx: Txid, bytes: seq<byte>, o: Out, now: nat, r: Resume)
    requires Good(w, {}) && ResumedBy(w.s, tx, o, now, r) && Fills(w.s, r.s0.cache, tx, bytes, now)
    ensures Fills(w.s, o.s.cache, tx, bytes, now)
  {
    hide Inv, Ledger, Traced, Settled, Booked, Resumes, Finish, FairEnd, Live, FromReply, NamesFrom, Spends, Room,
         GoodEnd;
    ResumedTx(w.s, tx, o, now, r);
    ResumedReady(w.s, tx, o, now, r);
    InvIdle(r.s1, w.s.txs[tx].task);
    FinishCache(r.s1, w.s.txs[tx].task, r.e, now);
  }

  lemma FailedGood(w: World, tx: Txid, now: nat)
    requires Good(w, {})
    ensures Good(NextFailed(w, tx, now), {})
    ensures NextFailed(w, tx, now).s == Failed(w.s, tx, now).s
    ensures NextFailed(w, tx, now).trace == w.trace + Failed(w.s, tx, now).acts
    ensures Shrunk(w.s.cache, Failed(w.s, tx, now).s.cache)
  {
    hide Good, NextAttempt, ResumedBy, Stepped;
    if tx in w.s.txs {
      GoodTx(w, tx);
      var r := FailedResumes(w.s, tx, now);
      ResumeGood(w, tx, Failed(w.s, tx, now), now, r, 0);
      GoodShrinks(w, tx, Failed(w.s, tx, now), now, r);
      SteppedIs(w, Failed(w.s, tx, now), tx);
    }
  }

  lemma LocalFailedGood(w: World, tx: Txid, now: nat)
    requires Good(w, {}) && tx in w.s.txs
    ensures Good(Stepped(w, LocalFailed(w.s, tx, now), tx), {})
    ensures Shrunk(w.s.cache, LocalFailed(w.s, tx, now).s.cache)
  {
    hide Good, NextAttempt, ResumedBy, Stepped;
    GoodTx(w, tx);
    var r := LocalFailedResumes(w.s, tx, now);
    ResumeGood(w, tx, LocalFailed(w.s, tx, now), now, r, 0);
    GoodShrinks(w, tx, LocalFailed(w.s, tx, now), now, r);
    SteppedIs(w, LocalFailed(w.s, tx, now), tx);
  }

  lemma ReceivedGood(w: World, tx: Txid, bytes: seq<byte>, now: nat, keys: seq<CacheKey>)
    requires Good(w, {}) && Walks(keys, w.s.cache)
    ensures Good(NextReceived(w, tx, bytes, now, keys), {})
    ensures NextReceived(w, tx, bytes, now, keys).s == Received(w.s, tx, bytes, now, keys).s
    ensures NextReceived(w, tx, bytes, now, keys).trace == w.trace + Received(w.s, tx, bytes, now, keys).acts
    ensures Fills(w.s, Received(w.s, tx, bytes, now, keys).s.cache, tx, bytes, now)
  {
    hide Good, MatchingResponse, ResumedBy, Stepped, ErrorReply, Received, FromReply;
    if MatchingResponse(w.s, tx, bytes).None? {
      NotReceived(w.s, tx, bytes, now, keys);
    } else {
      MatchLive(w.s, tx, bytes);
      GoodTx(w, tx);
      var o := Received(w.s, tx, bytes, now, keys);
      var r := ReceivedResumes(w.s, tx, bytes, now, keys);
      var n := if ErrorReply(w.s.txs[tx], MatchingResponse(w.s, tx, bytes).value) then 1 else 0;
      ResumeGood(w, tx, o, now, r, n);
      GoodFills(w, tx, bytes, o, now, r);
      SteppedIs(w, o, tx);
    }
  }

  lemma NotReceived(s: State, tx: Txid, bytes: seq<byte>, now: nat, keys: seq<CacheKey>)
    requires MatchingResponse(s, tx, bytes).None?
    ensures Received(s, tx, bytes, now, keys) == Out(s, [])
  {
    hide MatchingResponse;
  }

  // ---------------------------------------------------------------- ticks

  lemma CancelGood(w: World, x: Txid)
    requires Good(w, {})
    ensures Good(w.(trace := w.trace + [Cancel(x)]), {})
  {
    hide Inv, Ledger, Traced, Live, DoneCount, Settled;
    var w' := w.(trace := w.trace + [Cancel(x)]);
    LedgerSame(w, w', {});
    TraceQuiet(w, w', [Cancel(x)]);
    forall q ensures DoneCount([Cancel(x)], q) == 0 { CancelNotDone(x, q); }
    SettledStep(w, w', [Cancel(x)]);
  }

  lemma CancelNotDone(x: Txid, q: Qid)
    ensures DoneCount([Cancel(x)], q) == 0
  {
    assert [Cancel(x)][1..] == [];
  }

  lemma {:induction false} TickGood(w: World, expired: seq<Txid>, now: nat)
    requires Good(w, {})
    ensures Good(NextTick(w, expired, now), {})
    ensures NextTick(w, expired, now).s == Tick(w.s, expired, now).s
    ensures NextTick(w, expired, now).trace == w.trace + Tick(w.s, expired, now).acts
    ensures Shrunk(w.s.cache, Tick(w.s, expired, now).s.cache)
    decreases |expired|
  {
    hide Good, NextFailed, Failed;
    if expired != [] {
      var w1 := w.(trace := w.trace + [Cancel(expired[0])]);
      CancelGood(w, expired[0]);
      FailedGood(w1, expired[0], now);
      TickGood(NextFailed(w1, expired[0], now), expired[1..], now);
    }
  }

  // ------------------------------------------------------------- abandoning

  lemma AbandonGood(w: World, q: Qid, ids: seq<TaskId>)
    requires Good(w, {}) && TasksOf(w.s, q, ids)
    ensures Good(Next(w, OnAbandon(q, ids)), {})
  {
    hide Inv, Ledger, Traced, Live, DoneCount, NoRepeats, Settled, Abandon;
    AbandonKeeps(w.s, q, ids);
    var o := Abandon(w.s, q, ids);
    var w' := Next(w, OnAbandon(q, ids));
    LessLedger(w, o.s);
    LedgerSame(w.(s := o.s), w', {});
    TraceQuiet(w, w', o.acts);
    hide Lacking;
    AbandonSettled(w, w', q, o.acts);
  }

  lemma AbandonSettled(w: World, w': World, q: Qid, acts: seq<Action>)
    requires Settled(w) && w'.trace == w.trace + acts && forall i :: 0 <= i < |acts| ==> acts[i].Cancel?
    requires w'.asked == w.asked && w'.dropped == if Live(w.s, q) then w.dropped + {q} else w.dropped
    requires forall y :: Live(w'.s, y) == (Live(w.s, y) && y != q)
    ensures Settled(w')
  {
    hide Live, DoneCount;
    forall y ensures DoneCount(w'.trace, y) + LiveCount(w'.s, y) + (if y in w'.dropped then 1 else 0)
                     == if y in w'.asked then 1 else 0
    {
      DoneConcat(w.trace, acts, y);
      CancelsNotDone(acts, y);
    }
  }

  // ---------------------------------------------------------- configuration

  /** The engine with another configuration, fewer cached answers and fewer tasks that may store. */
  ghost predicate Retuned(s: State, s': State) {
    && s' == s.(cfg := s'.cfg, cache := s'.cache, tasks := s'.tasks) && Shrunk(s.cache, s'.cache)
    && s'.tasks.Keys == s.tasks.Keys
    && forall id :: id in s.tasks ==> s'.tasks[id] == s.tasks[id].(cacheInvalidated := s'.tasks[id].cacheInvalidated)
  }

  lemma RetunedLinked(s: State, s': State)
    requires Linked(s, {}) && Retuned(s, s')
    ensures Linked(s', {})
  {
    hide Shrunk;
    forall id | id in s'.tasks ensures Flying(s', id) { assert Flying(s, id); }
  }

  lemma RetunedOwned(s: State, s': State)
    requires Owned(s) && Retuned(s, s')
    ensures Owned(s')
  {
    hide Shrunk, NoRepeats;
    forall id | id in s.tasks ensures s'.tasks[id].owner == s.tasks[id].owner {}
  }

  lemma SameAsks(x: Tx, t: Task, t': Task)
    requires t' == t.(cacheInvalidated := t'.cacheInvalidated)
    ensures AsksFor(x, t') == AsksFor(x, t) && ValidTask(t') == ValidTask(t)
  {
  }

  lemma RetunedValued(s: State, s': State)
    requires Linked(s, {}) && Valued(s) && Retuned(s, s')
    ensures Valued(s')
  {
    hide GoodParts, AsksFor, ValidTask, GoodEntry, Flying;
    forall x, id | x in s.txs && id in s.tasks
      ensures AsksFor(s.txs[x], s'.tasks[id]) == AsksFor(s.txs[x], s.tasks[id])
    {
      SameAsks(s.txs[x], s.tasks[id], s'.tasks[id]);
    }
    forall id | id in s.tasks ensures ValidTask(s'.tasks[id]) { SameAsks(SOME_TX, s.tasks[id], s'.tasks[id]); }
    forall y | y in s.lookups ensures Families(s.lookups[y], s'.tasks) { assert Families(s.lookups[y], s.tasks); }
  }

  const SOME_TX: Tx := Tx(0, 0, Question([], 0, 0), V4(0), false, 0)

  lemma RetunedLive(s: State, s': State, q: Qid)
    requires Retuned(s, s')
    ensures Live(s', q) == Live(s, q)
  {
    hide Shrunk;
    forall id | id in s.tasks ensures s'.tasks[id].owner == s.tasks[id].owner {}
  }

  /** A change that sends and answers nothing keeps the tallies. */
  lemma RetunedGood(w: World, w': World)
    requires Good(w, {}) && Retuned(w.s, w'.s) && Ledger(w', {})
    requires w'.trace == w.trace && w'.asked == w.asked && w'.dropped == w.dropped
    requires w'.cancelled == w.cancelled && w'.errors == w.errors && w'.issued == w.issued
    ensures Good(w', {})
  {
    hide Linked, Owned, Valued, Ledger, Traced, Live, DoneCount, Settled;
    RetunedLinked(w.s, w'.s);
    RetunedOwned(w.s, w'.s);
    RetunedValued(w.s, w'.s);
    assert w.trace + [] == w.trace;
    TraceQuiet(w, w', []);
    forall q ensures LiveCount(w.s, q) == LiveCount(w'.s, q) + DoneCount([], q) {
      RetunedLive(w.s, w'.s, q);
      NoneDone(q);
    }
    hide Retuned;
    SettledStep(w, w', []);
  }

  lemma NoneDone(q: Qid)
    ensures DoneCount([], q) == 0
  {
  }

  lemma ReplacedRetuned(s: State, s': State, stale: set<string>)
    requires Replaced(s, s', stale)
    ensures Retuned(s, s')
  {
    hide Configured, ValidConfig, Invalidate;
    InvalidShape(s, stale);
    forall id | id in s.tasks ensures s'.tasks[id] == s.tasks[id].(cacheInvalidated := s'.tasks[id].cacheInvalidated) {
      InvalidTask(s, stale, id);
    }
  }

  lemma ReplacedGood(w: World, s': State, stale: set<string>)
    requires Good(w, {}) && Replaced(w.s, s', stale)
    ensures Good(Reconfigured(w, s', stale), {})
  {
    hide Inv, Ledger, Traced, Settled, Booked, Replaced, Retuned, Epochs;
    ReplacedRetuned(w.s, s', stale);
    InvLinked(w.s, {});
    ReplacedLedger(w, s', stale);
    RetunedGood(w, Reconfigured(w, s', stale));
  }

  lemma ScopesGood(w: World, scopes: seq<Scope>)
    requires Good(w, {}) && ValidConfig(w.s.cfg.(scopes := scopes))
    ensures Good(Next(w, OnScopes(scopes)), {})
  {
    hide Good, Replaced, Reconfigured, ValidConfig, SetScopes, StaleScopes;
    assert ValidConfig(w.s.cfg) by { GoodConfig(w); }
    ScopesReplaced(w.s, scopes);
    ReplacedGood(w, SetScopes(w.s, scopes), StaleScopes(w.s.cfg.scopes, scopes));
  }

  lemma GoodConfig(w: World)
    requires Good(w, {})
    ensures ValidConfig(w.s.cfg)
  {
    hide Inv, Traced, Settled, Booked, Recorded, Bounded, Provenance, ValidConfig;
  }

  lemma FallbackGood(w: World, servers: seq<IpAddr>, domains: seq<Name>)
    requires Good(w, {}) && ValidConfig(w.s.cfg.(fallbackServers := servers, fallbackDomains := domains))
    ensures Good(Next(w, OnFallback(servers, domains)), {})
  {
    hide Good, Replaced, Reconfigured, ValidConfig, SetFallback;
    FallbackReplaced(w.s, servers, domains);
    ReplacedGood(w, SetFallback(w.s, servers, domains),
                 if servers != w.s.cfg.fallbackServers then {FALLBACK_SCOPE} else {});
  }

  lemma SameConfig(cfg: Config, cfg': Config)
    requires ValidConfig(cfg) && cfg' == cfg.(hostname := cfg'.hostname, hosts := cfg'.hosts)
    requires DistinctHosts(cfg'.hosts)
    requires cfg'.hostname.Some? ==> ValidName(cfg'.hostname.value)
    ensures ValidConfig(cfg')
  {
    hide DistinctHosts, ValidName;
  }

  lemma NamesGood(w: World, cfg: Config)
    requires Good(w, {}) && cfg == w.s.cfg.(hostname := cfg.hostname, hosts := cfg.hosts) && DistinctHosts(cfg.hosts)
    requires cfg.hostname.Some? ==> ValidName(cfg.hostname.value)
    ensures Good(w.(s := w.s.(cfg := cfg)), {})
  {
    hide Inv, Ledger, Traced, Settled, Booked, ValidConfig, DistinctHosts;
    GoodConfig(w);
    SameConfig(w.s.cfg, cfg);
    NamesLedger(w, cfg);
    RetunedGood(w, w.(s := w.s.(cfg := cfg)));
  }

  lemma HostnameGood(w: World, h: Option<seq<byte>>)
    requires Good(w, {})
    ensures Good(Next(w, OnHostname(h)), {})
  {
    hide Good, Parse, DistinctHosts, ValidName;
    GoodHosts(w);
    if h.Some? && Parse(h.value).Ok? { ParsedValid(h.value); }
    NamesGood(w, SetHostname(w.s, h).cfg);
  }

  lemma GoodHosts(w: World)
    requires Good(w, {})
    ensures DistinctHosts(w.s.cfg.hosts) && (w.s.cfg.hostname.Some? ==> ValidName(w.s.cfg.hostname.value))
  {
    hide Good, DistinctHosts, ValidName;
    GoodConfig(w);
  }

  lemma FlushGood(w: World)
    requires Good(w, {})
    ensures Good(Next(w, OnFlush), {})
  {
    hide Inv, Ledger, Traced, Settled, Booked;
    FlushLedger(w);
    var w' := Next(w, OnFlush);
    RetunedGood(w, w');
  }

  // ------------------------------------------------------------ every input

  /** The ledger shows the engine's own state and actions. */
  ghost predicate Follows(w: World, i: Input) {
    Next(w, i).s == Step(w.s, i).s && Next(w, i).trace == w.trace + Step(w.s, i).acts
  }

  lemma ConfigFollows(w: World, i: Input)
    requires i.OnScopes? || i.OnFallback? || i.OnHostname? || i.OnHosts? || i.OnFlush? || i.OnRefused? || i.OnAbandon?
    ensures Follows(w, i)
  {
    hide SetScopes, SetFallback, SetHostname, SetHosts, Flush, Abandon, StaleScopes, Epochs, Live;
  }

  lemma AskGood(w: World, i: Input)
    requires IsAsk(i) && Good(w, {}) && Legal(w, i)
    ensures Good(Next(w, i), {}) && Follows(w, i) && Shrunk(w.s.cache, Step(w.s, i).s.cache)
  {
    hide Good, Resolve, ResolveName, LookupAddresses, NextLookup, NextResolve, Rejected, Parse, Show, ReverseName,
         ValidName;
    match i
    case OnResolve(q, text, rtype, noCache, now) => TextGood(w, q, text, rtype, noCache, now);
    case OnQuestion(q, question, now) => ResolveGood(w, q, question.name, question.rtype, false, now);
    case OnReverse(q, addr, now) => TextGood(w, q, Show(ReverseName(addr)), PTR, false, now);
    case OnLookup(q, text, family, now) => AddressesGood(w, q, text, family, now);
  }

  lemma EventGood(w: World, i: Input)
    requires i.OnReceived? || i.OnFailed? || i.OnLocalFailed? || i.OnTick?
    requires Good(w, {}) && Legal(w, i)
    ensures Good(Next(w, i), {}) && Follows(w, i)
    ensures i.OnReceived? ==> Fills(w.s, Step(w.s, i).s.cache, i.tx, i.bytes, i.now)
    ensures !i.OnReceived? ==> Shrunk(w.s.cache, Step(w.s, i).s.cache)
  {
    hide FromReply, Good, Received, Failed, LocalFailed, Tick, NextReceived, NextFailed, NextTick, Stepped;
    match i
    case OnReceived(tx, bytes, now, keys) => ReceivedGood(w, tx, bytes, now, keys);
    case OnFailed(tx, now) => FailedGood(w, tx, now);
    case OnLocalFailed(tx, now) => LocalGood(w, tx, now);
    case OnTick(now, expired) => TickGood(w, expired, now);
  }

  lemma HostsGood(w: World, hosts: seq<Host>)
    requires Good(w, {}) && DistinctHosts(hosts)
    ensures Good(Next(w, OnHosts(hosts)), {})
  {
    hide Good, DistinctHosts, ValidName;
    GoodHosts(w);
    NamesGood(w, w.s.cfg.(hosts := hosts));
  }

  /** A change of configuration stores nothing. */
  lemma ConfigShrinks(w: World, i: Input)
    requires Good(w, {}) && Legal(w, i)
    requires i.OnScopes? || i.OnFallback? || i.OnHostname? || i.OnHosts? || i.OnFlush? || i.OnRefused? || i.OnAbandon?
    ensures Shrunk(w.s.cache, Step(w.s, i).s.cache)
  {
    hide Good, StaleScopes, Parse, Abandon, ValidConfig, DistinctHosts;
    if i.OnAbandon? {
      hide Step;
      AbandonShrinks(w, i.q, i.tasks);
    }
  }

  lemma AbandonShrinks(w: World, q: Qid, ids: seq<TaskId>)
    requires Good(w, {}) && TasksOf(w.s, q, ids)
    ensures Step(w.s, OnAbandon(q, ids)).s.cache == w.s.cache
  {
    hide Inv, Ledger, Traced, Settled, Booked, Abandon, NoRepeats;
    AbandonKeeps(w.s, q, ids);
  }

  /** Any legal input keeps every invariant; only a reply stores an answer, and only what it says. */
  lemma NextGood(w: World, i: Input)
    requires Good(w, {}) && Legal(w, i)
    ensures Good(Next(w, i), {}) && Follows(w, i)
    ensures i.OnReceived? ==> Fills(w.s, Step(w.s, i).s.cache, i.tx, i.bytes, i.now)
    ensures !i.OnReceived? ==> Shrunk(w.s.cache, Step(w.s, i).s.cache)
  {
    if i.OnScopes? || i.OnFallback? || i.OnHostname? || i.OnHosts? || i.OnFlush? || i.OnRefused? || i.OnAbandon? {
      ConfigShrinks(w, i);
    }
    hide FromReply, Step, Good, Next, Follows, TasksOf, Expired, ValidConfig, DistinctHosts;
    match i
    case OnAbandon(q, tasks) => ConfigFollows(w, i); AbandonGood(w, q, tasks);
    case OnScopes(scopes) => ConfigFollows(w, i); ScopesGood(w, scopes);
    case OnFallback(servers, domains) => ConfigFollows(w, i); FallbackGood(w, servers, domains);
    case OnHostname(h) => ConfigFollows(w, i); HostnameGood(w, h);
    case OnHosts(hosts) => ConfigFollows(w, i); HostsGood(w, hosts);
    case OnFlush => ConfigFollows(w, i); FlushGood(w);
    case OnRefused => ConfigFollows(w, i); RefusedGood(w);
    case OnReceived(_, _, _, _) => EventGood(w, i);
    case OnFailed(_, _) => EventGood(w, i);
    case OnLocalFailed(_, _) => EventGood(w, i);
    case OnTick(_, _) => EventGood(w, i);
    case _ => AskGood(w, i);
  }

  lemma TextGood(w: World, q: Qid, text: seq<byte>, rtype: u16, noCache: bool, now: nat)
    requires Good(w, {}) && q !in w.asked
    ensures var w' := if Parse(text).Err? then Rejected(w, q, AnswerDone(NOT_FOUND))
                      else NextResolve(w, q, Parse(text).value, rtype, noCache, now);
            var o := Resolve(w.s, q, text, rtype, noCache, now);
            Good(w', {}) && w'.s == o.s && w'.trace == w.trace + o.acts && Shrunk(w.s.cache, o.s.cache)
  {
    hide Good, Parse, ResolveName, NextResolve, ValidName;
    if Parse(text).Err? {
      RejectedGood(w, q, AnswerDone(NOT_FOUND));
    } else {
      ParsedValid(text);
      ResolveGood(w, q, Parse(text).value, rtype, noCache, now);
    }
  }

  lemma AddressesGood(w: World, q: Qid, text: seq<byte>, family: Family, now: nat)
    requires Good(w, {}) && q !in w.asked
    ensures var w' := Next(w, OnLookup(q, text, family, now));
            var o := LookupAddresses(w.s, q, text, family, now);
            Good(w', {}) && w'.s == o.s && w'.trace == w.trace + o.acts && Shrunk(w.s.cache, o.s.cache)
  {
    hide Good, Parse, LookupName, NextLookup, ValidName;
    if Parse(text).Err? {
      RejectedGood(w, q, AddressesDone(Addresses(NotFound, [], [], Local)));
    } else {
      ParsedValid(text);
      LookupGood(w, q, Parse(text).value, family, now);
    }
  }

  lemma LocalGood(w: World, tx: Txid, now: nat)
    requires Good(w, {})
    ensures var w' := Next(w, OnLocalFailed(tx, now));
            var o := LocalFailed(w.s, tx, now);
            Good(w', {}) && w'.s == o.s && w'.trace == w.trace + o.acts && Shrunk(w.s.cache, o.s.cache)
  {
    hide Good, NextAttempt, Stepped;
    if tx in w.s.txs {
      LocalFailedGood(w, tx, now);
      SteppedIs(w, LocalFailed(w.s, tx, now), tx);
    }
  }
}
