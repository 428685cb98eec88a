/** Time alone finishes every question: a tick an attempt empties the engine. */
module EngineDrain {
  import opened Bytes
  import opened Results
  import opened Names
  import opened Dns
  import opened Caches
  import opened Routing
  import opened ReverseNames
  import opened EngineModel
  import opened EngineAbandon
  import opened EngineSteps
  import opened EngineInvariant
  import opened EngineResume
  import opened EngineAsk
  import opened EngineEffect
  import opened EngineWorld
  import opened EngineTrace
  import opened EngineRuns
  import opened EngineTheorems

  // -------------------------------------------------------------- deadlines

  /** Every transaction is over by `t`. */
  predicate Due(s: State, t: nat) {
    forall x :: x in s.txs ==> s.txs[x].deadline <= t
  }

  /** When an input happens; a change of configuration has no time. */
  function TimeOf(i: Input): nat {
    match i
    case OnResolve(_, _, _, _, now) => now
    case OnQuestion(_, _, now) => now
    case OnReverse(_, _, now) => now
    case OnLookup(_, _, _, now) => now
    case OnReceived(_, _, now, _) => now
    case OnFailed(_, now) => now
    case OnLocalFailed(_, now) => now
    case OnTick(now, _) => now
    case _ => 0
  }

  lemma EffectDue(s: State, gone: set<Txid>, s': State, id: TaskId, pool: seq<Name>, left: int, last: Option<IpAddr>,
                  now: nat, t: nat)
    requires Effect(s, gone, s', id, pool, left, last, now) && Due(s, t) && now + SERVER_TIMEOUT <= t
    ensures Due(s', t)
  {
    hide StartedBy, CacheStep, KeyOf;
  }

  lemma AdvanceDue(w: World, id: TaskId, now: nat, idle: set<TaskId>, t: nat)
    requires Good(w, idle) && id in idle && id in w.s.tasks && Fresh(w.s.tasks[id])
    requires Due(w.s, t) && now + SERVER_TIMEOUT <= t
    ensures Due(Advance(w.s, id, now).s, t)
  {
    hide Inv, Ledger, Traced, Settled, Booked, Advance, AdvancedBy, Effect, Candidates, Budget, Due;
    InvCache(w.s, idle);
    assert ValidConfig(w.s.cfg) by { FreshBudget(w, id, idle); }
    hide ValidConfig, ValidTask;
    var s1, e := AdvanceBy(w.s, id, now);
    var o := Advance(w.s, id, now);
    AdvancedEffect(w.s, id, o, now, s1, e, idle);
    var all := Candidates(w.s.cfg, w.s.tasks[id].original);
    EffectDue(w.s, {}, o.s, id, all, Budget(|all|), None, now, t);
  }

  lemma {:induction false} AllDue(w: World, ids: seq<TaskId>, now: nat, t: nat)
    requires Good(w, IdSet(ids)) && NoRepeats(ids)
    requires forall id :: id in ids ==> id in w.s.tasks && Fresh(w.s.tasks[id])
    requires Due(w.s, t) && now + SERVER_TIMEOUT <= t
    ensures Due(NextAll(w, ids, now).s, t)
    decreases |ids|
  {
    hide Good, Advance, Fresh, Stepped, Due;
    if ids != [] {
      AdvanceGood(w, ids[0], now, IdSet(ids));
      AdvanceDue(w, ids[0], now, IdSet(ids), t);
      assert IdSet(ids) - {ids[0]} == IdSet(ids[1..]) by { IdsRest(ids); }
      SteppedIs(w, Advance(w.s, ids[0], now), 0);
      AllDue(Stepped(w, Advance(w.s, ids[0], now), 0), ids[1..], now, t);
    }
  }

  lemma ResumedDue(w: World, tx: Txid, o: Out, now: nat, r: Resume, t: nat)
    requires Good(w, {}) && ResumedBy(w.s, tx, o, now, r) && Due(w.s, t) && now + SERVER_TIMEOUT <= t
    ensures Due(o.s, t)
  {
    hide Inv, Ledger, Traced, Settled, Booked, ResumedBy, Effect, Due, Potential;
    ResumedTx(w.s, tx, o, now, r);
    ResumedEffect(w.s, tx, o, now, r);
    var id := w.s.txs[tx].task;
    EffectDue(w.s, {tx}, o.s, id, w.s.tasks[id].candidates, Potential(w.s.tasks[id]), Some(w.s.txs[tx].server), now, t);
  }

  lemma ResolveDue(w: World, q: Qid, name: Name, rtype: u16, noCache: bool, now: nat, t: nat)
    requires Good(w, {}) && q !in w.asked && ValidName(name) && Due(w.s, t) && now + SERVER_TIMEOUT <= t
    ensures Due(NextResolve(w, q, name, rtype, noCache, now).s, t)
  {
    hide Good, ValidName, Fresh, NewTasks, IdSet, Budget, Candidates, NextAll;
    var s0 := StartTask(Asked(w.s), ResolveOwner(q), name, rtype, noCache);
    StartOne(Asked(w.s), ResolveOwner(q), name, rtype, noCache);
    OpenGood(w, s0, ResolveOwner(q), name, [rtype], noCache);
    assert IdsFrom(w.s.nextId, 1) == [w.s.nextId];
    hide IdsFrom;
    AllDue(Opened(w, s0, q, name, 1), [w.s.nextId], now, t);
  }

  lemma LookupDue(w: World, q: Qid, name: Name, family: Family, now: nat, t: nat)
    requires Good(w, {}) && q !in w.asked && ValidName(name) && Due(w.s, t) && now + SERVER_TIMEOUT <= t
    ensures Due(NextLookup(w, q, name, family, now).s, t)
  {
    hide Good, ValidName, Fresh, NewTasks, IdSet, Budget, Candidates, StartTasks, NextAll;
    var types := FamilyTypes(family);
    var ids := IdsFrom(w.s.nextId, |types|);
    var s1 := StartTasks(Asked(w.s), q, name, types);
    StartTasksStart(Asked(w.s), q, name, types);
    var s0 := s1.(lookups := s1.lookups[q := Lookup(name, ids, [])]);
    OpenGood(w, s0, LookupOwner(q), name, types, false);
    IdsAre(w.s.nextId, |types|);
    hide IdsFrom;
    AllDue(Opened(w, s0, q, name, |types|), ids, now, t);
  }

  lemma FailedDue(w: World, tx: Txid, now: nat, t: nat)
    requires Good(w, {}) && Due(w.s, t) && now + SERVER_TIMEOUT <= t
    ensures Due(NextFailed(w, tx, now).s, t)
  {
    hide Good, Failed, ResumedBy, Stepped, Due;
    if tx in w.s.txs {
      GoodTx(w, tx);
      var r := FailedResumes(w.s, tx, now);
      ResumedDue(w, tx, Failed(w.s, tx, now), now, r, t);
      SteppedIs(w, Failed(w.s, tx, now), tx);
    }
  }

  lemma LocalFailedDue(w: World, tx: Txid, now: nat, t: nat)
    requires Good(w, {}) && Due(w.s, t) && now + SERVER_TIMEOUT <= t
    ensures Due(LocalFailed(w.s, tx, now).s, t)
  {
    hide Good, ResumedBy, Due, NextAttempt;
    if tx in w.s.txs {
      GoodTx(w, tx);
      var r := LocalFailedResumes(w.s, tx, now);
      ResumedDue(w, tx, LocalFailed(w.s, tx, now), now, r, t);
    }
  }

  lemma ReceivedDue(w: World, tx: Txid, bytes: seq<byte>, now: nat, keys: seq<CacheKey>, t: nat)
    requires Good(w, {}) && Walks(keys, w.s.cache) && Due(w.s, t) && now + SERVER_TIMEOUT <= t
    ensures Due(Received(w.s, tx, bytes, now, keys).s, t)
  {
    hide Good, ResumedBy, Due, Received, MatchingResponse;
    if MatchingResponse(w.s, tx, bytes).None? {
      NotReceived(w.s, tx, bytes, now, keys);
    } else {
      MatchLive(w.s, tx, bytes);
      GoodTx(w, tx);
      var r := ReceivedResumes(w.s, tx, bytes, now, keys);
      ResumedDue(w, tx, Received(w.s, tx, bytes, now, keys), now, r, t);
    }
  }

  lemma {:induction false} TickDue(w: World, expired: seq<Txid>, now: nat, t: nat)
    requires Good(w, {}) && Due(w.s, t) && now + SERVER_TIMEOUT <= t
    ensures Due(NextTick(w, expired, now).s, t)
    decreases |expired|
  {
    hide Good, NextFailed, Due;
    if expired != [] {
      var w1 := w.(trace := w.trace + [Cancel(expired[0])]);
      CancelGood(w, expired[0]);
      FailedGood(w1, expired[0], now);
      FailedDue(w1, expired[0], now, t);
      TickDue(NextFailed(w1, expired[0], now), expired[1..], now, t);
    }
  }

  /** Inputs of the past leave no deadline beyond a timeout from now. */
  lemma AskDue(w: World, i: Input, t: nat)
    requires IsAsk(i) && Good(w, {}) && Legal(w, i) && Due(w.s, t) && TimeOf(i) + SERVER_TIMEOUT <= t
    ensures Due(Next(w, i).s, t)
  {
    hide Good, Parse, NextLookup, NextResolve, Show, ReverseName, ValidName;
    match i
    case OnResolve(q, text, rtype, noCache, now) =>
      if Parse(text).Ok? { ParsedValid(text); ResolveDue(w, q, Parse(text).value, rtype, noCache, now, t); }
    case OnQuestion(q, question, now) => ResolveDue(w, q, question.name, question.rtype, false, now, t);
    case OnReverse(q, addr, now) =>
      var text := Show(ReverseName(addr));
      if Parse(text).Ok? { ParsedValid(text); ResolveDue(w, q, Parse(text).value, PTR, false, now, t); }
    case OnLookup(q, text, family, now) =>
      if Parse(text).Ok? { ParsedValid(text); LookupDue(w, q, Parse(text).value, family, now, t); }
  }

  lemma AbandonDue(w: World, q: Qid, ids: seq<TaskId>, t: nat)
    requires Good(w, {}) && TasksOf(w.s, q, ids) && Due(w.s, t)
    ensures Due(Abandon(w.s, q, ids).s, t)
  {
    hide Inv, Ledger, Traced, Settled, Booked, Abandon, NoRepeats;
    AbandonKeeps(w.s, q, ids);
  }

  lemma NextDue(w: World, i: Input, t: nat)
    requires Good(w, {}) && Legal(w, i) && Due(w.s, t) && TimeOf(i) + SERVER_TIMEOUT <= t
    ensures Due(Next(w, i).s, t)
  {
    hide Good, Next, Step, TasksOf, Expired, ValidConfig, DistinctHosts, Received, LocalFailed, NextTick, NextFailed;
    NextGood(w, i);
    match i
    case OnAbandon(q, tasks) => NextState(w, i); AbandonDue(w, q, tasks, t);
    case OnReceived(tx, bytes, now, keys) => NextState(w, i); ReceivedDue(w, tx, bytes, now, keys, t);
    case OnLocalFailed(tx, now) => NextState(w, i); LocalFailedDue(w, tx, now, t);
    case OnFailed(tx, now) => NextEvent(w, i); FailedDue(w, tx, now, t);
    case OnTick(now, expired) => NextEvent(w, i); TickDue(w, expired, now, t);
    case OnScopes(_) => NextTuned(w, i);
    case OnFallback(_, _) => NextTuned(w, i);
    case OnHostname(_) => NextTuned(w, i);
    case OnHosts(_) => NextTuned(w, i);
    case OnFlush => NextTuned(w, i);
    case OnRefused => NextTuned(w, i);
    case _ => AskDue(w, i, t);
  }

  lemma NextState(w: World, i: Input)
    requires Follows(w, i)
    ensures i.OnAbandon? ==> Next(w, i).s == Abandon(w.s, i.q, i.tasks).s
    ensures i.OnReceived? ==> Next(w, i).s == Received(w.s, i.tx, i.bytes, i.now, i.keys).s
    ensures i.OnLocalFailed? ==> Next(w, i).s == LocalFailed(w.s, i.tx, i.now).s
  {
    hide Next, Abandon, Received, LocalFailed;
  }

  lemma NextEvent(w: World, i: Input)
    ensures i.OnFailed? ==> Next(w, i) == NextFailed(w, i.tx, i.now)
    ensures i.OnTick? ==> Next(w, i) == NextTick(w, i.expired, i.now)
  {
    hide NextFailed, NextTick;
  }

  lemma NextTuned(w: World, i: Input)
    requires Follows(w, i)
    requires i.OnScopes? || i.OnFallback? || i.OnHostname? || i.OnHosts? || i.OnFlush? || i.OnRefused?
    ensures Next(w, i).s.txs == w.s.txs
  {
    hide Next, StaleScopes, Parse;
  }

  lemma {:induction false} RunDue(w: World, inputs: seq<Input>, t: nat)
    requires Good(w, {}) && LegalRun(w, inputs) && Due(w.s, t)
    requires forall i :: 0 <= i < |inputs| ==> TimeOf(inputs[i]) + SERVER_TIMEOUT <= t
    ensures Good(After(w, inputs), {}) && Due(After(w, inputs).s, t)
    decreases |inputs|
  {
    hide Good, Next, Due, Legal, TimeOf;
    if inputs != [] {
      NextGood(w, inputs[0]);
      NextDue(w, inputs[0], t);
      RunDue(Next(w, inputs[0]), inputs[1..], t);
    }
  }

  // -------------------------------------------------------------- one tick

  /** Tasks not on the list have made `k + 1` attempts, those on it at least `k`. */
  ghost predicate Tried(s: State, waiting: seq<Txid>, k: nat) {
    forall id :: id in s.tasks && s.tasks[id].tx.Some? ==>
      s.tasks[id].attempt >= (if s.tasks[id].tx.value in waiting then k else k + 1)
  }

  /** After a failure the task is over, or has one more attempt behind it. */
  lemma FailedCharges(s: State, tx: Txid, now: nat)
    requires Inv(s, {}) && tx in s.txs
    ensures var id, o := s.txs[tx].task, Failed(s, tx, now);
            id in s.tasks && (id in o.s.tasks ==> o.s.tasks[id].attempt == s.tasks[id].attempt + 1)
  {
    hide Inv, Failed, Finish, Configured, Route, CacheStep, KeyOf, GoodAnswer, NamesFrom, Spends;
    InvTx(s, tx);
    var r := FailedResumes(s, tx, now);
    var id := s.txs[tx].task;
    ResumedReady(s, tx, Failed(s, tx, now), now, r);
    InvIdle(r.s1, id);
    FinishCharges(r.s1, id, r.e, now);
  }

  lemma FinishCharges(s: State, id: TaskId, e: End, now: nat)
    requires id in s.tasks && s.tasks[id].tx.None?
    ensures var o := Finish(s, id, e, now);
            id in o.s.tasks ==> o.s.tasks[id].attempt == s.tasks[id].attempt + 1
  {
    hide Settle, Launch, LaunchedTx, LookupsAfter;
    match e
    case EndSettle(a) => SettleShape(s, id, a);
    case EndSend(server, tcp, r) => LaunchShape(s, id, server, tcp, r, now);
  }

  lemma OtherTx(s: State, tx: Txid, y: TaskId)
    requires Inv(s, {}) && tx in s.txs && y in s.tasks && y != s.txs[tx].task
    ensures s.tasks[y].tx.Some? && s.tasks[y].tx.value != tx
  {
    hide Valued, Owned;
    assert Flying(s, y);
  }

  lemma InRest(waiting: seq<Txid>, x: Txid)
    requires waiting != [] && x != waiting[0]
    ensures x in waiting <==> x in waiting[1..]
  {
  }

  lemma NotFirst(waiting: seq<Txid>, x: Txid)
    requires waiting != [] && NoRepeats(waiting) && x in waiting[1..]
    ensures x in waiting && x != waiting[0]
  {
  }

  /** One expiry of many: the others still wait, and everyone off the list has gained. */
  lemma FailStep(s: State, waiting: seq<Txid>, s': State, id: TaskId, pool: seq<Name>, left: int, last: Option<IpAddr>,
                 now: nat, k: nat)
    requires waiting != [] && NoRepeats(waiting) && Inv(s, {}) && Tried(s, waiting, k)
    requires forall x :: x in waiting ==> x in s.txs
    requires Effect(s, {waiting[0]}, s', id, pool, left, last, now) && id == s.txs[waiting[0]].task
    requires id in s'.tasks ==> s'.tasks[id].attempt == s.tasks[id].attempt + 1
    ensures Tried(s', waiting[1..], k)
    ensures forall x :: x in waiting[1..] ==> x in s'.txs
  {
    InvTx(s, waiting[0]);
    hide StartedBy, CacheStep, KeyOf, Inv, NoRepeats;
    forall x | x in waiting[1..] ensures x in waiting && x != waiting[0] { NotFirst(waiting, x); }
    forall y | y in s'.tasks && s'.tasks[y].tx.Some?
      ensures s'.tasks[y].attempt >= (if s'.tasks[y].tx.value in waiting[1..] then k else k + 1)
    {
      if y != id {
        OtherTx(s, waiting[0], y);
        InRest(waiting, s.tasks[y].tx.value);
      }
    }
  }

  lemma {:induction false} TickTried(w: World, waiting: seq<Txid>, now: nat, k: nat)
    requires Good(w, {}) && NoRepeats(waiting) && Tried(w.s, waiting, k) && Due(w.s, now + SERVER_TIMEOUT)
    requires forall x :: x in waiting ==> x in w.s.txs
    ensures Tried(NextTick(w, waiting, now).s, [], k) && Due(NextTick(w, waiting, now).s, now + SERVER_TIMEOUT)
    decreases |waiting|
  {
    hide Good, NextFailed, Failed, Tried, Due, NoRepeats, Inv;
    if waiting == [] {
      assert waiting == [];
    } else {
      var w1 := w.(trace := w.trace + [Cancel(waiting[0])]);
      CancelGood(w, waiting[0]);
      FailedGood(w1, waiting[0], now);
      OneExpiry(w, waiting, now, k);
      RestDistinct(waiting);
      TickTried(NextFailed(w1, waiting[0], now), waiting[1..], now, k);
    }
  }

  lemma RestDistinct(waiting: seq<Txid>)
    requires waiting != [] && NoRepeats(waiting)
    ensures NoRepeats(waiting[1..])
  {
  }

  lemma OneExpiry(w: World, waiting: seq<Txid>, now: nat, k: nat)
    requires Good(w, {}) && NoRepeats(waiting) && Tried(w.s, waiting, k) && Due(w.s, now + SERVER_TIMEOUT)
    requires waiting != [] && forall x :: x in waiting ==> x in w.s.txs
    ensures var s' := Failed(w.s, waiting[0], now).s;
            Tried(s', waiting[1..], k) && Due(s', now + SERVER_TIMEOUT) && forall x :: x in waiting[1..] ==> x in s'.txs
  {
    hide Inv, Ledger, Traced, Settled, Booked, Failed, Tried, Due, NoRepeats, ResumedBy, Effect, Potential;
    var tx := waiting[0];
    InvTx(w.s, tx);
    var o := Failed(w.s, tx, now);
    var id := w.s.txs[tx].task;
    var r := FailedResumes(w.s, tx, now);
    ResumedEffect(w.s, tx, o, now, r);
    FailedCharges(w.s, tx, now);
    ResumedDue(w, tx, o, now, r, now + SERVER_TIMEOUT);
    FailStep(w.s, waiting, o.s, id, w.s.tasks[id].candidates, Potential(w.s.tasks[id]), Some(w.s.txs[tx].server),
             now, k);
  }

  ghost predicate AtLeast(s: State, k: nat) {
    forall id :: id in s.tasks ==> s.tasks[id].attempt >= k
  }

  lemma AllWait(s: State, now: nat, expired: seq<Txid>, k: nat)
    requires Inv(s, {}) && Due(s, now) && Expired(s, now, expired) && AtLeast(s, k)
    ensures Tried(s, expired, k) && forall x :: x in expired ==> x in s.txs
  {
    hide Valued, Owned, NoRepeats;
    forall id | id in s.tasks ensures s.tasks[id].tx.Some? && s.tasks[id].tx.value in expired { assert Flying(s, id); }
  }

  lemma TriedAll(s: State, k: nat)
    requires Inv(s, {}) && Tried(s, [], k)
    ensures AtLeast(s, k + 1)
  {
    hide Valued, Owned;
    forall id | id in s.tasks ensures s.tasks[id].tx.Some? { assert Flying(s, id); }
  }

  /** A tick after every deadline: every task left has made one more attempt. */
  lemma TickAdvances(w: World, now: nat, expired: seq<Txid>, k: nat)
    requires Good(w, {}) && Expired(w.s, now, expired) && Due(w.s, now) && AtLeast(w.s, k)
    ensures var w' := Next(w, OnTick(now, expired));
            Good(w', {}) && AtLeast(w'.s, k + 1) && Due(w'.s, now + SERVER_TIMEOUT)
  {
    hide Inv, Ledger, Traced, Settled, Booked, Tried, AtLeast, NextTick;
    AllWait(w.s, now, expired, k);
    hide Expired;
    TickGood(w, expired, now);
    assert NoRepeats(expired) by { ExpiredDistinct(w.s, now, expired); }
    assert Due(w.s, now + SERVER_TIMEOUT);
    TickTried(w, expired, now, k);
    TriedAll(NextTick(w, expired, now).s, k);
  }

  lemma ExpiredDistinct(s: State, now: nat, expired: seq<Txid>)
    requires Expired(s, now, expired)
    ensures NoRepeats(expired)
  {
  }

  // ------------------------------------------------------------- the drain

  /** Ticks, the first at `t` or later, each at least a timeout after the one before. */
  predicate Spaced(inputs: seq<Input>, t: nat)
    decreases |inputs|
  {
    inputs != [] ==> inputs[0].OnTick? && inputs[0].now >= t && Spaced(inputs[1..], inputs[0].now + SERVER_TIMEOUT)
  }

  lemma {:induction false} DrainSteps(w: World, inputs: seq<Input>, t: nat, k: nat)
    requires Good(w, {}) && LegalRun(w, inputs) && Spaced(inputs, t) && Due(w.s, t) && AtLeast(w.s, k)
    ensures Good(After(w, inputs), {}) && AtLeast(After(w, inputs).s, k + |inputs|)
    decreases |inputs|
  {
    hide Good, Next, AtLeast;
    if inputs != [] {
      var now := inputs[0].now;
      LegalTick(w, inputs[0]);
      TickAdvances(w, now, inputs[0].expired, k);
      hide Due;
      DrainSteps(Next(w, inputs[0]), inputs[1..], now + SERVER_TIMEOUT, k + 1);
    }
  }

  lemma LegalTick(w: World, i: Input)
    requires Legal(w, i) && i.OnTick?
    ensures Expired(w.s, i.now, i.expired)
  {
  }

  lemma OneAttempt(w: World)
    requires Good(w, {})
    ensures AtLeast(w.s, 1)
  {
    hide Ledger, Traced, Settled, Booked, Valued, Owned;
    forall id | id in w.s.tasks ensures w.s.tasks[id].attempt >= 1 { assert Flying(w.s, id); }
  }

  lemma NoAttemptsLeft(s: State)
    requires Inv(s, {}) && AtLeast(s, MAX_ATTEMPTS + 1)
    ensures s.tasks == map[] && s.txs == map[] && s.lookups == map[]
  {
    hide Valued, Flying, Owned;
    forall q | q in s.lookups ensures Live(s, q) { WaitingIsLive(s, q); }
    assert s.tasks.Keys == {};
    assert s.txs.Keys == {};
    assert s.lookups.Keys == {};
  }

  /** When no deadline is after `t`, as many ticks as a question has attempts, a timeout apart, empty the engine. */
  lemma Drained(w: World, ticks: seq<Input>, t: nat)
    requires Good(w, {}) && Due(w.s, t) && Spaced(ticks, t) && LegalRun(w, ticks) && |ticks| >= MAX_ATTEMPTS
    ensures var w' := After(w, ticks);
            w'.s.tasks == map[] && w'.s.txs == map[] && w'.s.lookups == map[]
  {
    hide Inv, Ledger, Traced, Settled, Booked, LegalRun, After, Spaced, Due;
    OneAttempt(w);
    DrainSteps(w, ticks, t, 1);
    var w' := After(w, ticks);
    assert AtLeast(w'.s, MAX_ATTEMPTS + 1);
    NoAttemptsLeft(w'.s);
  }

  /**
   * After any run whose inputs all came by `t`, as many ticks as a question has attempts, a timeout
   * apart and the first that long after `t`, leave nothing in flight; every question asked has been
   * answered once, but for those abandoned while live, which were never answered.
   */
  lemma RunDrains(entropy: seq<Option<Random>>, inputs: seq<Input>, ticks: seq<Input>, t: nat, q: Qid)
    requires LegalRun(Start(entropy), inputs + ticks)
    requires forall i :: 0 <= i < |inputs| ==> TimeOf(inputs[i]) <= t
    requires Spaced(ticks, t + SERVER_TIMEOUT) && |ticks| >= MAX_ATTEMPTS
    ensures var o, all := Play(Initial(entropy), inputs + ticks), inputs + ticks;
            && o.s.tasks == map[] && o.s.txs == map[] && o.s.lookups == map[]
            && DoneCount(o.acts, q)
               == if exists k: nat :: DroppedAt(Initial(entropy), all, q, k) then 0 else AskCount(all, q)
  {
    hide Good, LegalRun, After, Spaced, TimeOf, Play, DroppedAt, AskCount, DoneCount;
    StartGood(entropy);
    RunSplit(Start(entropy), inputs, ticks);
    RunGood(Start(entropy), inputs + ticks);
    ExactlyOnce(entropy, inputs + ticks, q);
    RunDue(Start(entropy), inputs, t + SERVER_TIMEOUT);
    Drained(After(Start(entropy), inputs), ticks, t + SERVER_TIMEOUT);
    assert !Live(Play(Initial(entropy), inputs + ticks).s, q);
  }
}
