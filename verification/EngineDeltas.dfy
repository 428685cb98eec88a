/** What each of the engine's operations does to its open transactions and live questions, as its caller sees it. */
module EngineDeltas {
  import opened Bytes
  import opened Results
  import opened Names
  import opened Caches
  import opened Routing
  import opened EngineModel
  import opened EngineSteps
  import opened EngineInvariant
  import opened EngineResume
  import opened EngineAsk
  import opened EngineEffect
  import opened EngineAbandon
  import opened EngineTrace
  import EngineRuns

  /** No transaction is opened or closed twice in one list of actions. */
  predicate Once(acts: seq<Action>) {
    forall i, j :: 0 <= i < j < |acts| ==>
      !(acts[i].Send? && acts[j].Send? && acts[i].tx == acts[j].tx)
      && !(acts[i].Cancel? && acts[j].Cancel? && acts[i].tx == acts[j].tx)
  }

  predicate Numbered(acts: seq<Action>, from: nat, to: nat) {
    forall i :: 0 <= i < |acts| && acts[i].Send? ==> from <= acts[i].tx < to
  }

  /**
   * The operation ended the transactions in `gone`, of which the actions close those in their
   * cancels, opened those in their sends, and answered a question once when its last task ended.
   */
  ghost predicate Delta(s: State, o: Out, gone: set<Txid>) {
    && Inv(o.s, {}) && s.nextId <= o.s.nextId && o.s.cfg == s.cfg && gone <= s.txs.Keys
    && o.s.txs.Keys == s.txs.Keys - gone + Sends(o.acts)
    && Once(o.acts) && Numbered(o.acts, s.nextId, o.s.nextId) && Cancels(o.acts) <= gone
    && forall q :: LiveCount(s, q) == LiveCount(o.s, q) + DoneCount(o.acts, q)
  }

  lemma ActedNumbered(s: State, o: Out)
    requires Acted(s, o)
    ensures Numbered(o.acts, s.nextId, o.s.nextId) && Once(o.acts)
  {
    hide GoodAction;
  }

  lemma ResumedDelta(s: State, tx: Txid, o: Out, now: nat, r: Resume)
    requires Inv(s, {}) && ResumedBy(s, tx, o, now, r)
    ensures Delta(s, o, {tx}) && Cancels(o.acts) == {}
  {
    hide Inv, ResumedBy, Acted, Effect, Sends, Cancels, Live, DoneCount, Once, Numbered, Potential;
    ResumedTx(s, tx, o, now, r);
    ResumedKeeps(s, tx, o, now, r);
    ResumeActed(s, tx, o, now, r);
    ActedNumbered(s, o);
    ResumedEffect(s, tx, o, now, r);
    assert o.s.cfg == s.cfg by { EffectCfg(s, o.s, s.txs[tx].task, r, tx, now); }
    forall q ensures LiveCount(s, q) == LiveCount(o.s, q) + DoneCount(o.acts, q) { ResumedLive(s, tx, o, now, r, q); }
  }

  lemma EffectCfg(s: State, s': State, id: TaskId, r: Resume, tx: Txid, now: nat)
    requires tx in s.txs && id in s.tasks && id == s.txs[tx].task
    requires Effect(s, {tx}, s', id, s.tasks[id].candidates, Potential(s.tasks[id]), Some(s.txs[tx].server), now)
    ensures s'.cfg == s.cfg
  {
  }

  lemma FailedDelta(s: State, tx: Txid, now: nat)
    requires Inv(s, {}) && tx in s.txs
    ensures Delta(s, Failed(s, tx, now), {tx}) && Cancels(Failed(s, tx, now).acts) == {}
  {
    hide Inv, ResumedBy, Failed, Delta, Cancels;
    EngineRuns.InvTx(s, tx);
    var r := FailedResumes(s, tx, now);
    ResumedDelta(s, tx, Failed(s, tx, now), now, r);
  }

  lemma LocalFailedDelta(s: State, tx: Txid, now: nat)
    requires Inv(s, {}) && tx in s.txs
    ensures Delta(s, LocalFailed(s, tx, now), {tx}) && Cancels(LocalFailed(s, tx, now).acts) == {}
  {
    hide Inv, ResumedBy, LocalFailed, Delta, Cancels;
    EngineRuns.InvTx(s, tx);
    var r := LocalFailedResumes(s, tx, now);
    ResumedDelta(s, tx, LocalFailed(s, tx, now), now, r);
  }

  lemma InvTask(s: State, tx: Txid)
    requires Inv(s, {}) && tx in s.txs
    ensures s.txs[tx].task in s.tasks && s.tasks[s.txs[tx].task].attempt > 0 && ValidTask(s.tasks[s.txs[tx].task])
    ensures GoodCache(s.cache)
  {
    hide Owned, ValidTask, AsksFor, GoodCache, GoodParts, Families;
    assert Flying(s, s.txs[tx].task);
  }

  lemma ReceivedDelta(s: State, tx: Txid, bytes: seq<byte>, now: nat, keys: seq<CacheKey>)
    requires Inv(s, {}) && MatchingResponse(s, tx, bytes).Some? && Walks(keys, s.cache)
    ensures tx in s.txs && Delta(s, Received(s, tx, bytes, now, keys), {tx})
    ensures Cancels(Received(s, tx, bytes, now, keys).acts) == {}
  {
    hide Inv, ResumedBy, Received, MatchingResponse, Delta, Cancels;
    MatchLive(s, tx, bytes);
    InvTask(s, tx);
    var r := ReceivedResumes(s, tx, bytes, now, keys);
    ResumedDelta(s, tx, Received(s, tx, bytes, now, keys), now, r);
  }

  // ---------------------------------------------------------- one after another

  lemma SendsOver(a: seq<Action>, b: seq<Action>)
    ensures Sends(a + b) == Sends(a) + Sends(b) && Cancels(a + b) == Cancels(a) + Cancels(b)
  {
    var c := a + b;
    forall i | 0 <= i < |a| ensures c[i] == a[i] {}
    forall i | 0 <= i < |b| ensures c[|a| + i] == b[i] {}
    forall x | x in Sends(a) ensures x in Sends(c) {
      var i :| 0 <= i < |a| && a[i].Send? && a[i].tx == x;
      assert c[i].tx == x;
    }
    forall x | x in Sends(b) ensures x in Sends(c) {
      var i :| 0 <= i < |b| && b[i].Send? && b[i].tx == x;
      assert c[|a| + i].tx == x;
    }
    forall x | x in Cancels(a) ensures x in Cancels(c) {
      var i :| 0 <= i < |a| && a[i].Cancel? && a[i].tx == x;
      assert c[i].tx == x;
    }
    forall x | x in Cancels(b) ensures x in Cancels(c) {
      var i :| 0 <= i < |b| && b[i].Cancel? && b[i].tx == x;
      assert c[|a| + i].tx == x;
    }
    forall x | x in Sends(c) ensures x in Sends(a) + Sends(b) {
      var i :| 0 <= i < |c| && c[i].Send? && c[i].tx == x;
      if i < |a| { assert a[i].tx == x; } else { assert b[i - |a|].tx == x; }
    }
    forall x | x in Cancels(c) ensures x in Cancels(a) + Cancels(b) {
      var i :| 0 <= i < |c| && c[i].Cancel? && c[i].tx == x;
      if i < |a| { assert a[i].tx == x; } else { assert b[i - |a|].tx == x; }
    }
  }

  lemma OnceOver(a: seq<Action>, b: seq<Action>)
    requires Once(a) && Once(b) && Sends(a) !! Sends(b) && Cancels(a) !! Cancels(b)
    ensures Once(a + b)
  {
    forall i | 0 <= i < |a| ensures (a[i].Send? ==> a[i].tx in Sends(a)) && (a[i].Cancel? ==> a[i].tx in Cancels(a)) {}
    forall i | 0 <= i < |b| ensures (b[i].Send? ==> b[i].tx in Sends(b)) && (b[i].Cancel? ==> b[i].tx in Cancels(b)) {}
    hide Sends, Cancels;
  }

  lemma NumberedSends(acts: seq<Action>, from: nat, to: nat)
    requires Numbered(acts, from, to)
    ensures forall x :: x in Sends(acts) ==> from <= x < to
  {
  }

  lemma KeysOver(k: set<Txid>, k1: set<Txid>, k2: set<Txid>, goneA: set<Txid>, goneB: set<Txid>, a: set<Txid>,
                 b: set<Txid>)
    requires k1 == k - goneA + a && k2 == k1 - goneB + b && goneB <= k && goneA !! goneB && a !! k
    ensures k2 == k - (goneA + goneB) + (a + b)
  {
  }

  lemma NumberedOver(a: seq<Action>, b: seq<Action>, from: nat, mid: nat, to: nat)
    requires Numbered(a, from, mid) && Numbered(b, mid, to) && from <= mid <= to
    ensures Numbered(a + b, from, to)
  {
  }

  /** The states' transactions are numbered below the next number, so new ones are new. */
  lemma NewSends(s: State, acts: seq<Action>, from: nat, to: nat)
    requires Numbered(acts, from, to) && forall x :: x in s.txs ==> x < from
    ensures Sends(acts) !! s.txs.Keys
  {
    NumberedSends(acts, from, to);
    hide Sends, Numbered;
  }

  lemma SendsApart(a: seq<Action>, b: seq<Action>, from: nat, mid: nat, to: nat)
    requires Numbered(a, from, mid) && Numbered(b, mid, to)
    ensures Sends(a) !! Sends(b)
  {
    NumberedSends(a, from, mid);
    NumberedSends(b, mid, to);
    hide Sends, Numbered;
  }

  /** Two operations in a row. */
  lemma DeltaOver(s: State, a: Out, b: Out, goneA: set<Txid>, goneB: set<Txid>)
    requires Delta(s, a, goneA) && Delta(a.s, b, goneB) && goneA !! goneB && goneB <= s.txs.Keys
    requires forall x :: x in s.txs ==> x < s.nextId
    ensures Delta(s, Out(b.s, a.acts + b.acts), goneA + goneB)
  {
    hide Sends, Cancels, Live, DoneCount, Once, Inv, Numbered;
    NewSends(s, a.acts, s.nextId, a.s.nextId);
    SendsApart(a.acts, b.acts, s.nextId, a.s.nextId, b.s.nextId);
    NumberedOver(a.acts, b.acts, s.nextId, a.s.nextId, b.s.nextId);
    SendsOver(a.acts, b.acts);
    OnceOver(a.acts, b.acts);
    KeysOver(s.txs.Keys, a.s.txs.Keys, b.s.txs.Keys, goneA, goneB, Sends(a.acts), Sends(b.acts));
    forall q ensures LiveCount(s, q) == LiveCount(b.s, q) + DoneCount(a.acts + b.acts, q) {
      DoneConcat(a.acts, b.acts, q);
    }
  }

  lemma Nothing(s: State)
    requires Inv(s, {})
    ensures Delta(s, Out(s, []), {})
  {
    hide Inv, Live;
    assert Sends([]) == {} && Cancels([]) == {};
    assert s.txs.Keys - {} + {} == s.txs.Keys;
  }

  lemma BelowNext(s: State)
    requires Inv(s, {})
    ensures forall x :: x in s.txs ==> x < s.nextId
  {
    hide Owned, Valued, Flying;
  }

  // ------------------------------------------------------------------- ticks

  lemma CancelFirst(s: State, o: Out, x: Txid)
    requires Delta(s, o, {x}) && Cancels(o.acts) == {}
    ensures Delta(s, Out(o.s, [Cancel(x)] + o.acts), {x}) && Cancels([Cancel(x)] + o.acts) == {x}
  {
    OneCancel(x);
    hide Sends, Cancels, Live, Inv, Once, DoneCount;
    SendsOver([Cancel(x)], o.acts);
    OnceOver([Cancel(x)], o.acts);
    forall q ensures DoneCount([Cancel(x)] + o.acts, q) == DoneCount(o.acts, q) {
      DoneConcat([Cancel(x)], o.acts, q);
      EngineRuns.CancelNotDone(x, q);
    }
    forall i | 0 <= i < |[Cancel(x)] + o.acts| && ([Cancel(x)] + o.acts)[i].Send?
      ensures i > 0 && ([Cancel(x)] + o.acts)[i] == o.acts[i - 1]
    {
    }
  }

  lemma OneCancel(x: Txid)
    ensures Sends([Cancel(x)]) == {} && Cancels([Cancel(x)]) == {x} && Once([Cancel(x)])
  {
    assert [Cancel(x)][0].tx == x;
  }

  function Listed(xs: seq<Txid>): set<Txid> {
    set i | 0 <= i < |xs| :: xs[i]
  }

  lemma ListedCons(xs: seq<Txid>)
    requires xs != [] && NoRepeats(xs)
    ensures Listed(xs) == {xs[0]} + Listed(xs[1..]) && xs[0] !in Listed(xs[1..]) && NoRepeats(xs[1..])
  {
    forall x ensures x in Listed(xs) <==> x == xs[0] || x in Listed(xs[1..]) {
      if x in Listed(xs) && x != xs[0] {
        var i :| 0 <= i < |xs| && xs[i] == x;
        assert xs[1..][i - 1] == x;
      }
      if x in Listed(xs[1..]) {
        var i :| 0 <= i < |xs[1..]| && xs[1..][i] == x;
        assert xs[i + 1] == x;
      }
    }
  }

  /** A tick ends exactly the transactions listed, and closes them all. */
  lemma {:induction false} TickDelta(s: State, expired: seq<Txid>, now: nat)
    requires Inv(s, {}) && NoRepeats(expired) && Listed(expired) <= s.txs.Keys
    ensures Delta(s, Tick(s, expired, now), Listed(expired)) && Cancels(Tick(s, expired, now).acts) == Listed(expired)
    decreases |expired|
  {
    hide Inv, Failed, Delta, NoRepeats, Sends, Cancels;
    if expired == [] {
      Nothing(s);
      assert Listed(expired) == {};
      NoCancels();
    } else {
      hide Listed;
      ListedCons(expired);
      var x, o := expired[0], Failed(s, expired[0], now);
      FailedDelta(s, x, now);
      CancelFirst(s, o, x);
      DeltaKeys(s, o, {x});
      TickDelta(o.s, expired[1..], now);
      var rest := Tick(o.s, expired[1..], now);
      BelowNext(s);
      DeltaOver(s, Out(o.s, [Cancel(x)] + o.acts), rest, {x}, Listed(expired[1..]));
      SendsOver([Cancel(x)] + o.acts, rest.acts);
    }
  }

  lemma NoCancels()
    ensures Cancels([]) == {} && Sends([]) == {}
  {
  }

  lemma DeltaKeys(s: State, o: Out, gone: set<Txid>)
    requires Delta(s, o, gone)
    ensures Inv(o.s, {}) && o.s.txs.Keys == s.txs.Keys - gone + Sends(o.acts)
  {
  }

  // --------------------------------------------------------------- questions

  /** First steps opened some transactions and closed none; `idle` tasks have yet to take theirs. */
  ghost predicate Adds(s: State, o: Out, idle: set<TaskId>) {
    && Inv(o.s, idle) && s.nextId <= o.s.nextId && o.s.cfg == s.cfg
    && o.s.txs.Keys == s.txs.Keys + Sends(o.acts)
    && Once(o.acts) && Numbered(o.acts, s.nextId, o.s.nextId) && Cancels(o.acts) == {}
    && forall q :: LiveCount(s, q) == LiveCount(o.s, q) + DoneCount(o.acts, q)
  }

  lemma AdvanceAdds(s: State, id: TaskId, now: nat, idle: set<TaskId>)
    requires Inv(s, idle) && id in idle && id in s.tasks && Fresh(s.tasks[id]) && ValidConfig(s.cfg)
    ensures Adds(s, Advance(s, id, now), idle - {id})
    ensures forall x :: x in idle && x != id ==>
              x in Advance(s, id, now).s.tasks && Advance(s, id, now).s.tasks[x] == s.tasks[x]
  {
    hide Inv, Advance, AdvancedBy, Acted, Sends, Cancels, Live, DoneCount, Once, Numbered, ValidConfig, ValidTask;
    EngineRuns.InvCache(s, idle);
    var o := Advance(s, id, now);
    var s1, e := AdvanceBy(s, id, now);
    AdvanceKeeps(s, id, now, idle);
    AdvanceActed(s, id, o, now, s1, e, idle);
    ActedNumbered(s, o);
    assert o.s.cfg == s.cfg by { AdvanceCfg(s, id, o, now, s1, e, idle); }
    forall q ensures LiveCount(s, q) == LiveCount(o.s, q) + DoneCount(o.acts, q) { AdvanceLive(s, id, now, idle, q); }
  }

  lemma AdvanceCfg(s: State, id: TaskId, o: Out, now: nat, s1: State, e: End, idle: set<TaskId>)
    requires Inv(s, idle) && id in idle && id in s.tasks && Fresh(s.tasks[id]) && AdvancedBy(s, id, o, now, s1, e)
    ensures o.s.cfg == s.cfg
  {
    hide Inv, AdvancedBy, Candidates, Budget, StartedBy, CacheStep, KeyOf;
    AdvancedEffect(s, id, o, now, s1, e, idle);
  }

  lemma AddsOver(s: State, a: Out, b: Out, idle: set<TaskId>, idle': set<TaskId>)
    requires Adds(s, a, idle) && Adds(a.s, b, idle')
    ensures Adds(s, Out(b.s, a.acts + b.acts), idle')
  {
    hide Sends, Cancels, Live, DoneCount, Once, Inv, Numbered;
    SendsApart(a.acts, b.acts, s.nextId, a.s.nextId, b.s.nextId);
    NumberedOver(a.acts, b.acts, s.nextId, a.s.nextId, b.s.nextId);
    SendsOver(a.acts, b.acts);
    OnceOver(a.acts, b.acts);
    forall q ensures LiveCount(s, q) == LiveCount(b.s, q) + DoneCount(a.acts + b.acts, q) {
      DoneConcat(a.acts, b.acts, q);
    }
  }

  lemma NothingAdded(s: State, idle: set<TaskId>)
    requires Inv(s, idle)
    ensures Adds(s, Out(s, []), idle)
  {
    hide Inv, Live;
    NoCancels();
  }

  lemma {:induction false} AllAdds(s: State, ids: seq<TaskId>, now: nat)
    requires Inv(s, IdSet(ids)) && NoRepeats(ids) && ValidConfig(s.cfg)
    requires forall id :: id in ids ==> id in s.tasks && Fresh(s.tasks[id])
    ensures Adds(s, AdvanceAll(s, ids, now), {})
    decreases |ids|
  {
    hide Inv, Advance, Fresh, Adds, ValidConfig;
    if ids == [] {
      assert IdSet(ids) == {};
      NothingAdded(s, {});
    } else {
      AdvanceAdds(s, ids[0], now, IdSet(ids));
      assert IdSet(ids) - {ids[0]} == IdSet(ids[1..]) by { EngineRuns.IdsRest(ids); }
      var o := Advance(s, ids[0], now);
      AddsMeans(s, o, IdSet(ids[1..]));
      AllAdds(o.s, ids[1..], now);
      AddsOver(s, o, AdvanceAll(o.s, ids[1..], now), IdSet(ids[1..]), {});
    }
  }

  lemma AddsMeans(s: State, o: Out, idle: set<TaskId>)
    requires Adds(s, o, idle)
    ensures Inv(o.s, idle) && o.s.cfg == s.cfg
  {
  }

  /** A new question: transactions opened, and the question live or answered. */
  ghost predicate Opens(s: State, o: Out, q: Qid) {
    && Inv(o.s, {}) && s.nextId <= o.s.nextId && o.s.cfg == s.cfg
    && o.s.txs.Keys == s.txs.Keys + Sends(o.acts)
    && Once(o.acts) && Numbered(o.acts, s.nextId, o.s.nextId) && Cancels(o.acts) == {}
    && forall y :: LiveCount(s, y) + (if y == q then 1 else 0) == LiveCount(o.s, y) + DoneCount(o.acts, y)
  }

  lemma StartOpens(s: State, s0: State, q: Qid, o: Out)
    requires Adds(s0, o, {}) && !Live(s, q) && s0.txs == s.txs && s0.cfg == s.cfg && s.nextId <= s0.nextId
    requires forall y :: Live(s0, y) == (Live(s, y) || y == q)
    ensures Opens(s, o, q)
  {
    hide Inv, Live, DoneCount, Sends, Cancels, Once;
    forall i | 0 <= i < |o.acts| && o.acts[i].Send? ensures s.nextId <= o.acts[i].tx < o.s.nextId {}
  }

  lemma ResolveOpens(s: State, q: Qid, name: Name, rtype: u16, noCache: bool, now: nat)
    requires Inv(s, {}) && !Live(s, q) && ValidName(name) && ValidConfig(s.cfg)
    ensures Opens(s, ResolveName(Asked(s), q, name, rtype, noCache, now), q)
  {
    hide Inv, Live, ValidName, ValidConfig, Fresh, NewTasks, IdSet, Advance, Opens, Adds;
    EngineRuns.CountedInv(s, Asked(s));
    var a := Asked(s);
    var s0 := StartTask(a, ResolveOwner(q), name, rtype, noCache);
    StartOne(a, ResolveOwner(q), name, rtype, noCache);
    assert IdsFrom(a.nextId, 1) == [a.nextId];
    hide IdsFrom;
    StartKeeps(a, s0, ResolveOwner(q), name, [rtype], noCache, [a.nextId]);
    EngineRuns.AddedAsked(s, s0, ResolveOwner(q), name, [rtype]);
    AllAdds(s0, [a.nextId], now);
    EngineRuns.AdvanceOne(s0, a.nextId, now);
    StartOpens(s, s0, q, Advance(s0, a.nextId, now));
  }

  lemma LookupOpens(s: State, q: Qid, name: Name, family: Family, now: nat)
    requires Inv(s, {}) && !Live(s, q) && ValidName(name) && ValidConfig(s.cfg)
    ensures Opens(s, LookupName(Asked(s), q, name, family, now), q)
  {
    hide Inv, Live, ValidName, ValidConfig, Fresh, NewTasks, IdSet, AdvanceAll, StartTasks, Opens, Adds;
    EngineRuns.CountedInv(s, Asked(s));
    var a := Asked(s);
    var types := FamilyTypes(family);
    var ids := IdsFrom(a.nextId, |types|);
    var s1 := StartTasks(a, q, name, types);
    StartTasksStart(a, q, name, types);
    var s0 := s1.(lookups := s1.lookups[q := Lookup(name, ids, [])]);
    StartKeeps(a, s0, LookupOwner(q), name, types, false, ids);
    EngineRuns.AddedAsked(s, s0, LookupOwner(q), name, types);
    IdsAre(a.nextId, |types|);
    assert ids == seq(|types|, i => a.nextId + i);
    hide IdsFrom;
    AllAdds(s0, ids, now);
    StartOpens(s, s0, q, AdvanceAll(s0, ids, now));
  }

  lemma RejectOpens(s: State, q: Qid, c: Completion)
    requires Inv(s, {}) && !Live(s, q)
    ensures Opens(s, Out(Asked(s), [Done(q, c)]), q)
  {
    hide Inv, Live, DoneCount;
    EngineRuns.CountedInv(s, Asked(s));
    forall y ensures DoneCount([Done(q, c)], y) == if y == q then 1 else 0 { EngineRuns.OneDone(q, c, y); }
    OnlyDone([Done(q, c)]);
  }

  // ------------------------------------------------------------- abandoning

  /** The transactions of the tasks listed. */
  function TxsOf(s: State, ids: seq<TaskId>): set<Txid> {
    set x | x in s.txs && s.txs[x].task in ids
  }

  lemma AbandonCloses(s: State, q: Qid, ids: seq<TaskId>)
    requires Inv(s, {}) && EngineRuns.TasksOf(s, q, ids)
    ensures var o := Abandon(s, q, ids);
            && Inv(o.s, {}) && o.s.nextId == s.nextId && o.s.cfg == s.cfg
            && o.s.txs.Keys == s.txs.Keys - TxsOf(s, ids) && Cancels(o.acts) == TxsOf(s, ids)
            && Sends(o.acts) == {} && Once(o.acts)
            && forall y :: LiveCount(o.s, y) == (if y == q then 0 else LiveCount(s, y)) && DoneCount(o.acts, y) == 0
  {
    hide Inv, Live, Abandon, DoneCount, NoRepeats;
    AbandonKeeps(s, q, ids);
    var o := Abandon(s, q, ids);
    forall y ensures DoneCount(o.acts, y) == 0 { CancelsNotDone(o.acts, y); }
    EachCancels(s, q, ids, o.acts);
    assert o.s.txs.Keys == s.txs.Keys - TxsOf(s, ids);
  }

  lemma EachCancels(s: State, q: Qid, ids: seq<TaskId>, acts: seq<Action>)
    requires Inv(s, {}) && EngineRuns.TasksOf(s, q, ids) && CancelsEach(s, ids, acts)
    ensures Cancels(acts) == TxsOf(s, ids) && Sends(acts) == {} && Once(acts)
  {
    hide Owned, Valued;
    forall i | 0 <= i < |ids| ensures Flying(s, ids[i]) { assert ids[i] in ids; }
    forall x | x in TxsOf(s, ids) ensures x in Cancels(acts) {
      var i :| 0 <= i < |ids| && ids[i] == s.txs[x].task;
      assert acts[i].tx == x;
    }
  }
}
