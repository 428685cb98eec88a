/** What the engine tells its caller: the actions of a step, and of a whole history. */
module EngineTrace {
  import opened Results
  import opened Names
  import opened Dns
  import opened Lookups
  import opened Caches
  import opened Routing
  import opened EngineModel
  import opened EngineSteps
  import opened EngineInvariant
  import opened EngineResume
  import opened EngineAsk
  import opened EngineEffect
  import opened EngineWorld

  // ------------------------------------------------------------ one step

  /** Only a found completion carries records or addresses, and records are well formed and of class IN. */
  predicate GoodCompletion(c: Completion) {
    match c
    case AnswerDone(a) => GoodAnswer(a)
    case AddressesDone(a) => a.outcome != Found ==> a.addresses == []
  }

  /** The action sends exactly the query the transaction is for. */
  predicate Carries(a: Action, x: Tx) {
    a.Send? && a.server == x.server && a.tcp == x.tcp && a.payload == QueryBytes(x.dnsId, x.question)
  }

  predicate GoodAction(a: Action, txs: map<Txid, Tx>) {
    && (a.Done? ==> GoodCompletion(a.completion))
    && (a.Send? ==> a.tx in txs && Carries(a, txs[a.tx]))
  }

  /** A step's one action, if any: a completion, or the transaction it started. */
  predicate Acted(s: State, o: Out) {
    && |o.acts| <= 1 && (forall i :: 0 <= i < |o.acts| ==> !o.acts[i].Cancel? && GoodAction(o.acts[i], o.s.txs))
    && (if |o.acts| == 1 && o.acts[0].Send?
        then o.acts[0].tx == s.nextId && o.s.nextId == s.nextId + 1
             && o.s.counters.upstreamSent == s.counters.upstreamSent + 1
        else o.s.nextId == s.nextId && o.s.counters.upstreamSent == s.counters.upstreamSent)
  }

  lemma {:induction false} NoAddresses(name: Name, parts: seq<Part>)
    requires !Any(parts, Found)
    ensures AllAddresses(name, parts) == []
  {
    hide PartChased;
    if parts != [] {
      var n := |parts| - 1;
      assert parts == parts[..n] + [parts[n]];
      SomeSnoc(parts[..n], parts[n], Found);
      hide Any;
      NoAddresses(name, parts[..n]);
    }
  }

  lemma CombineGood(name: Name, parts: seq<Part>)
    ensures GoodCompletion(AddressesDone(Combine(name, parts)))
  {
    hide PartChased, Best;
    if !Any(parts, Found) { NoAddresses(name, parts); }
  }

  lemma SettleActed(s: State, id: TaskId, a: Answer)
    requires id in s.tasks && s.tasks[id].tx.None? && GoodAnswer(a)
    ensures Acted(s, Settle(s, id, a))
  {
    hide Combine, Without, GoodAnswer;
    SettleShape(s, id, a);
    SettleActs(s, id, a);
    var t := s.tasks[id];
    if t.owner.LookupOwner? && t.owner.qid in s.lookups {
      CombineGood(s.lookups[t.owner.qid].name, s.lookups[t.owner.qid].results + [Part(t.rtype, a)]);
    }
  }

  lemma FinishActed(s: State, id: TaskId, e: End, now: nat)
    requires id in s.tasks && s.tasks[id].tx.None? && GoodEnd(e)
    ensures Acted(s, Finish(s, id, e, now))
    ensures var c := Finish(s, id, e, now).s.counters; c == s.counters.(upstreamSent := c.upstreamSent)
  {
    hide Settle, Launch, Acted, GoodAnswer, LaunchedTx, LookupsAfter;
    match e
    case EndSettle(a) =>
      SettleShape(s, id, a);
      SettleActed(s, id, a);
    case EndSend(server, tcp, r) =>
      LaunchShape(s, id, server, tcp, r, now);
      LaunchActed(s, id, server, tcp, r, now);
  }

  lemma LaunchActed(s: State, id: TaskId, server: IpAddr, tcp: bool, r: Random, now: nat)
    requires id in s.tasks
    ensures Acted(s, Launch(s, id, server, tcp, r, now))
  {
    hide Launch, QueryBytes;
    LaunchShape(s, id, server, tcp, r, now);
  }

  /** Seen from before the step was prepared. */
  lemma ActedFrom(s: State, s1: State, o: Out)
    requires Acted(s1, o) && s1.nextId == s.nextId && s1.counters.upstreamSent == s.counters.upstreamSent
    ensures Acted(s, o)
  {
    hide GoodAction;
  }

  lemma AdvanceActed(s: State, id: TaskId, o: Out, now: nat, s1: State, e: End, idle: set<TaskId>)
    requires Inv(s, idle) && id in idle && AdvancedBy(s, id, o, now, s1, e)
    ensures Acted(s, o)
    ensures o.s.counters.upstreamAnswered == s.counters.upstreamAnswered
    ensures o.s.counters.upstreamFailed == s.counters.upstreamFailed
  {
    hide Inv, Finish, Configured, Route, Candidates, GoodAnswer, Acted, Room, NamesFrom, OnRoute;
    AdvanceReady(s, id, o, now, s1, e, idle);
    InvIdleIn(s1, id, idle);
    FinishActed(s1, id, e, now);
    ActedFrom(s, s1, o);
  }

  lemma ResumeActed(s: State, tx: Txid, o: Out, now: nat, r: Resume)
    requires Inv(s, {}) && ResumedBy(s, tx, o, now, r)
    ensures Acted(s, o)
    ensures o.s.counters.upstreamAnswered == r.s0.counters.upstreamAnswered
    ensures o.s.counters.upstreamFailed == r.s0.counters.upstreamFailed
  {
    hide Inv, Finish, Configured, Route, GoodAnswer, Acted, Room, NamesFrom, Spends, CacheStep, KeyOf;
    ResumedReady(s, tx, o, now, r);
    InvIdleIn(r.s1, s.txs[tx].task, {s.txs[tx].task});
    FinishActed(r.s1, s.txs[tx].task, r.e, now);
    ActedFrom(s, r.s1, o);
  }

  // ---------------------------------------------------------- the history

  /** Every send carries its own transaction's query, no number is sent twice, and every completion is good. */
  ghost predicate Traced(w: World) {
    && (forall i :: 0 <= i < |w.trace| ==> GoodAction(w.trace[i], w.issued))
    && NoReissue(w.trace)
    && (forall x :: x in w.issued ==> Sent(w.trace, x))
    && |w.issued| == w.s.counters.upstreamSent
  }

  predicate NoReissue(trace: seq<Action>) {
    forall i, j :: 0 <= i < j < |trace| && trace[i].Send? && trace[j].Send? ==> trace[i].tx != trace[j].tx
  }

  predicate Sent(trace: seq<Action>, x: Txid) {
    exists i :: 0 <= i < |trace| && trace[i].Send? && trace[i].tx == x
  }

  lemma SentMore(a: seq<Action>, b: seq<Action>, x: Txid)
    requires Sent(a, x) || Sent(b, x)
    ensures Sent(a + b, x)
  {
    if Sent(a, x) {
      var i :| 0 <= i < |a| && a[i].Send? && a[i].tx == x;
      assert (a + b)[i] == a[i];
    } else {
      var i :| 0 <= i < |b| && b[i].Send? && b[i].tx == x;
      assert (a + b)[|a| + i] == b[i];
    }
  }

  /** Actions that start nothing. */
  lemma TraceQuiet(w: World, w': World, acts: seq<Action>)
    requires Traced(w) && w'.trace == w.trace + acts && w'.issued == w.issued
    requires w'.s.counters.upstreamSent == w.s.counters.upstreamSent
    requires forall i :: 0 <= i < |acts| ==> !acts[i].Send? && GoodAction(acts[i], w.issued)
    ensures Traced(w')
  {
    hide GoodAction;
    forall x | x in w.issued ensures Sent(w'.trace, x) { SentMore(w.trace, acts, x); }
  }

  lemma StillGood(trace: seq<Action>, issued: map<Txid, Tx>, a: Action, x: Tx, i: nat)
    requires forall i :: 0 <= i < |trace| ==> GoodAction(trace[i], issued)
    requires a.Send? && a.tx !in issued && Carries(a, x) && i < |trace + [a]|
    ensures GoodAction((trace + [a])[i], issued[a.tx := x])
  {
    hide Carries, GoodCompletion;
    if i < |trace| { assert (trace + [a])[i] == trace[i]; }
  }

  lemma StillFresh(trace: seq<Action>, issued: map<Txid, Tx>, a: Action)
    requires forall i :: 0 <= i < |trace| ==> GoodAction(trace[i], issued)
    requires NoReissue(trace) && a.Send? && a.tx !in issued
    ensures NoReissue(trace + [a])
  {
    hide Carries, GoodCompletion;
    forall i | 0 <= i < |trace| && trace[i].Send? ensures trace[i].tx != a.tx { assert GoodAction(trace[i], issued); }
  }

  lemma TraceSend(w: World, w': World, a: Action, x: Tx)
    requires Traced(w) && w'.trace == w.trace + [a] && a.Send? && w'.issued == w.issued[a.tx := x] && Carries(a, x)
    requires a.tx !in w.issued && w'.s.counters.upstreamSent == w.s.counters.upstreamSent + 1
    ensures Traced(w')
  {
    hide Carries, GoodAction, NoReissue, Sent;
    assert w'.issued.Keys == w.issued.Keys + {a.tx};
    StillFresh(w.trace, w.issued, a);
    forall i | 0 <= i < |w'.trace| ensures GoodAction(w'.trace[i], w'.issued) { StillGood(w.trace, w.issued, a, x, i); }
    forall y | y in w'.issued ensures Sent(w'.trace, y) {
      if y == a.tx { SentOne(a); }
      SentMore(w.trace, [a], y);
    }
  }

  lemma SentOne(a: Action)
    requires a.Send?
    ensures Sent([a], a.tx)
  {
    assert [a][0] == a;
  }

  /** The record after a step that started nothing, and after one that started transaction `nextId`. */
  lemma RecordAfter(w: World, gone: set<Txid>, s': State, id: TaskId, pool: seq<Name>, left: int,
                    last: Option<IpAddr>, now: nat)
    requires Recorded(w) && Effect(w.s, gone, s', id, pool, left, last, now)
    ensures s'.nextId == w.s.nextId ==> w.issued + s'.txs == w.issued
    ensures s'.nextId == w.s.nextId + 1 ==>
              w.s.nextId in s'.txs && w.issued + s'.txs == w.issued[w.s.nextId := s'.txs[w.s.nextId]]
    ensures w.s.nextId !in w.issued
  {
    hide StartedBy, CacheStep, KeyOf;
    RecordGrows(w, gone, s', id, pool, left, last, now);
  }

  lemma StepTraced(w: World, gone: set<Txid>, o: Out, id: TaskId, pool: seq<Name>, left: int, last: Option<IpAddr>,
                   now: nat, w': World)
    requires Recorded(w) && Traced(w) && Effect(w.s, gone, o.s, id, pool, left, last, now) && Acted(w.s, o)
    requires w'.s == o.s && w'.trace == w.trace + o.acts && w'.issued == w.issued + o.s.txs
    ensures Traced(w')
  {
    hide Recorded, Traced, Effect, Carries;
    RecordAfter(w, gone, o.s, id, pool, left, last, now);
    if |o.acts| == 1 && o.acts[0].Send? {
      assert o.acts == [o.acts[0]];
      TraceSend(w, w', o.acts[0], o.s.txs[w.s.nextId]);
    } else {
      TraceQuiet(w, w', o.acts);
    }
  }
}
