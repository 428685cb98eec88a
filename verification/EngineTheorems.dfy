/** What is true of every run of the engine. */
module EngineTheorems {
  import opened Bytes
  import opened Results
  import opened Names
  import opened Dns
  import opened Routing
  import opened ReverseNames
  import opened EngineModel
  import opened EngineInvariant
  import opened EngineResume
  import opened EngineAsk
  import opened EngineEffect
  import opened EngineWorld
  import opened EngineTrace
  import opened EngineRuns

  /** The engine alone, input by input. */
  function Play(s: State, inputs: seq<Input>): Out
    decreases |inputs|
  {
    if inputs == [] then Out(s, [])
    else
      var o := Step(s, inputs[0]);
      var rest := Play(o.s, inputs[1..]);
      Out(rest.s, o.acts + rest.acts)
  }

  /** The engine with its ledger, input by input. */
  ghost function After(w: World, inputs: seq<Input>): World
    decreases |inputs|
  {
    if inputs == [] then w else After(Next(w, inputs[0]), inputs[1..])
  }

  ghost predicate LegalRun(w: World, inputs: seq<Input>)
    decreases |inputs|
  {
    inputs != [] ==> Legal(w, inputs[0]) && LegalRun(Next(w, inputs[0]), inputs[1..])
  }

  function Start(entropy: seq<Option<Random>>): World {
    World(Initial(entropy), [], {}, {}, 0, 0, map[], map[], map[], map[], 0, 0)
  }

  lemma StartGood(entropy: seq<Option<Random>>)
    ensures Good(Start(entropy), {})
  {
    hide Ledger, Inv, Traced, Settled;
    var w := Start(entropy);
    StartLedger(w);
    EmptyInv(w.s);
    StartTallies(w);
  }

  lemma StartTallies(w: World)
    requires w.trace == [] && w.asked == {} && w.dropped == {} && w.issued == map[] && w.s.tasks == map[]
    requires w.s.counters.upstreamSent == 0
    ensures Traced(w) && Settled(w)
  {
    forall q ensures !Live(w.s, q) {}
  }

  lemma StartLedger(w: World)
    requires w.s.tasks == map[] && w.s.txs == map[] && w.s.cache == map[] && w.issued == map[] && w.budget == map[]
    requires w.epoch == map[] && w.flushed == 0 && w.mark == 0 && ValidConfig(w.s.cfg)
    ensures Ledger(w, {})
  {
    hide ValidConfig;
  }

  lemma {:induction false} RunGood(w: World, inputs: seq<Input>)
    requires Good(w, {}) && LegalRun(w, inputs)
    ensures Good(After(w, inputs), {})
    ensures After(w, inputs).s == Play(w.s, inputs).s && After(w, inputs).trace == w.trace + Play(w.s, inputs).acts
    decreases |inputs|
  {
    hide Good, Next, Step, Legal;
    if inputs != [] {
      NextGood(w, inputs[0]);
      RunGood(Next(w, inputs[0]), inputs[1..]);
    }
  }

  /** A run with one more input. */
  lemma {:induction false} RunMore(w: World, inputs: seq<Input>, i: Input)
    requires LegalRun(w, inputs) && Legal(After(w, inputs), i)
    ensures LegalRun(w, inputs + [i]) && After(w, inputs + [i]) == Next(After(w, inputs), i)
    decreases |inputs|
  {
    hide Next, Legal;
    if inputs == [] {
      assert inputs + [i] == [i] && [i][1..] == [];
    } else {
      assert (inputs + [i])[0] == inputs[0] && (inputs + [i])[1..] == inputs[1..] + [i];
      RunMore(Next(w, inputs[0]), inputs[1..], i);
    }
  }

  /** A run is its first inputs and then the others. */
  lemma {:induction false} RunSplit(w: World, inputs: seq<Input>, more: seq<Input>)
    requires LegalRun(w, inputs + more)
    ensures LegalRun(w, inputs) && LegalRun(After(w, inputs), more)
    ensures After(w, inputs + more) == After(After(w, inputs), more)
    decreases |inputs|
  {
    hide Next, Legal;
    if inputs == [] {
      assert inputs + more == more;
    } else {
      assert (inputs + more)[0] == inputs[0] && (inputs + more)[1..] == inputs[1..] + more;
      RunSplit(Next(w, inputs[0]), inputs[1..], more);
    }
  }

  // ------------------------------------------------------- what a run notes

  predicate Asks(i: Input, q: Qid) {
    IsAsk(i) && i.q == q
  }

  function AskCount(inputs: seq<Input>, q: Qid): nat {
    if inputs == [] then 0 else (if Asks(inputs[0], q) then 1 else 0) + AskCount(inputs[1..], q)
  }

  predicate Abandons(i: Input, q: Qid) {
    i.OnAbandon? && i.q == q
  }

  /** What only questions, abandoning and configuration changes write. */
  predicate SameBooks(w: World, w': World) {
    && w'.asked == w.asked && w'.dropped == w.dropped && w'.epoch == w.epoch
    && w'.flushed == w.flushed && w'.budget == w.budget && w'.mark == w.mark && w'.cancelled == w.cancelled
  }

  /** Whether the input is a reply accepted and counted as a failure for its code. */
  function ErrorsIn(s: State, i: Input): nat {
    if i.OnReceived? && i.tx in s.txs && MatchingResponse(s, i.tx, i.bytes).Some?
       && ErrorReply(s.txs[i.tx], MatchingResponse(s, i.tx, i.bytes).value) then 1 else 0
  }

  /** The transactions the input cancels by abandoning their question. */
  function CancelsIn(s: State, i: Input): nat {
    if i.OnAbandon? then |Step(s, i).acts| else 0
  }

  /** Error replies accepted over a run. */
  function ErrorReplies(s: State, inputs: seq<Input>): nat
    decreases |inputs|
  {
    if inputs == [] then 0 else ErrorsIn(s, inputs[0]) + ErrorReplies(Step(s, inputs[0]).s, inputs[1..])
  }

  /** Transactions cancelled by abandoning over a run. */
  function AbandonCancels(s: State, inputs: seq<Input>): nat
    decreases |inputs|
  {
    if inputs == [] then 0 else CancelsIn(s, inputs[0]) + AbandonCancels(Step(s, inputs[0]).s, inputs[1..])
  }

  /** The name an input asks about, if it is one. */
  function NameAsked(i: Input): Option<Name> {
    match i
    case OnResolve(_, text, _, _, _) => NameIn(text)
    case OnQuestion(_, question, _) => Some(question.name)
    case OnReverse(_, addr, _) => NameIn(Show(ReverseName(addr)))
    case OnLookup(_, text, _, _) => NameIn(text)
    case _ => None
  }

  function NameIn(text: seq<byte>): Option<Name> {
    if Parse(text).Ok? then Some(Parse(text).value) else None
  }

  /** How many tasks a question starts: one for each type it asks for. */
  function TasksAsked(i: Input): nat {
    if i.OnLookup? then |FamilyTypes(i.family)| else 1
  }

  /** In state `s`, input `i` starts task `id`. */
  predicate StartsTask(s: State, i: Input, id: TaskId) {
    NameAsked(i).Some? && s.nextId <= id < s.nextId + TasksAsked(i)
  }

  lemma NotedSame(w: World, s': State, tx: Txid)
    ensures SameBooks(w, Noted(w, s', tx)) && Noted(w, s', tx).errors == w.errors
  {
    hide Origins;
  }

  lemma {:induction false} AllSame(w: World, ids: seq<TaskId>, now: nat)
    ensures SameBooks(w, NextAll(w, ids, now)) && NextAll(w, ids, now).errors == w.errors
    decreases |ids|
  {
    hide Noted, Advance;
    if ids != [] {
      NotedSame(w, Advance(w.s, ids[0], now).s, 0);
      AllSame(Stepped(w, Advance(w.s, ids[0], now), 0), ids[1..], now);
    }
  }

  lemma {:induction false} TickSame(w: World, expired: seq<Txid>, now: nat)
    ensures SameBooks(w, NextTick(w, expired, now)) && NextTick(w, expired, now).errors == w.errors
    decreases |expired|
  {
    hide Noted, Failed;
    if expired != [] {
      var w1 := w.(trace := w.trace + [Cancel(expired[0])]);
      NotedSame(w1, Failed(w1.s, expired[0], now).s, expired[0]);
      TickSame(NextFailed(w1, expired[0], now), expired[1..], now);
    }
  }

  /** Replies, failures and ticks write none of these, but that an error reply is counted. */
  lemma EventSame(w: World, i: Input)
    requires i.OnReceived? || i.OnFailed? || i.OnLocalFailed? || i.OnTick?
    ensures SameBooks(w, Next(w, i)) && Next(w, i).errors == w.errors + ErrorsIn(w.s, i)
  {
    hide Noted, NextTick, Received, Failed, LocalFailed, MatchingResponse, ErrorReply;
    match i
    case OnReceived(tx, bytes, now, keys) => NotedSame(w, Received(w.s, tx, bytes, now, keys).s, tx);
    case OnFailed(tx, now) => NotedSame(w, Failed(w.s, tx, now).s, tx);
    case OnLocalFailed(tx, now) => NotedSame(w, LocalFailed(w.s, tx, now).s, tx);
    case OnTick(now, expired) => TickSame(w, expired, now);
  }

  /** The books after a question about `name` that started `n` tasks. */
  ghost predicate AskedBooks(w: World, w': World, q: Qid, name: Name, n: nat) {
    && w'.asked == w.asked + {q} && w'.dropped == w.dropped && w'.epoch == w.epoch && w'.flushed == w.flushed
    && w'.mark == w.mark && w'.cancelled == w.cancelled && w'.errors == w.errors
    && (forall id :: id in w'.budget <==> id in w.budget || w.s.nextId <= id < w.s.nextId + n)
    && (forall id :: id in w'.budget ==>
          w'.budget[id] == if id in w.budget && id < w.s.nextId then w.budget[id]
                            else Budget(|Candidates(w.s.cfg, name)|))
  }

  lemma OpenedBooks(w: World, s0: State, q: Qid, name: Name, n: nat)
    requires Recorded(w)
    ensures AskedBooks(w, Opened(w, s0, q, name, n), q, name, n)
  {
    hide Candidates, Budget;
    IdsAre(w.s.nextId, n);
    hide IdsFrom;
  }

  lemma SameAsked(w: World, w1: World, w2: World, q: Qid, name: Name, n: nat)
    requires AskedBooks(w, w1, q, name, n) && SameBooks(w1, w2) && w2.errors == w1.errors
    ensures AskedBooks(w, w2, q, name, n)
  {
    hide Candidates, Budget;
  }

  lemma ResolveBooks(w: World, q: Qid, name: Name, rtype: u16, noCache: bool, now: nat)
    requires Recorded(w)
    ensures AskedBooks(w, NextResolve(w, q, name, rtype, noCache, now), q, name, 1)
  {
    hide NextAll, AskedBooks, SameBooks, Opened, Recorded;
    var s0 := StartTask(Asked(w.s), ResolveOwner(q), name, rtype, noCache);
    var w1 := Opened(w, s0, q, name, 1);
    OpenedBooks(w, s0, q, name, 1);
    AllSame(w1, [w.s.nextId], now);
    SameAsked(w, w1, NextAll(w1, [w.s.nextId], now), q, name, 1);
  }

  lemma LookupBooks(w: World, q: Qid, name: Name, family: Family, now: nat)
    requires Recorded(w)
    ensures AskedBooks(w, NextLookup(w, q, name, family, now), q, name, |FamilyTypes(family)|)
  {
    hide NextAll, AskedBooks, SameBooks, Opened, Recorded, IdsFrom, StartTasks, FamilyTypes;
    var types := FamilyTypes(family);
    var ids := IdsFrom(w.s.nextId, |types|);
    var s1 := StartTasks(Asked(w.s), q, name, types);
    var s0 := s1.(lookups := s1.lookups[q := Lookup(name, ids, [])]);
    var w1 := Opened(w, s0, q, name, |types|);
    OpenedBooks(w, s0, q, name, |types|);
    AllSame(w1, ids, now);
    SameAsked(w, w1, NextAll(w1, ids, now), q, name, |types|);
  }

  /** A question is noted as asked; its tasks get their budgets. */
  lemma AskBooks(w: World, i: Input)
    requires Recorded(w) && IsAsk(i)
    ensures NameAsked(i).Some? ==> AskedBooks(w, Next(w, i), i.q, NameAsked(i).value, TasksAsked(i))
    ensures NameAsked(i).None? ==> SameBooks(w.(asked := w.asked + {i.q}), Next(w, i)) && Next(w, i).errors == w.errors
  {
    hide Recorded, AskedBooks, NextResolve, NextLookup, Parse, Show, ReverseName;
    match i
    case OnResolve(q, text, rtype, noCache, now) =>
      if Parse(text).Ok? { ResolveBooks(w, q, Parse(text).value, rtype, noCache, now); }
    case OnQuestion(q, question, now) => ResolveBooks(w, q, question.name, question.rtype, false, now);
    case OnReverse(q, addr, now) =>
      if Parse(Show(ReverseName(addr))).Ok? {
        ResolveBooks(w, q, Parse(Show(ReverseName(addr))).value, PTR, false, now);
      }
    case OnLookup(q, text, family, now) =>
      if Parse(text).Ok? { LookupBooks(w, q, Parse(text).value, family, now); }
  }

  /** Abandoning drops a live question; configuration changes write the epochs only. */
  lemma ControlBooks(w: World, i: Input)
    requires !IsAsk(i) && !i.OnReceived? && !i.OnFailed? && !i.OnLocalFailed? && !i.OnTick?
    ensures var w' := Next(w, i);
            && w'.asked == w.asked && w'.budget == w.budget
            && w'.dropped == (if i.OnAbandon? && Live(w.s, i.q) then w.dropped + {i.q} else w.dropped)
            && (!i.OnScopes? && !i.OnFallback? && !i.OnFlush? ==> w'.epoch == w.epoch && w'.flushed == w.flushed)
            && (!Rescopes(i) ==> w'.mark == w.mark)
            && w'.errors == w.errors && w'.cancelled == w.cancelled + CancelsIn(w.s, i)
  {
    hide SetScopes, SetFallback, SetHostname, SetHosts, Flush, StaleScopes, Epochs, Abandon, Live;
  }

  /** The input changes the scopes or the fallback servers and domains. */
  predicate Rescopes(i: Input) {
    i.OnScopes? || i.OnFallback?
  }

  /** What one input does to the tallies. */
  lemma TalliesAfter(w: World, i: Input)
    requires Recorded(w)
    ensures var w' := Next(w, i);
            && w'.errors == w.errors + ErrorsIn(w.s, i) && w'.cancelled == w.cancelled + CancelsIn(w.s, i)
            && (!Rescopes(i) ==> w'.mark == w.mark)
  {
    hide Next, Live, Candidates, Budget, NameAsked, TasksAsked, Step, ErrorReply, MatchingResponse;
    if IsAsk(i) {
      AskBooks(w, i);
    } else if i.OnReceived? || i.OnFailed? || i.OnLocalFailed? || i.OnTick? {
      EventSame(w, i);
    } else {
      ControlBooks(w, i);
    }
  }

  lemma {:induction false} TalliesRun(w: World, inputs: seq<Input>)
    requires Good(w, {}) && LegalRun(w, inputs)
    ensures After(w, inputs).errors == w.errors + ErrorReplies(w.s, inputs)
    ensures After(w, inputs).cancelled == w.cancelled + AbandonCancels(w.s, inputs)
    ensures (forall m :: 0 <= m < |inputs| ==> !Rescopes(inputs[m])) ==> After(w, inputs).mark == w.mark
    decreases |inputs|
  {
    hide Good, Next, Legal, Recorded, Step, ErrorsIn, CancelsIn, Rescopes;
    if inputs != [] {
      NextGood(w, inputs[0]);
      GoodRecorded(w);
      TalliesAfter(w, inputs[0]);
      TalliesRun(Next(w, inputs[0]), inputs[1..]);
    }
  }

  /** What one input does to the books. */
  lemma BooksAfter(w: World, i: Input, q: Qid, id: TaskId)
    requires Recorded(w)
    ensures var w' := Next(w, i);
            && (q in w'.asked <==> q in w.asked || Asks(i, q))
            && (q in w'.dropped <==> q in w.dropped || (Abandons(i, q) && Live(w.s, q)))
            && (!i.OnScopes? && !i.OnFallback? && !i.OnFlush? ==> w'.epoch == w.epoch && w'.flushed == w.flushed)
            && (id in w.budget ==> id in w'.budget && w'.budget[id] == w.budget[id])
            && (id in w'.budget && id !in w.budget ==>
                  StartsTask(w.s, i, id) && w'.budget[id] == Budget(|Candidates(w.s.cfg, NameAsked(i).value)|))
  {
    hide Next, Live, Candidates, Budget, NameAsked, TasksAsked;
    if IsAsk(i) {
      AskBooks(w, i);
    } else if i.OnReceived? || i.OnFailed? || i.OnLocalFailed? || i.OnTick? {
      EventSame(w, i);
    } else {
      ControlBooks(w, i);
    }
  }

  // ------------------------------------------------------------ exactly once

  lemma LegalAsk(w: World, i: Input, q: Qid)
    requires Legal(w, i) && Asks(i, q)
    ensures q !in w.asked
  {
  }

  lemma {:induction false} AskedRun(w: World, inputs: seq<Input>, q: Qid)
    requires Good(w, {}) && LegalRun(w, inputs)
    ensures (if q in w.asked then 1 else 0) + AskCount(inputs, q) == if q in After(w, inputs).asked then 1 else 0
    decreases |inputs|
  {
    hide Good, Next, Legal, Asks, Recorded, StartsTask;
    if inputs != [] {
      if Asks(inputs[0], q) { LegalAsk(w, inputs[0], q); }
      NextGood(w, inputs[0]);
      GoodRecorded(w);
      BooksAfter(w, inputs[0], q, 0);
      AskedRun(Next(w, inputs[0]), inputs[1..], q);
    }
  }

  lemma GoodRecorded(w: World)
    requires Good(w, {})
    ensures Recorded(w)
  {
    hide Inv, Recorded, Bounded, Provenance, Directed, Aimed, Traced, Settled, Booked;
  }

  /** Input `k` abandons the question while it is live. */
  ghost predicate DroppedAt(s: State, inputs: seq<Input>, q: Qid, k: nat) {
    k < |inputs| && Abandons(inputs[k], q) && Live(Play(s, inputs[..k]).s, q)
  }

  lemma PlayNext(s: State, inputs: seq<Input>, k: nat)
    requires k < |inputs|
    ensures Play(s, inputs[..k + 1]).s == Play(Step(s, inputs[0]).s, inputs[1..][..k]).s
  {
    hide Step;
    assert inputs[..k + 1][1..] == inputs[1..][..k];
  }

  /** A question is noted as dropped exactly when an input dropped it. */
  lemma {:induction false} DroppedRun(w: World, inputs: seq<Input>, q: Qid)
    requires Good(w, {}) && LegalRun(w, inputs)
    ensures q in After(w, inputs).dropped <==> q in w.dropped || exists k: nat :: DroppedAt(w.s, inputs, q, k)
    decreases |inputs|
  {
    hide Good, Next, Legal, Abandons, Recorded, StartsTask, Live, Step, Play;
    if inputs != [] {
      var w1, rest := Next(w, inputs[0]), inputs[1..];
      NextGood(w, inputs[0]);
      GoodRecorded(w);
      BooksAfter(w, inputs[0], q, 0);
      DroppedRun(w1, rest, q);
      assert Play(w.s, inputs[..0]).s == w.s by { PlayNone(w.s, inputs); }
      assert DroppedAt(w.s, inputs, q, 0) <==> Abandons(inputs[0], q) && Live(w.s, q);
      forall k: nat | k > 0 ensures DroppedAt(w.s, inputs, q, k) == DroppedAt(w1.s, rest, q, k - 1) {
        if k < |inputs| { PlayNext(w.s, inputs, k - 1); }
      }
      DroppedShift(w.s, inputs, w1.s, rest, q);
    }
  }

  lemma PlayNone(s: State, inputs: seq<Input>)
    ensures Play(s, inputs[..0]).s == s
  {
    assert inputs[..0] == [];
  }

  lemma DroppedShift(s: State, inputs: seq<Input>, s1: State, rest: seq<Input>, q: Qid)
    requires forall k: nat :: k > 0 ==> DroppedAt(s, inputs, q, k) == DroppedAt(s1, rest, q, k - 1)
    ensures (exists k: nat :: DroppedAt(s, inputs, q, k))
            <==> DroppedAt(s, inputs, q, 0) || exists k: nat :: DroppedAt(s1, rest, q, k)
  {
    hide DroppedAt;
    if j: nat :| DroppedAt(s, inputs, q, j) {
      if j > 0 { assert DroppedAt(s1, rest, q, j - 1); }
    }
    if j: nat :| DroppedAt(s1, rest, q, j) { assert DroppedAt(s, inputs, q, j + 1); }
  }

  /**
   * Whatever the inputs, a question is asked at most once; one abandoned while it was live is never
   * answered and is not live; any other has been answered once or is live, and not both.
   */
  lemma ExactlyOnce(entropy: seq<Option<Random>>, inputs: seq<Input>, q: Qid)
    requires LegalRun(Start(entropy), inputs)
    ensures AskCount(inputs, q) <= 1
    ensures var o := Play(Initial(entropy), inputs);
            DoneCount(o.acts, q) + LiveCount(o.s, q)
            == if exists k: nat :: DroppedAt(Initial(entropy), inputs, q, k) then 0 else AskCount(inputs, q)
  {
    hide Inv, Ledger, Traced, Booked, LegalRun, After, DoneCount, Live, AskCount, Play, DroppedAt;
    var w0 := Start(entropy);
    StartGood(entropy);
    RunGood(w0, inputs);
    AskedRun(w0, inputs, q);
    DroppedRun(w0, inputs, q);
    assert w0.trace + Play(w0.s, inputs).acts == Play(w0.s, inputs).acts;
  }

  // -------------------------------------------------------------- the books

  /** Every query sent is still in flight, was answered, failed, or was cancelled, and there is always room for them. */
  lemma Conservation(entropy: seq<Option<Random>>, inputs: seq<Input>)
    requires LegalRun(Start(entropy), inputs)
    ensures var s0, o := Initial(entropy), Play(Initial(entropy), inputs);
            var c := o.s.counters;
            && c.upstreamSent == |o.s.txs| + c.upstreamAnswered + (c.upstreamFailed - ErrorReplies(s0, inputs))
                                 + AbandonCancels(s0, inputs)
            && |o.s.txs| <= MAX_IN_FLIGHT && c.upstreamSent == |Sends(o.acts)|
  {
    hide Ledger, Settled, LegalRun, After, Play, Owned, Valued, Flying, Carries, GoodCompletion, ErrorReplies,
         AbandonCancels;
    StartGood(entropy);
    TalliesRun(Start(entropy), inputs);
    RunGood(Start(entropy), inputs);
    assert [] + Play(Initial(entropy), inputs).acts == Play(Initial(entropy), inputs).acts;
    var w := After(Start(entropy), inputs);
    forall x ensures x in w.issued.Keys <==> x in Sends(w.trace) { assert x in w.issued <==> Sent(w.trace, x); }
    assert w.issued.Keys == Sends(w.trace);
  }

  /** A send carries its own transaction's query, and an answer is a good one. */
  lemma SoundActions(entropy: seq<Option<Random>>, inputs: seq<Input>, i: nat)
    requires LegalRun(Start(entropy), inputs) && i < |Play(Initial(entropy), inputs).acts|
    ensures var w := After(Start(entropy), inputs);
            var a := Play(Initial(entropy), inputs).acts[i];
            && (a.Send? ==> a.tx in w.issued && Carries(a, w.issued[a.tx]))
            && (a.Done? ==> GoodCompletion(a.completion))
  {
    hide Ledger, Settled, Booked, LegalRun, After, Play, Inv, Carries, GoodCompletion;
    StartGood(entropy);
    RunGood(Start(entropy), inputs);
    assert [] + Play(Initial(entropy), inputs).acts == Play(Initial(entropy), inputs).acts;
    assert GoodAction(After(Start(entropy), inputs).trace[i], After(Start(entropy), inputs).issued);
  }

  /** No two sends of a run share a transaction number. */
  lemma SentOnce(entropy: seq<Option<Random>>, inputs: seq<Input>, i: nat, j: nat)
    requires LegalRun(Start(entropy), inputs) && i < j < |Play(Initial(entropy), inputs).acts|
    ensures var acts := Play(Initial(entropy), inputs).acts;
            acts[i].Send? && acts[j].Send? ==> acts[i].tx != acts[j].tx
  {
    hide Ledger, Settled, Booked, LegalRun, After, Play, Inv, GoodAction;
    StartGood(entropy);
    RunGood(Start(entropy), inputs);
    assert [] + Play(Initial(entropy), inputs).acts == Play(Initial(entropy), inputs).acts;
  }

  /** A task's budget was set by the question that started it. */
  lemma {:induction false} BudgetOf(w: World, inputs: seq<Input>, id: TaskId) returns (i: nat)
    requires Good(w, {}) && LegalRun(w, inputs) && id in After(w, inputs).budget && id !in w.budget
    ensures i < |inputs| && StartsTask(Play(w.s, inputs[..i]).s, inputs[i], id)
    ensures After(w, inputs).budget[id]
            == Budget(|Candidates(Play(w.s, inputs[..i]).s.cfg, NameAsked(inputs[i]).value)|)
    decreases |inputs|
  {
    hide Good, Next, Legal, Recorded, StartsTask, NameAsked, Live, Abandons, Asks, Budget, Candidates, Step;
    var w1 := Next(w, inputs[0]);
    NextGood(w, inputs[0]);
    GoodRecorded(w);
    BooksAfter(w, inputs[0], 0, id);
    if id in w1.budget {
      i := 0;
      PlayNone(w.s, inputs);
      BudgetStays(w1, inputs[1..], id);
    } else {
      var j := BudgetOf(w1, inputs[1..], id);
      i := j + 1;
      PlayNext(w.s, inputs, j);
    }
  }

  lemma {:induction false} BudgetStays(w: World, inputs: seq<Input>, id: TaskId)
    requires Good(w, {}) && LegalRun(w, inputs) && id in w.budget
    ensures id in After(w, inputs).budget && After(w, inputs).budget[id] == w.budget[id]
    decreases |inputs|
  {
    hide Good, Next, Legal, Recorded, StartsTask, Live, Abandons, Asks;
    if inputs != [] {
      NextGood(w, inputs[0]);
      GoodRecorded(w);
      BooksAfter(w, inputs[0], 0, id);
      BudgetStays(Next(w, inputs[0]), inputs[1..], id);
    }
  }

  /**
   * Any task that has sent was started by some input of the run, and its queries do not outnumber
   * the attempts allowed and the further candidate names it had when it was asked.
   */
  lemma BoundedSends(entropy: seq<Option<Random>>, inputs: seq<Input>, id: TaskId) returns (i: nat)
    requires LegalRun(Start(entropy), inputs) && SendsOf(After(Start(entropy), inputs).issued, id) != {}
    ensures i < |inputs| && StartsTask(Play(Initial(entropy), inputs[..i]).s, inputs[i], id)
    ensures |SendsOf(After(Start(entropy), inputs).issued, id)|
            <= MAX_ATTEMPTS + |Candidates(Play(Initial(entropy), inputs[..i]).s.cfg, NameAsked(inputs[i]).value)| - 1
  {
    hide Good, LegalRun, After, Play, Candidates, StartsTask, NameAsked;
    var w0 := Start(entropy);
    StartGood(entropy);
    RunGood(w0, inputs);
    GoodBudget(After(w0, inputs), id);
    i := BudgetOf(w0, inputs, id);
  }

  lemma GoodBudget(w: World, id: TaskId)
    requires Good(w, {}) && SendsOf(w.issued, id) != {}
    ensures id in w.budget && |SendsOf(w.issued, id)| <= w.budget[id]
  {
    hide Inv, Provenance, Directed, Aimed, Traced, Settled, Booked, Potential, Fresh, Candidates, Budget;
  }

  // -------------------------------------------------------------- the routes

  /** Nothing after input `i` changed the scopes or the fallback servers. */
  predicate SettledScopes(inputs: seq<Input>, i: nat) {
    forall m :: i < m < |inputs| ==> !Rescopes(inputs[m])
  }

  /** A task started after the scopes last changed is numbered from the mark. */
  lemma MarkBelow(w: World, inputs: seq<Input>, i: nat, id: TaskId)
    requires Good(w, {}) && LegalRun(w, inputs) && i < |inputs| && SettledScopes(inputs, i)
    requires StartsTask(Play(w.s, inputs[..i]).s, inputs[i], id)
    ensures After(w, inputs).mark <= id
  {
    hide Good, Next, Legal, Play, NameAsked, TasksAsked;
    assert inputs == inputs[..i] + inputs[i..];
    RunSplit(w, inputs[..i], inputs[i..]);
    RunGood(w, inputs[..i]);
    var wi := After(w, inputs[..i]);
    hide LegalRun, After;
    GoodMark(wi);
    assert !Rescopes(inputs[i]) by { AskRescopes(inputs[i]); }
    hide Rescopes;
    forall m | 0 <= m < |inputs[i..]| ensures !Rescopes(inputs[i..][m]) { assert inputs[i..][m] == inputs[i + m]; }
    TalliesRun(wi, inputs[i..]);
  }

  lemma AskRescopes(i: Input)
    requires NameAsked(i).Some?
    ensures !Rescopes(i)
  {
  }

  lemma GoodMark(w: World)
    requires Good(w, {})
    ensures w.mark <= w.s.nextId
  {
    hide Inv, Recorded, Bounded, Provenance, Aimed, Traced, Settled, Booked, ValidConfig, WellRouted, WholeNames;
  }

  /** The action is the query of some transaction, and what is asked for in it. */
  lemma SentAction(w: World, n: nat)
    requires Good(w, {}) && n < |w.trace| && w.trace[n].Send?
    ensures w.trace[n].tx in w.issued && Carries(w.trace[n], w.issued[w.trace[n].tx])
    ensures w.issued[w.trace[n].tx].task in w.budget && Whole(w.issued[w.trace[n].tx].question.name)
    ensures WellSent(w.s.cfg, w.mark, w.issued[w.trace[n].tx])
  {
    hide Inv, Bounded, Provenance, Settled, Booked, Carries, GoodCompletion, NoReissue, WellSent, WellRouted,
         WholeNames, Whole, ValidConfig;
    assert GoodAction(w.trace[n], w.issued);
  }

  /**
   * No query of a run names a bare label. Each was sent for a task some input `i` started, and if the
   * scopes have not changed since, it went to a server of the scope they route the query's name to.
   */
  lemma RoutedSends(entropy: seq<Option<Random>>, inputs: seq<Input>, n: nat) returns (i: nat)
    requires LegalRun(Start(entropy), inputs) && n < |Play(Initial(entropy), inputs).acts|
    requires Play(Initial(entropy), inputs).acts[n].Send?
    ensures var w, o := After(Start(entropy), inputs), Play(Initial(entropy), inputs);
            var a := o.acts[n];
            && a.tx in w.issued && Carries(a, w.issued[a.tx])
            && i < |inputs| && StartsTask(Play(Initial(entropy), inputs[..i]).s, inputs[i], w.issued[a.tx].task)
            && var name := w.issued[a.tx].question.name;
            && |name| != 1
            && (SettledScopes(inputs, i) ==>
                  Route(o.s.cfg, name).Some? && a.server in Configured(o.s.cfg, Route(o.s.cfg, name).value))
  {
    hide Good, LegalRun, After, Play, Route, Configured, StartsTask, SettledScopes;
    var w0 := Start(entropy);
    StartGood(entropy);
    RunGood(w0, inputs);
    assert w0.trace + Play(w0.s, inputs).acts == Play(w0.s, inputs).acts;
    var w := After(w0, inputs);
    SentAction(w, n);
    i := BudgetOf(w0, inputs, w.issued[w.trace[n].tx].task);
    if SettledScopes(inputs, i) { MarkBelow(w0, inputs, i, w.issued[w.trace[n].tx].task); }
  }

  /**
   * The query in flight for a task some input `i` started asks for the task's name and type and, if
   * the scopes have not changed since, in the scope that name is routed to.
   */
  lemma RoutedTask(entropy: seq<Option<Random>>, inputs: seq<Input>, x: Txid) returns (i: nat)
    requires LegalRun(Start(entropy), inputs) && x in Play(Initial(entropy), inputs).s.txs
    ensures var s := Play(Initial(entropy), inputs).s;
            && s.txs[x].task in s.tasks
            && var t := s.tasks[s.txs[x].task];
            && SameName(s.txs[x].question.name, CurrentName(t)) && s.txs[x].question.rtype == t.rtype
            && i < |inputs| && StartsTask(Play(Initial(entropy), inputs[..i]).s, inputs[i], s.txs[x].task)
            && (SettledScopes(inputs, i) ==> t.scope.Some? && t.scope == Route(s.cfg, CurrentName(t)))
  {
    hide Good, LegalRun, After, Play, Route, Configured, StartsTask, SettledScopes, SameName, ValidName;
    var w0 := Start(entropy);
    StartGood(entropy);
    RunGood(w0, inputs);
    var w := After(w0, inputs);
    TxFor(w, x);
    i := BudgetOf(w0, inputs, w.s.txs[x].task);
    if SettledScopes(inputs, i) {
      MarkBelow(w0, inputs, i, w.s.txs[x].task);
      TaskRouted(w, w.s.txs[x].task);
    }
  }

  lemma TxFor(w: World, x: Txid)
    requires Good(w, {}) && x in w.s.txs
    ensures w.s.txs[x].task in w.s.tasks && w.s.txs[x].task in w.budget && x in w.issued && w.issued[x] == w.s.txs[x]
    ensures var t := w.s.tasks[w.s.txs[x].task];
            SameName(w.s.txs[x].question.name, CurrentName(t)) && w.s.txs[x].question.rtype == t.rtype
    ensures ValidName(w.s.txs[x].question.name)
  {
    hide Inv, Bounded, Provenance, Directed, Aimed, Traced, Settled, Booked, SameName, ValidName;
    InvTx(w.s, x);
  }

  lemma TaskRouted(w: World, id: TaskId)
    requires Good(w, {}) && id in w.s.tasks && id >= w.mark
    ensures var t := w.s.tasks[id]; t.scope.Some? && t.scope == Route(w.s.cfg, CurrentName(t))
  {
    hide Inv, Recorded, Bounded, Provenance, Directed, Aimed, Traced, Settled, Booked, WellRouted, Route;
    DirectedHas(w, {}, id);
    RoutedMeans(w, w.s.tasks[id]);
  }

  lemma RoutedMeans(w: World, t: Task)
    requires WellRouted(w, t)
    ensures t.scope.Some? && t.scope == Route(w.s.cfg, CurrentName(t))
  {
    hide Route, Configured;
  }

  // --------------------------------------------------------------- the cache

  /** The input invalidates the scope's answers. */
  predicate Clears(s: State, i: Input, scope: string) {
    || i.OnFlush?
    || (i.OnScopes? && scope in StaleScopes(s.cfg.scopes, i.scopes))
    || (i.OnFallback? && i.servers != s.cfg.fallbackServers && scope == FALLBACK_SCOPE)
  }

  lemma SinceAfter(w: World, i: Input, scope: string)
    requires Provenance(w) && Recorded(w)
    ensures Since(Next(w, i), scope) >= Since(w, scope)
    ensures Clears(w.s, i, scope) ==> Since(Next(w, i), scope) >= w.s.nextId
  {
    SinceBounded(w, scope);
    if i.OnScopes? || i.OnFallback? || i.OnFlush? {
      hide StaleScopes, SetScopes, SetFallback, Flush, Provenance, Recorded;
    } else {
      hide Next, Provenance, Recorded, StartsTask, Asks, Abandons, Live, Budget, Candidates;
      BooksAfter(w, i, 0, 0);
    }
  }

  lemma {:induction false} SinceRun(w: World, inputs: seq<Input>, scope: string)
    requires Good(w, {}) && LegalRun(w, inputs)
    ensures Since(After(w, inputs), scope) >= Since(w, scope)
    decreases |inputs|
  {
    hide Good, Next, Legal, Since;
    if inputs != [] {
      NextGood(w, inputs[0]);
      assert Provenance(w) && Recorded(w) by {
        GoodProvenance(w);
        GoodRecorded(w);
      }
      hide Provenance, Recorded;
      SinceAfter(w, inputs[0], scope);
      SinceRun(Next(w, inputs[0]), inputs[1..], scope);
    }
  }

  lemma GoodProvenance(w: World)
    requires Good(w, {})
    ensures Provenance(w)
  {
    hide Inv, Recorded, Bounded, Provenance, Directed, Aimed, Traced, Settled, Booked;
  }

  lemma OldSend(w: World, j: nat)
    requires Good(w, {}) && j < |w.trace| && w.trace[j].Send?
    ensures w.trace[j].tx < w.s.nextId
  {
    hide Bounded, Provenance, Directed, Settled, Booked, Inv, Carries, GoodCompletion, NoReissue;
    assert GoodAction(w.trace[j], w.issued);
  }
}
