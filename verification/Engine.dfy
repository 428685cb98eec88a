/** The engine as the daemon holds it: tables updated in place, proved to follow the model step by step. */
module Engines {
  import opened Bytes
  import opened Results
  import opened Names
  import opened Dns
  import opened Aliases
  import opened Lookups
  import opened Caches
  import opened Routing
  import opened ReverseNames
  import opened Synthetics
  import opened EngineModel
  import opened Queries
  import opened EngineSteps
  import opened EngineInvariant
  import EngineRuns

  /** Tasks hold valid names, as the name type guarantees. */
  predicate Named(tasks: map<TaskId, Task>) {
    forall id :: id in tasks ==> ValidTask(tasks[id])
  }

  /** The question's tasks, in the order of the walk. */
  function OwnedBy(tasks: map<TaskId, Task>, q: Qid, walk: seq<TaskId>): seq<TaskId> {
    if walk == [] then []
    else (if walk[0] in tasks && tasks[walk[0]].owner.qid == q then [walk[0]] else []) + OwnedBy(tasks, q, walk[1..])
  }

  lemma {:induction false} OwnedByIs(tasks: map<TaskId, Task>, q: Qid, walk: seq<TaskId>)
    requires NoRepeats(walk)
    ensures NoRepeats(OwnedBy(tasks, q, walk))
    ensures forall id :: id in OwnedBy(tasks, q, walk) <==> id in walk && id in tasks && tasks[id].owner.qid == q
  {
    if walk != [] { OwnedByIs(tasks, q, walk[1..]); }
  }

  /** The walk visits each key of the table once, as a hash table's iterator does. */
  ghost predicate WholeWalk<T>(walk: seq<nat>, table: map<nat, T>) {
    NoRepeats(walk) && forall x :: x in walk <==> x in table
  }

  /** Walking the whole table finds exactly the question's tasks. */
  lemma OwnedByAll(s: State, q: Qid, walk: seq<TaskId>)
    requires WholeWalk(walk, s.tasks)
    ensures EngineRuns.TasksOf(s, q, OwnedBy(s.tasks, q, walk))
  {
    hide OwnedBy, NoRepeats;
    OwnedByIs(s.tasks, q, walk);
  }

  /** The transactions whose time is up, in the order of the walk. */
  function Overdue(txs: map<Txid, Tx>, now: nat, walk: seq<Txid>): seq<Txid> {
    if walk == [] then []
    else (if walk[0] in txs && txs[walk[0]].deadline <= now then [walk[0]] else []) + Overdue(txs, now, walk[1..])
  }

  lemma {:induction false} OverdueIs(txs: map<Txid, Tx>, now: nat, walk: seq<Txid>)
    requires NoRepeats(walk)
    ensures NoRepeats(Overdue(txs, now, walk))
    ensures forall x :: x in Overdue(txs, now, walk) <==> x in walk && x in txs && txs[x].deadline <= now
  {
    if walk != [] { OverdueIs(txs, now, walk[1..]); }
  }

  /** Walking the whole table finds exactly the transactions whose time is up. */
  lemma OverdueAll(s: State, now: nat, walk: seq<Txid>)
    requires WholeWalk(walk, s.txs)
    ensures EngineRuns.Expired(s, now, Overdue(s.txs, now, walk))
  {
    hide Overdue, NoRepeats;
    OverdueIs(s.txs, now, walk);
  }

  lemma TaskNamed(t: Task)
    requires ValidTask(t)
    ensures ValidName(CurrentName(t))
  {
  }

  lemma SameNamed(t: Task, t': Task)
    requires ValidTask(t) && t'.original == t.original && t'.current == t.current && t'.candidates == t.candidates
    ensures ValidTask(t')
  {
  }

  class Engine {
    var scopes: seq<Scope>
    var fallbackServers: seq<IpAddr>
    var fallbackDomains: seq<Name>
    var hostname: Option<Name>
    var hosts: seq<Host>
    const cache: Cache
    var demoted: Demotions
    var tasks: map<TaskId, Task>
    var txs: map<Txid, Tx>
    var lookups: map<Qid, Lookup>
    var nextId: nat
    var entropy: seq<Option<Random>>
    var counters: Counters

    function Cfg(): Config
      reads this
    {
      Config(scopes, fallbackServers, fallbackDomains, hostname, hosts)
    }

    function View(): State
      reads this, cache
    {
      State(Cfg(), cache.entries, demoted, tasks, txs, lookups, nextId, entropy, counters)
    }

    constructor (random: seq<Option<Random>>)
      ensures View() == Initial(random) && fresh(cache)
    {
      scopes, fallbackServers, fallbackDomains, hostname, hosts := [], [], [], None, [];
      cache := new Cache();
      demoted, tasks, txs, lookups, nextId := map[], map[], map[], map[], 1;
      entropy, counters := random, Counters(0, 0, 0, 0, 0, 0, 0);
    }

    // ------------------------------------------------------------ settling

    method Settle(id: TaskId, answer: Answer) returns (acts: seq<Action>)
      requires Named(tasks)
      modifies this
      ensures Named(tasks)
      ensures Out(View(), acts) == EngineModel.Settle(old(View()), id, answer)
    {
      hide Combine;
      if id !in tasks { return []; }
      var t := tasks[id];
      tasks := tasks - {id};
      if t.tx.Some? { txs := txs - {t.tx.value}; }
      match t.owner
      case ResolveOwner(q) => return [Done(q, AnswerDone(answer))];
      case LookupOwner(q) =>
        if q !in lookups { return []; }
        var l := lookups[q];
        l := l.(pending := Without(l.pending, id), results := l.results + [Part(t.rtype, answer)]);
        lookups := lookups[q := l];
        if l.pending != [] { return []; }
        lookups := lookups - {q};
        assert lookups == old(lookups) - {q};
        var all := CombineAnswers(l.name, l.results);
        return [Done(q, AddressesDone(all))];
    }

    // ------------------------------------------------------------- sending

    method SendTo(id: TaskId, server: IpAddr, tcp: bool, now: nat) returns (acts: seq<Action>)
      requires Named(tasks)
      modifies this
      ensures Named(tasks)
      ensures Out(View(), acts) == EngineModel.SendTo(old(View()), id, server, tcp, now)
    {
      hide EngineModel.Settle, QueryBytes, RandomCase;
      if id !in tasks { return []; }
      var task := tasks[id];
      if task.attempt >= MAX_ATTEMPTS {
        acts := Settle(id, DEFAULT_ANSWER.(interface_ := InterfaceOf(Cfg(), ScopeName(task))));
        return;
      }
      if |txs| >= MAX_IN_FLIGHT {
        counters := counters.(refused := counters.refused + 1);
        acts := Settle(id, DEFAULT_ANSWER);
        return;
      }
      if entropy == [] {
        counters := counters.(refused := counters.refused + 1);
        acts := Settle(id, DEFAULT_ANSWER);
        return;
      }
      var random := entropy[0];
      entropy := entropy[1..];
      if random.None? {
        counters := counters.(refused := counters.refused + 1);
        acts := Settle(id, DEFAULT_ANSWER);
        return;
      }
      acts := Start(id, server, tcp, random.value, now);
    }

    method Start(id: TaskId, server: IpAddr, tcp: bool, random: Random, now: nat) returns (acts: seq<Action>)
      requires id in tasks
      requires Named(tasks)
      modifies this
      ensures Named(tasks)
      ensures Out(View(), acts) == EngineModel.Launch(old(View()), id, server, tcp, random, now)
    {
      hide QueryBytes, RandomCase, ValidTask, ValidName, InterfaceOf, IdOf;
      var task := tasks[id];
      var candidate := CurrentName(task);
      TaskNamed(task);
      var interface_ := if task.scope.Some? then InterfaceOf(Cfg(), task.scope.value) else None;
      var dnsId := IdOf(random);
      var name := RandomiseCase(candidate, random);
      var question := Question(name, task.rtype, IN);
      var payload := QueryBytes(dnsId, question);
      var tx := nextId;
      nextId := nextId + 1;
      txs := txs[tx := Tx(id, dnsId, question, server, tcp, now + SERVER_TIMEOUT)];
      SameNamed(task, task.(attempt := task.attempt + 1, tx := Some(tx)));
      tasks := tasks[id := task.(attempt := task.attempt + 1, tx := Some(tx))];
      counters := counters.(upstreamSent := counters.upstreamSent + 1);
      acts := [Send(tx, server, interface_, tcp, payload)];
    }

    /** Send the current candidate to the next server, or give up. */
    method NextAttempt(id: TaskId, now: nat) returns (acts: seq<Action>)
      requires Named(tasks)
      modifies this
      ensures Named(tasks)
      ensures Out(View(), acts) == EngineModel.NextAttempt(old(View()), id, now)
    {
      hide EngineModel.Settle, EngineModel.SendTo, ServersOf, ValidTask;
      if id !in tasks { return []; }
      var task := tasks[id];
      var scope := ScopeName(task);
      if task.attempt >= MAX_ATTEMPTS {
        acts := Settle(id, DEFAULT_ANSWER.(interface_ := InterfaceOf(Cfg(), scope)));
        return;
      }
      var servers := ServersOf(Cfg(), demoted, scope, now);
      if servers == [] {
        acts := Settle(id, DEFAULT_ANSWER);
        return;
      }
      var server := ChooseServer(servers, task.tried);
      SameNamed(task, task.(tried := task.tried + [server]));
      tasks := tasks[id := task.(tried := task.tried + [server])];
      acts := SendTo(id, server, false, now);
    }

    /** Take the next candidate name: route it, try the cache, then the network. */
    method NextCandidate(id: TaskId, now: nat) returns (acts: seq<Action>)
      requires Named(tasks)
      modifies this, cache
      ensures Named(tasks)
      ensures Out(View(), acts) == EngineModel.NextCandidate(old(View()), id, now)
      decreases if id in tasks then |tasks[id].candidates| else 0
    {
      hide EngineModel.Settle, EngineModel.NextAttempt, Route, Got, CacheAnswer, ValidTask;
      if id !in tasks { return []; }
      var task := tasks[id];
      if task.candidates == [] {
        acts := Settle(id, NOT_FOUND);
        return;
      }
      var candidate := task.candidates[0];
      PoppedNamed(task);
      task := task.(candidates := task.candidates[1..], current := Some(candidate), tried := []);
      tasks := tasks[id := task];
      var route := RouteName(Cfg(), candidate);
      if route.None? {
        acts := Settle(id, DEFAULT_ANSWER);
        return;
      }
      SameNamed(task, task.(scope := route));
      task := task.(scope := route);
      tasks := tasks[id := task];
      assert tasks == old(tasks)[id := task];
      var entry: Option<Entry> := None;
      if !task.noCache {
        entry := cache.Get(KeyOf(candidate, task.rtype, route.value), now);
        GotUnexpired(old(cache.entries), KeyOf(candidate, task.rtype, route.value), now);
      }
      if entry.None? {
        acts := NextAttempt(id, now);
        return;
      }
      counters := counters.(cacheHits := counters.cacheHits + 1);
      if entry.value.outcome == NotFound && task.candidates != [] {
        acts := NextCandidate(id, now);
        return;
      }
      acts := Settle(id, CacheAnswer(Cfg(), entry.value, route.value, candidate, now));
    }

    /** Decide what a fresh task does: answer locally, or build its candidate list. */
    method Advance(id: TaskId, now: nat) returns (acts: seq<Action>)
      requires Named(tasks)
      modifies this, cache
      ensures Named(tasks)
      ensures Out(View(), acts) == EngineModel.Advance(old(View()), id, now)
    {
      hide EngineModel.Settle, EngineModel.NextCandidate, Synthesise, Candidates, ValidTask;
      if id !in tasks { return []; }
      var task := tasks[id];
      if task.current.None? && task.candidates == [] && task.attempt == 0 {
        var synthetic := Synthesise(Cfg(), task.original, task.rtype);
        if synthetic.Some? {
          counters := counters.(synthetic := counters.synthetic + 1);
          acts := Settle(id, synthetic.value);
          return;
        }
        var candidates := CandidateNames(Cfg(), task.original);
        if candidates == [] {
          acts := Settle(id, NOT_FOUND);
          return;
        }
        FilledNamed(Cfg(), task);
        tasks := tasks[id := task.(candidates := candidates)];
      }
      acts := NextCandidate(id, now);
    }

    method StartTask(owner: Owner, name: Name, rtype: u16, noCache: bool) returns (id: TaskId)
      requires Named(tasks) && ValidName(name)
      modifies this
      ensures Named(tasks) && id == old(nextId)
      ensures View() == EngineModel.StartTask(old(View()), owner, name, rtype, noCache)
    {
      hide ValidTask, ValidName;
      NewNamed(owner, name, rtype, noCache);
      id := nextId;
      nextId := nextId + 1;
      tasks := tasks[id := Task(owner, name, rtype, noCache, false, [], None, None, 0, [], None)];
    }

    // ----------------------------------------------------------- questions

    method Resolve(q: Qid, text: seq<byte>, rtype: u16, noCache: bool, now: nat) returns (acts: seq<Action>)
      requires Named(tasks)
      modifies this, cache
      ensures Named(tasks)
      ensures Out(View(), acts) == EngineModel.Resolve(old(View()), q, text, rtype, noCache, now)
    {
      hide EngineModel.Advance, Parse, ValidTask, ValidName;
      counters := counters.(queries := counters.queries + 1);
      var name := Parse(text);
      if name.Err? { return [Done(q, AnswerDone(NOT_FOUND))]; }
      ParsedValid(text);
      acts := ResolveName(q, name.value, rtype, noCache, now);
    }

    method ResolveName(q: Qid, name: Name, rtype: u16, noCache: bool, now: nat) returns (acts: seq<Action>)
      requires Named(tasks) && ValidName(name)
      modifies this, cache
      ensures Named(tasks)
      ensures Out(View(), acts) == EngineModel.ResolveName(old(View()), q, name, rtype, noCache, now)
    {
      hide EngineModel.Advance, ValidTask, ValidName;
      var id := StartTask(ResolveOwner(q), name, rtype, noCache);
      acts := Advance(id, now);
    }

    method ResolveQuestion(q: Qid, question: Question, now: nat) returns (acts: seq<Action>)
      requires Named(tasks) && ValidName(question.name)
      modifies this, cache
      ensures Named(tasks)
      ensures Out(View(), acts) == EngineModel.ResolveQuestion(old(View()), q, question, now)
    {
      hide EngineModel.ResolveName, ValidTask, ValidName;
      counters := counters.(queries := counters.queries + 1);
      acts := ResolveName(q, question.name, question.rtype, false, now);
    }

    method Reverse(q: Qid, address: IpAddr, now: nat) returns (acts: seq<Action>)
      requires Named(tasks)
      modifies this, cache
      ensures Named(tasks)
      ensures Out(View(), acts) == EngineModel.Reverse(old(View()), q, address, now)
    {
      hide EngineModel.Resolve, ValidTask, Show, ReverseName;
      acts := Resolve(q, Show(ReverseName(address)), PTR, false, now);
    }

    method LookupAddresses(q: Qid, text: seq<byte>, family: Family, now: nat) returns (acts: seq<Action>)
      requires Named(tasks)
      modifies this, cache
      ensures Named(tasks)
      ensures Out(View(), acts) == EngineModel.LookupAddresses(old(View()), q, text, family, now)
    {
      hide EngineModel.LookupName, Parse, ValidTask, ValidName;
      counters := counters.(queries := counters.queries + 1);
      var name := Parse(text);
      if name.Err? { return [Done(q, AddressesDone(Addresses(NotFound, [], [], Local)))]; }
      ParsedValid(text);
      acts := LookupName(q, name.value, family, now);
    }

    method LookupName(q: Qid, name: Name, family: Family, now: nat) returns (acts: seq<Action>)
      requires Named(tasks) && ValidName(name)
      modifies this, cache
      ensures Named(tasks)
      ensures Out(View(), acts) == EngineModel.LookupName(old(View()), q, name, family, now)
    {
      hide EngineModel.Advance, ValidTask, ValidName, EngineModel.StartTasks, EngineModel.AdvanceAll;
      var types := FamilyTypes(family);
      var pending: seq<TaskId> := StartAll(q, name, types);
      lookups := lookups[q := Lookup(name, pending, [])];
      acts := AdvanceEach(pending, now);
    }

    method StartAll(q: Qid, name: Name, types: seq<u16>) returns (pending: seq<TaskId>)
      requires Named(tasks) && ValidName(name)
      modifies this
      ensures Named(tasks)
      ensures View() == EngineModel.StartTasks(old(View()), q, name, types)
      ensures pending == seq(|types|, i => old(nextId) + i)
    {
      hide ValidTask, ValidName;
      pending := [];
      for i := 0 to |types|
        invariant Named(tasks) && nextId == old(nextId) + i
        invariant pending == seq(i, j => old(nextId) + j)
        invariant EngineModel.StartTasks(View(), q, name, types[i..])
          == EngineModel.StartTasks(old(View()), q, name, types)
      {
        assert types[i..][0] == types[i] && types[i..][1..] == types[i + 1..];
        var id := StartTask(LookupOwner(q), name, types[i], false);
        pending := pending + [id];
      }
    }

    method AdvanceEach(ids: seq<TaskId>, now: nat) returns (acts: seq<Action>)
      requires Named(tasks)
      modifies this, cache
      ensures Named(tasks)
      ensures Out(View(), acts) == EngineModel.AdvanceAll(old(View()), ids, now)
    {
      hide EngineModel.Advance, ValidTask;
      acts := [];
      for i := 0 to |ids|
        invariant Named(tasks)
        invariant var rest := EngineModel.AdvanceAll(View(), ids[i..], now);
                  Out(rest.s, acts + rest.acts) == EngineModel.AdvanceAll(old(View()), ids, now)
      {
        assert ids[i..][0] == ids[i] && ids[i..][1..] == ids[i + 1..];
        var more := Advance(ids[i], now);
        acts := acts + more;
      }
    }

    /** Forget a question whose asker went away; `walk` is the order in which the task table is walked. */
    method Abandon(q: Qid, walk: seq<TaskId>) returns (acts: seq<Action>)
      requires Named(tasks) && WholeWalk(walk, tasks)
      modifies this
      ensures Named(tasks)
      ensures Out(View(), acts) == EngineModel.Abandon(old(View()), q, OwnedBy(old(tasks), q, walk))
      ensures EngineRuns.TasksOf(old(View()), q, OwnedBy(old(tasks), q, walk))
    {
      hide ValidTask, EngineRuns.TasksOf, EngineModel.DropTasks, OwnedBy;
      OwnedByAll(View(), q, walk);
      hide WholeWalk;
      var ids := OwnedBy(tasks, q, walk);
      acts := [];
      assert ids[0..] == ids;
      for i := 0 to |ids|
        invariant Named(tasks)
        invariant var rest := EngineModel.DropTasks(View(), ids[i..]);
                  Out(rest.s, acts + rest.acts) == EngineModel.DropTasks(old(View()), ids)
      {
        DropNext(View(), ids[i..]);
        assert ids[i..][0] == ids[i] && ids[i..][1..] == ids[i + 1..];
        if ids[i] in tasks {
          var task := tasks[ids[i]];
          tasks := tasks - {ids[i]};
          if task.tx.Some? {
            txs := txs - {task.tx.value};
            acts := acts + [Cancel(task.tx.value)];
          }
        }
      }
      DropNone(View());
      lookups := lookups - {q};
    }

    // -------------------------------------------------------------- inputs

    /** A reply arrived; `order` is the order in which a full cache would be walked. */
    method Received(tx: Txid, bytes: seq<byte>, now: nat, order: seq<CacheKey>) returns (acts: seq<Action>)
      requires Named(tasks) && Walks(order, cache.entries)
      modifies this, cache
      ensures Named(tasks)
      ensures Out(View(), acts) == EngineModel.Received(old(View()), tx, bytes, now, order)
    {
      hide MatchingResponse, ValidTask, EngineModel.SendTo, EngineModel.Usable, EngineModel.NextAttempt, Rcode, Ended;
      var matched := MatchingResponse(View(), tx, bytes);
      if matched.None? { return []; }
      var message := matched.value;
      MatchedLive(View(), tx, bytes);
      var t := End(tx);
      if t.task !in tasks { return []; }
      counters := counters.(upstreamAnswered := counters.upstreamAnswered + 1);
      if message.header.truncated && !t.tcp {
        acts := SendTo(t.task, t.server, true, now);
        return;
      }
      var code := Rcode(message);
      if code == NOERROR as int || code == NXDOMAIN as int {
        acts := Usable(t.task, t.server, message, now, order);
      } else {
        counters := counters.(upstreamFailed := counters.upstreamFailed + 1);
        demoted := demoted[ServerKeyOf(t.server, ScopeName(tasks[t.task])) := now + DEMOTION];
        acts := NextAttempt(t.task, now);
      }
    }

    /** The transaction is over, and its task has none in flight. */
    method End(tx: Txid) returns (t: Tx)
      requires Named(tasks) && tx in txs
      modifies this
      ensures Named(tasks) && t == old(txs)[tx]
      ensures View() == Ended(old(View()), tx)
      ensures t.task in tasks <==> t.task in old(tasks)
      ensures t.task in tasks ==> ScopeName(tasks[t.task]) == ScopeName(old(tasks)[t.task])
    {
      hide ValidTask;
      t := txs[tx];
      txs := txs - {tx};
      if t.task in tasks {
        SameNamed(tasks[t.task], tasks[t.task].(tx := None));
        tasks := tasks[t.task := tasks[t.task].(tx := None)];
      }
    }

    method Usable(id: TaskId, server: IpAddr, message: Message, now: nat,
                  order: seq<CacheKey>) returns (acts: seq<Action>)
      requires Named(tasks) && id in tasks
      modifies this, cache
      ensures Named(tasks)
      ensures Out(View(), acts) == EngineModel.Usable(old(View()), id, server, message, now, order)
    {
      hide ValidTask, EngineModel.Settle, EngineModel.NextCandidate, EngineModel.Remembered, EngineModel.ReplyAnswer,
           Rcode, Relevant, EffectiveName, NegativeTtl;
      var task := tasks[id];
      var outcome, records, ttl := Read(message, task);
      Remember(id, server, message, outcome, records, ttl, now, order);
      if outcome == NotFound && task.candidates != [] {
        var refunded := task.(attempt := if task.attempt == 0 then 0 else task.attempt - 1);
        SameNamed(task, refunded);
        tasks := tasks[id := refunded];
        acts := NextCandidate(id, now);
        return;
      }
      acts := Settle(id, ReplyAnswer(Cfg(), task, server, message));
    }

    /** What a usable reply says about the task's name: outcome, records in the caller's case, and lifetime. */
    method Read(message: Message, task: Task) returns (outcome: Outcome, records: seq<Record>, ttl: u32)
      ensures outcome == ReplyOutcome(message)
      ensures records == ReplyRecords(message, CurrentName(task), task.rtype)
      ensures ttl == ReplyTtl(message, CurrentName(task), task.rtype)
    {
      hide Relevant, EffectiveName, NegativeTtl, Rcode;
      var candidate := CurrentName(task);
      outcome := if Rcode(message) == NXDOMAIN as int then NotFound else Found;
      var relevant, effective := RelevantRecords(message.answers, candidate, task.rtype);
      var aliasTtl := MinTtl(AliasRecords(relevant), 0xffff_ffff);
      records := [];
      if outcome == Found { records := Recase(relevant, candidate); }
      if outcome == Found && relevant != [] {
        ttl := MinTtl(relevant, MAX_POSITIVE_TTL);
      } else {
        ttl := Min(NegativeTtl(message.authority, effective), aliasTtl);
      }
    }

    method Remember(id: TaskId, server: IpAddr, message: Message, outcome: Outcome, records: seq<Record>, ttl: u32,
                    now: nat, order: seq<CacheKey>)
      requires id in tasks && outcome == ReplyOutcome(message)
      requires records == ReplyRecords(message, CurrentName(tasks[id]), tasks[id].rtype)
      requires ttl == ReplyTtl(message, CurrentName(tasks[id]), tasks[id].rtype)
      modifies this, cache
      ensures View() == EngineModel.Remembered(old(View()), id, server, message, now, order)
      ensures tasks == old(tasks) && Cfg() == old(Cfg())
    {
      hide ReplyTtl, ReplyRecords, ReplyOutcome, Rcode, Inserted;
      var task := tasks[id];
      var candidate, scope := CurrentName(task), ScopeName(task);
      demoted := demoted - {ServerKeyOf(server, scope)};
      if ttl > 0 && !task.cacheInvalidated {
        cache.Insert(KeyOf(candidate, task.rtype, scope),
                     Entry(outcome, records, Rcode(message), server, now + ttl * SECOND), now, order);
      }
    }

    /** The transport failed. */
    method Failed(tx: Txid, now: nat) returns (acts: seq<Action>)
      requires Named(tasks)
      modifies this
      ensures Named(tasks)
      ensures Out(View(), acts) == EngineModel.Failed(old(View()), tx, now)
    {
      hide ValidTask, EngineModel.NextAttempt, Ended;
      if tx !in txs { return []; }
      var t := End(tx);
      counters := counters.(upstreamFailed := counters.upstreamFailed + 1);
      var scope := if t.task in tasks then ScopeName(tasks[t.task]) else "";
      demoted := demoted[ServerKeyOf(t.server, scope) := now + DEMOTION];
      acts := NextAttempt(t.task, now);
    }

    /** A local error prevented sending: a failure the server is not blamed for. */
    method LocalFailed(tx: Txid, now: nat) returns (acts: seq<Action>)
      requires Named(tasks)
      modifies this
      ensures Named(tasks)
      ensures Out(View(), acts) == EngineModel.LocalFailed(old(View()), tx, now)
    {
      hide ValidTask, EngineModel.NextAttempt, Ended;
      if tx !in txs { return []; }
      var t := End(tx);
      counters := counters.(upstreamFailed := counters.upstreamFailed + 1);
      acts := NextAttempt(t.task, now);
    }

    /** Time passed; `walk` is the order in which the transaction table is walked. */
    method Tick(now: nat, walk: seq<Txid>) returns (acts: seq<Action>)
      requires Named(tasks) && WholeWalk(walk, txs)
      modifies this
      ensures Named(tasks)
      ensures Out(View(), acts) == EngineModel.Tick(old(View()), Overdue(old(txs), now, walk), now)
      ensures EngineRuns.Expired(old(View()), now, Overdue(old(txs), now, walk))
    {
      hide ValidTask, EngineModel.Failed, EngineModel.Tick, EngineRuns.Expired;
      OverdueAll(View(), now, walk);
      hide WholeWalk;
      var expired := Overdue(txs, now, walk);
      acts := [];
      TickNone(View(), now);
      for i := 0 to |expired|
        invariant Named(tasks)
        invariant var rest := EngineModel.Tick(View(), expired[i..], now);
                  Out(rest.s, acts + rest.acts) == EngineModel.Tick(old(View()), expired, now)
      {
        TickNext(View(), expired[i..], now);
        assert expired[i..][0] == expired[i] && expired[i..][1..] == expired[i + 1..];
        acts := acts + [Cancel(expired[i])];
        var more := Failed(expired[i], now);
        acts := acts + more;
      }
      TickNone(View(), now);
    }

    // ------------------------------------------------------- configuration

    /** Drop a scope's answers, and its tasks' permission to store more. */
    method InvalidateScope(scope: string)
      requires Named(tasks)
      modifies this, cache
      ensures Named(tasks) && Cfg() == old(Cfg())
      ensures View() == Invalidate(old(View()), {scope})
    {
      cache.FlushScope(scope);
      tasks := map id | id in tasks ::
        if tasks[id].scope == Some(scope) then tasks[id].(cacheInvalidated := true) else tasks[id];
    }

    /** Replace the scopes. A scope whose servers changed loses its cache. */
    method SetScopes(new_: seq<Scope>)
      requires Named(tasks)
      modifies this, cache
      ensures Named(tasks)
      ensures View() == EngineModel.SetScopes(old(View()), new_)
    {
      hide ValidTask, Invalidate, ScopeIndex;
      var invalidated: seq<string> := [];
      for i := 0 to |new_|
        invariant unchanged(this) && unchanged(cache)
        invariant forall c :: c in invalidated <==>
          exists k :: 0 <= k < i && new_[k].id == c && Altered(scopes, new_[k])
      {
        if Altered(scopes, new_[i]) { invalidated := invalidated + [new_[i].id]; }
      }
      for i := 0 to |scopes|
        invariant unchanged(this) && unchanged(cache)
        invariant forall c :: c in invalidated <==>
                    || (exists k :: 0 <= k < |new_| && new_[k].id == c && Altered(scopes, new_[k]))
                    || (exists k :: 0 <= k < i && scopes[k].id == c && Removed(new_, scopes[k]))
      {
        if Removed(new_, scopes[i]) { invalidated := invalidated + [scopes[i].id]; }
      }
      StaleAre(scopes, new_, invalidated);
      hide Altered, Removed, StaleScopes;
      InvalidateNone(View());
      for i := 0 to |invalidated|
        invariant Named(tasks) && Cfg() == old(Cfg())
        invariant View() == Invalidate(old(View()), Among(invalidated[..i]))
      {
        InvalidateScope(invalidated[i]);
        InvalidateMore(old(View()), invalidated[..i], invalidated[i]);
        assert invalidated[..i + 1] == invalidated[..i] + [invalidated[i]];
      }
      assert invalidated[..|invalidated|] == invalidated;
      scopes := new_;
    }

    method SetFallback(servers: seq<IpAddr>, domains: seq<Name>)
      requires Named(tasks)
      modifies this, cache
      ensures Named(tasks)
      ensures View() == EngineModel.SetFallback(old(View()), servers, domains)
    {
      hide ValidTask, Invalidate;
      if servers != fallbackServers { InvalidateScope(FALLBACK_SCOPE); }
      fallbackServers := servers;
      fallbackDomains := domains;
    }

    method SetHostname(text: Option<seq<byte>>)
      modifies this
      ensures tasks == old(tasks) && View() == EngineModel.SetHostname(old(View()), text)
    {
      hide Parse;
      hostname := None;
      if text.Some? {
        var name := Parse(text.value);
        if name.Ok? && name.value != [] { hostname := Some(name.value); }
      }
    }

    method SetHosts(new_: seq<Host>)
      modifies this
      ensures tasks == old(tasks) && View() == EngineModel.SetHosts(old(View()), new_)
    {
      hosts := new_;
    }

    method Flush()
      requires Named(tasks)
      modifies this, cache
      ensures Named(tasks)
      ensures View() == EngineModel.Flush(old(View()))
    {
      cache.Clear();
      tasks := map id | id in tasks :: tasks[id].(cacheInvalidated := true);
    }
  }

  /** The new scope's servers are not the old scope's of the same id. */
  predicate Altered(old_: seq<Scope>, n: Scope) {
    var j := ScopeIndex(old_, n.id);
    j == |old_| || old_[j].servers != n.servers
  }

  predicate Removed(new_: seq<Scope>, o: Scope) {
    ScopeIndex(new_, o.id) == |new_|
  }

  function Among(ids: seq<string>): set<string> {
    set i | 0 <= i < |ids| :: ids[i]
  }

  lemma StaleAre(old_: seq<Scope>, new_: seq<Scope>, ids: seq<string>)
    requires forall c :: c in ids <==>
               || (exists k :: 0 <= k < |new_| && new_[k].id == c && Altered(old_, new_[k]))
               || (exists k :: 0 <= k < |old_| && old_[k].id == c && Removed(new_, old_[k]))
    ensures Among(ids) == StaleScopes(old_, new_)
  {
    hide ScopeIndex;
    forall c ensures c in Among(ids) <==> c in StaleScopes(old_, new_) {
      assert c in Among(ids) <==> c in ids;
    }
  }

  lemma InvalidateNone(s: State)
    ensures Invalidate(s, Among([])) == s
  {
    assert Among([]) == {};
    var s' := Invalidate(s, {});
    assert s'.cache == s.cache && s'.tasks == s.tasks;
  }

  lemma InvalidateMore(s: State, ids: seq<string>, id: string)
    ensures Invalidate(Invalidate(s, Among(ids)), {id}) == Invalidate(s, Among(ids + [id]))
  {
    assert Among(ids + [id]) == Among(ids) + {id} by {
      forall c ensures c in Among(ids + [id]) <==> c in Among(ids) + {id} {
        assert c in Among(ids + [id]) <==> c in ids + [id];
        assert c in Among(ids) <==> c in ids;
      }
    }
    InvalidateBoth(s, Among(ids), id);
  }

  lemma InvalidateBoth(s: State, stale: set<string>, id: string)
    ensures Invalidate(Invalidate(s, stale), {id}) == Invalidate(s, stale + {id})
  {
    var a, b := Invalidate(Invalidate(s, stale), {id}), Invalidate(s, stale + {id});
    assert a.cache == b.cache;
    assert a.tasks == b.tasks;
  }

  lemma TickNone(s: State, now: nat)
    ensures EngineModel.Tick(s, [], now) == Out(s, [])
  {
  }

  lemma DropNone(s: State)
    ensures EngineModel.DropTasks(s, []) == Out(s, [])
  {
  }

  lemma DropNext(s: State, ids: seq<TaskId>)
    requires ids != []
    ensures ids[0] !in s.tasks ==> EngineModel.DropTasks(s, ids) == EngineModel.DropTasks(s, ids[1..])
    ensures ids[0] in s.tasks && s.tasks[ids[0]].tx.None? ==>
              EngineModel.DropTasks(s, ids) == EngineModel.DropTasks(s.(tasks := s.tasks - {ids[0]}), ids[1..])
    ensures ids[0] in s.tasks && s.tasks[ids[0]].tx.Some? ==>
              var tx := s.tasks[ids[0]].tx.value;
              var rest := EngineModel.DropTasks(s.(tasks := s.tasks - {ids[0]}, txs := s.txs - {tx}), ids[1..]);
              EngineModel.DropTasks(s, ids) == Out(rest.s, [Cancel(tx)] + rest.acts)
  {
  }

  lemma TickNext(s: State, expired: seq<Txid>, now: nat)
    requires expired != []
    ensures var o := EngineModel.Failed(s, expired[0], now);
            var rest := EngineModel.Tick(o.s, expired[1..], now);
            EngineModel.Tick(s, expired, now) == Out(rest.s, [Cancel(expired[0])] + o.acts + rest.acts)
  {
  }

  lemma MatchedLive(s: State, tx: Txid, bytes: seq<byte>)
    requires MatchingResponse(s, tx, bytes).Some?
    ensures tx in s.txs
  {
  }

  lemma FilledNamed(cfg: Config, t: Task)
    requires ValidTask(t)
    ensures ValidTask(t.(candidates := Candidates(cfg, t.original)))
  {
    hide Candidates;
    CandidatesValid(cfg, t.original);
  }

  lemma NewNamed(owner: Owner, name: Name, rtype: u16, noCache: bool)
    requires ValidName(name)
    ensures ValidTask(NewTask(owner, name, rtype, noCache))
  {
  }

  lemma PoppedNamed(t: Task)
    requires ValidTask(t) && t.candidates != []
    ensures ValidTask(t.(candidates := t.candidates[1..], current := Some(t.candidates[0]), tried := []))
  {
  }

  lemma GotUnexpired(m: Entries, key: CacheKey, now: nat)
    ensures var hit := Got(m, key, now).1; hit.Some? ==> hit.value.expires > now
  {
  }
}
