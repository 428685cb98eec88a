/** What a question comes to: a local answer, what the cache holds, or a query, its names tried in turn. */
module EngineHits {
  import opened Bytes
  import opened Results
  import opened Names
  import opened Dns
  import opened Codec
  import opened Lookups
  import opened Caches
  import opened Routing
  import opened ReverseNames
  import opened Synthetics
  import opened EngineModel
  import opened EngineSteps
  import opened EngineInvariant
  import opened EngineResume
  import opened EngineAsk
  import opened EngineWorld
  import opened EngineRuns
  import opened EngineTheorems
  import opened EngineLifetimes
  import opened EngineServers
  import opened ReplyLaws
  import opened EngineAnswers

  // ------------------------------------------------------- the names in turn

  /** The key a name's answers are kept under, when it is routed. */
  function KeyAt(cfg: Config, c: Name, rtype: u16): CacheKey
    requires Route(cfg, c).Some?
  {
    KeyOf(c, rtype, Route(cfg, c).value)
  }

  /** An answer for the name is held and has not run out. */
  predicate HeldAt(s: State, c: Name, rtype: u16, now: nat) {
    Route(s.cfg, c).Some? && KeyAt(s.cfg, c, rtype) in s.cache && s.cache[KeyAt(s.cfg, c, rtype)].expires > now
  }

  /** The cache may be used, it holds that the name is absent, and there are other names to try. */
  predicate PassedOver(s: State, t: Task, i: nat, now: nat)
    requires i < |t.candidates|
  {
    && !t.noCache && i + 1 < |t.candidates| && HeldAt(s, t.candidates[i], t.rtype, now)
    && s.cache[KeyAt(s.cfg, t.candidates[i], t.rtype)].outcome == NotFound
  }

  /** The first name that is not passed over. */
  predicate Reaches(s: State, t: Task, i: nat, now: nat) {
    && i < |t.candidates| && !PassedOver(s, t, i, now)
    && forall j :: 0 <= j < i ==> PassedOver(s, t, j, now)
  }

  /** The task turned to its `i`th name. */
  function Turned(t: Task, i: nat, scope: Option<string>): Task
    requires i < |t.candidates|
  {
    t.(candidates := t.candidates[i + 1..], current := Some(t.candidates[i]), scope := scope, tried := [])
  }

  /** Nothing is lost but what has run out. */
  predicate KeepsLive(m: Entries, m': Entries, now: nat) {
    forall key :: key in m && m[key].expires > now ==> key in m' && m'[key] == m[key]
  }

  /** What trying the names comes to, at the first not passed over. */
  predicate WalksTo(s: State, id: TaskId, now: nat, i: nat, s1: State)
    requires id in s.tasks && i < |s.tasks[id].candidates|
  {
    var t := s.tasks[id];
    var c := t.candidates[i];
    var route := Route(s.cfg, c);
    && id in s1.tasks && s1.tasks[id] == Turned(t, i, s1.tasks[id].scope)
    && s1 == s.(tasks := s.tasks[id := s1.tasks[id]], cache := s1.cache, counters := s1.counters)
    && Shrunk(s.cache, s1.cache) && KeepsLive(s.cache, s1.cache, now)
    && (route.None? ==> NextCandidate(s, id, now) == Settle(s1, id, DEFAULT_ANSWER))
    && (route.Some? ==> s1.tasks[id].scope == route)
    && (route.Some? && !t.noCache && HeldAt(s, c, t.rtype, now) ==>
          NextCandidate(s, id, now)
          == Settle(s1, id, CacheAnswer(s.cfg, Aged(s.cache[KeyAt(s.cfg, c, t.rtype)], now), route.value, c, now)))
    && (route.Some? && (t.noCache || !HeldAt(s, c, t.rtype, now)) ==>
          NextCandidate(s, id, now) == NextAttempt(s1, id, now))
  }

  lemma WalksHere(s: State, id: TaskId, now: nat) returns (s1: State)
    requires id in s.tasks && s.tasks[id].candidates != [] && !PassedOver(s, s.tasks[id], 0, now)
    ensures WalksTo(s, id, now, 0, s1)
  {
    hide Settle, NextAttempt, Route, KeyOf, CacheAnswer;
    var t := s.tasks[id];
    var route := Route(s.cfg, t.candidates[0]);
    var t1 := t.(candidates := t.candidates[1..], current := Some(t.candidates[0]), tried := []);
    if route.None? {
      s1 := s.(tasks := s.tasks[id := t1]);
    } else {
      s1 := s.(tasks := s.tasks[id := t1.(scope := route)]);
      if !t.noCache {
        var (cache, hit) := Got(s.cache, KeyOf(t.candidates[0], t.rtype, route.value), now);
        s1 := s1.(cache := cache);
        if hit.Some? { s1 := s1.(counters := s.counters.(cacheHits := s.counters.cacheHits + 1)); }
      }
    }
  }

  /** A name passed over leaves the task with the rest of its names, and the cache as it was. */
  lemma PassesOn(s: State, id: TaskId, now: nat) returns (s': State)
    requires id in s.tasks && s.tasks[id].candidates != [] && PassedOver(s, s.tasks[id], 0, now)
    ensures id in s'.tasks && NextCandidate(s, id, now) == NextCandidate(s', id, now)
    ensures s'.tasks[id] == Turned(s.tasks[id], 0, s'.tasks[id].scope)
    ensures s' == s.(tasks := s.tasks[id := s'.tasks[id]], counters := s'.counters)
  {
    hide Settle, NextAttempt, Route, KeyOf, CacheAnswer;
    var t := s.tasks[id];
    var route := Route(s.cfg, t.candidates[0]);
    var t1 := t.(candidates := t.candidates[1..], current := Some(t.candidates[0]), tried := []);
    s' := s.(tasks := s.tasks[id := t1.(scope := route)],
             counters := s.counters.(cacheHits := s.counters.cacheHits + 1));
  }

  lemma {:induction false} CandidateWalk(s: State, id: TaskId, now: nat, i: nat) returns (s1: State)
    requires id in s.tasks && Reaches(s, s.tasks[id], i, now)
    ensures WalksTo(s, id, now, i, s1)
    decreases i
  {
    hide NextCandidate, NextAttempt, Settle, Route, KeyOf, CacheAnswer, Aged, PassedOver;
    if i == 0 {
      s1 := WalksHere(s, id, now);
    } else {
      var t := s.tasks[id];
      var s' := PassesOn(s, id, now);
      assert Reaches(s', s'.tasks[id], i - 1, now) by { ReachesOn(s, s', id, now, i); }
      s1 := CandidateWalk(s', id, now, i - 1);
      assert t.candidates[1..][i - 1] == t.candidates[i] && t.candidates[1..][i..] == t.candidates[i + 1..];
    }
  }

  lemma ReachesOn(s: State, s': State, id: TaskId, now: nat, i: nat)
    requires id in s.tasks && id in s'.tasks && i > 0 && Reaches(s, s.tasks[id], i, now)
    requires s'.tasks[id] == Turned(s.tasks[id], 0, s'.tasks[id].scope) && s'.cfg == s.cfg && s'.cache == s.cache
    ensures Reaches(s', s'.tasks[id], i - 1, now)
  {
    hide Route, KeyOf;
    var t, t' := s.tasks[id], s'.tasks[id];
    forall j | 0 <= j < |t'.candidates| ensures PassedOver(s', t', j, now) == PassedOver(s, t, j + 1, now) {}
  }

  lemma {:induction false} ReachesOne(s: State, t: Task, now: nat, from: nat) returns (k: nat)
    requires from < |t.candidates| && forall j :: 0 <= j < from ==> PassedOver(s, t, j, now)
    ensures Reaches(s, t, k, now)
    decreases |t.candidates| - from
  {
    hide Route, KeyOf, HeldAt;
    if PassedOver(s, t, from, now) { k := ReachesOne(s, t, now, from + 1); } else { k := from; }
  }

  // ------------------------------------------------------------------- hits

  /**
   * The answer is what the reply at input `j` said, read in the state the run had then reached: asked
   * for the same name, type and scope, and told with the time it has left.
   */
  ghost predicate CachedAnswer(a: Answer, start: State, inputs: seq<Input>, j: nat, cfg: Config, c: Name, rtype: u16,
                               scope: string, now: nat) {
    && j < |inputs| && inputs[j].OnReceived? && Decode(inputs[j].bytes).Ok?
    && var s, m := Play(start, inputs[..j]).s, Decode(inputs[j].bytes).value;
    && inputs[j].tx in s.txs && s.txs[inputs[j].tx].task in s.tasks
    && var x, t := s.txs[inputs[j].tx], s.tasks[s.txs[inputs[j].tx].task];
    && SameName(CurrentName(t), c) && t.rtype == rtype && ScopeName(t) == scope && (Rcode(m) == 0 || Rcode(m) == 3)
    && HitFor(a, m, CurrentName(t), c, rtype, x.server, InterfaceOf(cfg, scope), inputs[j].now, now)
  }

  lemma StoredHit(start: State, inputs: seq<Input>, j: nat, cfg: Config, c: Name, rtype: u16, scope: string, e: Entry,
                  now: nat)
    requires StoredAt(start, inputs, KeyOf(c, rtype, scope), e, j) && e.expires > now
    ensures CachedAnswer(CacheAnswer(cfg, Aged(e, now), scope, c, now), start, inputs, j, cfg, c, rtype, scope, now)
  {
    var s := Play(start, inputs[..j]).s;
    Queries.AcceptedMatches(s, inputs[j].tx, inputs[j].bytes);
    hide Play, MatchingResponse, Decode, ReplyEntry, CacheAnswer, Aged, HitFor, Rcode, InterfaceOf, Lower;
    var x, m := s.txs[inputs[j].tx], MatchingResponse(s, inputs[j].tx, inputs[j].bytes).value;
    HitSays(cfg, m, CurrentName(s.tasks[x.task]), c, rtype, x.server, scope, inputs[j].now, now, e);
  }

  // ----------------------------------------------------- the name reached

  /** The state in which the task has turned to its `k`th name. */
  function At(s: State, id: TaskId, k: nat): State
    requires id in s.tasks && k < |s.tasks[id].candidates|
  {
    s.(tasks := s.tasks[id := Turned(s.tasks[id], k, Route(s.cfg, s.tasks[id].candidates[k]))])
  }

  /** Every entry was stored by some reply of the run. */
  ghost predicate Stocked(start: State, inputs: seq<Input>, cache: Entries) {
    forall key :: key in cache ==> exists j: nat :: StoredAt(start, inputs, key, cache[key], j)
  }

  /** The task is answered by what the cache holds for the name. */
  ghost predicate Hits(o: Out, s: State, id: TaskId, c: Name, scope: string, now: nat, start: State, inputs: seq<Input>)
    requires id in s.tasks
  {
    exists a: Answer, j: nat ::
      Concludes(o, s, id, a) && CachedAnswer(a, start, inputs, j, s.cfg, c, s.tasks[id].rtype, scope, now)
  }

  /**
   * At the name reached: an unrouted one is a failure to find out, one held is answered from the cache,
   * and any other is asked for in its scope.
   */
  ghost predicate Proceeds(o: Out, s: State, id: TaskId, k: nat, now: nat, start: State, inputs: seq<Input>)
    requires id in s.tasks && k < |s.tasks[id].candidates|
  {
    var t := s.tasks[id];
    var route := Route(s.cfg, t.candidates[k]);
    if route.None? then Concludes(o, s, id, DEFAULT_ANSWER)
    else if !t.noCache && HeldAt(s, t.candidates[k], t.rtype, now)
    then Hits(o, s, id, t.candidates[k], route.value, now, start, inputs)
    else Attempts(o, At(s, id, k), id, now)
  }

  /** What an attempt comes to depends neither on the cache nor on the counters. */
  lemma AttemptsAs(o: Out, s1: State, s: State, id: TaskId, now: nat)
    requires id in s1.tasks && Attempts(o, s1, id, now) && s1 == s.(cache := s1.cache, counters := s1.counters)
    ensures Attempts(o, s, id, now)
  {
    hide RightChoice, Configured, SameName, QueryBytes, InterfaceOf, GivesUp;
  }

  lemma HitProceeds(s: State, s1: State, id: TaskId, now: nat, k: nat, start: State, inputs: seq<Input>)
    requires id in s.tasks && k < |s.tasks[id].candidates| && WalksTo(s, id, now, k, s1)
    requires Stocked(start, inputs, s.cache)
    requires !s.tasks[id].noCache && HeldAt(s, s.tasks[id].candidates[k], s.tasks[id].rtype, now)
    ensures Proceeds(NextCandidate(s, id, now), s, id, k, now, start, inputs)
  {
    hide NextCandidate, NextAttempt, Settle, Route, KeyOf, CacheAnswer, StoredAt, CachedAnswer, Concludes, Attempts;
    var t := s.tasks[id];
    var c, scope := t.candidates[k], Route(s.cfg, t.candidates[k]).value;
    var e := s.cache[KeyAt(s.cfg, c, t.rtype)];
    var j: nat :| StoredAt(start, inputs, KeyAt(s.cfg, c, t.rtype), e, j);
    StoredHit(start, inputs, j, s.cfg, c, t.rtype, scope, e, now);
    var a := CacheAnswer(s.cfg, Aged(e, now), scope, c, now);
    SettleConcludes(s1, id, a);
    ConcludesAs(NextCandidate(s, id, now), s1, s, id, a);
  }

  lemma WalkProceeds(s: State, id: TaskId, now: nat, k: nat, start: State, inputs: seq<Input>)
    requires id in s.tasks && s.tasks[id].tx.None? && Reaches(s, s.tasks[id], k, now) && Stocked(start, inputs, s.cache)
    ensures Proceeds(NextCandidate(s, id, now), s, id, k, now, start, inputs)
  {
    hide NextCandidate, NextAttempt, Settle, Route, KeyOf, CacheAnswer, Aged, PassedOver, Stocked, Hits, HeldAt,
         Concludes, Attempts;
    var t := s.tasks[id];
    var s1 := CandidateWalk(s, id, now, k);
    var route := Route(s.cfg, t.candidates[k]);
    if route.None? {
      SettleConcludes(s1, id, DEFAULT_ANSWER);
      ConcludesAs(NextCandidate(s, id, now), s1, s, id, DEFAULT_ANSWER);
    } else if !t.noCache && HeldAt(s, t.candidates[k], t.rtype, now) {
      HitProceeds(s, s1, id, now, k, start, inputs);
    } else {
      AttemptAsks(s1, id, now);
      AttemptsAs(NextCandidate(s, id, now), s1, At(s, id, k), id, now);
    }
  }

  // ------------------------------------------------------------ first answers

  /** The task once its names are known. */
  function Named(s: State, id: TaskId): State
    requires id in s.tasks
  {
    s.(tasks := s.tasks[id := s.tasks[id].(candidates := Candidates(s.cfg, s.tasks[id].original))])
  }

  /**
   * What a new task comes to at once: its local answer if there is one, else what its names come to,
   * tried in turn.
   */
  ghost predicate Begins(o: Out, s: State, id: TaskId, now: nat, start: State, inputs: seq<Input>)
    requires id in s.tasks
  {
    var t := s.tasks[id];
    var local, names := Synthesise(s.cfg, t.original, t.rtype), Candidates(s.cfg, t.original);
    if local.Some? then Concludes(o, s, id, local.value)
    else if names == [] then Concludes(o, s, id, NOT_FOUND)
    else exists k: nat :: Reaches(Named(s, id), Named(s, id).tasks[id], k, now)
                          && Proceeds(o, Named(s, id), id, k, now, start, inputs)
  }

  lemma AdvanceBegins(s: State, id: TaskId, now: nat, start: State, inputs: seq<Input>)
    requires id in s.tasks && Fresh(s.tasks[id]) && Stocked(start, inputs, s.cache)
    ensures Begins(Advance(s, id, now), s, id, now, start, inputs)
  {
    hide NextCandidate, Synthesise, Candidates, Settle, Stocked, Concludes, PassedOver, Proceeds;
    var t, o := s.tasks[id], Advance(s, id, now);
    var local := Synthesise(s.cfg, t.original, t.rtype);
    if local.Some? {
      var s1 := s.(counters := s.counters.(synthetic := s.counters.synthetic + 1));
      SettleConcludes(s1, id, local.value);
      ConcludesAs(o, s1, s, id, local.value);
    } else if Candidates(s.cfg, t.original) == [] {
      SettleConcludes(s, id, NOT_FOUND);
    } else {
      var k := ReachesOne(Named(s, id), Named(s, id).tasks[id], now, 0);
      WalkProceeds(Named(s, id), id, now, k, start, inputs);
    }
  }

  // ---------------------------------------------------------------- over a run

  lemma RunStocked(entropy: seq<Option<Random>>, inputs: seq<Input>)
    requires LegalRun(Start(entropy), inputs)
    ensures Stocked(Initial(entropy), inputs, Play(Initial(entropy), inputs).s.cache)
  {
    hide Good, LegalRun, StoredAt, HeldSince;
    StartGood(entropy);
    RunGood(Start(entropy), inputs);
    hide After, Play;
    var cache := Play(Initial(entropy), inputs).s.cache;
    forall key | key in cache ensures exists j: nat :: StoredAt(Initial(entropy), inputs, key, cache[key], j) {
      var j := EntryStored(Start(entropy), inputs, key);
    }
  }

  /** A question for one type. */
  predicate AsksOne(i: Input) {
    i.OnResolve? || i.OnQuestion? || i.OnReverse?
  }

  function TypeAsked(i: Input): u16
    requires AsksOne(i)
  {
    match i
    case OnResolve(_, _, rtype, _, _) => rtype
    case OnQuestion(_, question, _) => question.rtype
    case OnReverse(_, _, _) => PTR
  }

  /** The caller wants no answer from the cache. */
  predicate CacheBarred(i: Input) {
    i.OnResolve? && i.noCache
  }

  /** The state in which the question's task has started. */
  function Entered(s: State, i: Input): State
    requires AsksOne(i) && NameAsked(i).Some?
  {
    StartTask(Asked(s), ResolveOwner(i.q), NameAsked(i).value, TypeAsked(i), CacheBarred(i))
  }

  lemma QuestionSteps(s: State, i: Input)
    requires AsksOne(i)
    ensures NameAsked(i).None? ==> Step(s, i).acts == [Done(i.q, AnswerDone(NOT_FOUND))]
    ensures NameAsked(i).Some? ==> Step(s, i) == Advance(Entered(s, i), s.nextId, i.now)
  {
    hide Advance, Parse, Show, ReverseName;
  }

  /**
   * Whatever the run, a question for one type is answered at once that its name is absent when it has
   * none, and else comes to what its names come to.
   */
  lemma QuestionAnswered(entropy: seq<Option<Random>>, inputs: seq<Input>, i: Input)
    requires LegalRun(Start(entropy), inputs) && AsksOne(i)
    ensures var s := Play(Initial(entropy), inputs).s;
            && (NameAsked(i).None? ==> Step(s, i).acts == [Done(i.q, AnswerDone(NOT_FOUND))])
            && (NameAsked(i).Some? ==>
                  Begins(Step(s, i), Entered(s, i), s.nextId, i.now, Initial(entropy), inputs))
  {
    hide LegalRun, Play, Step, NameAsked, Stocked, Begins, Advance;
    RunStocked(entropy, inputs);
    var s := Play(Initial(entropy), inputs).s;
    QuestionSteps(s, i);
    if NameAsked(i).Some? { AdvanceBegins(Entered(s, i), s.nextId, i.now, Initial(entropy), inputs); }
  }

  /** The names the question tries. */
  function NamesTried(s: State, i: Input): seq<Name>
    requires NameAsked(i).Some?
  {
    Candidates(s.cfg, NameAsked(i).value)
  }

  /**
   * A question whose first name is held, with an answer or with none left to try, is answered from the
   * cache and nothing is sent.
   */
  lemma HitAnswered(entropy: seq<Option<Random>>, inputs: seq<Input>, i: Input) returns (a: Answer, j: nat)
    requires LegalRun(Start(entropy), inputs) && AsksOne(i) && NameAsked(i).Some? && !CacheBarred(i)
    requires var s := Play(Initial(entropy), inputs).s;
             && Synthesise(s.cfg, NameAsked(i).value, TypeAsked(i)).None? && NamesTried(s, i) != []
             && var c := NamesTried(s, i)[0];
             && HeldAt(s, c, TypeAsked(i), i.now)
             && (s.cache[KeyAt(s.cfg, c, TypeAsked(i))].outcome == NotFound ==> |NamesTried(s, i)| == 1)
    ensures var s := Play(Initial(entropy), inputs).s;
            var c := NamesTried(s, i)[0];
            && Step(s, i).acts == [Done(i.q, AnswerDone(a))] && Route(s.cfg, c).Some?
            && CachedAnswer(a, Initial(entropy), inputs, j, s.cfg, c, TypeAsked(i), Route(s.cfg, c).value, i.now)
  {
    hide LegalRun, Play, Step, NameAsked, Candidates, Synthesise, Route, KeyOf, CachedAnswer, Attempts, Combines;
    QuestionAnswered(entropy, inputs, i);
    var s := Play(Initial(entropy), inputs).s;
    var s0, id := Named(Entered(s, i), s.nextId), s.nextId;
    var c := s0.tasks[id].candidates[0];
    assert !PassedOver(s0, s0.tasks[id], 0, i.now);
    var k: nat :| Reaches(s0, s0.tasks[id], k, i.now)
                  && Proceeds(Step(s, i), s0, id, k, i.now, Initial(entropy), inputs);
    assert k == 0;
    a, j :| Concludes(Step(s, i), s0, id, a)
            && CachedAnswer(a, Initial(entropy), inputs, j, s.cfg, c, TypeAsked(i), Route(s.cfg, c).value, i.now);
  }

  // ------------------------------------------------------------------ lookups

  /** The tasks begin one after another. */
  ghost predicate BeginEach(o: Out, s: State, ids: seq<TaskId>, now: nat, start: State, inputs: seq<Input>)
    decreases |ids|
  {
    if ids == [] then o == Out(s, [])
    else
      exists first: Out, rest: Out ::
        && ids[0] in s.tasks && Begins(first, s, ids[0], now, start, inputs)
        && BeginEach(rest, first.s, ids[1..], now, start, inputs) && o == Out(rest.s, first.acts + rest.acts)
  }

  lemma AdvanceOthers(s: State, id: TaskId, now: nat)
    requires id in s.tasks && Fresh(s.tasks[id]) && ValidTask(s.tasks[id]) && GoodCache(s.cache) && ValidConfig(s.cfg)
    ensures var o := Advance(s, id, now);
            && (forall x :: x in s.tasks && x != id ==> x in o.s.tasks && o.s.tasks[x] == s.tasks[x])
            && o.s.cfg == s.cfg && Shrunk(s.cache, o.s.cache)
  {
    hide Advance, Finish, AdvancedBy, GoodCache, ValidConfig, ValidTask, Shrunk;
    var s1, e := AdvanceBy(s, id, now);
    AdvancePrep(s, id, Advance(s, id, now), now, s1, e);
    FinishOthers(s1, id, e, now);
  }

  lemma ShrunkStocked(start: State, inputs: seq<Input>, m: Entries, m': Entries)
    requires Stocked(start, inputs, m) && Shrunk(m, m') && GoodCache(m)
    ensures Stocked(start, inputs, m') && GoodCache(m')
  {
    hide StoredAt, GoodEntry;
  }

  lemma {:induction false} AllBegin(s: State, ids: seq<TaskId>, now: nat, start: State, inputs: seq<Input>)
    requires Stocked(start, inputs, s.cache) && GoodCache(s.cache) && ValidConfig(s.cfg) && NoRepeats(ids)
    requires forall x :: x in ids ==> x in s.tasks && Fresh(s.tasks[x]) && ValidTask(s.tasks[x])
    ensures BeginEach(AdvanceAll(s, ids, now), s, ids, now, start, inputs)
    decreases |ids|
  {
    if ids != [] {
      hide Stocked, GoodCache, ValidConfig, ValidTask, Fresh, Advance, Begins, Shrunk;
      var o := Advance(s, ids[0], now);
      AdvanceBegins(s, ids[0], now, start, inputs);
      AdvanceOthers(s, ids[0], now);
      ShrunkStocked(start, inputs, s.cache, o.s.cache);
      AllBegin(o.s, ids[1..], now, start, inputs);
    }
  }

  /** The state in which the lookup's tasks have started, one for each type of its family. */
  function Sought(s: State, i: Input): State
    requires i.OnLookup? && NameAsked(i).Some?
  {
    var types := FamilyTypes(i.family);
    var s1 := StartTasks(Asked(s), i.q, NameAsked(i).value, types);
    s1.(lookups := s1.lookups[i.q := Lookup(NameAsked(i).value, IdsFrom(s.nextId, |types|), [])])
  }

  lemma SoughtFresh(s: State, i: Input)
    requires i.OnLookup? && NameAsked(i).Some? && ValidName(NameAsked(i).value)
    ensures var s0, ids := Sought(s, i), IdsFrom(s.nextId, |FamilyTypes(i.family)|);
            && s0.cache == s.cache && s0.cfg == s.cfg && NoRepeats(ids)
            && forall x :: x in ids ==> x in s0.tasks && Fresh(s0.tasks[x]) && ValidTask(s0.tasks[x])
  {
    hide ValidName, NewTasks, StartTasks, NameAsked;
    var name, types := NameAsked(i).value, FamilyTypes(i.family);
    IdsAre(s.nextId, |types|);
    StartTasksStart(Asked(s), i.q, name, types);
    forall x | x in IdsFrom(s.nextId, |types|)
      ensures x in Sought(s, i).tasks && Fresh(Sought(s, i).tasks[x]) && ValidTask(Sought(s, i).tasks[x])
    {
      NewTaskAt(LookupOwner(i.q), name, types, false, s.nextId, x);
    }
  }

  lemma LookupSteps(s: State, i: Input)
    requires i.OnLookup?
    ensures NameAsked(i).None? ==>
              Step(s, i).acts == [Done(i.q, AddressesDone(Addresses(NotFound, [], [], Local)))]
    ensures NameAsked(i).Some? ==>
              Step(s, i) == AdvanceAll(Sought(s, i), IdsFrom(s.nextId, |FamilyTypes(i.family)|), i.now)
  {
    hide AdvanceAll, Parse, StartTasks;
    if NameAsked(i).Some? {
      assert IdsFrom(s.nextId, |FamilyTypes(i.family)|) == seq(|FamilyTypes(i.family)|, k => s.nextId + k);
    }
  }

  /**
   * Whatever the run, a lookup has a task for each of its family's types, and each comes to what its
   * names come to, with its own type.
   */
  lemma LookupAnswered(entropy: seq<Option<Random>>, inputs: seq<Input>, i: Input)
    requires LegalRun(Start(entropy), inputs) && i.OnLookup?
    ensures var s := Play(Initial(entropy), inputs).s;
            && (NameAsked(i).None? ==>
                  Step(s, i).acts == [Done(i.q, AddressesDone(Addresses(NotFound, [], [], Local)))])
            && (NameAsked(i).Some? ==>
                  BeginEach(Step(s, i), Sought(s, i), IdsFrom(s.nextId, |FamilyTypes(i.family)|), i.now,
                            Initial(entropy), inputs))
  {
    StartGood(entropy);
    RunGood(Start(entropy), inputs);
    hide LegalRun, Play, After, Step, Stocked, BeginEach, AdvanceAll, Sought, IdsFrom, Good, ValidConfig, GoodCache,
         ValidTask, Fresh;
    RunStocked(entropy, inputs);
    var s := Play(Initial(entropy), inputs).s;
    LookupSteps(s, i);
    if NameAsked(i).Some? {
      GoodStore(After(Start(entropy), inputs));
      ParsedValid(i.text);
      hide ValidName, NameAsked;
      SoughtFresh(s, i);
      AllBegin(Sought(s, i), IdsFrom(s.nextId, |FamilyTypes(i.family)|), i.now, Initial(entropy), inputs);
    }
  }

  lemma GoodStore(w: World)
    requires Good(w, {})
    ensures GoodCache(w.s.cache) && ValidConfig(w.s.cfg)
  {
    hide Linked, Owned, Provenance, Tracked, EngineTrace.Traced, Settled, Booked, ValidTask, AsksFor, GoodParts,
         Families, ValidConfig;
  }

  // --------------------------------------------------- replies, kept and passed over

  /** The state in which a reply that denies its name has the task go on. */
  lemma DenialInto(s: State, tx: Txid, bytes: seq<byte>, now: nat, keys: seq<CacheKey>) returns (s0: State)
    requires tx in s.txs && s.txs[tx].task in s.tasks && MatchingResponse(s, tx, bytes).Some?
    requires var x, m := s.txs[tx], MatchingResponse(s, tx, bytes).value;
             Keepable(x, m) && Rcode(m) == 3 && s.tasks[x.task].candidates != []
    ensures Refunded(s, tx, s0) && Received(s, tx, bytes, now, keys) == NextCandidate(s0, s.txs[tx].task, now)
    ensures ReplyKept(s, s0, tx, bytes, now, keys)
  {
    hide MatchingResponse, Rcode, Settle, NextCandidate, SendTo, NextAttempt, ReplyAnswer, Inserted, ReplyTtl,
         ReplyEntry, KeyOf, ServerKeyOf;
    var x, m := s.txs[tx], MatchingResponse(s, tx, bytes).value;
    var t := s.tasks[x.task].(tx := None);
    var s1 := Remembered(CountAnswer(Ended(s, tx)), x.task, x.server, m, now, keys);
    s0 := s1.(tasks := s1.tasks[x.task := t.(attempt := if t.attempt == 0 then 0 else t.attempt - 1)]);
  }

  /** The transaction is over, its server trusted again, and the attempt given back. */
  predicate Refunded(s: State, tx: Txid, s0: State)
    requires tx in s.txs && s.txs[tx].task in s.tasks
  {
    var x, t := s.txs[tx], s.tasks[s.txs[tx].task];
    && x.task in s0.tasks
    && s0.tasks[x.task] == t.(tx := None, attempt := if t.attempt == 0 then 0 else t.attempt - 1)
    && s0 == s.(tasks := s.tasks[x.task := s0.tasks[x.task]], txs := s.txs - {tx}, cache := s0.cache,
                demoted := s.demoted - {ServerKeyOf(x.server, ScopeName(t))}, counters := s0.counters)
  }

  lemma KeptFills(s: State, s0: State, tx: Txid, bytes: seq<byte>, now: nat, keys: seq<CacheKey>)
    requires tx in s.txs && s.txs[tx].task in s.tasks && MatchingResponse(s, tx, bytes).Some?
    requires Keepable(s.txs[tx], MatchingResponse(s, tx, bytes).value) && ReplyKept(s, s0, tx, bytes, now, keys)
    ensures Fills(s, s0.cache, tx, bytes, now)
  {
    hide MatchingResponse, Rcode, ReplyTtl, ReplyEntry, KeyOf, Victim;
  }

  lemma StockedMore(start: State, inputs: seq<Input>, i: Input, cache: Entries)
    requires i.OnReceived? && Stocked(start, inputs, Play(start, inputs).s.cache)
    requires Fills(Play(start, inputs).s, cache, i.tx, i.bytes, i.now)
    ensures Stocked(start, inputs + [i], cache)
  {
    hide FromReply, Play;
    var more, s := inputs + [i], Play(start, inputs).s;
    assert more[..|inputs|] == inputs;
    forall key | key in cache ensures exists j: nat :: StoredAt(start, more, key, cache[key], j) {
      if key in s.cache && cache[key] == s.cache[key] {
        var j: nat :| StoredAt(start, inputs, key, cache[key], j);
        assert more[..j] == inputs[..j];
        assert StoredAt(start, more, key, cache[key], j);
      } else {
        assert StoredAt(start, more, key, cache[key], |inputs|);
      }
    }
  }

  /**
   * Whatever the run, a reply that denies its name while others are left has them tried in turn, one
   * attempt given back; the cache may answer for them, what the reply itself says included.
   */
  lemma DenialMovesOn(entropy: seq<Option<Random>>, inputs: seq<Input>, i: Input) returns (s0: State, k: nat)
    requires LegalRun(Start(entropy), inputs) && i.OnReceived?
    requires var s := Play(Initial(entropy), inputs).s; i.tx in s.txs && MatchingResponse(s, i.tx, i.bytes).Some?
    requires var s := Play(Initial(entropy), inputs).s;
             var m := MatchingResponse(s, i.tx, i.bytes).value;
             && (m.header.truncated ==> s.txs[i.tx].tcp) && Rcode(m) == 3
             && (s.txs[i.tx].task in s.tasks ==> s.tasks[s.txs[i.tx].task].candidates != [])
    ensures var s := Play(Initial(entropy), inputs).s;
            var id := s.txs[i.tx].task;
            && id in s.tasks && Refunded(s, i.tx, s0) && Fills(s, s0.cache, i.tx, i.bytes, i.now)
            && Reaches(s0, s0.tasks[id], k, i.now)
            && Proceeds(Step(s, i), s0, id, k, i.now, Initial(entropy), inputs + [i])
  {
    StartGood(entropy);
    RunGood(Start(entropy), inputs);
    hide Good, LegalRun, After, Play, MatchingResponse, Received, Rcode, Fills, Stocked, PassedOver, Proceeds,
         NextCandidate;
    var s := Play(Initial(entropy), inputs).s;
    GoodTx(After(Start(entropy), inputs), i.tx);
    RunStocked(entropy, inputs);
    s0 := DenialInto(s, i.tx, i.bytes, i.now, i.keys);
    hide ReplyKept;
    KeptFills(s, s0, i.tx, i.bytes, i.now, i.keys);
    StockedMore(Initial(entropy), inputs, i, s0.cache);
    k := ReachesOne(s0, s0.tasks[s.txs[i.tx].task], i.now, 0);
    WalkProceeds(s0, s.txs[i.tx].task, i.now, k, Initial(entropy), inputs + [i]);
  }

  // ------------------------------------------------------------ what is held

  lemma SettleCache(s: State, id: TaskId, a: Answer)
    ensures Settle(s, id, a).s.cache == s.cache
  {
    hide Combine, Without;
  }

  lemma AttemptCache(s: State, id: TaskId, now: nat)
    requires id in s.tasks
    ensures NextAttempt(s, id, now).s.cache == s.cache
  {
    hide NextAttempt, Settle, RandomCase, QueryBytes, Prep, ServersOf, Configured;
    var s1, e := AttemptEnds(s, id, now);
    if e.EndSettle? { SettleCache(s1, id, e.answer); }
  }

  lemma WalkCache(s: State, id: TaskId, now: nat, k: nat)
    requires id in s.tasks && Reaches(s, s.tasks[id], k, now)
    ensures var o := NextCandidate(s, id, now); Shrunk(s.cache, o.s.cache) && KeepsLive(s.cache, o.s.cache, now)
  {
    hide NextCandidate, NextAttempt, Settle, Route, KeyOf, CacheAnswer, PassedOver, Shrunk, KeepsLive;
    var s1 := CandidateWalk(s, id, now, k);
    var t := s.tasks[id];
    var c := t.candidates[k];
    AttemptCache(s1, id, now);
    SettleCache(s1, id, DEFAULT_ANSWER);
    if Route(s.cfg, c).Some? && !t.noCache && HeldAt(s, c, t.rtype, now) {
      var e := s.cache[KeyAt(s.cfg, c, t.rtype)];
      SettleCache(s1, id, CacheAnswer(s.cfg, Aged(e, now), Route(s.cfg, c).value, c, now));
    }
  }

  /** What the step leaves of the cache the reply was put in. */
  lemma ReceivedKeeps(s: State, tx: Txid, bytes: seq<byte>, now: nat, keys: seq<CacheKey>) returns (s0: State)
    requires tx in s.txs && s.txs[tx].task in s.tasks && MatchingResponse(s, tx, bytes).Some?
    requires Keepable(s.txs[tx], MatchingResponse(s, tx, bytes).value)
    ensures ReplyKept(s, s0, tx, bytes, now, keys)
    ensures var o := Received(s, tx, bytes, now, keys);
            Shrunk(s0.cache, o.s.cache) && KeepsLive(s0.cache, o.s.cache, now)
  {
    hide MatchingResponse, Rcode, Received, NextCandidate, Settle, ReplyAnswer, PassedOver, ReplyKept;
    var x, m := s.txs[tx], MatchingResponse(s, tx, bytes).value;
    if Rcode(m) == 3 && s.tasks[x.task].candidates != [] {
      s0 := DenialInto(s, tx, bytes, now, keys);
      var k := ReachesOne(s0, s0.tasks[x.task], now, 0);
      WalkCache(s0, x.task, now, k);
    } else {
      s0 := UsableInto(s, tx, bytes, now, keys);
      SettleCache(s0, x.task, ReplyAnswer(s.cfg, s.tasks[x.task].(tx := None), x.server, m));
    }
  }

  lemma KeptMeans(s: State, s0: State, o: Out, tx: Txid, bytes: seq<byte>, now: nat, keys: seq<CacheKey>)
    requires tx in s.txs && s.txs[tx].task in s.tasks && MatchingResponse(s, tx, bytes).Some?
    requires Keepable(s.txs[tx], MatchingResponse(s, tx, bytes).value) && ReplyKept(s, s0, tx, bytes, now, keys)
    requires Shrunk(s0.cache, o.s.cache) && KeepsLive(s0.cache, o.s.cache, now)
    ensures var t, m := s.tasks[s.txs[tx].task], MatchingResponse(s, tx, bytes).value;
            var key, ttl := TaskKey(t), ReplyTtl(m, CurrentName(t), t.rtype);
            && (ttl > 0 && !t.cacheInvalidated ==>
                  && key in o.s.cache && o.s.cache[key].expires == now + ttl * SECOND
                  && FromReply(s, tx, bytes, now, key, o.s.cache[key]))
            && (ttl == 0 || t.cacheInvalidated ==> Shrunk(s.cache, o.s.cache))
  {
    hide MatchingResponse, Rcode, ReplyTtl, ReplyOutcome, ReplyRecords, KeyOf, Victim;
  }

  /** The reply is in the cache for the time it gives itself, if any and if it may be; else nothing new is. */
  ghost predicate Retains(s: State, o: Out, i: Input, ttl: u32)
    requires i.OnReceived? && i.tx in s.txs && s.txs[i.tx].task in s.tasks
  {
    var t := s.tasks[s.txs[i.tx].task];
    if ttl > 0 && !t.cacheInvalidated
    then
      && TaskKey(t) in o.s.cache && o.s.cache[TaskKey(t)].expires == i.now + ttl * SECOND
      && FromReply(s, i.tx, i.bytes, i.now, TaskKey(t), o.s.cache[TaskKey(t)])
    else Shrunk(s.cache, o.s.cache)
  }

  lemma ReplyRetained(s: State, i: Input) returns (ttl: u32)
    requires i.OnReceived? && i.tx in s.txs && s.txs[i.tx].task in s.tasks && MatchingResponse(s, i.tx, i.bytes).Some?
    requires Keepable(s.txs[i.tx], MatchingResponse(s, i.tx, i.bytes).value)
    ensures var t, m := s.tasks[s.txs[i.tx].task], MatchingResponse(s, i.tx, i.bytes).value;
            HeldFor(ttl, m, CurrentName(t), t.rtype) && Retains(s, Step(s, i), i, ttl)
  {
    hide MatchingResponse, Received, Keepable, HeldFor, ReplyTtl, Shrunk, KeepsLive, ReplyKept, FromReply, TaskKey;
    var t, m := s.tasks[s.txs[i.tx].task], MatchingResponse(s, i.tx, i.bytes).value;
    ttl := ReplyTtl(m, CurrentName(t), t.rtype);
    ReplyHeldFor(m, CurrentName(t), t.rtype);
    var s0 := ReceivedKeeps(s, i.tx, i.bytes, i.now, i.keys);
    KeptMeans(s, s0, Step(s, i), i.tx, i.bytes, i.now, i.keys);
  }

  /**
   * Whatever the run, a reply accepted whole with code 0 or 3 is held from then on for exactly the time
   * it gives itself, unless that is none or its scope's answers have been dropped since it was asked for.
   */
  lemma ReplyRemembered(entropy: seq<Option<Random>>, inputs: seq<Input>, i: Input) returns (ttl: u32)
    requires LegalRun(Start(entropy), inputs) && i.OnReceived?
    requires var s := Play(Initial(entropy), inputs).s; i.tx in s.txs && MatchingResponse(s, i.tx, i.bytes).Some?
    requires var s := Play(Initial(entropy), inputs).s;
             var m := MatchingResponse(s, i.tx, i.bytes).value;
             (m.header.truncated ==> s.txs[i.tx].tcp) && (Rcode(m) == 0 || Rcode(m) == 3)
    ensures var s := Play(Initial(entropy), inputs).s;
            && Decode(i.bytes).Ok? && s.txs[i.tx].task in s.tasks
            && var t := s.tasks[s.txs[i.tx].task];
            && HeldFor(ttl, Decode(i.bytes).value, CurrentName(t), t.rtype)
            && Retains(s, Step(s, i), i, ttl)
  {
    StartGood(entropy);
    RunGood(Start(entropy), inputs);
    hide Good, LegalRun, After, Play, Decode, MatchingResponse, Step, Rcode, HeldFor, Retains;
    var s := Play(Initial(entropy), inputs).s;
    Queries.AcceptedMatches(s, i.tx, i.bytes);
    GoodTx(After(Start(entropy), inputs), i.tx);
    ttl := ReplyRetained(s, i);
  }
}
