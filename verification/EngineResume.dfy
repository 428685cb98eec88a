/** Replies and failures: the transaction ends, and its task's step goes on to its own end. */
module EngineResume {
  import opened Bytes
  import opened Results
  import opened Names
  import opened Dns
  import opened Codec
  import opened Aliases
  import opened Lookups
  import opened Caches
  import opened Routing
  import opened EngineModel
  import opened EngineSteps
  import opened EngineInvariant

  // ------------------------------------------------------- what is stored

  /** The cache gains at most the one entry the transaction was for, and only if it may. */
  predicate CacheStep(m: Entries, m': Entries, key: CacheKey, server: IpAddr, allowed: bool) {
    && (|m| <= MAX_ENTRIES ==> |m'| <= MAX_ENTRIES)
    && forall k :: k in m' ==>
         || (k in m && m'[k] == m[k])
         || (k == key && allowed && m'[k].server == server && GoodEntry(m'[k]))
  }

  /** The key a task's answers are stored under. */
  function TaskKey(t: Task): CacheKey {
    KeyOf(CurrentName(t), t.rtype, ScopeName(t))
  }

  lemma RecordsGood(m: Message, n: Name, t: u16)
    requires WellFormed(m) && ValidName(n)
    ensures GoodRecords(ReplyOutcome(m), ReplyRecords(m, n, t))
  {
    hide Relevant, ValidName, RDataFits, SameName;
    var rs := ReplyRecords(m, n, t);
    forall i | 0 <= i < |rs| ensures GoodRecord(rs[i]) {
      RelevantAreIn(m.answers, n, t, Relevant(m.answers, n, t)[i]);
    }
  }

  /**
   * The lifetime stored respects the positive cap, every record's own TTL and, when
   * there are no records, the negative cap of section 5 of RFC 2308.
   */
  lemma ReplyLifetime(m: Message, n: Name, t: u16)
    ensures var ttl, rs := ReplyTtl(m, n, t), ReplyRecords(m, n, t);
            && ttl <= MAX_POSITIVE_TTL
            && (rs == [] ==> ttl <= MAX_NEGATIVE_TTL)
            && forall i :: 0 <= i < |rs| ==> ttl <= rs[i].ttl
  {
    hide Relevant, EffectiveName, NegativeTtl, Rcode, AliasRecords;
    var rs := ReplyRecords(m, n, t);
    forall i | 0 <= i < |rs| ensures ReplyTtl(m, n, t) <= rs[i].ttl {
      assert rs[i].ttl == Relevant(m.answers, n, t)[i].ttl;
    }
  }

  /** What a usable reply leaves in the cache respects the caps, counted from its arrival. */
  lemma ReplyLives(m: Message, n: Name, t: u16, server: IpAddr, now: nat)
    ensures Lived(ReplyEntry(m, n, t, server, now), now)
  {
    hide ReplyTtl, ReplyRecords, Rcode, ReplyOutcome;
    ReplyLifetime(m, n, t);
    var ttl, rs := ReplyTtl(m, n, t), ReplyRecords(m, n, t);
    forall i | 0 <= i < |rs| ensures now + ttl * SECOND <= now + rs[i].ttl * SECOND {}
  }

  /** The reply may be stored: a complete answer, or a complete denial. */
  predicate Keepable(x: Tx, m: Message) {
    !(m.header.truncated && !x.tcp) && (Rcode(m) == NOERROR as int || Rcode(m) == NXDOMAIN as int)
  }

  /** The entry is what the bytes say, read as the reply to `tx` and stored under its task's name, type and scope. */
  predicate FromReply(s: State, tx: Txid, bytes: seq<byte>, now: nat, k: CacheKey, e: Entry) {
    var m := MatchingResponse(s, tx, bytes);
    && m.Some? && tx in s.txs && s.txs[tx].task in s.tasks && Keepable(s.txs[tx], m.value)
    && var t := s.tasks[s.txs[tx].task];
    && !t.cacheInvalidated && k == TaskKey(t)
    && e == ReplyEntry(m.value, CurrentName(t), t.rtype, s.txs[tx].server, now)
  }

  /** Each entry is one there was, or what the reply says. */
  predicate Fills(s: State, cache: Entries, tx: Txid, bytes: seq<byte>, now: nat) {
    forall k :: k in cache ==> (k in s.cache && cache[k] == s.cache[k]) || FromReply(s, tx, bytes, now, k, cache[k])
  }

  lemma InsertedStep(m: Entries, key: CacheKey, e: Entry, now: nat, order: seq<CacheKey>)
    requires GoodEntry(e) && Walks(order, m)
    ensures var m' := Inserted(m, key, e, now, order);
            CacheStep(m, m', key, e.server, true) && StoresOnly(m, m', key, e)
  {
    if |m| <= MAX_ENTRIES { InsertedSize(m, key, e, now, order); }
    hide Victim, GoodRecords;
  }

  predicate StoresOnly(m: Entries, m': Entries, key: CacheKey, e: Entry) {
    forall k :: k in m' ==> (k in m && m'[k] == m[k]) || (k == key && m'[k] == e)
  }

  lemma StepGood(m: Entries, m': Entries, key: CacheKey, server: IpAddr, allowed: bool)
    requires GoodCache(m) && CacheStep(m, m', key, server, allowed)
    ensures GoodCache(m')
  {
    hide GoodRecords;
  }

  // ------------------------------------------------------------- resumption

  /** The state in which the transaction has ended and its task is about to go on. */
  predicate Resumes(s: State, tx: Txid, s0: State) {
    && tx in s.txs && s.txs[tx].task in s.tasks && s.txs[tx].task in s0.tasks
    && var id := s.txs[tx].task;
    && var t := s.tasks[id];
    && s0.txs == s.txs - {tx} && s0.lookups == s.lookups && s0.nextId == s.nextId
    && s0.cfg == s.cfg && s0.entropy == s.entropy
    && s0.tasks == s.tasks[id := s0.tasks[id]]
    && s0.tasks[id] == t.(tx := None, attempt := s0.tasks[id].attempt)
    && s0.counters.upstreamSent == s.counters.upstreamSent
    && CacheStep(s.cache, s0.cache, TaskKey(t), s.txs[tx].server, !t.cacheInvalidated)
  }

  /** A new attempt at the same name, or a later name after a refund: either way the potential falls. */
  predicate Spends(s: State, t: Task, t1: Task) {
    || (t1.attempt == t.attempt && SameRoute(t, t1))
    || (t1.attempt + 1 == t.attempt && |t1.candidates| < |t.candidates| && OnRoute(s, t1))
  }

  datatype Resume = Resume(s0: State, s1: State, e: End)

  /** `o` is what resuming after `tx` comes to. */
  predicate ResumedBy(s: State, tx: Txid, o: Out, now: nat, r: Resume) {
    && Resumes(s, tx, r.s0)
    && var id := s.txs[tx].task;
    && Prep(r.s0, r.s1, id) && GoodEnd(r.e) && o == Finish(r.s1, id, r.e, now)
    && NamesFrom(s.tasks[id], r.s1.tasks[id], s.tasks[id].candidates)
    && r.s0.tasks[id].attempt <= s.tasks[id].attempt
    && (r.e.EndSend? ==>
          && Room(r.s1, id) && Spends(s, s.tasks[id], r.s1.tasks[id])
          && Turn(s.tasks[id].candidates, s.tasks[id], r.s1.tasks[id], r.e.server, r.e.tcp)
          && (r.e.tcp ==> r.e.server == s.txs[tx].server)
          && (|| r.e.server in Configured(s.cfg, ScopeName(r.s1.tasks[id]))
              || (r.e.server == s.txs[tx].server && SameRoute(s.tasks[id], r.s1.tasks[id]))))
  }

  lemma SameNames(t: Task, t1: Task)
    requires SameRoute(t, t1)
    ensures NamesFrom(t, t1, t.candidates)
  {
  }

  lemma EndedResumes(s: State, tx: Txid, s0: State)
    requires tx in s.txs && s.txs[tx].task in s.tasks
    requires s0 == Ended(s, tx).(counters := s0.counters, demoted := s0.demoted)
    requires s0.counters.upstreamSent == s.counters.upstreamSent
    ensures Resumes(s, tx, s0)
  {
  }

  /** An attempt at another server, after the state has been adjusted. */
  lemma AttemptResumes(s: State, tx: Txid, s0: State, now: nat) returns (r: Resume)
    requires Resumes(s, tx, s0) && s0.tasks[s.txs[tx].task] == s.tasks[s.txs[tx].task].(tx := None)
    ensures ResumedBy(s, tx, NextAttempt(s0, s.txs[tx].task, now), now, r) && r.s0 == s0 && r.s1.cache == s0.cache
  {
    hide NextAttempt, Finish, Resumes, Configured, GoodAnswer;
    ResumesCfg(s, tx, s0);
    var id := s.txs[tx].task;
    var s1, e := AttemptEnds(s0, id, now);
    r := Resume(s0, s1, e);
    SameNames(s.tasks[id], s1.tasks[id]);
  }

  lemma ResumesCfg(s: State, tx: Txid, s0: State)
    requires Resumes(s, tx, s0)
    ensures tx in s.txs && s.txs[tx].task in s.tasks && s.txs[tx].task in s0.tasks && s0.cfg == s.cfg
  {
  }

  lemma FailedResumes(s: State, tx: Txid, now: nat) returns (r: Resume)
    requires tx in s.txs && s.txs[tx].task in s.tasks
    ensures ResumedBy(s, tx, Failed(s, tx, now), now, r)
    ensures r.s0.tasks[s.txs[tx].task] == s.tasks[s.txs[tx].task].(tx := None)
    ensures r.s0.counters == s.counters.(upstreamFailed := s.counters.upstreamFailed + 1)
    ensures r.s0.cache == s.cache && r.s1.cache == s.cache
  {
    hide NextAttempt, ResumedBy, Resumes;
    var x := s.txs[tx];
    var s0 := Demote(CountFailure(Ended(s, tx)), x.server, ScopeName(s.tasks[x.task]), now);
    EndedResumes(s, tx, s0);
    r := AttemptResumes(s, tx, s0, now);
  }

  lemma LocalFailedResumes(s: State, tx: Txid, now: nat) returns (r: Resume)
    requires tx in s.txs && s.txs[tx].task in s.tasks
    ensures ResumedBy(s, tx, LocalFailed(s, tx, now), now, r)
    ensures r.s0.tasks[s.txs[tx].task] == s.tasks[s.txs[tx].task].(tx := None)
    ensures r.s0.counters == s.counters.(upstreamFailed := s.counters.upstreamFailed + 1)
    ensures r.s0.cache == s.cache && r.s1.cache == s.cache
  {
    hide NextAttempt, ResumedBy, Resumes;
    var s0 := CountFailure(Ended(s, tx));
    EndedResumes(s, tx, s0);
    r := AttemptResumes(s, tx, s0, now);
  }

  lemma RememberedStep(s: State, id: TaskId, server: IpAddr, m: Message, now: nat, order: seq<CacheKey>)
    requires id in s.tasks && WellFormed(m) && ValidName(CurrentName(s.tasks[id])) && Walks(order, s.cache)
    ensures var s' := Remembered(s, id, server, m, now, order);
            && s' == s.(demoted := s'.demoted, cache := s'.cache)
            && CacheStep(s.cache, s'.cache, TaskKey(s.tasks[id]), server, !s.tasks[id].cacheInvalidated)
            && StoresOnly(s.cache, s'.cache, TaskKey(s.tasks[id]),
                          ReplyEntry(m, CurrentName(s.tasks[id]), s.tasks[id].rtype, server, now))
  {
    hide ReplyTtl, ReplyRecords, ReplyOutcome, Rcode, Inserted, GoodRecords, KeyOf, WellFormed, ValidName;
    var t := s.tasks[id];
    var ttl := ReplyTtl(m, CurrentName(t), t.rtype);
    RecordsGood(m, CurrentName(t), t.rtype);
    OutcomeUsable(m);
    if ttl > 0 && !t.cacheInvalidated {
      InsertedStep(s.cache, TaskKey(t), ReplyEntry(m, CurrentName(t), t.rtype, server, now), now, order);
    }
  }

  lemma OutcomeUsable(m: Message)
    ensures ReplyOutcome(m) != Unavailable
  {
  }

  lemma RememberedResumes(s: State, tx: Txid, a: State, m: Message, now: nat, order: seq<CacheKey>)
    requires tx in s.txs && s.txs[tx].task in s.tasks && WellFormed(m)
    requires ValidName(CurrentName(s.tasks[s.txs[tx].task]))
    requires a == Ended(s, tx).(counters := a.counters) && a.counters.upstreamSent == s.counters.upstreamSent
    requires Walks(order, s.cache)
    ensures Resumes(s, tx, Remembered(a, s.txs[tx].task, s.txs[tx].server, m, now, order))
  {
    hide Remembered, KeyOf, CacheStep, WellFormed, ValidName;
    RememberedStep(a, s.txs[tx].task, s.txs[tx].server, m, now, order);
  }

  /** Moving on after a refunded reply: one attempt is given back and a later name is tried. */
  lemma RefundResumes(s: State, tx: Txid, b: State, now: nat) returns (r: Resume)
    requires Resumes(s, tx, b) && GoodCache(b.cache)
    requires var id := s.txs[tx].task;
             b.tasks[id] == s.tasks[id].(tx := None) && s.tasks[id].attempt > 0 && ValidTask(s.tasks[id])
    ensures var id := s.txs[tx].task;
            var t1 := b.tasks[id].(attempt := b.tasks[id].attempt - 1);
            && r.s0 == b.(tasks := b.tasks[id := t1])
            && ResumedBy(s, tx, NextCandidate(r.s0, id, now), now, r)
  {
    hide NextCandidate, Finish, Configured, GoodAnswer, GoodCache, CacheStep, KeyOf, Route, ValidName;
    var id := s.txs[tx].task;
    var s0 := b.(tasks := b.tasks[id := b.tasks[id].(attempt := b.tasks[id].attempt - 1)]);
    assert s0.tasks == s.tasks[id := s0.tasks[id]];
    var s1, e := CandidateEnds(s0, id, now);
    r := Resume(s0, s1, e);
  }

  lemma SettleResumes(s: State, tx: Txid, b: State, now: nat, a: Answer) returns (r: Resume)
    requires Resumes(s, tx, b) && GoodAnswer(a)
    requires var id := s.txs[tx].task; b.tasks[id] == s.tasks[id].(tx := None)
    ensures r == Resume(b, b, EndSettle(a)) && ResumedBy(s, tx, Settle(b, s.txs[tx].task, a), now, r)
  {
    hide Settle, CacheStep, KeyOf, GoodAnswer;
    var id := s.txs[tx].task;
    r := Resume(b, b, EndSettle(a));
    PrepSame(b, b, id);
    SameNames(s.tasks[id], b.tasks[id]);
  }

  /** A reply whose code says this server cannot answer. */
  predicate ErrorReply(x: Tx, m: Message) {
    !(m.header.truncated && !x.tcp) && Rcode(m) != NOERROR as int && Rcode(m) != NXDOMAIN as int
  }

  lemma TruncatedResumes(s: State, tx: Txid, a: State, now: nat) returns (r: Resume)
    requires tx in s.txs && s.txs[tx].task in s.tasks
    requires a == Ended(s, tx).(counters := a.counters) && a.counters.upstreamSent == s.counters.upstreamSent
    ensures ResumedBy(s, tx, SendTo(a, s.txs[tx].task, s.txs[tx].server, true, now), now, r) && r.s0 == a
  {
    hide SendTo, Finish, GoodAnswer, CacheStep, KeyOf, Configured;
    EndedResumes(s, tx, a);
    var id := s.txs[tx].task;
    var s1, e := SendEnds(a, id, s.txs[tx].server, true, now);
    r := Resume(a, s1, e);
    SameNames(s.tasks[id], s1.tasks[id]);
  }

  lemma UsableResumes(s: State, tx: Txid, a: State, m: Message, now: nat, order: seq<CacheKey>) returns (r: Resume)
    requires tx in s.txs && s.txs[tx].task in s.tasks && s.tasks[s.txs[tx].task].attempt > 0 && GoodCache(s.cache)
    requires WellFormed(m) && ValidTask(s.tasks[s.txs[tx].task]) && Walks(order, s.cache)
    requires a == Ended(s, tx).(counters := a.counters) && a.counters.upstreamSent == s.counters.upstreamSent
    ensures ResumedBy(s, tx, Usable(a, s.txs[tx].task, s.txs[tx].server, m, now, order), now, r)
    ensures r.s0.counters == a.counters
    ensures var x, t := s.txs[tx], s.tasks[s.txs[tx].task];
            && r.s0.cache == Remembered(a, x.task, x.server, m, now, order).cache
            && StoresOnly(s.cache, r.s0.cache, TaskKey(t), ReplyEntry(m, CurrentName(t), t.rtype, x.server, now))
  {
    hide NextCandidate, Settle, Resumes, Remembered, ResumedBy, CacheStep, KeyOf, GoodCache, ReplyRecords, ReplyOutcome,
         ReplyTtl, Rcode, GoodRecords, InterfaceOf, WellFormed, ValidName;
    var x := s.txs[tx];
    assert ValidName(CurrentName(s.tasks[x.task]));
    var b := Remembered(a, x.task, x.server, m, now, order);
    RememberedStep(a, x.task, x.server, m, now, order);
    RememberedResumes(s, tx, a, m, now, order);
    StepGood(a.cache, b.cache, TaskKey(a.tasks[x.task]), x.server, !a.tasks[x.task].cacheInvalidated);
    if ReplyOutcome(m) == NotFound && a.tasks[x.task].candidates != [] {
      r := RefundResumes(s, tx, b, now);
    } else {
      RecordsGood(m, CurrentName(a.tasks[x.task]), a.tasks[x.task].rtype);
      r := SettleResumes(s, tx, b, now, ReplyAnswer(a.cfg, a.tasks[x.task], x.server, m));
    }
  }

  lemma MatchLive(s: State, tx: Txid, bytes: seq<byte>)
    requires MatchingResponse(s, tx, bytes).Some?
    ensures tx in s.txs && WellFormed(MatchingResponse(s, tx, bytes).value)
  {
    hide WellFormed;
    DecodeWellFormed(bytes);
  }

  /** An accepted reply resumes its task, counts as answered, and counts as failed only for its code. */
  lemma ReceivedResumes(s: State, tx: Txid, bytes: seq<byte>, now: nat, order: seq<CacheKey>) returns (r: Resume)
    requires MatchingResponse(s, tx, bytes).Some?
    requires s.txs[tx].task in s.tasks && s.tasks[s.txs[tx].task].attempt > 0 && GoodCache(s.cache)
    requires ValidTask(s.tasks[s.txs[tx].task]) && Walks(order, s.cache)
    ensures ResumedBy(s, tx, Received(s, tx, bytes, now, order), now, r)
    ensures r.s0.counters == s.counters.(
              upstreamAnswered := s.counters.upstreamAnswered + 1,
              upstreamFailed := s.counters.upstreamFailed
                + if ErrorReply(s.txs[tx], MatchingResponse(s, tx, bytes).value) then 1 else 0)
    ensures Fills(s, r.s0.cache, tx, bytes, now)
  {
    hide ReplyEntry, TaskKey, MatchingResponse, SendTo, Usable, NextAttempt, ResumedBy, Resumes, Rcode, GoodCache,
         ValidTask, WellFormed;
    MatchLive(s, tx, bytes);
    var m := MatchingResponse(s, tx, bytes).value;
    var x := s.txs[tx];
    var a := CountAnswer(Ended(s, tx));
    if m.header.truncated && !x.tcp {
      r := TruncatedResumes(s, tx, a, now);
    } else if Rcode(m) == NOERROR as int || Rcode(m) == NXDOMAIN as int {
      r := UsableResumes(s, tx, a, m, now, order);
    } else {
      var s0 := Demote(CountFailure(a), x.server, ScopeName(s.tasks[x.task]), now);
      EndedResumes(s, tx, s0);
      r := AttemptResumes(s, tx, s0, now);
    }
  }

  // --------------------------------------------------- what resuming keeps

  lemma LinkedAfter(s: State, s0: State, tx: Txid, id: TaskId, t: Task)
    requires Linked(s, {}) && tx in s.txs && s.txs[tx].task == id && id in s.tasks
    requires s0.txs == s.txs - {tx} && s0.tasks == s.tasks[id := t] && s0.nextId == s.nextId
    requires t.tx.None? && t.attempt <= MAX_ATTEMPTS
    ensures Linked(s0, {id})
  {
    hide Flying, PointBack;
    FewerTxs(s.txs, tx);
    FlyingTx(s, id);
    BackAfter(s.tasks, s.txs, s.nextId, tx, t);
    forall x | x in s0.tasks && x != id ensures Flying(s0, x) { FlyingOn(s, s0, tx, x); }
  }

  lemma BackAfter(tasks: map<TaskId, Task>, txs: map<Txid, Tx>, nextId: nat, tx: Txid, t: Task)
    requires PointBack(tasks, txs, nextId) && tx in txs
    ensures PointBack(tasks[txs[tx].task := t], txs - {tx}, nextId)
  {
  }

  lemma ResumeLinked(s: State, tx: Txid, s0: State)
    requires Linked(s, {}) && Resumes(s, tx, s0) && s0.tasks[s.txs[tx].task].attempt <= MAX_ATTEMPTS
    ensures Linked(s0, {s.txs[tx].task})
  {
    hide CacheStep, KeyOf, Linked;
    LinkedAfter(s, s0, tx, s.txs[tx].task, s0.tasks[s.txs[tx].task]);
  }

  lemma FlyingTx(s: State, id: TaskId)
    requires id in s.tasks && Flying(s, id)
    ensures s.tasks[id].tx.Some? && s.tasks[id].tx.value in s.txs
  {
  }

  lemma FlyingOn(s: State, s0: State, tx: Txid, x: TaskId)
    requires tx in s.txs && s.txs[tx].task != x && x in s.tasks && Flying(s, x)
    requires s0.txs == s.txs - {tx} && x in s0.tasks && s0.tasks[x] == s.tasks[x]
    ensures Flying(s0, x)
  {
  }

  lemma FewerTxs(txs: map<Txid, Tx>, tx: Txid)
    requires tx in txs
    ensures (txs - {tx}).Keys == txs.Keys - {tx} && |txs - {tx}| == |txs| - 1
  {
    assert (txs - {tx}).Keys == txs.Keys - {tx};
  }

  lemma ResumeOwned(s: State, tx: Txid, s0: State)
    requires Owned(s) && Resumes(s, tx, s0)
    ensures Owned(s0)
    ensures forall q :: Live(s0, q) == Live(s, q)
  {
    hide CacheStep, KeyOf, NoRepeats;
    var id := s.txs[tx].task;
    LaunchOwned(s, s0, id, s0.tasks[id]);
  }

  lemma SameValid(t: Task, t': Task)
    requires ValidTask(t) && t' == t.(tx := t'.tx, attempt := t'.attempt)
    ensures ValidTask(t')
  {
  }

  lemma ValuedAfter(s: State, s0: State, tx: Txid, id: TaskId, t: Task)
    requires Valued(s) && Linked(s, {}) && tx in s.txs && s.txs[tx].task == id
    requires s0.txs == s.txs - {tx} && s0.tasks == s.tasks[id := t] && s0.lookups == s.lookups
    requires ValidTask(t) && t.rtype == s.tasks[id].rtype && GoodCache(s0.cache)
    ensures Valued(s0)
  {
    hide GoodParts, GoodCache, AsksFor, ValidTask, Flying;
    FlyingTx(s, id);
    forall y | y in s0.txs && s0.txs[y].task in s0.tasks ensures AsksFor(s0.txs[y], s0.tasks[s0.txs[y].task]) {
      assert AsksFor(s.txs[y], s.tasks[s.txs[y].task]);
      assert s.tasks[s.txs[y].task].tx == Some(y);
    }
    forall q | q in s0.lookups ensures Families(s0.lookups[q], s0.tasks) {
      SameFamilies(s.lookups[q], s.tasks, s0.tasks);
    }
  }

  lemma ResumeValued(s: State, tx: Txid, s0: State)
    requires Valued(s) && Linked(s, {}) && Resumes(s, tx, s0)
    ensures Valued(s0)
  {
    hide CacheStep, KeyOf, Linked, Valued, ValidTask, GoodCache;
    var id := s.txs[tx].task;
    ValuedTask(s, id);
    ValuedCache(s);
    SameValid(s.tasks[id], s0.tasks[id]);
    StepGood(s.cache, s0.cache, TaskKey(s.tasks[id]), s.txs[tx].server, !s.tasks[id].cacheInvalidated);
    ValuedAfter(s, s0, tx, id, s0.tasks[id]);
  }

  lemma ValuedCache(s: State)
    requires Valued(s)
    ensures GoodCache(s.cache)
  {
  }

  lemma ResumeKeeps(s: State, tx: Txid, s0: State)
    requires Inv(s, {}) && Resumes(s, tx, s0) && s0.tasks[s.txs[tx].task].attempt <= s.tasks[s.txs[tx].task].attempt
    ensures Inv(s0, {s.txs[tx].task})
    ensures forall q :: Live(s0, q) == Live(s, q)
    ensures Balance(s0) == Balance(s) + 1 && s0.nextId == s.nextId && s0.txs.Keys == s.txs.Keys - {tx}
  {
    hide Valued, Owned, PointBack, Flying, CacheStep, KeyOf;
    ResumeLinked(s, tx, s0);
    ResumeOwned(s, tx, s0);
    ResumeValued(s, tx, s0);
    FewerTxs(s.txs, tx);
  }

  lemma NamesValid(t: Task, t1: Task, pool: seq<Name>)
    requires ValidName(t.original) && (t.current.Some? ==> ValidName(t.current.value))
    requires NamesFrom(t, t1, pool) && t1.original == t.original
    requires forall c :: c in pool ==> ValidName(c)
    ensures ValidTask(t1)
  {
  }

  lemma ResumedTx(s: State, tx: Txid, o: Out, now: nat, r: Resume)
    requires ResumedBy(s, tx, o, now, r)
    ensures tx in s.txs && s.txs[tx].task in s.tasks && s.txs[tx].task in r.s0.tasks && s.txs[tx].task in r.s1.tasks
  {
  }

  /** The prepared state still satisfies the invariant, and the end is a fair one. */
  lemma ResumedReady(s: State, tx: Txid, o: Out, now: nat, r: Resume)
    requires Inv(s, {}) && ResumedBy(s, tx, o, now, r)
    ensures var id := s.txs[tx].task;
            && Inv(r.s1, {id}) && FairEnd(r.s1, id, r.e) && o == Finish(r.s1, id, r.e, now)
            && Balance(r.s1) == Balance(s) + 1 && r.s1.nextId == s.nextId && r.s1.txs.Keys == s.txs.Keys - {tx}
            && (forall q :: Live(r.s1, q) == Live(s, q))
  {
    hide Inv, Resumes, Finish, Configured, Route, GoodEnd, Room, Live;
    ResumedTx(s, tx, o, now, r);
    var id := s.txs[tx].task;
    InvTask(s, id);
    ResumesJob(s, tx, r.s0);
    ResumeKeeps(s, tx, r.s0);
    NamesValid(s.tasks[id], r.s1.tasks[id], s.tasks[id].candidates);
    PrepKeeps(r.s0, r.s1, id, {id});
  }

  lemma InvTask(s: State, id: TaskId)
    requires Inv(s, {}) && id in s.tasks
    ensures ValidTask(s.tasks[id]) && s.tasks[id].current.Some? && s.tasks[id].scope.Some? && s.tasks[id].attempt >= 1
    ensures s.tasks[id].tx.Some? && s.tasks[id].tx.value in s.txs && s.txs[s.tasks[id].tx.value].task == id
    ensures s.tasks[id].attempt <= MAX_ATTEMPTS
  {
    assert Flying(s, id);
  }

  lemma ResumesJob(s: State, tx: Txid, s0: State)
    requires Resumes(s, tx, s0)
    ensures var id := s.txs[tx].task;
            id in s0.tasks && s0.tasks[id].original == s.tasks[id].original && s0.nextId == s.nextId
  {
  }

  /** Resuming keeps the invariant; the transaction is gone and at most one new one starts. */
  lemma ResumedKeeps(s: State, tx: Txid, o: Out, now: nat, r: Resume)
    requires Inv(s, {}) && ResumedBy(s, tx, o, now, r)
    ensures Inv(o.s, {}) && Balance(o.s) == Balance(s) + 1 && s.nextId <= o.s.nextId
    ensures o.s.txs.Keys == s.txs.Keys - {tx} + Sends(o.acts) && Cancels(o.acts) == {}
    ensures Sends(o.acts) !! s.txs.Keys - {tx}
  {
    hide Inv, Finish, ResumedBy, Sends, Cancels, FairEnd;
    ResumedTx(s, tx, o, now, r);
    ResumedReady(s, tx, o, now, r);
    var id := s.txs[tx].task;
    FinishKeeps(r.s1, id, r.e, now, {id});
    assert {id} - {id} == {};
  }

  /** Resuming answers a question exactly when it takes the last live task from it. */
  lemma ResumedLive(s: State, tx: Txid, o: Out, now: nat, r: Resume, q: Qid)
    requires Inv(s, {}) && ResumedBy(s, tx, o, now, r)
    ensures LiveCount(s, q) == LiveCount(o.s, q) + DoneCount(o.acts, q)
  {
    hide Inv, Finish, ResumedBy, Live, FairEnd;
    ResumedTx(s, tx, o, now, r);
    ResumedReady(s, tx, o, now, r);
    FinishLive(r.s1, s.txs[tx].task, r.e, now, {s.txs[tx].task}, q);
  }
}
