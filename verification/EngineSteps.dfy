/**
 * How a task's step ends. However a task is driven (a new question, a reply, a
 * failure, a later candidate) its step prepares the state and then ends in one
 * of two ways: the task settles with an answer, or one transaction starts.
 */
module EngineSteps {
  import opened Bytes
  import opened Results
  import opened Names
  import opened Dns
  import opened Aliases
  import opened Lookups
  import opened Caches
  import opened Routing
  import opened ReverseNames
  import opened Synthetics
  import opened EngineModel

  datatype End =
    | EndSettle(answer: Answer)
    | EndSend(server: IpAddr, tcp: bool, random: Random)

  function Finish(s: State, id: TaskId, e: End, now: nat): Out
    requires id in s.tasks
  {
    match e
    case EndSettle(a) => Settle(s, id, a)
    case EndSend(server, tcp, r) => Launch(s, id, server, tcp, r, now)
  }

  // --------------------------------------------------------- good answers

  predicate GoodRecord(r: Record) {
    r.class_ == IN && WellFormedRecord(r)
  }

  /** Only a found answer carries records, and they are well formed and of class IN. */
  predicate GoodRecords(o: Outcome, rs: seq<Record>) {
    (o != Found ==> rs == []) && forall i :: 0 <= i < |rs| ==> GoodRecord(rs[i])
  }

  predicate GoodAnswer(a: Answer) {
    GoodRecords(a.outcome, a.records) && (a.resolvedName.Some? ==> ValidName(a.resolvedName.value))
  }

  predicate ValidTask(t: Task) {
    && ValidName(t.original) && (t.current.Some? ==> ValidName(t.current.value))
    && (forall c :: c in t.candidates ==> ValidName(c))
  }

  lemma {:induction false} CandidatesValid(cfg: Config, name: Name)
    requires ValidName(name)
    ensures forall c :: c in Candidates(cfg, name) ==> ValidName(c)
  {
    ExpandSpec(name, SearchDomains(cfg));
  }

  /** Only a usable outcome is stored, with good records or none. */
  predicate GoodEntry(e: Entry) {
    GoodRecords(e.outcome, e.records) && e.outcome != Unavailable
  }

  /**
   * An entry stored at `at` lives no longer than the positive cap, than any of its
   * records, and than the negative cap of section 5 of RFC 2308 when it has none.
   */
  predicate Lived(e: Entry, at: nat) {
    && e.expires <= at + MAX_POSITIVE_TTL * SECOND
    && (forall i :: 0 <= i < |e.records| ==> e.expires <= at + e.records[i].ttl * SECOND)
    && (e.records == [] ==> e.expires <= at + MAX_NEGATIVE_TTL * SECOND)
  }

  predicate GoodCache(m: Entries) {
    forall k :: k in m ==> GoodEntry(m[k])
  }

  lemma {:induction false} AddressRecordsGood(name: Name, rtype: u16, addrs: seq<IpAddr>)
    requires ValidName(name)
    ensures GoodRecords(Found, AddressRecords(name, rtype, addrs))
  {
    hide ValidName;
    if addrs != [] { AddressRecordsGood(name, rtype, addrs[1..]); }
  }

  lemma PtrGood(name: Name, host: Name)
    requires ValidName(name) && ValidName(host)
    ensures GoodRecords(Found, [NewRecord(name, 0, RPtr(host))])
  {
    hide ValidName;
  }

  lemma LocalhostValid()
    ensures ValidName(LOCALHOST)
  {
  }

  lemma SynthesiseGood(cfg: Config, name: Name, rtype: u16)
    requires ValidConfig(cfg) && ValidName(name) && Synthesise(cfg, name, rtype).Some?
    ensures GoodAnswer(Synthesise(cfg, name, rtype).value)
  {
    LocalhostValid();
    hide EndsWith, FindHost, SameName, PtrHost, ValidName, GoodRecords, OwnAddresses, ReverseAddress, AddressRecords;
    AddressRecordsGood(name, rtype, LOOPBACK);
    if FindHost(cfg.hosts, name).Some? { AddressRecordsGood(name, rtype, FindHost(cfg.hosts, name).value.addresses); }
    AddressRecordsGood(name, rtype, OwnAddresses(cfg));
    PtrGood(name, LOCALHOST);
    if cfg.hostname.Some? { PtrGood(name, cfg.hostname.value); }
    if ReverseAddress(name).Some? && PtrHost(cfg.hosts, ReverseAddress(name).value).Some? {
      PtrHostValid(cfg, ReverseAddress(name).value);
      PtrGood(name, PtrHost(cfg.hosts, ReverseAddress(name).value).value.name);
    }
    NoneGood();
  }

  lemma NoneGood()
    ensures GoodRecords(NotFound, []) && GoodRecords(Unavailable, [])
  {
  }

  lemma PtrHostValid(cfg: Config, addr: IpAddr)
    requires ValidConfig(cfg) && PtrHost(cfg.hosts, addr).Some?
    ensures ValidName(PtrHost(cfg.hosts, addr).value.name)
  {
    hide ValidName, SameName, PtrHost;
    PtrHostIsLeast(cfg.hosts, addr);
  }

  // ---------------------------------------------------------- preparation

  /** A cache that has only lost entries. */
  predicate Shrunk(m: Entries, m': Entries) {
    forall k :: k in m' ==> k in m && m'[k] == m[k]
  }

  /** The lasting facts of a task. */
  predicate SameJob(t: Task, t': Task) {
    && t'.owner == t.owner && t'.original == t.original && t'.rtype == t.rtype && t'.noCache == t.noCache
    && t'.cacheInvalidated == t.cacheInvalidated && t'.tx == t.tx && t'.attempt == t.attempt
  }

  predicate SameRoute(t: Task, t': Task) {
    t'.candidates == t.candidates && t'.current == t.current && t'.scope == t.scope
  }

  /** What a step may change before it ends: the task's own name, and what it drew, counted and let expire. */
  predicate Prep(s: State, s': State, id: TaskId) {
    && id in s.tasks && id in s'.tasks
    && s' == s.(cache := s'.cache, tasks := s.tasks[id := s'.tasks[id]], entropy := s'.entropy, counters := s'.counters)
    && SameJob(s.tasks[id], s'.tasks[id])
    && Shrunk(s.cache, s'.cache)
    && s'.counters == s.counters.(synthetic := s'.counters.synthetic, cacheHits := s'.counters.cacheHits,
                                  refused := s'.counters.refused)
  }

  /** The task turned to one of the names in `pool`, leaving those after it, and asked the server first. */
  predicate NewTurn(pool: seq<Name>, t: Task, server: IpAddr) {
    && t.tried == [server] && |t.candidates| < |pool|
    && t.candidates == pool[|pool| - |t.candidates|..] && t.current == Some(pool[|pool| - |t.candidates| - 1])
  }

  /** The task went on to ask the server: again over TCP, another for the same name, or the first for a later name. */
  predicate Turn(pool: seq<Name>, t: Task, t': Task, server: IpAddr, tcp: bool) {
    || (SameRoute(t, t') && t'.tried == if tcp then t.tried else t.tried + [server])
    || (!tcp && NewTurn(pool, t', server))
  }

  lemma FirstTurn(pool: seq<Name>, t: Task, server: IpAddr)
    requires pool != [] && t.candidates == pool[1..] && t.current == Some(pool[0]) && t.tried == [server]
    ensures NewTurn(pool, t, server)
  {
  }

  lemma LaterTurn(pool: seq<Name>, t: Task, server: IpAddr)
    requires pool != [] && NewTurn(pool[1..], t, server)
    ensures NewTurn(pool, t, server)
  {
    var k := |t.candidates|;
    assert pool[1..][|pool| - 1 - k..] == pool[|pool| - k..];
  }

  /** There is room for one more transaction of the task. */
  predicate Room(s: State, id: TaskId) {
    id in s.tasks && s.tasks[id].attempt < MAX_ATTEMPTS && |s.txs| < MAX_IN_FLIGHT
  }

  predicate GoodEnd(e: End) {
    e.EndSettle? ==> GoodAnswer(e.answer)
  }

  lemma PrepTrans(a: State, b: State, c: State, id: TaskId)
    requires Prep(a, b, id) && Prep(b, c, id)
    ensures Prep(a, c, id)
  {
    assert a.tasks[id := b.tasks[id]][id := c.tasks[id]] == a.tasks[id := c.tasks[id]];
  }

  lemma PrepSame(s: State, s': State, id: TaskId)
    requires id in s.tasks && s' == s.(counters := s'.counters, entropy := s'.entropy)
    requires s'.counters == s.counters.(synthetic := s'.counters.synthetic, cacheHits := s'.counters.cacheHits,
                                        refused := s'.counters.refused)
    ensures Prep(s, s', id)
  {
    assert s.tasks[id := s.tasks[id]] == s.tasks;
  }

  lemma SendEnds(s: State, id: TaskId, server: IpAddr, tcp: bool, now: nat) returns (s1: State, e: End)
    requires id in s.tasks
    ensures Prep(s, s1, id) && GoodEnd(e) && s1.tasks == s.tasks && s1.cache == s.cache
    ensures SendTo(s, id, server, tcp, now) == Finish(s1, id, e, now)
    ensures e.EndSend? ==> Room(s1, id) && e.server == server && e.tcp == tcp
  {
    hide Settle, Launch;
    var t := s.tasks[id];
    s1 := s;
    if t.attempt >= MAX_ATTEMPTS {
      e := EndSettle(DEFAULT_ANSWER.(interface_ := InterfaceOf(s.cfg, ScopeName(t))));
    } else if |s.txs| >= MAX_IN_FLIGHT || s.entropy == [] {
      s1, e := Refuse(s), EndSettle(DEFAULT_ANSWER);
    } else {
      s1 := s.(entropy := s.entropy[1..]);
      if s.entropy[0].None? {
        s1, e := Refuse(s1), EndSettle(DEFAULT_ANSWER);
      } else {
        e := EndSend(server, tcp, s.entropy[0].value);
      }
    }
    PrepSame(s, s1, id);
  }

  lemma AttemptEnds(s: State, id: TaskId, now: nat) returns (s1: State, e: End)
    requires id in s.tasks
    ensures Prep(s, s1, id) && GoodEnd(e) && SameRoute(s.tasks[id], s1.tasks[id]) && s1.cache == s.cache
    ensures NextAttempt(s, id, now) == Finish(s1, id, e, now)
    ensures e.EndSend? ==> Room(s1, id) && e.server in Configured(s.cfg, ScopeName(s.tasks[id])) && !e.tcp
    ensures e.EndSend? ==> s1.tasks[id].tried == s.tasks[id].tried + [e.server]
  {
    hide Settle, Launch, SendTo, ServersOf, Configured, ChooseServer, InterfaceOf;
    var t := s.tasks[id];
    s1 := s;
    var servers := ServersOf(s.cfg, s.demoted, ScopeName(t), now);
    if t.attempt >= MAX_ATTEMPTS {
      e := EndSettle(DEFAULT_ANSWER.(interface_ := InterfaceOf(s.cfg, ScopeName(t))));
      PrepSame(s, s1, id);
    } else if servers == [] {
      e := EndSettle(DEFAULT_ANSWER);
      PrepSame(s, s1, id);
    } else {
      var server := ChooseServer(servers, t.tried);
      ServersArePermuted(s.cfg, s.demoted, ScopeName(t), now);
      var s0 := s.(tasks := s.tasks[id := t.(tried := t.tried + [server])]);
      s1, e := SendEnds(s0, id, server, false, now);
      PrepTrans(s, s0, s1, id);
    }
  }

  /** The task is on a candidate routed by the configuration in force. */
  predicate OnRoute(s: State, t: Task) {
    t.current.Some? && t.scope.Some? && t.scope == Route(s.cfg, t.current.value)
  }

  /** The step's names come from `pool`. */
  predicate NamesFrom(t: Task, t': Task, pool: seq<Name>) {
    && (forall c :: c in t'.candidates ==> c in pool)
    && (t'.current == t.current || (t'.current.Some? && t'.current.value in pool))
  }

  /** Trying the task's names ended so: prepared, and asking for one of them if anything. */
  predicate NamesEnd(s: State, id: TaskId, s1: State, e: End)
    requires id in s.tasks
  {
    var pool := s.tasks[id].candidates;
    && Prep(s, s1, id) && GoodEnd(e) && NamesFrom(s.tasks[id], s1.tasks[id], pool)
    && (e.EndSend? ==>
          && Room(s1, id) && OnRoute(s1, s1.tasks[id]) && !e.tcp
          && e.server in Configured(s.cfg, ScopeName(s1.tasks[id]))
          && |s1.tasks[id].candidates| < |pool| && s1.tasks[id].current.value in pool
          && NewTurn(pool, s1.tasks[id], e.server))
  }

  lemma {:induction false} CandidateEnds(s: State, id: TaskId, now: nat) returns (s1: State, e: End)
    requires id in s.tasks && GoodCache(s.cache) && ValidTask(s.tasks[id])
    ensures NamesEnd(s, id, s1, e)
    ensures NextCandidate(s, id, now) == Finish(s1, id, e, now)
    decreases |s.tasks[id].candidates|
  {
    hide Settle, Launch, NextAttempt, Route, InterfaceOf, KeyOf, Got, GoodEntry, GoodCache, ValidName, NamesEnd;
    var t := s.tasks[id];
    if t.candidates == [] {
      s1, e := s, EndSettle(NOT_FOUND);
      NoNames(s, id, e.answer);
      return;
    }
    var candidate := t.candidates[0];
    var t1 := t.(candidates := t.candidates[1..], current := Some(candidate), tried := []);
    var a := s.(tasks := s.tasks[id := t1]);
    var route := Route(s.cfg, candidate);
    if route.None? {
      s1, e := a, EndSettle(DEFAULT_ANSWER);
      NameSettles(s, a, id, e.answer);
      return;
    }
    var b := a.(tasks := s.tasks[id := t1.(scope := route)]);
    if t.noCache {
      s1, e := NameAttempts(s, b, id, now);
      return;
    }
    var key := KeyOf(candidate, t.rtype, route.value);
    var (cache, hit) := Got(b.cache, key, now);
    HitGood(b.cache, key, now);
    var c := b.(cache := cache);
    if hit.None? {
      s1, e := NameAttempts(s, c, id, now);
      return;
    }
    var d := c.(counters := s.counters.(cacheHits := s.counters.cacheHits + 1));
    if hit.value.outcome == NotFound && t1.candidates != [] {
      s1, e := CandidateEnds(d, id, now);
      NamesLater(s, d, id, s1, e);
    } else {
      s1, e := d, EndSettle(CacheAnswer(d.cfg, hit.value, route.value, candidate, now));
      HitAnswerGood(hit.value, e.answer);
      NameSettles(s, d, id, e.answer);
    }
  }

  /** The task has turned to the first of its names. */
  predicate FirstName(s: State, s': State, id: TaskId) {
    && id in s.tasks && id in s'.tasks && s.tasks[id].candidates != []
    && s' == s.(tasks := s.tasks[id := s'.tasks[id]], cache := s'.cache, counters := s'.counters)
    && s'.tasks[id] == s.tasks[id].(candidates := s.tasks[id].candidates[1..], tried := [],
                                    current := Some(s.tasks[id].candidates[0]), scope := s'.tasks[id].scope)
    && Shrunk(s.cache, s'.cache) && s'.counters == s.counters.(cacheHits := s'.counters.cacheHits)
  }

  lemma NoNames(s: State, id: TaskId, a: Answer)
    requires id in s.tasks && a.records == [] && a.resolvedName.None?
    ensures NamesEnd(s, id, s, EndSettle(a))
  {
    PrepSame(s, s, id);
    DefaultGood(a);
  }

  lemma NameSettles(s: State, s1: State, id: TaskId, a: Answer)
    requires FirstName(s, s1, id) && GoodAnswer(a)
    ensures NamesEnd(s, id, s1, EndSettle(a))
  {
    hide GoodRecords, ValidName;
    PrepTask(s, s1, id);
  }

  lemma HitAnswerGood(e: Entry, a: Answer)
    requires GoodEntry(e) && a.outcome == e.outcome && a.records == e.records
    requires a.resolvedName.Some? ==> ValidName(a.resolvedName.value)
    ensures GoodAnswer(a)
  {
    hide ValidName, GoodRecord;
  }

  /** The first name, routed, on to its first attempt. */
  lemma NameAttempts(s: State, b: State, id: TaskId, now: nat) returns (s1: State, e: End)
    requires FirstName(s, b, id) && OnRoute(b, b.tasks[id])
    ensures NamesEnd(s, id, s1, e) && NextAttempt(b, id, now) == Finish(s1, id, e, now)
  {
    hide Settle, Launch, NextAttempt, Route, Configured, GoodRecords, NewTurn, ServersOf;
    PrepTask(s, b, id);
    s1, e := RoutedEnds(s, b, id, now);
    if e.EndSend? { FirstTurn(s.tasks[id].candidates, s1.tasks[id], e.server); }
  }

  /** The first name is passed over, and the rest tried. */
  lemma NamesLater(s: State, d: State, id: TaskId, s1: State, e: End)
    requires FirstName(s, d, id) && NamesEnd(d, id, s1, e)
    ensures NamesEnd(s, id, s1, e)
  {
    hide Route, Configured, GoodEnd, NewTurn, Room;
    PrepTask(s, d, id);
    PrepTrans(s, d, s1, id);
    PrepCfg(d, s1, id);
    if e.EndSend? { LaterTurn(s.tasks[id].candidates, s1.tasks[id], e.server); }
  }

  lemma DefaultGood(a: Answer)
    requires a.records == [] && a.resolvedName.None?
    ensures GoodAnswer(a)
  {
  }

  lemma PrepTask(s: State, s': State, id: TaskId)
    requires id in s.tasks && id in s'.tasks
    requires s' == s.(tasks := s.tasks[id := s'.tasks[id]], cache := s'.cache, counters := s'.counters)
    requires SameJob(s.tasks[id], s'.tasks[id]) && Shrunk(s.cache, s'.cache)
    requires s'.counters == s.counters.(cacheHits := s'.counters.cacheHits)
    ensures Prep(s, s', id)
  {
  }

  lemma PrepCfg(s: State, s': State, id: TaskId)
    requires Prep(s, s', id)
    ensures s'.cfg == s.cfg && id in s'.tasks
  {
  }

  /** A candidate just routed, on to its first attempt. */
  lemma RoutedEnds(s: State, b: State, id: TaskId, now: nat) returns (s1: State, e: End)
    requires Prep(s, b, id) && OnRoute(b, b.tasks[id])
    ensures Prep(s, s1, id) && GoodEnd(e) && id in s1.tasks
    ensures NextAttempt(b, id, now) == Finish(s1, id, e, now)
    ensures SameRoute(b.tasks[id], s1.tasks[id])
    ensures e.EndSend? ==> s1.tasks[id].tried == b.tasks[id].tried + [e.server]
    ensures e.EndSend? ==>
              && Room(s1, id) && OnRoute(s1, s1.tasks[id]) && !e.tcp
              && e.server in Configured(s.cfg, ScopeName(s1.tasks[id]))
  {
    hide Settle, Launch, NextAttempt, Route, Configured;
    s1, e := AttemptEnds(b, id, now);
    PrepTrans(s, b, s1, id);
  }

  /** A lookup only loses entries, and a hit is a good answer not yet expired. */
  lemma HitGood(m: Entries, key: CacheKey, now: nat)
    requires GoodCache(m)
    ensures Shrunk(m, Got(m, key, now).0) && GoodCache(Got(m, key, now).0)
    ensures Got(m, key, now).1.Some? ==> GoodEntry(Got(m, key, now).1.value) && Got(m, key, now).1.value.expires > now
  {
    hide ValidName, RDataFits;
  }

  lemma AdvanceEnds(s: State, id: TaskId, now: nat) returns (s1: State, e: End)
    requires id in s.tasks && GoodCache(s.cache) && ValidTask(s.tasks[id]) && ValidConfig(s.cfg)
    requires var t := s.tasks[id]; t.current.None? && t.candidates == [] && t.attempt == 0
    ensures Prep(s, s1, id) && GoodEnd(e)
    ensures Advance(s, id, now) == Finish(s1, id, e, now)
    ensures NamesFrom(s.tasks[id], s1.tasks[id], Candidates(s.cfg, s.tasks[id].original))
    ensures e.EndSend? ==>
              && var all := Candidates(s.cfg, s.tasks[id].original);
              && Room(s1, id) && OnRoute(s1, s1.tasks[id]) && !e.tcp
              && e.server in Configured(s.cfg, ScopeName(s1.tasks[id]))
              && |s1.tasks[id].candidates| < |all| && s1.tasks[id].current.value in all
              && NewTurn(all, s1.tasks[id], e.server)
  {
    hide Settle, Launch, NextCandidate, Route, Configured, Candidates, Synthesise, ValidConfig, ValidName, GoodRecord;
    var t := s.tasks[id];
    var synthetic := Synthesise(s.cfg, t.original, t.rtype);
    if synthetic.Some? {
      SynthesiseGood(s.cfg, t.original, t.rtype);
      s1 := s.(counters := s.counters.(synthetic := s.counters.synthetic + 1));
      e := EndSettle(synthetic.value);
      PrepSame(s, s1, id);
    } else {
      var candidates := Candidates(s.cfg, t.original);
      if candidates == [] {
        s1, e := s, EndSettle(NOT_FOUND);
        PrepSame(s, s1, id);
      } else {
        var a := s.(tasks := s.tasks[id := t.(candidates := candidates)]);
        CandidatesValid(s.cfg, t.original);
        s1, e := CandidateEnds(a, id, now);
        PrepTrans(s, a, s1, id);
      }
    }
  }
}
