/** What the cache holds after any run: what replies said, and for how long. */
module EngineLifetimes {
  import opened Bytes
  import opened Results
  import opened Names
  import opened Dns
  import opened Aliases
  import opened Lookups
  import opened Caches
  import opened Routing
  import opened EngineModel
  import opened EngineSteps
  import opened EngineInvariant
  import opened EngineResume
  import opened EngineWorld
  import opened EngineTrace
  import opened EngineRuns
  import opened EngineTheorems

  // ------------------------------------------------------- where entries come from

  /** Input `j` is the reply that says `e` under `k`, accepted in the state the run had then reached. */
  predicate StoredAt(s: State, inputs: seq<Input>, k: CacheKey, e: Entry, j: nat) {
    && j < |inputs| && inputs[j].OnReceived?
    && FromReply(Play(s, inputs[..j]).s, inputs[j].tx, inputs[j].bytes, inputs[j].now, k, e)
  }

  /** The entry has been in the cache since input `j`. */
  predicate HeldSince(s: State, inputs: seq<Input>, k: CacheKey, e: Entry, j: nat) {
    forall m :: j < m <= |inputs| ==> k in Play(s, inputs[..m]).s.cache && Play(s, inputs[..m]).s.cache[k] == e
  }

  /** The last input of a run. */
  lemma RunLast(w: World, inputs: seq<Input>)
    requires Good(w, {}) && LegalRun(w, inputs) && inputs != []
    ensures var n := |inputs| - 1;
            && LegalRun(w, inputs[..n]) && Good(After(w, inputs[..n]), {}) && Legal(After(w, inputs[..n]), inputs[n])
            && After(w, inputs) == Next(After(w, inputs[..n]), inputs[n])
            && After(w, inputs).s == Step(After(w, inputs[..n]).s, inputs[n]).s
            && After(w, inputs[..n]).s == Play(w.s, inputs[..n]).s
            && After(w, inputs).s == Play(w.s, inputs).s
  {
    hide Good, Next, Legal, Step, Play;
    var n := |inputs| - 1;
    assert inputs == inputs[..n] + [inputs[n]];
    RunSplit(w, inputs[..n], [inputs[n]]);
    OneInput(After(w, inputs[..n]), inputs[n]);
    RunGood(w, inputs[..n]);
    RunGood(w, inputs);
    NextGood(After(w, inputs[..n]), inputs[n]);
  }

  lemma OneInput(w: World, i: Input)
    requires LegalRun(w, [i])
    ensures Legal(w, i) && After(w, [i]) == Next(w, i)
  {
    hide Next, Legal;
    assert [i][1..] == [];
  }

  /** An entry that was not there at the start was stored by a reply, and has been there since. */
  lemma {:induction false} EntryStored(w: World, inputs: seq<Input>, k: CacheKey) returns (j: nat)
    requires Good(w, {}) && LegalRun(w, inputs) && k in After(w, inputs).s.cache
    requires k in w.s.cache ==> w.s.cache[k] != After(w, inputs).s.cache[k]
    ensures StoredAt(w.s, inputs, k, After(w, inputs).s.cache[k], j)
    ensures HeldSince(w.s, inputs, k, After(w, inputs).s.cache[k], j)
    decreases |inputs|
  {
    hide Good, Next, Legal, Step, FromReply, Play, LegalRun;
    assert inputs != [];
    RunLast(w, inputs);
    var n := |inputs| - 1;
    var w1, e := After(w, inputs[..n]), After(w, inputs).s.cache[k];
    hide After;
    assert inputs[..|inputs|] == inputs;
    if k in w1.s.cache && w1.s.cache[k] == e {
      j := EntryStored(w, inputs[..n], k);
      assert inputs[..n][..j] == inputs[..j];
      forall m | j < m <= |inputs|
        ensures k in Play(w.s, inputs[..m]).s.cache && Play(w.s, inputs[..m]).s.cache[k] == e
      {
        if m <= n { assert inputs[..n][..m] == inputs[..m]; }
      }
    } else {
      NextGood(w1, inputs[n]);
      j := n;
    }
  }

  // ------------------------------------------------- the query behind an entry

  /** A reply that may be stored answers a query sent since its scope was last invalidated. */
  lemma ReplyRecent(w: World, tx: Txid, bytes: seq<byte>, now: nat, k: CacheKey, e: Entry)
    requires Good(w, {}) && FromReply(w.s, tx, bytes, now, k, e)
    ensures tx in w.s.txs && Since(w, k.scope) <= tx && e.server == w.s.txs[tx].server
  {
    hide Inv, Recorded, Bounded, Directed, Aimed, Traced, Settled, Booked, Since, MatchingResponse, Keepable, ReplyTtl,
         ReplyRecords, Configured, Sourced, AsksFor;
    InvTx(w.s, tx);
    assert MayStore(w, w.s.tasks[w.s.txs[tx].task]);
  }

  /** The action that sent a transaction still in flight. */
  lemma SendOf(w: World, tx: Txid) returns (n: nat)
    requires Good(w, {}) && tx in w.s.txs
    ensures n < |w.trace| && w.trace[n].Send? && w.trace[n].tx == tx && Carries(w.trace[n], w.s.txs[tx])
  {
    hide Inv, Bounded, Provenance, Directed, Aimed, Settled, Booked, Carries, GoodCompletion, NoReissue;
    assert Sent(w.trace, tx);
    n :| 0 <= n < |w.trace| && w.trace[n].Send? && w.trace[n].tx == tx;
    assert GoodAction(w.trace[n], w.issued);
  }

  /** Clearing a scope leaves none of its entries. */
  lemma ClearsOut(s: State, i: Input, k: CacheKey)
    requires Clears(s, i, k.scope)
    ensures k !in Step(s, i).s.cache
  {
    hide StaleScopes;
    if i.OnScopes? { InvalidShape(s, StaleScopes(s.cfg.scopes, i.scopes)); }
    if i.OnFallback? { InvalidShape(s, {FALLBACK_SCOPE}); }
  }

  /** The run from input `m` on, seen from the state before it and from the state before input `j`. */
  lemma RunBetween(w: World, inputs: seq<Input>, m: nat, j: nat)
    requires Good(w, {}) && LegalRun(w, inputs) && m < j <= |inputs|
    ensures var wm, wj := After(w, inputs[..m]), After(w, inputs[..j]);
            && Good(wm, {}) && Good(wj, {}) && Legal(wm, inputs[m]) && LegalRun(Next(wm, inputs[m]), inputs[m + 1..j])
            && After(Next(wm, inputs[m]), inputs[m + 1..j]) == wj
            && wm.s == Play(w.s, inputs[..m]).s && wj.s == Play(w.s, inputs[..j]).s
            && wm.trace == w.trace + Play(w.s, inputs[..m]).acts && wj.trace == w.trace + Play(w.s, inputs[..j]).acts
            && wm.trace <= wj.trace
  {
    hide Good, Next, Legal, Play;
    assert inputs == inputs[..j] + inputs[j..];
    RunSplit(w, inputs[..j], inputs[j..]);
    assert inputs[..j] == inputs[..m] + inputs[m..j];
    RunSplit(w, inputs[..m], inputs[m..j]);
    RunGood(w, inputs[..m]);
    RunGood(w, inputs[..j]);
    var wm := After(w, inputs[..m]);
    assert inputs[m..j][0] == inputs[m] && inputs[m..j][1..] == inputs[m + 1..j];
    assert LegalRun(wm, inputs[m..j]) && After(wm, inputs[m..j]) == After(w, inputs[..j]);
    RunGood(wm, inputs[m..j]);
  }

  /** The query answered by the reply at `j` was sent after any earlier input that cleared the scope. */
  lemma SentSince(w: World, inputs: seq<Input>, k: CacheKey, e: Entry, j: nat, m: nat, n: nat)
    requires Good(w, {}) && LegalRun(w, inputs) && StoredAt(w.s, inputs, k, e, j) && m < j
    requires Clears(Play(w.s, inputs[..m]).s, inputs[m], k.scope)
    requires var acts := After(w, inputs[..j]).trace; n < |acts| && acts[n].Send? && acts[n].tx == inputs[j].tx
    ensures After(w, inputs[..m]).s.nextId <= inputs[j].tx && |After(w, inputs[..m]).trace| <= n
  {
    hide Good, Next, Legal, LegalRun, After, Play, Since, FromReply, Clears, Provenance, Recorded;
    RunBetween(w, inputs, m, j);
    var wm, wj := After(w, inputs[..m]), After(w, inputs[..j]);
    NextGood(wm, inputs[m]);
    GoodProvenance(wm);
    GoodRecorded(wm);
    SinceAfter(wm, inputs[m], k.scope);
    SinceRun(Next(wm, inputs[m]), inputs[m + 1..j], k.scope);
    ReplyRecent(wj, inputs[j].tx, inputs[j].bytes, inputs[j].now, k, e);
    if n < |wm.trace| {
      assert wj.trace[n] == wm.trace[n];
      OldSend(wm, n);
    }
  }

  lemma GoodServer(w: World, k: CacheKey)
    requires Good(w, {}) && k in w.s.cache
    ensures w.s.cache[k].server in Configured(w.s.cfg, k.scope)
    ensures w.s.cache[k].outcome != Unavailable && GoodRecords(w.s.cache[k].outcome, w.s.cache[k].records)
  {
    hide Recorded, Bounded, Directed, Aimed, Traced, Settled, Booked, Lower, Configured, Linked, Owned, Since;
    assert Sourced(w, k);
    assert GoodEntry(w.s.cache[k]);
  }

  /**
   * After any run, each entry the cache holds is what the reply at some input `j` said, has been held
   * since, and answers the query action `n` sent before it. No input after that query cleared the
   * entry's scope, the server asked is one the scope still has, and the entry is no failure.
   */
  lemma EntryFilled(entropy: seq<Option<Random>>, inputs: seq<Input>, k: CacheKey) returns (j: nat, n: nat)
    requires LegalRun(Start(entropy), inputs) && k in Play(Initial(entropy), inputs).s.cache
    ensures var s0 := Initial(entropy);
            var s := Play(s0, inputs).s;
            && StoredAt(s0, inputs, k, s.cache[k], j) && HeldSince(s0, inputs, k, s.cache[k], j)
            && s.cache[k].server in Configured(s.cfg, k.scope) && s.cache[k].outcome != Unavailable
            && n < |Play(s0, inputs[..j]).acts|
            && var a := Play(s0, inputs[..j]).acts[n];
            && a.Send? && a.tx == inputs[j].tx && a.server == s.cache[k].server
            && forall m :: 0 <= m < |inputs| && Clears(Play(s0, inputs[..m]).s, inputs[m], k.scope) ==>
                 m < j && |Play(s0, inputs[..m]).acts| <= n
  {
    hide Good, Next, Legal, LegalRun, After, Play, FromReply, Clears, Configured, Step, Carries;
    var w0, s0 := Start(entropy), Initial(entropy);
    StartGood(entropy);
    RunGood(w0, inputs);
    var e := Play(s0, inputs).s.cache[k];
    GoodServer(After(w0, inputs), k);
    j := EntryStored(w0, inputs, k);
    RunPrefix(w0, inputs, j);
    var wj := After(w0, inputs[..j]);
    assert wj.trace == Play(s0, inputs[..j]).acts;
    ReplyRecent(wj, inputs[j].tx, inputs[j].bytes, inputs[j].now, k, e);
    n := SendOf(wj, inputs[j].tx);
    assert wj.trace[n].server == e.server by { CarriesTo(wj.trace[n], wj.s.txs[inputs[j].tx]); }
    forall m | 0 <= m < |inputs| && Clears(Play(s0, inputs[..m]).s, inputs[m], k.scope)
      ensures m < j && |Play(s0, inputs[..m]).acts| <= n
    {
      if m >= j { HeldNotCleared(w0, inputs, k, e, j, m); }
      SentSince(w0, inputs, k, e, j, m, n);
      RunPrefix(w0, inputs, m);
    }
  }

  lemma CarriesTo(a: Action, x: Tx)
    requires Carries(a, x)
    ensures a.server == x.server
  {
  }

  lemma RunPrefix(w: World, inputs: seq<Input>, j: nat)
    requires Good(w, {}) && LegalRun(w, inputs) && j <= |inputs|
    ensures var wj := After(w, inputs[..j]);
            && LegalRun(w, inputs[..j]) && Good(wj, {})
            && wj.s == Play(w.s, inputs[..j]).s && wj.trace == w.trace + Play(w.s, inputs[..j]).acts
  {
    hide Good, Next, Legal, Play;
    assert inputs == inputs[..j] + inputs[j..];
    RunSplit(w, inputs[..j], inputs[j..]);
    RunGood(w, inputs[..j]);
  }

  /** What has been held since input `j` was not cleared since. */
  lemma HeldNotCleared(w: World, inputs: seq<Input>, k: CacheKey, e: Entry, j: nat, m: nat)
    requires Good(w, {}) && LegalRun(w, inputs) && StoredAt(w.s, inputs, k, e, j) && HeldSince(w.s, inputs, k, e, j)
    requires j <= m < |inputs|
    ensures !Clears(Play(w.s, inputs[..m]).s, inputs[m], k.scope)
  {
    hide Good, LegalRun, After, Play, FromReply, Clears, Step, Next, Legal;
    RunPrefix(w, inputs, m + 1);
    RunLast(w, inputs[..m + 1]);
    assert inputs[..m + 1][..m] == inputs[..m];
    if Clears(Play(w.s, inputs[..m]).s, inputs[m], k.scope) { ClearsOut(Play(w.s, inputs[..m]).s, inputs[m], k); }
  }

  /**
   * After a scope is invalidated, whatever the engine goes on to do, an answer it holds for the scope
   * is what a later reply said, to a query sent after that, to a server the scope still has.
   */
  lemma NothingStale(w: World, i: Input, inputs: seq<Input>, k: CacheKey) returns (j: nat, n: nat)
    requires Good(w, {}) && Legal(w, i) && LegalRun(Next(w, i), inputs) && Clears(w.s, i, k.scope)
    requires k in After(Next(w, i), inputs).s.cache
    ensures var w1, w' := Next(w, i), After(Next(w, i), inputs);
            && StoredAt(w1.s, inputs, k, w'.s.cache[k], j) && w.s.nextId <= inputs[j].tx
            && |w.trace| <= n < |After(w1, inputs[..j]).trace|
            && var a := After(w1, inputs[..j]).trace[n];
            && a.Send? && a.tx == inputs[j].tx && a.server == w'.s.cache[k].server
            && a.server in Configured(w'.s.cfg, k.scope)
  {
    hide Good, Next, Legal, LegalRun, After, Play, FromReply, Clears, Configured, Step, Carries, Since, Provenance,
         Recorded;
    NextGood(w, i);
    var w1 := Next(w, i);
    ClearsOut(w.s, i, k);
    RunGood(w1, inputs);
    var e := After(w1, inputs).s.cache[k];
    GoodServer(After(w1, inputs), k);
    j := EntryStored(w1, inputs, k);
    RunPrefix(w1, inputs, j);
    var wj := After(w1, inputs[..j]);
    ReplyRecent(wj, inputs[j].tx, inputs[j].bytes, inputs[j].now, k, e);
    n := SendOf(wj, inputs[j].tx);
    CarriesTo(wj.trace[n], wj.s.txs[inputs[j].tx]);
    GoodProvenance(w);
    GoodRecorded(w);
    SinceAfter(w, i, k.scope);
    SinceRun(w1, inputs[..j], k.scope);
    if n < |w.trace| {
      assert wj.trace[n] == w.trace[n];
      OldSend(w, n);
    }
  }

  // ------------------------------------------------------------- for how long

  lemma ReplyLivesOn(s: State, tx: Txid, bytes: seq<byte>, now: nat, k: CacheKey, e: Entry)
    requires FromReply(s, tx, bytes, now, k, e)
    ensures Lived(e, now)
  {
    hide MatchingResponse, ReplyEntry, Keepable, TaskKey, Lived;
    var t := s.tasks[s.txs[tx].task];
    ReplyLives(MatchingResponse(s, tx, bytes).value, CurrentName(t), t.rtype, s.txs[tx].server, now);
  }

  /**
   * After any run, each entry the cache holds is exactly what one of the run's replies said. Counted
   * from that reply's arrival it lives no longer than the positive cap, than any of its records, and,
   * when it has none, than the negative cap.
   */
  lemma CacheHolds(entropy: seq<Option<Random>>, inputs: seq<Input>, k: CacheKey) returns (j: nat)
    requires LegalRun(Start(entropy), inputs) && k in Play(Initial(entropy), inputs).s.cache
    ensures var e := Play(Initial(entropy), inputs).s.cache[k];
            && StoredAt(Initial(entropy), inputs, k, e, j)
            && e.expires <= inputs[j].now + MAX_POSITIVE_TTL * SECOND
            && (forall i :: 0 <= i < |e.records| ==> e.expires <= inputs[j].now + e.records[i].ttl * SECOND)
            && (e.records == [] ==> e.expires <= inputs[j].now + MAX_NEGATIVE_TTL * SECOND)
  {
    hide Good, LegalRun, After, Play, FromReply;
    StartGood(entropy);
    RunGood(Start(entropy), inputs);
    j := EntryStored(Start(entropy), inputs, k);
    var i := inputs[j];
    ReplyLivesOn(Play(Initial(entropy), inputs[..j]).s, i.tx, i.bytes, i.now, k, Play(Initial(entropy),
                 inputs).s.cache[k]);
  }

  /** The cache never outgrows its ceiling, whatever the run. */
  lemma CacheBounded(entropy: seq<Option<Random>>, inputs: seq<Input>)
    requires LegalRun(Start(entropy), inputs)
    ensures |Play(Initial(entropy), inputs).s.cache| <= MAX_ENTRIES
  {
    hide Good, LegalRun, After, Play, Provenance;
    StartGood(entropy);
    RunGood(Start(entropy), inputs);
    GoodProvenance(After(Start(entropy), inputs));
    ProvenanceSize(After(Start(entropy), inputs));
  }

  lemma ProvenanceSize(w: World)
    requires Provenance(w)
    ensures |w.s.cache| <= MAX_ENTRIES
  {
    hide MayStore, Sourced;
  }

  /**
   * A hit at any time after any run: each record is one the stored reply had, and its TTL is at most
   * the original less the time since that reply arrived.
   */
  lemma HitsAge(entropy: seq<Option<Random>>, inputs: seq<Input>, k: CacheKey, now: nat, i: nat) returns (j: nat)
    requires LegalRun(Start(entropy), inputs) && Got(Play(Initial(entropy), inputs).s.cache, k, now).1.Some?
    requires i < |Got(Play(Initial(entropy), inputs).s.cache, k, now).1.value.records|
    ensures var m := Play(Initial(entropy), inputs).s.cache;
            && k in m && i < |m[k].records| && StoredAt(Initial(entropy), inputs, k, m[k], j)
            && var hit, was := Got(m, k, now).1.value.records[i], m[k].records[i];
            && hit == was.(ttl := hit.ttl)
            && hit.ttl * SECOND + now <= was.ttl * SECOND + inputs[j].now
            && now < inputs[j].now + MAX_POSITIVE_TTL * SECOND
  {
    hide LegalRun, Play, StoredAt;
    var m := Play(Initial(entropy), inputs).s.cache;
    j := CacheHolds(entropy, inputs, k);
    AgedTtls(m[k], now, i);
  }

  // -------------------------------------------------- denials behind aliases

  /** A reply that is no denial of the name, yet has no record of the asked type where its aliases end. */
  predicate NoData(m: Message, n: Name, t: u16) {
    Rcode(m) != NXDOMAIN as int && !Terminal(m.answers, Last(Path(m.answers, n, t, MAX_ALIASES)), t)
  }

  lemma {:induction false} LeastAtMost(rs: seq<Record>, d: u32, bound: nat)
    requires bound < d
    ensures MinTtl(rs, d) <= bound <==> exists i :: 0 <= i < |rs| && rs[i].ttl <= bound
  {
    if rs != [] {
      LeastAtMost(rs[1..], d, bound);
      if i :| 0 <= i < |rs[1..]| && rs[1..][i].ttl <= bound { assert rs[i + 1].ttl <= bound; }
      if i :| 0 < i < |rs| && rs[i].ttl <= bound { assert rs[1..][i - 1].ttl <= bound; }
    }
  }

  /** What such a reply is kept for is only the aliases it followed. */
  lemma NoDataAliases(m: Message, n: Name, t: u16, r: Record)
    requires NoData(m, n, t) && r in Relevant(m.answers, n, t)
    ensures r.rdata.RCname?
  {
    hide Path, Rcode;
    var rs, path := m.answers, Path(m.answers, n, t, MAX_ALIASES);
    SelectFrom(rs, Keeps(rs, path, t), r);
    var i :| 0 <= i < |rs| && Keeps(rs, path, t)[i] && rs[i] == r;
    assert Kept(rs, path, t, i) && !Answers(rs[i], Last(path), t);
    var j :| 0 <= j < |path| - 1 && FirstAlias(rs, path[j]) == i;
    assert AliasOf(rs[i], path[j]);
  }

  /**
   * Such a reply is held within the negative cap of section 5 of RFC 2308 exactly when it has no
   * aliases either, or one of them lives no longer than the cap.
   */
  lemma NegativeCapIff(m: Message, n: Name, t: u16)
    requires NoData(m, n, t)
    ensures var rs := Relevant(m.answers, n, t);
            ReplyTtl(m, n, t) <= MAX_NEGATIVE_TTL
            <==> rs == [] || exists i :: 0 <= i < |rs| && rs[i].rdata.RCname? && rs[i].ttl <= MAX_NEGATIVE_TTL
  {
    var rs := Relevant(m.answers, n, t);
    forall i | 0 <= i < |rs| ensures rs[i].rdata.RCname? { NoDataAliases(m, n, t, rs[i]); }
    hide NoData, Relevant, EffectiveName, NegativeTtl, Rcode, AliasRecords;
    assert Rcode(m) != NXDOMAIN as int by { NoDataCode(m, n, t); }
    LeastAtMost(rs, MAX_POSITIVE_TTL, MAX_NEGATIVE_TTL);
  }

  lemma NoDataCode(m: Message, n: Name, t: u16)
    requires NoData(m, n, t)
    ensures Rcode(m) != NXDOMAIN as int
  {
    hide Rcode, Path, Terminal;
  }

  const ALIAS: Name := [[97], [98]]
  const TARGET: Name := [[99], [98]]

  /** An answer to a question for the address of `a.b`: it is an alias of `c.b`, and nothing more. */
  const BARE_ALIAS: Message :=
    Message(DEFAULT_HEADER.(response := true), [Question(ALIAS, A, IN)],
            [NewRecord(ALIAS, 86400, RCname(TARGET))], [], [])

  lemma AliasPath()
    ensures Path(BARE_ALIAS.answers, ALIAS, A, MAX_ALIASES) == [ALIAS, TARGET]
    ensures !Terminal(BARE_ALIAS.answers, TARGET, A) && FirstAlias(BARE_ALIAS.answers, ALIAS) == 0
  {
    var rs := BARE_ALIAS.answers;
    assert rs[0].rtype == CNAME;
    assert Lower(ALIAS)[0] == LowerLabel(ALIAS[0]) && Lower(TARGET)[0] == LowerLabel(TARGET[0]);
    assert LowerLabel(ALIAS[0])[0] == 97 && LowerLabel(TARGET[0])[0] == 99;
    assert !SameName(ALIAS, TARGET);
    assert AliasOf(rs[0], ALIAS) && !AliasOf(rs[0], TARGET);
    assert FirstAlias(rs, TARGET) == 1;
    assert Path(rs, TARGET, A, MAX_ALIASES - 1) == [TARGET];
  }

  /** A no-data answer behind an alias is held for a day: the negative cap does not reach it. */
  lemma BareAliasHeld()
    ensures NoData(BARE_ALIAS, ALIAS, A) && ReplyOutcome(BARE_ALIAS) == Found
    ensures ReplyTtl(BARE_ALIAS, ALIAS, A) == 86400 > MAX_NEGATIVE_TTL
  {
    AliasPath();
    hide Path, Terminal, FirstAlias;
    var rs := BARE_ALIAS.answers;
    assert Kept(rs, [ALIAS, TARGET], A, 0) by { assert OnPath(rs, [ALIAS, TARGET], 1, 0); }
    assert Keeps(rs, [ALIAS, TARGET], A) == [true];
    assert Select(rs, [true]) == rs by { assert rs[1..] == []; }
    assert MinTtl(rs, MAX_POSITIVE_TTL) == 86400 by { assert rs[1..] == []; }
  }
}
