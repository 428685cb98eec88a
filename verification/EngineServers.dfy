/** Which server is asked next, and which are passed over for having failed. */
module EngineServers {
  import opened Bytes
  import opened Results
  import opened Names
  import opened Dns
  import opened Lookups
  import opened Caches
  import opened Routing
  import opened EngineModel
  import opened EngineSteps
  import opened EngineInvariant
  import opened EngineResume
  import opened EngineWorld
  import opened EngineTrace
  import opened EngineRuns
  import opened EngineTheorems
  import opened Queries

  // ------------------------------------------------------------ the choice

  /**
   * Of the servers not yet asked `x` is a healthy one if any is, and the first configured of its kind.
   */
  predicate FirstOfBest(x: IpAddr, conf: seq<IpAddr>, demoted: Demotions, scope: string, now: nat, asked: set<IpAddr>) {
    && x !in asked
    && (IsDemoted(demoted, x, scope, now) ==>
          forall c :: c in conf && c !in asked ==> IsDemoted(demoted, c, scope, now))
    && exists i :: 0 <= i < |conf| && conf[i] == x && Earliest(conf, i, demoted, scope, now, asked)
  }

  /** Those configured before place `i` have been asked, or differ in health. */
  predicate Earliest(conf: seq<IpAddr>, i: nat, demoted: Demotions, scope: string, now: nat, asked: set<IpAddr>)
    requires i < |conf|
  {
    forall j :: 0 <= j < i ==>
      conf[j] in asked || IsDemoted(demoted, conf[j], scope, now) != IsDemoted(demoted, conf[i], scope, now)
  }

  /** The server to ask next: one not asked yet while there is one, and then each in turn, the healthy first. */
  predicate RightChoice(x: IpAddr, cfg: Config, demoted: Demotions, scope: string, now: nat, tried: seq<IpAddr>) {
    var conf, asked := Configured(cfg, scope), set v | v in tried;
    && ((exists c :: c in conf && c !in asked) ==> FirstOfBest(x, conf, demoted, scope, now, asked))
    && ((forall c :: c in conf ==> c in asked) ==>
          && conf != [] && |ServersOf(cfg, demoted, scope, now)| == |conf|
          && x == ServersOf(cfg, demoted, scope, now)[|tried| % |conf|])
  }

  lemma {:induction false} PickFirst(servers: seq<IpAddr>, demoted: Demotions, scope: string, now: nat, sick: bool,
                                     tried: seq<IpAddr>) returns (i: nat)
    requires var p := Pick(servers, demoted, scope, now, sick); FirstUntried(p, tried) < |p|
    ensures var p := Pick(servers, demoted, scope, now, sick);
            && i < |servers| && servers[i] == p[FirstUntried(p, tried)] && servers[i] !in tried
            && IsDemoted(demoted, servers[i], scope, now) == sick
            && forall j :: 0 <= j < i ==> servers[j] in tried || IsDemoted(demoted, servers[j], scope, now) != sick
  {
    hide IsDemoted, FirstUntried;
    var x, rest := servers[0], Pick(servers[1..], demoted, scope, now, sick);
    if IsDemoted(demoted, x, scope, now) == sick {
      assert Pick(servers, demoted, scope, now, sick) == [x] + rest;
      FirstNext(x, rest, tried);
    } else {
      assert Pick(servers, demoted, scope, now, sick) == [] + rest == rest;
    }
    if IsDemoted(demoted, x, scope, now) == sick && x !in tried {
      i := 0;
    } else {
      var k := PickFirst(servers[1..], demoted, scope, now, sick, tried);
      i := k + 1;
      forall j | 0 <= j < i ensures servers[j] in tried || IsDemoted(demoted, servers[j], scope, now) != sick {
        if j > 0 { assert servers[j] == servers[1..][j - 1]; }
      }
    }
  }

  lemma FirstNext(x: IpAddr, rest: seq<IpAddr>, tried: seq<IpAddr>)
    ensures FirstUntried([x] + rest, tried) == if x in tried then 1 + FirstUntried(rest, tried) else 0
  {
    assert ([x] + rest)[1..] == rest;
  }

  lemma {:induction false} FirstOver(a: seq<IpAddr>, b: seq<IpAddr>, tried: seq<IpAddr>)
    ensures FirstUntried(a + b, tried)
            == if FirstUntried(a, tried) < |a| then FirstUntried(a, tried) else |a| + FirstUntried(b, tried)
    decreases |a|
  {
    if a == [] {
      assert a + b == b;
    } else {
      assert (a + b)[0] == a[0] && (a + b)[1..] == a[1..] + b;
      FirstOver(a[1..], b, tried);
    }
  }

  lemma SizeOf(cfg: Config, demoted: Demotions, scope: string, now: nat)
    ensures |ServersOf(cfg, demoted, scope, now)| == |Configured(cfg, scope)|
  {
    hide ServersOf, Configured;
    ServersArePermuted(cfg, demoted, scope, now);
    assert |multiset(ServersOf(cfg, demoted, scope, now))| == |multiset(Configured(cfg, scope))|;
  }

  lemma PickHas(servers: seq<IpAddr>, demoted: Demotions, scope: string, now: nat, sick: bool, c: IpAddr)
    requires c in servers && IsDemoted(demoted, c, scope, now) == sick
    ensures c in Pick(servers, demoted, scope, now, sick)
  {
    hide IsDemoted;
    PickSplits(servers, demoted, scope, now);
    PickAgain(servers, demoted, scope, now, false);
    PickAgain(servers, demoted, scope, now, true);
    var a, b := Pick(servers, demoted, scope, now, false), Pick(servers, demoted, scope, now, true);
    assert c in multiset(servers) && multiset(servers) == multiset(a + b);
    assert c in a + b;
  }

  /** While a server has not been asked, the choice is the first of the best. */
  lemma UntriedChosen(conf: seq<IpAddr>, demoted: Demotions, scope: string, now: nat, tried: seq<IpAddr>, c: IpAddr)
    requires c in conf && c !in tried
    ensures var well, ill := Pick(conf, demoted, scope, now, false), Pick(conf, demoted, scope, now, true);
            && FirstUntried(well + ill, tried) < |well + ill|
            && FirstOfBest((well + ill)[FirstUntried(well + ill, tried)], conf, demoted, scope, now, set v | v in tried)
  {
    hide IsDemoted, Pick;
    var well, ill := Pick(conf, demoted, scope, now, false), Pick(conf, demoted, scope, now, true);
    var asked := set v | v in tried;
    FirstOver(well, ill, tried);
    PickHas(conf, demoted, scope, now, IsDemoted(demoted, c, scope, now), c);
    var x: IpAddr;
    if FirstUntried(well, tried) < |well| {
      var i := PickFirst(conf, demoted, scope, now, false, tried);
      x := conf[i];
      assert Earliest(conf, i, demoted, scope, now, asked);
    } else {
      assert forall v :: v in well ==> v in tried;
      var i := PickFirst(conf, demoted, scope, now, true, tried);
      x := conf[i];
      assert Earliest(conf, i, demoted, scope, now, asked);
      forall v | v in conf && v !in asked ensures IsDemoted(demoted, v, scope, now) {
        if !IsDemoted(demoted, v, scope, now) { PickHas(conf, demoted, scope, now, false, v); }
      }
    }
    assert x == (well + ill)[FirstUntried(well + ill, tried)];
  }

  /** What the engine chooses is the right choice. */
  lemma ServerChosen(cfg: Config, demoted: Demotions, scope: string, now: nat, tried: seq<IpAddr>)
    requires ServersOf(cfg, demoted, scope, now) != []
    ensures RightChoice(ChooseServer(ServersOf(cfg, demoted, scope, now), tried), cfg, demoted, scope, now, tried)
  {
    var conf, all := Configured(cfg, scope), ServersOf(cfg, demoted, scope, now);
    SizeOf(cfg, demoted, scope, now);
    ServersArePermuted(cfg, demoted, scope, now);
    hide Configured, IsDemoted, Pick, FirstOfBest;
    if c :| c in conf && c !in tried {
      UntriedChosen(conf, demoted, scope, now, tried, c);
    } else {
      assert forall c :: c in all ==> c in tried;
      assert FirstUntried(all, tried) == |all|;
    }
  }

  // ---------------------------------------------------------- the attempt

  /** The task is settled as a failure to find out. */
  predicate GivesUp(o: Out, t: Task) {
    && (forall i :: 0 <= i < |o.acts| ==> o.acts[i].Done?)
    && (t.owner.ResolveOwner? ==>
          && |o.acts| == 1 && o.acts[0].qid == t.owner.qid && o.acts[0].completion.AnswerDone?
          && var a := o.acts[0].completion.answer;
          && a.outcome == Unavailable && a.records == [] && a.source == Local && a.server.None? && a.resolvedName.None?)
  }

  /**
   * The one action is a query, under the next number, for the task's name and type and to its scope's
   * interface; its transaction is on record with a timeout from now.
   */
  predicate AsksOnce(o: Out, s: State, id: TaskId, tcp: bool, server: IpAddr, now: nat)
    requires id in s.tasks
  {
    var t := s.tasks[id];
    && |o.acts| == 1 && s.nextId in o.s.txs
    && var x := o.s.txs[s.nextId];
    && x.task == id && x.server == server && x.tcp == tcp && x.deadline == now + 2 * SECOND
    && SameName(x.question.name, CurrentName(t)) && x.question.rtype == t.rtype && x.question.class_ == IN
    && o.acts[0] == Send(s.nextId, server, if t.scope.Some? then InterfaceOf(s.cfg, t.scope.value) else None, tcp,
                         QueryBytes(x.dnsId, x.question))
  }

  lemma SettlesFailure(s: State, id: TaskId, a: Answer)
    requires id in s.tasks && s.tasks[id].tx.None? && a == DEFAULT_ANSWER.(interface_ := a.interface_)
    ensures Settle(s, id, a).s.demoted == s.demoted && Settle(s, id, a).s.cache == s.cache
    ensures GivesUp(Settle(s, id, a), s.tasks[id])
  {
    hide Combine, Without;
  }

  lemma LaunchAsksOnce(s: State, id: TaskId, server: IpAddr, tcp: bool, r: Random, now: nat)
    requires id in s.tasks
    ensures var o := Launch(s, id, server, tcp, r, now);
            o.s.demoted == s.demoted && o.s.cache == s.cache && AsksOnce(o, s, id, tcp, server, now)
  {
    hide RandomCase, SameName, QueryBytes, InterfaceOf, IdOf;
    RandomCaseSame(CurrentName(s.tasks[id]), r, 0);
  }

  /** Budgets and entropy for one more transaction of the task. */
  predicate HasBudget(s: State, t: Task) {
    t.attempt < 3 && |s.txs| < 4096 && s.entropy != [] && s.entropy[0].Some?
  }

  /** A transaction starts exactly when the budgets and the entropy allow; else the task is given up. */
  lemma SendAsks(s: State, id: TaskId, server: IpAddr, tcp: bool, now: nat)
    requires id in s.tasks && s.tasks[id].tx.None?
    ensures var o, t := SendTo(s, id, server, tcp, now), s.tasks[id];
            && o.s.demoted == s.demoted && o.s.cache == s.cache
            && (if HasBudget(s, t) then AsksOnce(o, s, id, tcp, server, now) else GivesUp(o, t))
  {
    hide Settle, Launch, InterfaceOf, GivesUp, AsksOnce;
    var t := s.tasks[id];
    if t.attempt >= MAX_ATTEMPTS {
      SettlesFailure(s, id, DEFAULT_ANSWER.(interface_ := InterfaceOf(s.cfg, ScopeName(t))));
    } else if |s.txs| >= MAX_IN_FLIGHT || s.entropy == [] {
      SettlesFailure(Refuse(s), id, DEFAULT_ANSWER);
    } else {
      var s1 := s.(entropy := s.entropy[1..]);
      if s.entropy[0].None? {
        SettlesFailure(Refuse(s1), id, DEFAULT_ANSWER);
      } else {
        LaunchAsksOnce(s1, id, server, tcp, s.entropy[0].value, now);
        OnceAs(Launch(s1, id, server, tcp, s.entropy[0].value, now), s1, s, id, tcp, server, now);
      }
    }
  }

  /** What is asked depends on the task's name, type and scope, and the next number. */
  lemma OnceAs(o: Out, s1: State, s: State, id: TaskId, tcp: bool, server: IpAddr, now: nat)
    requires id in s.tasks && id in s1.tasks && AsksOnce(o, s1, id, tcp, server, now)
    requires s1.nextId == s.nextId && s1.cfg == s.cfg && SameRoute(s.tasks[id], s1.tasks[id])
    requires s1.tasks[id].original == s.tasks[id].original && s1.tasks[id].rtype == s.tasks[id].rtype
    ensures AsksOnce(o, s, id, tcp, server, now)
  {
    hide SameName, QueryBytes, InterfaceOf;
  }

  lemma GivesUpAs(o: Out, t1: Task, t: Task)
    requires GivesUp(o, t1) && t1.owner == t.owner
    ensures GivesUp(o, t)
  {
  }

  /**
   * An attempt asks the right server, over UDP, exactly when there is budget and the scope has servers;
   * otherwise the task is given up.
   */
  predicate Attempts(o: Out, s: State, id: TaskId, now: nat)
    requires id in s.tasks
  {
    var t := s.tasks[id];
    && o.s.demoted == s.demoted
    && (if HasBudget(s, t) && Configured(s.cfg, ScopeName(t)) != []
        then |o.acts| == 1 && o.acts[0].Send? && AsksOnce(o, s, id, false, o.acts[0].server, now)
             && RightChoice(o.acts[0].server, s.cfg, s.demoted, ScopeName(t), now, t.tried)
        else GivesUp(o, t))
  }

  lemma AttemptAsks(s: State, id: TaskId, now: nat)
    requires id in s.tasks && s.tasks[id].tx.None?
    ensures Attempts(NextAttempt(s, id, now), s, id, now)
  {
    var t := s.tasks[id];
    var servers := ServersOf(s.cfg, s.demoted, ScopeName(t), now);
    SizeOf(s.cfg, s.demoted, ScopeName(t), now);
    hide Configured, ServersOf, RightChoice, ChooseServer, SendTo, Settle, InterfaceOf, GivesUp, AsksOnce;
    if t.attempt >= MAX_ATTEMPTS {
      SettlesFailure(s, id, DEFAULT_ANSWER.(interface_ := InterfaceOf(s.cfg, ScopeName(t))));
    } else if servers == [] {
      SettlesFailure(s, id, DEFAULT_ANSWER);
    } else {
      ServerChosen(s.cfg, s.demoted, ScopeName(t), now, t.tried);
      var server := ChooseServer(servers, t.tried);
      var s1 := s.(tasks := s.tasks[id := t.(tried := t.tried + [server])]);
      SendAsks(s1, id, server, false, now);
      var o := SendTo(s1, id, server, false, now);
      if HasBudget(s, t) {
        OnceAs(o, s1, s, id, false, server, now);
        OnceIs(o, s, id, false, server, now);
      } else {
        GivesUpAs(o, s1.tasks[id], t);
      }
    }
  }

  lemma OnceIs(o: Out, s: State, id: TaskId, tcp: bool, server: IpAddr, now: nat)
    requires id in s.tasks && AsksOnce(o, s, id, tcp, server, now)
    ensures |o.acts| == 1 && o.acts[0].Send? && o.acts[0].server == server
  {
    hide SameName, QueryBytes, InterfaceOf;
  }

  // -------------------------------------------------------- after a failure

  /** The input ends a transaction with a failure: of its server, of this machine, or by an error reply. */
  predicate Fails(s: State, i: Input) {
    || ((i.OnFailed? || i.OnLocalFailed?) && i.tx in s.txs)
    || (i.OnReceived? && i.tx in s.txs && ErrorsIn(s, i) == 1)
  }

  /** A server's failure is held against it, in its scope when it is link-local, for half a minute. */
  function Blamed(s: State, i: Input, scope: string): Demotions
    requires Fails(s, i)
  {
    if i.OnLocalFailed? then s.demoted
    else s.demoted[ServerKeyOf(s.txs[i.tx].server, scope) := i.now + 30 * SECOND]
  }

  /** The state a failed task goes on from, with the demotions as they are then. */
  predicate GoneInto(s: State, tx: Txid, s0: State, demoted: Demotions) {
    && tx in s.txs
    && var id := s.txs[tx].task;
    && id in s.tasks && id in s0.tasks && s0.tasks[id] == s.tasks[id].(tx := None)
    && s0.txs == s.txs - {tx} && s0.cfg == s.cfg && s0.nextId == s.nextId && s0.entropy == s.entropy
    && s0.demoted == demoted
  }

  lemma FailedInto(s: State, tx: Txid, now: nat) returns (s0: State)
    requires tx in s.txs && s.txs[tx].task in s.tasks
    ensures var x := s.txs[tx];
            && GoneInto(s, tx, s0, s.demoted[ServerKeyOf(x.server, ScopeName(s.tasks[x.task])) := now + 30 * SECOND])
            && Failed(s, tx, now) == NextAttempt(s0, x.task, now)
  {
    hide NextAttempt, ServerKeyOf;
    var x := s.txs[tx];
    s0 := Demote(CountFailure(Ended(s, tx)), x.server, ScopeName(s.tasks[x.task]), now);
  }

  lemma LocalInto(s: State, tx: Txid, now: nat) returns (s0: State)
    requires tx in s.txs && s.txs[tx].task in s.tasks
    ensures GoneInto(s, tx, s0, s.demoted) && LocalFailed(s, tx, now) == NextAttempt(s0, s.txs[tx].task, now)
  {
    hide NextAttempt;
    s0 := CountFailure(Ended(s, tx));
  }

  lemma ErrorInto(s: State, tx: Txid, bytes: seq<byte>, now: nat, keys: seq<CacheKey>) returns (s0: State)
    requires tx in s.txs && s.txs[tx].task in s.tasks && MatchingResponse(s, tx, bytes).Some?
    requires ErrorReply(s.txs[tx], MatchingResponse(s, tx, bytes).value)
    ensures var x := s.txs[tx];
            && GoneInto(s, tx, s0, s.demoted[ServerKeyOf(x.server, ScopeName(s.tasks[x.task])) := now + 30 * SECOND])
            && Received(s, tx, bytes, now, keys) == NextAttempt(s0, x.task, now)
  {
    hide NextAttempt, ServerKeyOf, MatchingResponse, Rcode;
    var x := s.txs[tx];
    s0 := Demote(CountFailure(CountAnswer(Ended(s, tx))), x.server, ScopeName(s.tasks[x.task]), now);
  }

  lemma FailsInto(s: State, i: Input) returns (s0: State)
    requires Fails(s, i) && s.txs[i.tx].task in s.tasks
    ensures GoneInto(s, i.tx, s0, Blamed(s, i, ScopeName(s.tasks[s.txs[i.tx].task])))
    ensures Step(s, i) == NextAttempt(s0, s.txs[i.tx].task, i.now)
  {
    hide NextAttempt, Failed, LocalFailed, Received, GoneInto, ServerKeyOf, MatchingResponse, ErrorReply;
    match i
    case OnFailed(tx, now) => s0 := FailedInto(s, tx, now);
    case OnLocalFailed(tx, now) => s0 := LocalInto(s, tx, now);
    case OnReceived(tx, bytes, now, keys) => s0 := ErrorInto(s, tx, bytes, now, keys);
  }

  lemma AskedSet(tried: seq<IpAddr>, asked: set<IpAddr>)
    requires forall v :: v in tried <==> v in asked
    ensures (set v | v in tried) == asked
  {
  }

  /**
   * After a failure, with `asked` the servers asked for the name so far: the task asks for it again,
   * over UDP, exactly while budget and servers are left, and a server not yet asked while its scope has
   * one: a healthy one if any is, the first configured of its kind.
   */
  predicate GoesOn(s: State, i: Input, o: Out, id: TaskId, asked: set<IpAddr>)
    requires Fails(s, i) && id in s.tasks
  {
    var t := s.tasks[id];
    var scope, conf := ScopeName(t), Configured(s.cfg, ScopeName(t));
    if t.attempt < 3 && |s.txs| <= 4096 && s.entropy != [] && s.entropy[0].Some? && conf != []
    then
      && |o.acts| == 1 && o.acts[0].Send? && AsksOnce(o, s, id, false, o.acts[0].server, i.now)
      && o.acts[0].server in conf
      && ((exists c :: c in conf && c !in asked) ==>
            FirstOfBest(o.acts[0].server, conf, o.s.demoted, scope, i.now, asked))
    else GivesUp(o, t)
  }

  /** Whatever the run, when a transaction fails its server is blamed and no other, and its task goes on. */
  lemma AnotherServer(entropy: seq<Option<Random>>, inputs: seq<Input>, i: Input)
    requires LegalRun(Start(entropy), inputs) && Fails(Play(Initial(entropy), inputs).s, i)
    ensures var w, s := After(Start(entropy), inputs), Play(Initial(entropy), inputs).s;
            var o, id := Step(s, i), s.txs[i.tx].task;
            && id in s.tasks
            && var asked := AskedOf(w.issued, id, CurrentName(s.tasks[id]));
            && s.txs[i.tx].server in asked && o.s.demoted == Blamed(s, i, ScopeName(s.tasks[id]))
            && GoesOn(s, i, o, id, asked)
  {
    hide Good, LegalRun, After, Play, Step, AskedOf, Fails, Blamed, GoesOn;
    StartGood(entropy);
    RunGood(Start(entropy), inputs);
    FailureAsks(After(Start(entropy), inputs), i);
  }

  /** The same from any state a run passes through, between the failures of one tick as well. */
  lemma FailureAsks(w: World, i: Input)
    requires Good(w, {}) && Fails(w.s, i)
    ensures var o, id := Step(w.s, i), w.s.txs[i.tx].task;
            && id in w.s.tasks
            && var asked := AskedOf(w.issued, id, CurrentName(w.s.tasks[id]));
            && w.s.txs[i.tx].server in asked && o.s.demoted == Blamed(w.s, i, ScopeName(w.s.tasks[id]))
            && GoesOn(w.s, i, o, id, asked)
  {
    hide Good, Step, AskedOf, Blamed, GoesOn, Attempts, ErrorsIn;
    assert i.tx in w.s.txs;
    var s, id := w.s, w.s.txs[i.tx].task;
    FailedTask(w, i.tx);
    var s0 := FailsInto(s, i);
    AttemptAsks(s0, id, i.now);
    FewerTxs(s.txs, i.tx);
    AttemptGoesOn(s, s0, i, Step(s, i), id, AskedOf(w.issued, id, CurrentName(s.tasks[id])));
    assert Step(s, i).s.demoted == s0.demoted by { AttemptDemotes(Step(s, i), s0, id, i.now); }
  }

  lemma AttemptDemotes(o: Out, s: State, id: TaskId, now: nat)
    requires id in s.tasks && Attempts(o, s, id, now)
    ensures o.s.demoted == s.demoted
  {
    hide HasBudget, AsksOnce, RightChoice, GivesUp, Configured;
  }

  lemma AttemptGoesOn(s: State, s0: State, i: Input, o: Out, id: TaskId, asked: set<IpAddr>)
    requires Fails(s, i) && id in s.tasks && id in s0.tasks && s0.tasks[id] == s.tasks[id].(tx := None)
    requires s0.cfg == s.cfg && s0.nextId == s.nextId && s0.entropy == s.entropy && |s0.txs| == |s.txs| - 1
    requires Attempts(o, s0, id, i.now) && forall v :: v in s.tasks[id].tried <==> v in asked
    ensures GoesOn(s, i, o, id, asked)
  {
    hide ErrorsIn, AsksOnce, RightChoice, GivesUp, Configured, FirstOfBest;
    var t := s.tasks[id];
    if HasBudget(s0, s0.tasks[id]) && Configured(s.cfg, ScopeName(t)) != [] {
      OnceAs(o, s0, s, id, false, o.acts[0].server, i.now);
      ChoiceMeans(o.acts[0].server, s.cfg, s0.demoted, ScopeName(t), i.now, t.tried, asked);
    } else {
      GivesUpAs(o, s0.tasks[id], t);
    }
  }

  lemma ChoiceMeans(x: IpAddr, cfg: Config, demoted: Demotions, scope: string, now: nat, tried: seq<IpAddr>,
                    asked: set<IpAddr>)
    requires RightChoice(x, cfg, demoted, scope, now, tried) && forall v :: v in tried <==> v in asked
    ensures x in Configured(cfg, scope)
    ensures (exists c :: c in Configured(cfg, scope) && c !in asked) ==>
              FirstOfBest(x, Configured(cfg, scope), demoted, scope, now, asked)
  {
    AskedSet(tried, asked);
    ServersArePermuted(cfg, demoted, scope, now);
    hide ServersOf, Configured, Earliest, IsDemoted;
  }

  /** A failed transaction's task remembers exactly the servers asked for its name, this one among them. */
  lemma FailedTask(w: World, tx: Txid)
    requires Good(w, {}) && tx in w.s.txs
    ensures var id := w.s.txs[tx].task;
            && id in w.s.tasks
            && var t := w.s.tasks[id];
            && (forall v :: v in t.tried <==> v in AskedOf(w.issued, id, CurrentName(t)))
            && w.s.txs[tx].server in AskedOf(w.issued, id, CurrentName(t))
  {
    hide Inv, Bounded, Provenance, Directed, Aimed, Traced, Settled, Booked, SameName;
    InvTx(w.s, tx);
    var id := w.s.txs[tx].task;
    InvTask(w.s, id);
    TaskTracked(w, {}, id);
    assert tx in SendsOf(w.issued, id);
  }
}
