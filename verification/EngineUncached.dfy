/** A question that bars the cache is never answered from it. */
module EngineUncached {
  import opened Bytes
  import opened Results
  import opened Names
  import opened Dns
  import opened Lookups
  import opened Caches
  import opened Routing
  import opened ReverseNames
  import opened Synthetics
  import opened EngineModel
  import EngineResume
  import EngineAsk
  import opened EngineRuns
  import opened EngineTheorems
  import opened EngineHits

  /** The question's task, if it has one, keeps off the cache. */
  predicate Barred(s: State, q: Qid) {
    forall id :: id in s.tasks && s.tasks[id].owner == ResolveOwner(q) ==> s.tasks[id].noCache
  }

  /** No answer to the question is from the cache. */
  predicate Uncached(acts: seq<Action>, q: Qid) {
    forall k :: 0 <= k < |acts| && acts[k].Done? && acts[k].qid == q && acts[k].completion.AnswerDone? ==>
      acts[k].completion.answer.source != FromCache
  }

  predicate Abstains(o: Out, q: Qid) {
    Barred(o.s, q) && Uncached(o.acts, q)
  }

  lemma SettleAbstains(s: State, id: TaskId, a: Answer, q: Qid)
    requires Barred(s, q) && (id in s.tasks && s.tasks[id].noCache ==> a.source != FromCache)
    ensures Abstains(Settle(s, id, a), q)
  {
    hide Combine, Without;
  }

  lemma SendAbstains(s: State, id: TaskId, server: IpAddr, tcp: bool, now: nat, q: Qid)
    requires Barred(s, q)
    ensures Abstains(SendTo(s, id, server, tcp, now), q)
  {
    hide Settle, RandomCase, QueryBytes, InterfaceOf, Abstains;
    if id in s.tasks {
      SettleAbstains(s, id, DEFAULT_ANSWER.(interface_ := InterfaceOf(s.cfg, ScopeName(s.tasks[id]))), q);
      SettleAbstains(Refuse(s), id, DEFAULT_ANSWER, q);
      if s.entropy != [] {
        var s1 := s.(entropy := s.entropy[1..]);
        SettleAbstains(Refuse(s1), id, DEFAULT_ANSWER, q);
        if s.entropy[0].Some? { LaunchAbstains(s1, id, server, tcp, s.entropy[0].value, now, q); }
      }
    } else {
      Nothing(s, q);
    }
  }

  lemma Nothing(s: State, q: Qid)
    requires Barred(s, q)
    ensures Abstains(Out(s, []), q)
  {
  }

  lemma LaunchAbstains(s: State, id: TaskId, server: IpAddr, tcp: bool, r: Random, now: nat, q: Qid)
    requires Barred(s, q) && id in s.tasks
    ensures Abstains(Launch(s, id, server, tcp, r, now), q)
  {
    hide RandomCase, QueryBytes, InterfaceOf;
  }

  lemma AttemptAbstains(s: State, id: TaskId, now: nat, q: Qid)
    requires Barred(s, q)
    ensures Abstains(NextAttempt(s, id, now), q)
  {
    hide Settle, SendTo, ServersOf, ChooseServer, InterfaceOf, Abstains;
    if id in s.tasks {
      var t := s.tasks[id];
      SettleAbstains(s, id, DEFAULT_ANSWER.(interface_ := InterfaceOf(s.cfg, ScopeName(t))), q);
      SettleAbstains(s, id, DEFAULT_ANSWER, q);
      var servers := ServersOf(s.cfg, s.demoted, ScopeName(t), now);
      if servers != [] {
        var server := ChooseServer(servers, t.tried);
        SendAbstains(s.(tasks := s.tasks[id := t.(tried := t.tried + [server])]), id, server, false, now, q);
      }
    } else {
      Nothing(s, q);
    }
  }

  lemma CandidateAbstains(s: State, id: TaskId, now: nat, q: Qid)
    requires Barred(s, q)
    ensures Abstains(NextCandidate(s, id, now), q)
  {
    hide Settle, NextAttempt, Route, KeyOf, Abstains, PassedOver, KeepsLive;
    if id !in s.tasks {
      Nothing(s, q);
    } else if s.tasks[id].candidates == [] {
      SettleAbstains(s, id, NOT_FOUND, q);
    } else {
      var t := s.tasks[id];
      var k := ReachesOne(s, t, now, 0);
      var s1 := CandidateWalk(s, id, now, k);
      var c := t.candidates[k];
      var route := Route(s.cfg, c);
      SettleAbstains(s1, id, DEFAULT_ANSWER, q);
      AttemptAbstains(s1, id, now, q);
      if route.Some? && !t.noCache && HeldAt(s, c, t.rtype, now) {
        var e := s.cache[KeyAt(s.cfg, c, t.rtype)];
        SettleAbstains(s1, id, CacheAnswer(s.cfg, Aged(e, now), route.value, c, now), q);
      }
    }
  }

  lemma SynthesisedUncached(cfg: Config, name: Name, rtype: u16)
    requires Synthesise(cfg, name, rtype).Some?
    ensures Synthesise(cfg, name, rtype).value.source != FromCache
  {
    hide EndsWith, FindHost, SameName, PtrHost, OwnAddresses, ReverseAddress, AddressRecords;
  }

  lemma AdvanceAbstains(s: State, id: TaskId, now: nat, q: Qid)
    requires Barred(s, q)
    ensures Abstains(Advance(s, id, now), q)
  {
    hide Settle, NextCandidate, Synthesise, Candidates, Abstains;
    if id in s.tasks {
      var t := s.tasks[id];
      CandidateAbstains(s, id, now, q);
      SettleAbstains(s, id, NOT_FOUND, q);
      CandidateAbstains(s.(tasks := s.tasks[id := t.(candidates := Candidates(s.cfg, t.original))]), id, now, q);
      var local := Synthesise(s.cfg, t.original, t.rtype);
      if local.Some? {
        SynthesisedUncached(s.cfg, t.original, t.rtype);
        SettleAbstains(s.(counters := s.counters.(synthetic := s.counters.synthetic + 1)), id, local.value, q);
      }
    } else {
      Nothing(s, q);
    }
  }

  lemma {:induction false} AllAbstain(s: State, ids: seq<TaskId>, now: nat, q: Qid)
    requires Barred(s, q)
    ensures Abstains(AdvanceAll(s, ids, now), q)
    decreases |ids|
  {
    hide Advance, Barred;
    if ids != [] {
      AdvanceAbstains(s, ids[0], now, q);
      AllAbstain(Advance(s, ids[0], now).s, ids[1..], now, q);
    }
  }

  lemma {:induction false} StartsBarred(s: State, qid: Qid, name: Name, types: seq<u16>, q: Qid)
    requires Barred(s, q)
    ensures Barred(StartTasks(s, qid, name, types), q)
    decreases |types|
  {
    if types != [] { StartsBarred(StartTask(s, LookupOwner(qid), name, types[0], false), qid, name, types[1..], q); }
  }

  lemma AskAbstains(s: State, i: Input, q: Qid)
    requires Barred(s, q) && (AsksOne(i) || i.OnLookup?) && (Asks(i, q) ==> CacheBarred(i))
    ensures Abstains(Step(s, i), q)
  {
    hide Step, NameAsked, Advance, AdvanceAll, Sought;
    if AsksOne(i) {
      QuestionSteps(s, i);
      if NameAsked(i).Some? { AdvanceAbstains(Entered(s, i), s.nextId, i.now, q); } else { NoName(s, i); }
    } else {
      LookupSteps(s, i);
      if NameAsked(i).Some? {
        SoughtBarred(s, i, q);
        AllAbstain(Sought(s, i), EngineAsk.IdsFrom(s.nextId, |FamilyTypes(i.family)|), i.now, q);
      } else {
        NoName(s, i);
      }
    }
  }

  lemma NoName(s: State, i: Input)
    requires (AsksOne(i) || i.OnLookup?) && NameAsked(i).None?
    ensures Step(s, i).s.tasks == s.tasks
  {
    hide Parse, Show, ReverseName;
  }

  lemma SoughtBarred(s: State, i: Input, q: Qid)
    requires Barred(s, q) && i.OnLookup? && NameAsked(i).Some?
    ensures Barred(Sought(s, i), q)
  {
    hide NameAsked, StartTasks;
    StartsBarred(Asked(s), i.q, NameAsked(i).value, FamilyTypes(i.family), q);
  }

  lemma ReceivedAbstains(s: State, tx: Txid, bytes: seq<byte>, now: nat, keys: seq<CacheKey>, q: Qid)
    requires Barred(s, q)
    ensures Abstains(Received(s, tx, bytes, now, keys), q)
  {
    hide MatchingResponse, Settle, NextCandidate, SendTo, NextAttempt, Inserted, ReplyTtl, ReplyEntry, ReplyRecords,
         KeyOf, ServerKeyOf, Rcode, Abstains, InterfaceOf;
    var r := MatchingResponse(s, tx, bytes);
    if r.None? {
      Nothing(s, q);
    } else {
      EngineResume.MatchLive(s, tx, bytes);
      var x, m := s.txs[tx], r.value;
      var s1 := Ended(s, tx);
      Nothing(s1, q);
      if x.task in s.tasks {
        var s2 := CountAnswer(s1);
        SendAbstains(s2, x.task, x.server, true, now, q);
        AttemptAbstains(Demote(CountFailure(s2), x.server, ScopeName(s.tasks[x.task]), now), x.task, now, q);
        UsableAbstains(s2, x.task, x.server, m, now, keys, q);
      }
    }
  }

  lemma UsableAbstains(s: State, id: TaskId, server: IpAddr, m: Message, now: nat, keys: seq<CacheKey>, q: Qid)
    requires Barred(s, q) && id in s.tasks
    ensures Abstains(Usable(s, id, server, m, now, keys), q)
  {
    hide Settle, NextCandidate, Inserted, ReplyTtl, ReplyEntry, ReplyRecords, KeyOf, ServerKeyOf, Abstains, InterfaceOf;
    var t := s.tasks[id];
    var s1 := Remembered(s, id, server, m, now, keys);
    SettleAbstains(s1, id, ReplyAnswer(s.cfg, t, server, m), q);
    var t1 := t.(attempt := if t.attempt == 0 then 0 else t.attempt - 1);
    CandidateAbstains(s1.(tasks := s1.tasks[id := t1]), id, now, q);
  }

  lemma FailedAbstains(s: State, tx: Txid, now: nat, q: Qid)
    requires Barred(s, q)
    ensures Abstains(Failed(s, tx, now), q) && Abstains(LocalFailed(s, tx, now), q)
  {
    hide NextAttempt, ServerKeyOf, Abstains;
    if tx in s.txs {
      var x := s.txs[tx];
      var s1 := CountFailure(Ended(s, tx));
      AttemptAbstains(s1, x.task, now, q);
      var scope := if x.task in s.tasks then ScopeName(s.tasks[x.task]) else "";
      AttemptAbstains(Demote(s1, x.server, scope, now), x.task, now, q);
    } else {
      Nothing(s, q);
    }
  }

  lemma {:induction false} TickAbstains(s: State, expired: seq<Txid>, now: nat, q: Qid)
    requires Barred(s, q)
    ensures Abstains(Tick(s, expired, now), q)
    decreases |expired|
  {
    hide Failed, LocalFailed, Barred;
    if expired != [] {
      FailedAbstains(s, expired[0], now, q);
      TickAbstains(Failed(s, expired[0], now).s, expired[1..], now, q);
    }
  }

  lemma {:induction false} DropAbstains(s: State, ids: seq<TaskId>, q: Qid)
    requires Barred(s, q)
    ensures Abstains(DropTasks(s, ids), q)
    decreases |ids|
  {
    if ids != [] {
      var id := ids[0];
      if id !in s.tasks {
        DropAbstains(s, ids[1..], q);
      } else if s.tasks[id].tx.None? {
        DropAbstains(s.(tasks := s.tasks - {id}), ids[1..], q);
      } else {
        DropAbstains(s.(tasks := s.tasks - {id}, txs := s.txs - {s.tasks[id].tx.value}), ids[1..], q);
      }
    }
  }

  lemma StepAbstains(s: State, i: Input, q: Qid)
    requires Barred(s, q) && (Asks(i, q) ==> CacheBarred(i))
    ensures Abstains(Step(s, i), q)
  {
    if AsksOne(i) || i.OnLookup? {
      hide Step, Abstains;
      AskAbstains(s, i, q);
    } else if i.OnReceived? {
      hide Abstains, Received;
      ReceivedAbstains(s, i.tx, i.bytes, i.now, i.keys, q);
    } else if i.OnFailed? || i.OnLocalFailed? {
      hide Abstains, Failed, LocalFailed;
      FailedAbstains(s, i.tx, i.now, q);
    } else if i.OnTick? {
      hide Abstains, Tick;
      TickAbstains(s, i.expired, i.now, q);
    } else if i.OnAbandon? {
      DropAbstains(s, i.tasks, q);
    } else {
      hide StaleScopes, Parse;
    }
  }

  lemma {:induction false} RunAbstains(s: State, inputs: seq<Input>, q: Qid)
    requires Barred(s, q) && forall n :: 0 <= n < |inputs| && Asks(inputs[n], q) ==> CacheBarred(inputs[n])
    ensures Abstains(Play(s, inputs), q)
    decreases |inputs|
  {
    hide Step, Barred;
    if inputs != [] {
      StepAbstains(s, inputs[0], q);
      RunAbstains(Step(s, inputs[0]).s, inputs[1..], q);
    }
  }

  /** Whatever the inputs, a question asked only with the cache barred is never answered from it. */
  lemma NeverCached(entropy: seq<Option<Random>>, inputs: seq<Input>, q: Qid)
    requires forall n :: 0 <= n < |inputs| && Asks(inputs[n], q) ==> CacheBarred(inputs[n])
    ensures Uncached(Play(Initial(entropy), inputs).acts, q)
  {
    hide Play;
    RunAbstains(Initial(entropy), inputs, q);
  }
}
