/** What a server's reply comes to: the answer its asker is told, or another query. */
module EngineAnswers {
  import opened Bytes
  import opened Results
  import opened Names
  import opened Dns
  import opened Codec
  import opened Aliases
  import opened Lookups
  import opened Caches
  import opened Routing
  import opened EngineModel
  import opened EngineInvariant
  import opened EngineResume
  import opened EngineWorld
  import opened EngineRuns
  import opened EngineTheorems
  import opened EngineServers
  import opened ReplyLaws

  // ----------------------------------------------- how an answer reaches its asker

  /** Another task of the lookup is still at work. */
  predicate Waits(l: Lookup, id: TaskId) {
    exists x :: x in l.pending && x != id
  }

  /**
   * The task's answer is given to whoever asked: alone, or with those of the lookup's other tasks
   * once the last of them is done.
   */
  ghost predicate Concludes(o: Out, s: State, id: TaskId, a: Answer)
    requires id in s.tasks
  {
    var t := s.tasks[id];
    && (t.owner.ResolveOwner? ==> o.acts == [Done(t.owner.qid, AnswerDone(a))])
    && (t.owner.LookupOwner? && t.owner.qid in s.lookups ==>
          var q, l := t.owner.qid, s.lookups[t.owner.qid];
          var parts := l.results + [Part(t.rtype, a)];
          if Waits(l, id) then
            && o.acts == [] && q in o.s.lookups && o.s.lookups[q].results == parts && o.s.lookups[q].name == l.name
            && forall x :: x in o.s.lookups[q].pending <==> x in l.pending && x != id
          else
            && q !in o.s.lookups && |o.acts| == 1 && o.acts[0].Done? && o.acts[0].qid == q
            && o.acts[0].completion.AddressesDone? && Combines(o.acts[0].completion.addresses, l.name, parts))
  }

  lemma {:induction false} WithoutIs(ids: seq<TaskId>, id: TaskId, x: TaskId)
    ensures x in Without(ids, id) <==> x in ids && x != id
  {
    if ids != [] { WithoutIs(ids[1..], id, x); }
  }

  lemma WithoutWaits(l: Lookup, id: TaskId)
    ensures forall x :: x in Without(l.pending, id) <==> x in l.pending && x != id
    ensures Without(l.pending, id) != [] <==> Waits(l, id)
  {
    forall x ensures x in Without(l.pending, id) <==> x in l.pending && x != id { WithoutIs(l.pending, id, x); }
    if Without(l.pending, id) != [] { assert Without(l.pending, id)[0] in Without(l.pending, id); }
    hide Without;
  }

  lemma SettleConcludes(s: State, id: TaskId, a: Answer)
    requires id in s.tasks
    ensures Concludes(Settle(s, id, a), s, id, a)
  {
    hide Without, Combine, Combines, Waits;
    var t := s.tasks[id];
    if t.owner.LookupOwner? && t.owner.qid in s.lookups {
      var l := s.lookups[t.owner.qid];
      WithoutWaits(l, id);
      CombineSays(l.name, l.results + [Part(t.rtype, a)]);
    }
  }

  /** It depends on the task's owner and type, and the lookups. */
  lemma ConcludesAs(o: Out, s1: State, s: State, id: TaskId, a: Answer)
    requires id in s1.tasks && id in s.tasks && Concludes(o, s1, id, a) && s1.lookups == s.lookups
    requires s1.tasks[id].owner == s.tasks[id].owner && s1.tasks[id].rtype == s.tasks[id].rtype
    ensures Concludes(o, s, id, a)
  {
    hide Combines, Waits;
  }

  // ------------------------------------------------------------- fresh replies

  /** What a family's reply adds to a lookup: its own addresses, where its aliases end. */
  function Gives(m: Message, n: Name, t: u16): seq<(IpAddr, u32)> {
    if Rcode(m) == 3 then [] else AddressesIn(m.answers, Last(Path(m.answers, n, t, 16)), t)
  }

  lemma PartGives(cfg: Config, t: Task, server: IpAddr, m: Message, name: Name)
    requires WellFormed(m) && (t.rtype == A || t.rtype == AAAA)
    ensures Contribution(name, Part(t.rtype, ReplyAnswer(cfg, t, server, m))) == Gives(m, CurrentName(t), t.rtype)
  {
    ChaseAgrees(m.answers, CurrentName(t), t.rtype);
    hide Relevant, ReplyTtl, Rcode, InterfaceOf, Path, AddressesIn, Chased, Recase, WellFormed;
  }

  /** The reply is in the cache, if it may be and gives itself any time; else nothing is. */
  predicate ReplyKept(s: State, s0: State, tx: Txid, bytes: seq<byte>, now: nat, keys: seq<CacheKey>)
    requires tx in s.txs && s.txs[tx].task in s.tasks && MatchingResponse(s, tx, bytes).Some?
  {
    var x, m, t := s.txs[tx], MatchingResponse(s, tx, bytes).value, s.tasks[s.txs[tx].task];
    s0.cache == if ReplyTtl(m, CurrentName(t), t.rtype) > 0 && !t.cacheInvalidated
                then Inserted(s.cache, TaskKey(t), ReplyEntry(m, CurrentName(t), t.rtype, x.server, now), now, keys)
                else s.cache
  }

  /** The state a usable reply settles its task in. */
  lemma UsableInto(s: State, tx: Txid, bytes: seq<byte>, now: nat, keys: seq<CacheKey>) returns (s3: State)
    requires tx in s.txs && s.txs[tx].task in s.tasks && MatchingResponse(s, tx, bytes).Some?
    requires var x, m := s.txs[tx], MatchingResponse(s, tx, bytes).value;
             Keepable(x, m) && (Rcode(m) == 3 ==> s.tasks[x.task].candidates == [])
    ensures var x, m := s.txs[tx], MatchingResponse(s, tx, bytes).value;
            && x.task in s3.tasks && s3.tasks[x.task] == s.tasks[x.task].(tx := None) && s3.lookups == s.lookups
            && Received(s, tx, bytes, now, keys)
               == Settle(s3, x.task, ReplyAnswer(s.cfg, s.tasks[x.task].(tx := None), x.server, m))
    ensures ReplyKept(s, s3, tx, bytes, now, keys)
  {
    hide MatchingResponse, Rcode, Settle, NextCandidate, SendTo, NextAttempt, ReplyAnswer, Inserted, ReplyTtl,
         ReplyEntry, KeyOf, ServerKeyOf;
    var x, m := s.txs[tx], MatchingResponse(s, tx, bytes).value;
    s3 := Remembered(CountAnswer(Ended(s, tx)), x.task, x.server, m, now, keys);
  }

  /** A usable reply that ends its task gives the answer it says. */
  lemma ReplyConcludes(s: State, tx: Txid, bytes: seq<byte>, now: nat, keys: seq<CacheKey>) returns (a: Answer)
    requires tx in s.txs && s.txs[tx].task in s.tasks && MatchingResponse(s, tx, bytes).Some?
    requires var x, m := s.txs[tx], MatchingResponse(s, tx, bytes).value;
             Keepable(x, m) && (Rcode(m) == 3 ==> s.tasks[x.task].candidates == [])
    ensures var x, m := s.txs[tx], MatchingResponse(s, tx, bytes).value;
            var t := s.tasks[x.task];
            && Concludes(Received(s, tx, bytes, now, keys), s, x.task, a)
            && FreshAnswer(a, m, CurrentName(t), t.rtype, x.server, InterfaceOf(s.cfg, ScopeName(t)))
            && (t.rtype == A || t.rtype == AAAA ==>
                  forall name :: Contribution(name, Part(t.rtype, a)) == Gives(m, CurrentName(t), t.rtype))
  {
    var x, m := s.txs[tx], MatchingResponse(s, tx, bytes).value;
    MatchLive(s, tx, bytes);
    var t2 := s.tasks[x.task].(tx := None);
    a := ReplyAnswer(s.cfg, t2, x.server, m);
    ReplySays(s.cfg, t2, x.server, m);
    if t2.rtype == A || t2.rtype == AAAA {
      forall name ensures Contribution(name, Part(t2.rtype, a)) == Gives(m, CurrentName(t2), t2.rtype) {
        PartGives(s.cfg, t2, x.server, m, name);
      }
    }
    hide FreshAnswer, Contribution, Gives, MatchingResponse, Rcode, Settle, Received, ReplyAnswer, WellFormed,
         InterfaceOf, Concludes, Keepable;
    var s3 := UsableInto(s, tx, bytes, now, keys);
    SettleConcludes(s3, x.task, a);
    ConcludesAs(Settle(s3, x.task, a), s3, s, x.task, a);
  }

  /**
   * Whatever the run, a reply accepted whole with code 0 or, no other name being left to try, 3 ends its
   * task with the answer it says: absent exactly for code 3, else with exactly the aliases followed and
   * the records where they end, in the reply's order and the caller's case.
   */
  lemma ReplyAnswered(entropy: seq<Option<Random>>, inputs: seq<Input>, i: Input) returns (a: Answer)
    requires LegalRun(Start(entropy), inputs) && i.OnReceived?
    requires var s := Play(Initial(entropy), inputs).s; i.tx in s.txs && MatchingResponse(s, i.tx, i.bytes).Some?
    requires var s := Play(Initial(entropy), inputs).s;
             var m := MatchingResponse(s, i.tx, i.bytes).value;
             && (m.header.truncated ==> s.txs[i.tx].tcp) && (Rcode(m) == 0 || Rcode(m) == 3)
             && (Rcode(m) == 3 && s.txs[i.tx].task in s.tasks ==> s.tasks[s.txs[i.tx].task].candidates == [])
    ensures var s := Play(Initial(entropy), inputs).s;
            var x, m := s.txs[i.tx], Decode(i.bytes);
            && m.Ok? && x.task in s.tasks
            && var t := s.tasks[x.task];
            && (t.owner.LookupOwner? ==> t.owner.qid in s.lookups)
            && Concludes(Step(s, i), s, x.task, a)
            && FreshAnswer(a, m.value, CurrentName(t), t.rtype, x.server, InterfaceOf(s.cfg, ScopeName(t)))
            && (t.rtype == A || t.rtype == AAAA ==>
                  forall name :: Contribution(name, Part(t.rtype, a)) == Gives(m.value, CurrentName(t), t.rtype))
  {
    var s := Play(Initial(entropy), inputs).s;
    StartGood(entropy);
    RunGood(Start(entropy), inputs);
    GoodTx(After(Start(entropy), inputs), i.tx);
    GoodOwner(After(Start(entropy), inputs), s.txs[i.tx].task);
    Queries.AcceptedMatches(s, i.tx, i.bytes);
    hide Good, LegalRun, After, Play, Decode, MatchingResponse, FreshAnswer, Concludes, Contribution, Gives, Received,
         InterfaceOf, Rcode;
    a := ReplyConcludes(s, i.tx, i.bytes, i.now, i.keys);
  }

  lemma GoodOwner(w: World, id: TaskId)
    requires Good(w, {}) && id in w.s.tasks
    ensures w.s.tasks[id].owner.LookupOwner? ==> w.s.tasks[id].owner.qid in w.s.lookups
  {
    hide Linked, Valued, Ledger, EngineTrace.Traced, Settled, Booked, NoRepeats;
  }

  // --------------------------------------------------------- truncated replies

  /** A truncated datagram: asked for again over TCP, of the same server, while there is budget; nothing is stored. */
  ghost predicate AsksAgain(s: State, i: Input, o: Out, id: TaskId)
    requires i.OnReceived? && i.tx in s.txs && id in s.tasks
  {
    && o.s.demoted == s.demoted && o.s.cache == s.cache
    && (if s.tasks[id].attempt < 3 && |s.txs| <= 4096 && s.entropy != [] && s.entropy[0].Some?
        then AsksOnce(o, s, id, true, s.txs[i.tx].server, i.now) else GivesUp(o, s.tasks[id]))
  }

  lemma TruncatedInto(s: State, i: Input) returns (s2: State)
    requires i.OnReceived? && i.tx in s.txs && s.txs[i.tx].task in s.tasks && MatchingResponse(s, i.tx, i.bytes).Some?
    requires MatchingResponse(s, i.tx, i.bytes).value.header.truncated && !s.txs[i.tx].tcp
    ensures GoneInto(s, i.tx, s2, s.demoted) && s2.cache == s.cache
    ensures Step(s, i) == SendTo(s2, s.txs[i.tx].task, s.txs[i.tx].server, true, i.now)
  {
    hide MatchingResponse, SendTo, Usable, NextAttempt, Rcode;
    s2 := CountAnswer(Ended(s, i.tx));
  }

  lemma TruncatedAsks(s: State, i: Input)
    requires i.OnReceived? && i.tx in s.txs && s.txs[i.tx].task in s.tasks && MatchingResponse(s, i.tx, i.bytes).Some?
    requires MatchingResponse(s, i.tx, i.bytes).value.header.truncated && !s.txs[i.tx].tcp
    ensures AsksAgain(s, i, Step(s, i), s.txs[i.tx].task)
  {
    hide MatchingResponse, SendTo, Step, AsksOnce, GivesUp;
    var id, server := s.txs[i.tx].task, s.txs[i.tx].server;
    var s2 := TruncatedInto(s, i);
    FewerTxs(s.txs, i.tx);
    SendAsks(s2, id, server, true, i.now);
    var o := SendTo(s2, id, server, true, i.now);
    if HasBudget(s2, s2.tasks[id]) {
      OnceAs(o, s2, s, id, true, server, i.now);
    } else {
      GivesUpAs(o, s2.tasks[id], s.tasks[id]);
    }
  }

  /** Whatever the run, a truncated datagram is asked for again over TCP, of the same server, and nothing is stored. */
  lemma TruncatedAsksAgain(entropy: seq<Option<Random>>, inputs: seq<Input>, i: Input)
    requires LegalRun(Start(entropy), inputs) && i.OnReceived?
    requires var s := Play(Initial(entropy), inputs).s; i.tx in s.txs && MatchingResponse(s, i.tx, i.bytes).Some?
    requires var s := Play(Initial(entropy), inputs).s;
             MatchingResponse(s, i.tx, i.bytes).value.header.truncated && !s.txs[i.tx].tcp
    ensures var s := Play(Initial(entropy), inputs).s;
            s.txs[i.tx].task in s.tasks && AsksAgain(s, i, Step(s, i), s.txs[i.tx].task)
  {
    StartGood(entropy);
    RunGood(Start(entropy), inputs);
    hide Good, LegalRun, After, Play, MatchingResponse, AsksAgain, Step;
    GoodTx(After(Start(entropy), inputs), i.tx);
    TruncatedAsks(Play(Initial(entropy), inputs).s, i);
  }
}
