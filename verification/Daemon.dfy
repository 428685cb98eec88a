/** The event loop around the engine: sockets, waiters and admission. */
module Daemon {
  import opened Bytes
  import opened Results
  import opened Sets
  import opened Names
  import opened Dns
  import opened Lookups
  import opened Caches
  import opened Routing
  import opened EngineModel
  import opened EngineSteps
  import opened EngineInvariant
  import opened EngineDeltas
  import opened EngineEffect
  import opened EngineResume
  import EngineRuns
  import EngineTheorems
  import EngineDrain
  import EngineWorld
  import NativeRequests
  import ReverseNames

  const MAX_PENDING_CLIENTS: nat := 256
  const MAX_PENDING_UDP: nat := 256
  const MAX_PENDING_UDP_PER_PEER: nat := 16

  /** Who is waiting for an answer. */
  datatype Waiter = Native(client: nat) | StubTcp(client: nat) | StubUdp(peer: nat)

  /** What opening a socket and sending on it came to. */
  datatype Fate = Opened | LocalError | RemoteError

  // -------------------------------------------------- between actions

  /** The open sockets are the live transactions, but for what the actions still to be done open and close. */
  ghost predicate SocketsMatch(s: State, sockets: set<Txid>, acts: seq<Action>) {
    && Once(acts) && Sends(acts) <= s.txs.Keys && Cancels(acts) !! s.txs.Keys
    && sockets == s.txs.Keys - Sends(acts) + Cancels(acts) && forall x :: x in Cancels(acts) ==> x < s.nextId
  }

  /** The waiters are the outstanding questions: live, or answered among the actions still to be done. */
  ghost predicate WaitersMatch(s: State, waiters: map<Qid, Waiter>, acts: seq<Action>) {
    forall q :: LiveCount(s, q) + DoneCount(acts, q) == if q in waiters then 1 else 0
  }

  /** The transactions still to be opened belong to tasks with at least `k` attempts made. */
  ghost predicate TriedBy(s: State, acts: seq<Action>, k: nat) {
    forall x :: x in Sends(acts) ==> x in s.txs && s.txs[x].task in s.tasks && s.tasks[s.txs[x].task].attempt >= k
  }

  lemma OnceRest(a: Action, rest: seq<Action>)
    requires Once([a] + rest)
    ensures Once(rest) && (a.Send? ==> a.tx !in Sends(rest)) && (a.Cancel? ==> a.tx !in Cancels(rest))
  {
    var acts := [a] + rest;
    forall i | 0 <= i < |rest| ensures acts[i + 1] == rest[i] && acts[0] == a {}
  }

  lemma OneAction(a: Action)
    ensures Sends([a]) == (if a.Send? then {a.tx} else {}) && Cancels([a]) == (if a.Cancel? then {a.tx} else {})
  {
    assert [a][0] == a;
  }

  lemma HeadSets(a: Action, rest: seq<Action>)
    ensures Sends([a] + rest) == (if a.Send? then {a.tx} else {}) + Sends(rest)
    ensures Cancels([a] + rest) == (if a.Cancel? then {a.tx} else {}) + Cancels(rest)
  {
    hide Sends, Cancels;
    OneAction(a);
    SendsOver([a], rest);
  }

  /** A socket opened, closed, or neither: the head of the list is done. */
  lemma HeadDone(s: State, sockets: set<Txid>, a: Action, rest: seq<Action>)
    requires SocketsMatch(s, sockets, [a] + rest)
    ensures a.Send? ==> SocketsMatch(s, sockets + {a.tx}, rest) && a.tx in s.txs
    ensures a.Cancel? ==> SocketsMatch(s, sockets - {a.tx}, rest)
    ensures a.Done? ==> SocketsMatch(s, sockets, rest)
  {
    hide Once, Sends, Cancels;
    OnceRest(a, rest);
    HeadSets(a, rest);
  }

  lemma HeadCounted(s: State, waiters: map<Qid, Waiter>, a: Action, rest: seq<Action>)
    requires WaitersMatch(s, waiters, [a] + rest)
    ensures a.Done? ==> WaitersMatch(s, waiters - {a.qid}, rest) && a.qid in waiters
    ensures !a.Done? ==> WaitersMatch(s, waiters, rest)
  {
    hide Live;
    forall q ensures DoneCount([a] + rest, q) == DoneCount(rest, q) + if a.Done? && a.qid == q then 1 else 0 {
      assert ([a] + rest)[1..] == rest;
    }
    hide DoneCount;
  }

  lemma HeadTried(s: State, a: Action, rest: seq<Action>, k: nat)
    requires TriedBy(s, [a] + rest, k)
    ensures TriedBy(s, rest, k)
    ensures a.Send? ==> a.tx in s.txs && s.txs[a.tx].task in s.tasks && s.tasks[s.txs[a.tx].task].attempt >= k
  {
    hide Sends;
    HeadSets(a, rest);
  }

  /** A transaction that could not be opened, and what the engine asks instead. */
  lemma FailedMatch(s: State, sockets: set<Txid>, a: Action, rest: seq<Action>, o: Out)
    requires a.Send? && SocketsMatch(s, sockets, [a] + rest) && Delta(s, o, {a.tx}) && Cancels(o.acts) == {}
    requires forall x :: x in s.txs ==> x < s.nextId
    ensures SocketsMatch(o.s, sockets, rest + o.acts)
  {
    hide Once, Sends, Cancels, Inv, Live, DoneCount, Numbered;
    OnceRest(a, rest);
    HeadSets(a, rest);
    NewSends(s, o.acts, s.nextId, o.s.nextId);
    SendsOver(rest, o.acts);
    OnceOver(rest, o.acts);
    CancelledAway(s, o, rest, a.tx);
    assert o.s.txs.Keys - (Sends(rest) + Sends(o.acts)) == s.txs.Keys - {a.tx} - Sends(rest);
  }

  lemma CancelledAway(s: State, o: Out, rest: seq<Action>, tx: Txid)
    requires Delta(s, o, {tx}) && Cancels(rest) !! s.txs.Keys && (forall x :: x in s.txs ==> x < s.nextId)
    requires forall x :: x in Cancels(rest) ==> x < s.nextId
    ensures Cancels(rest) !! o.s.txs.Keys
  {
    NumberedSends(o.acts, s.nextId, o.s.nextId);
    hide Once, Sends, Cancels, Inv, Live, DoneCount, Numbered;
  }

  lemma FailedCounted(s: State, waiters: map<Qid, Waiter>, a: Action, rest: seq<Action>, o: Out, gone: set<Txid>)
    requires WaitersMatch(s, waiters, [a] + rest) && !a.Done? && Delta(s, o, gone)
    ensures WaitersMatch(o.s, waiters, rest + o.acts)
  {
    hide Once, Sends, Cancels, Inv, Live, DoneCount, Numbered;
    HeadCounted(s, waiters, a, rest);
    forall q ensures DoneCount(rest + o.acts, q) == DoneCount(rest, q) + DoneCount(o.acts, q) {
      DoneConcat(rest, o.acts, q);
    }
  }

  /** The other tasks stand still, and the failed one has one more attempt behind it. */
  ghost predicate Charges(s: State, tx: Txid, o: Out) {
    && tx in s.txs
    && (forall y :: y in o.s.tasks && y != s.txs[tx].task ==> y in s.tasks && o.s.tasks[y] == s.tasks[y])
    && (forall y :: y in s.tasks && y != s.txs[tx].task ==> y in o.s.tasks)
    && (s.txs[tx].task in o.s.tasks ==>
          s.txs[tx].task in s.tasks && o.s.tasks[s.txs[tx].task].attempt == s.tasks[s.txs[tx].task].attempt + 1)
    && (forall x :: x in o.s.txs && x in s.txs ==> o.s.txs[x] == s.txs[x])
    && (forall x :: x in o.s.txs && x !in s.txs ==> o.s.txs[x].task == s.txs[tx].task && s.txs[tx].task in o.s.tasks)
  }

  lemma EffectCharges(s: State, tx: Txid, o: Out, pool: seq<Name>, left: int, last: Option<IpAddr>, now: nat)
    requires Inv(s, {}) && tx in s.txs && Effect(s, {tx}, o.s, s.txs[tx].task, pool, left, last, now)
    requires s.txs[tx].task in o.s.tasks ==> o.s.tasks[s.txs[tx].task].attempt == s.tasks[s.txs[tx].task].attempt + 1
    ensures Charges(s, tx, o)
  {
    hide Inv, StartedBy, CacheStep, KeyOf;
    BelowNext(s);
  }

  lemma FailedCharges(s: State, tx: Txid, now: nat)
    requires Inv(s, {}) && tx in s.txs
    ensures Charges(s, tx, Failed(s, tx, now))
  {
    hide Inv, Failed, Effect, ResumedBy, Charges, Potential;
    EngineRuns.InvTx(s, tx);
    var r := FailedResumes(s, tx, now);
    var id := s.txs[tx].task;
    ResumedEffect(s, tx, Failed(s, tx, now), now, r);
    EngineDrain.FailedCharges(s, tx, now);
    EffectCharges(s, tx, Failed(s, tx, now), s.tasks[id].candidates, Potential(s.tasks[id]), Some(s.txs[tx].server),
                  now);
  }

  lemma LocalFailedCharges(s: State, tx: Txid, now: nat)
    requires Inv(s, {}) && tx in s.txs
    ensures Charges(s, tx, LocalFailed(s, tx, now))
  {
    hide Inv, LocalFailed, Effect, Finish, Charges, Potential, Configured, Route, CacheStep, KeyOf, GoodAnswer,
         NamesFrom, Spends;
    EngineRuns.InvTx(s, tx);
    var o, id := LocalFailed(s, tx, now), s.txs[tx].task;
    var r := LocalFailedResumes(s, tx, now);
    ResumedEffect(s, tx, o, now, r);
    ResumedReady(s, tx, o, now, r);
    InvIdle(r.s1, id);
    EngineDrain.FinishCharges(r.s1, id, r.e, now);
    EffectCharges(s, tx, o, s.tasks[id].candidates, Potential(s.tasks[id]), Some(s.txs[tx].server), now);
  }

  lemma OtherTask(s: State, x: Txid, y: Txid)
    requires Inv(s, {}) && x in s.txs && y in s.txs && x != y
    ensures s.txs[x].task != s.txs[y].task
  {
    hide Inv, AsksFor;
    EngineRuns.InvTx(s, x);
    EngineRuns.InvTx(s, y);
  }

  lemma RestTried(s: State, tx: Txid, rest: seq<Action>, o: Out, k: nat)
    requires Inv(s, {}) && TriedBy(s, rest, k) && Charges(s, tx, o) && tx !in Sends(rest) && tx in s.txs
    requires o.s.txs.Keys == s.txs.Keys - {tx} + Sends(o.acts)
    ensures TriedBy(o.s, rest, k)
  {
    hide Sends, Inv, Charges;
    forall x | x in Sends(rest)
      ensures x in o.s.txs && o.s.txs[x].task in o.s.tasks && o.s.tasks[o.s.txs[x].task].attempt >= k
    {
      OtherTask(s, x, tx);
      OneTried(s, tx, o, x);
    }
  }

  lemma OneTried(s: State, tx: Txid, o: Out, x: Txid)
    requires Charges(s, tx, o) && x in s.txs && x in o.s.txs && s.txs[x].task in s.tasks
    requires s.txs[x].task != s.txs[tx].task
    ensures o.s.txs[x].task in o.s.tasks && o.s.tasks[o.s.txs[x].task] == s.tasks[s.txs[x].task]
  {
  }

  lemma NewTried(s: State, tx: Txid, o: Out, k: nat)
    requires tx in s.txs && Charges(s, tx, o) && s.txs[tx].task in s.tasks && s.tasks[s.txs[tx].task].attempt >= k
    requires Sends(o.acts) <= o.s.txs.Keys && Sends(o.acts) !! s.txs.Keys
    ensures TriedBy(o.s, o.acts, k + 1)
  {
    hide Sends;
  }

  lemma FailedTried(s: State, a: Action, rest: seq<Action>, o: Out, k: nat)
    requires a.Send? && TriedBy(s, [a] + rest, k) && Charges(s, a.tx, o) && Delta(s, o, {a.tx}) && a.tx !in Sends(rest)
    requires Inv(s, {})
    ensures TriedBy(o.s, rest, k) && TriedBy(o.s, o.acts, k + 1)
  {
    hide Once, Sends, Cancels, Inv, Live, DoneCount, Numbered, TriedBy, Charges;
    BelowNext(s);
    NewSends(s, o.acts, s.nextId, o.s.nextId);
    HeadTried(s, a, rest, k);
    RestTried(s, a.tx, rest, o, k);
    NewTried(s, a.tx, o, k);
  }

  // --------------------------------------------------------------- admission

  function UdpWaiters(w: map<Qid, Waiter>): set<Qid> {
    set q | q in w && w[q].StubUdp?
  }

  function PeerWaiters(w: map<Qid, Waiter>, peer: nat): set<Qid> {
    set q | q in w && w[q] == StubUdp(peer)
  }

  function TcpWaiters(w: map<Qid, Waiter>): set<Qid> {
    set q | q in w && w[q].StubTcp?
  }

  function NativeWaiters(w: map<Qid, Waiter>): set<Qid> {
    set q | q in w && w[q].Native?
  }

  /** Datagram questions stay within their total and per-peer ceilings, and each stream door within its own. */
  ghost predicate Budgets(w: map<Qid, Waiter>, clients: set<nat>, stubClients: set<nat>) {
    && |UdpWaiters(w)| <= MAX_PENDING_UDP && (forall peer :: |PeerWaiters(w, peer)| <= MAX_PENDING_UDP_PER_PEER)
    && |clients| + |NativeWaiters(w)| <= MAX_PENDING_CLIENTS
    && |stubClients| + |TcpWaiters(w)| <= MAX_PENDING_CLIENTS
  }

  lemma FewerWaiters(w: map<Qid, Waiter>, q: Qid, clients: set<nat>, stubClients: set<nat>)
    requires Budgets(w, clients, stubClients)
    ensures Budgets(w - {q}, clients, stubClients)
  {
    var w' := w - {q};
    SubsetSize(UdpWaiters(w'), UdpWaiters(w));
    SubsetSize(NativeWaiters(w'), NativeWaiters(w));
    SubsetSize(TcpWaiters(w'), TcpWaiters(w));
    forall peer ensures |PeerWaiters(w', peer)| <= MAX_PENDING_UDP_PER_PEER {
      SubsetSize(PeerWaiters(w', peer), PeerWaiters(w, peer));
    }
  }

  lemma UdpMore(w: map<Qid, Waiter>, q: Qid, x: Waiter)
    requires q !in w
    ensures |UdpWaiters(w[q := x])| == |UdpWaiters(w)| + if x.StubUdp? then 1 else 0
  {
    assert UdpWaiters(w[q := x]) == UdpWaiters(w) + (if x.StubUdp? then {q} else {});
  }

  lemma PeerMore(w: map<Qid, Waiter>, q: Qid, x: Waiter, peer: nat)
    requires q !in w
    ensures |PeerWaiters(w[q := x], peer)| == |PeerWaiters(w, peer)| + if x == StubUdp(peer) then 1 else 0
  {
    assert PeerWaiters(w[q := x], peer) == PeerWaiters(w, peer) + (if x == StubUdp(peer) then {q} else {});
  }

  lemma TcpMore(w: map<Qid, Waiter>, q: Qid, x: Waiter)
    requires q !in w
    ensures |TcpWaiters(w[q := x])| == |TcpWaiters(w)| + if x.StubTcp? then 1 else 0
  {
    assert TcpWaiters(w[q := x]) == TcpWaiters(w) + (if x.StubTcp? then {q} else {});
  }

  lemma NativeMore(w: map<Qid, Waiter>, q: Qid, x: Waiter)
    requires q !in w
    ensures |NativeWaiters(w[q := x])| == |NativeWaiters(w)| + if x.Native? then 1 else 0
  {
    assert NativeWaiters(w[q := x]) == NativeWaiters(w) + (if x.Native? then {q} else {});
  }

  /** One more waiter of any kind, where there is room for it. */
  /** There is room for one more waiter of the kind. */
  ghost predicate Roomy(w: map<Qid, Waiter>, clients: set<nat>, stubClients: set<nat>, x: Waiter) {
    match x
    case StubUdp(peer) => |UdpWaiters(w)| < MAX_PENDING_UDP && |PeerWaiters(w, peer)| < MAX_PENDING_UDP_PER_PEER
    case Native(_) => |clients| + |NativeWaiters(w)| < MAX_PENDING_CLIENTS
    case StubTcp(_) => |stubClients| + |TcpWaiters(w)| < MAX_PENDING_CLIENTS
  }

  lemma MoreWaiters(w: map<Qid, Waiter>, q: Qid, x: Waiter, clients: set<nat>, stubClients: set<nat>)
    requires Budgets(w, clients, stubClients) && q !in w
    requires Roomy(w, clients, stubClients, x)
    ensures Budgets(w[q := x], clients, stubClients)
  {
    hide UdpWaiters, PeerWaiters, TcpWaiters, NativeWaiters;
    UdpMore(w, q, x);
    TcpMore(w, q, x);
    NativeMore(w, q, x);
    var w' := w[q := x];
    forall peer ensures |PeerWaiters(w', peer)| <= MAX_PENDING_UDP_PER_PEER { PeerMore(w, q, x, peer); }
  }

  lemma MetOne(all: set<Qid>, met: set<Qid>, q: Qid)
    requires q !in met
    ensures |all * (met + {q})| == |all * met| + if q in all then 1 else 0
  {
    assert all * (met + {q}) == all * met + (if q in all then {q} else {});
  }

  lemma KindOf(w: map<Qid, Waiter>, q: Qid, peer: nat)
    requires q in w
    ensures (q in UdpWaiters(w) <==> w[q].StubUdp?) && (q in PeerWaiters(w, peer) <==> w[q] == StubUdp(peer))
  {
  }

  lemma AllMet(w: map<Qid, Waiter>, met: set<Qid>, peer: nat)
    requires met == w.Keys
    ensures UdpWaiters(w) * met == UdpWaiters(w) && PeerWaiters(w, peer) * met == PeerWaiters(w, peer)
  {
  }

  lemma NoneMet(all: set<Qid>)
    ensures |all * {}| == 0
  {
    assert all * {} == {};
  }

  /** Counted one by one, as the table is walked. */
  method UdpHasCapacity(waiters: map<Qid, Waiter>, peer: nat) returns (ok: bool)
    ensures ok <==> |UdpWaiters(waiters)| < MAX_PENDING_UDP && |PeerWaiters(waiters, peer)| < MAX_PENDING_UDP_PER_PEER
  {
    hide UdpWaiters, PeerWaiters;
    var total, samePeer := 0, 0;
    var left := waiters.Keys;
    ghost var met: set<Qid> := {};
    NoneMet(UdpWaiters(waiters));
    NoneMet(PeerWaiters(waiters, peer));
    while left != {}
      invariant met + left == waiters.Keys && met !! left
      invariant total == |UdpWaiters(waiters) * met| && samePeer == |PeerWaiters(waiters, peer) * met|
      decreases left
    {
      var q :| q in left;
      left := left - {q};
      KindOf(waiters, q, peer);
      MetOne(UdpWaiters(waiters), met, q);
      MetOne(PeerWaiters(waiters, peer), met, q);
      if waiters[q].StubUdp? {
        total := total + 1;
        if waiters[q].peer == peer { samePeer := samePeer + 1; }
      }
      met := met + {q};
    }
    AllMet(waiters, met, peer);
    return total < MAX_PENDING_UDP && samePeer < MAX_PENDING_UDP_PER_PEER;
  }

  // ------------------------------------------------------------ legal runs

  /** What goes out to those who asked: an answer to whoever waits for it, or a word at the door. */
  datatype Delivery =
    | ToNative(q: Qid, client: nat, completion: Completion)
    | ToStub(q: Qid, origin: Waiter, answer: Answer)
    | ToNobody(q: Qid)
    | Denied(client: nat)
    | Reported(client: nat)
    | Cleared(client: nat)
    | TurnedAway(origin: Waiter)

  /** The stub asks for no address lists, and is sent none. */
  function DeliveryOf(q: Qid, w: Waiter, c: Completion): Delivery {
    match (w, c)
    case (Native(client), _) => ToNative(q, client, c)
    case (_, AnswerDone(a)) => ToStub(q, w, a)
    case _ => ToNobody(q)
  }

  predicate Answering(d: Delivery) {
    d.ToNative? || d.ToStub? || d.ToNobody?
  }

  predicate Answers(d: Delivery, q: Qid) {
    Answering(d) && d.q == q
  }

  /** The delivery is a completion of the question it is for, made out to whoever asked it. */
  ghost predicate Rightful(d: Delivery, asker: map<Qid, Waiter>, trace: seq<Action>)
    requires Answering(d)
  {
    d.q in asker && exists c :: Done(d.q, c) in trace && d == DeliveryOf(d.q, asker[d.q], c)
  }

  /** The actions still to be done are the run's, and what was delivered was rightly so. */
  ghost predicate Delivered(outbox: seq<Delivery>, asker: map<Qid, Waiter>, trace: seq<Action>, acts: seq<Action>) {
    && (forall a :: a in acts ==> a in trace)
    && forall k :: 0 <= k < |outbox| && Answering(outbox[k]) ==> Rightful(outbox[k], asker, trace)
  }

  lemma DeliveredMore(outbox: seq<Delivery>, asker: map<Qid, Waiter>, trace: seq<Action>, left: seq<Action>,
                      acts: seq<Action>)
    requires Delivered(outbox, asker, trace, left)
    ensures Delivered(outbox, asker, trace + acts, left + acts)
  {
    hide DeliveryOf;
  }

  lemma DeliveredOne(outbox: seq<Delivery>, asker: map<Qid, Waiter>, trace: seq<Action>, a: Action, rest: seq<Action>)
    requires Delivered(outbox, asker, trace, [a] + rest) && a.Done? && a.qid in asker
    ensures Delivered(outbox + [DeliveryOf(a.qid, asker[a.qid], a.completion)], asker, trace, rest)
  {
    assert a in [a] + rest && Done(a.qid, a.completion) == a;
    var d := DeliveryOf(a.qid, asker[a.qid], a.completion);
    assert Answering(d) && d.q == a.qid && Rightful(d, asker, trace);
    hide Rightful;
  }

  function AnswerCount(outbox: seq<Delivery>, q: Qid): nat {
    if outbox == [] then 0
    else AnswerCount(outbox[..|outbox| - 1], q) + if Answers(outbox[|outbox| - 1], q) then 1 else 0
  }

  lemma AnswersMore(outbox: seq<Delivery>, d: Delivery, q: Qid)
    ensures AnswerCount(outbox + [d], q) == AnswerCount(outbox, q) + if Answers(d, q) then 1 else 0
  {
    assert (outbox + [d])[..|outbox|] == outbox;
  }

  /**
   * The inputs so far are a legal run that leads to `s`, with every question's number below `bound`;
   * each completion of the run has been delivered to who asked, but for those still to be done.
   */
  ghost predicate Driven(entropy: seq<Option<Random>>, inputs: seq<EngineRuns.Input>, s: State, bound: nat,
                         outbox: seq<Delivery>, asker: map<Qid, Waiter>, acts: seq<Action>)
  {
    && EngineTheorems.LegalRun(EngineTheorems.Start(entropy), inputs)
    && var w := EngineTheorems.After(EngineTheorems.Start(entropy), inputs);
    && w.s == s && (forall q :: q in w.asked ==> q < bound)
    && (forall q :: AnswerCount(outbox, q) + DoneCount(acts, q) == DoneCount(w.trace, q))
    && Delivered(outbox, asker, w.trace, acts)
  }

  /** One more input keeps the run legal, and adds its actions to those to be done. */
  lemma Drives(entropy: seq<Option<Random>>, inputs: seq<EngineRuns.Input>, s: State, bound: nat, bound': nat,
               i: EngineRuns.Input, outbox: seq<Delivery>, asker: map<Qid, Waiter>, left: seq<Action>)
    requires Driven(entropy, inputs, s, bound, outbox, asker, left) && EngineRuns.Admissible(s, i) && bound <= bound'
    requires EngineRuns.IsAsk(i) ==> bound <= i.q < bound'
    ensures var o := EngineRuns.Step(s, i);
            && Driven(entropy, inputs + [i], o.s, bound', outbox, asker, left + o.acts)
            && (left == [] ==> Driven(entropy, inputs + [i], o.s, bound', outbox, asker, o.acts))
  {
    hide EngineRuns.Admissible, EngineRuns.Step, EngineRuns.Good, EngineRuns.Next, EngineTheorems.LegalRun,
         EngineTheorems.After, EngineTheorems.Play, EngineWorld.Recorded, EngineTheorems.StartsTask, DoneCount,
         AnswerCount, Delivered;
    var w0 := EngineTheorems.Start(entropy);
    EngineTheorems.StartGood(entropy);
    EngineTheorems.RunGood(w0, inputs);
    var w := EngineTheorems.After(w0, inputs);
    EngineTheorems.RunMore(w0, inputs, i);
    EngineRuns.NextGood(w, i);
    EngineTheorems.GoodRecorded(w);
    forall q | q in EngineRuns.Next(w, i).asked ensures q < bound' { EngineTheorems.BooksAfter(w, i, q, 0); }
    var acts := EngineRuns.Step(s, i).acts;
    assert left == [] ==> left + acts == acts;
    forall q ensures AnswerCount(outbox, q) + DoneCount(left + acts, q) == DoneCount(EngineRuns.Next(w, i).trace, q) {
      DoneConcat(left, acts, q);
      DoneConcat(w.trace, acts, q);
    }
    DeliveredMore(outbox, asker, w.trace, left, acts);
  }

  lemma HeadDones(a: Action, rest: seq<Action>, q: Qid)
    ensures DoneCount([a] + rest, q) == DoneCount(rest, q) + if a.Done? && a.qid == q then 1 else 0
  {
    assert ([a] + rest)[1..] == rest;
  }

  /** An action that completes nothing is done. */
  lemma HeadQuiet(entropy: seq<Option<Random>>, inputs: seq<EngineRuns.Input>, s: State, bound: nat,
                  outbox: seq<Delivery>, asker: map<Qid, Waiter>, a: Action, rest: seq<Action>)
    requires Driven(entropy, inputs, s, bound, outbox, asker, [a] + rest) && !a.Done?
    ensures Driven(entropy, inputs, s, bound, outbox, asker, rest)
  {
    hide EngineTheorems.LegalRun, EngineTheorems.After, DoneCount, AnswerCount, Rightful;
    forall q ensures DoneCount([a] + rest, q) == DoneCount(rest, q) { HeadDones(a, rest, q); }
  }

  /** A completion is delivered. */
  lemma HeadDelivered(entropy: seq<Option<Random>>, inputs: seq<EngineRuns.Input>, s: State, bound: nat,
                      outbox: seq<Delivery>, asker: map<Qid, Waiter>, a: Action, rest: seq<Action>)
    requires Driven(entropy, inputs, s, bound, outbox, asker, [a] + rest) && a.Done? && a.qid in asker
    ensures Driven(entropy, inputs, s, bound, outbox + [DeliveryOf(a.qid, asker[a.qid], a.completion)], asker, rest)
  {
    hide EngineTheorems.LegalRun, EngineTheorems.After, DoneCount, AnswerCount, Delivered;
    var d := DeliveryOf(a.qid, asker[a.qid], a.completion);
    forall q
      ensures AnswerCount(outbox + [d], q) + DoneCount(rest, q) == AnswerCount(outbox, q) + DoneCount([a] + rest, q)
    {
      HeadDones(a, rest, q);
      AnswersMore(outbox, d, q);
    }
    DeliveredOne(outbox, asker, EngineTheorems.After(EngineTheorems.Start(entropy), inputs).trace, a, rest);
  }

  /** A word at the door answers no question. */
  lemma DoorDriven(entropy: seq<Option<Random>>, inputs: seq<EngineRuns.Input>, s: State, bound: nat,
                   outbox: seq<Delivery>, asker: map<Qid, Waiter>, acts: seq<Action>, d: Delivery)
    requires Driven(entropy, inputs, s, bound, outbox, asker, acts) && !Answering(d)
    ensures Driven(entropy, inputs, s, bound, outbox + [d], asker, acts)
  {
    hide EngineTheorems.LegalRun, EngineTheorems.After, DoneCount, Rightful;
    forall q ensures AnswerCount(outbox + [d], q) == AnswerCount(outbox, q) { AnswersMore(outbox, d, q); }
  }

  /** Whoever waits asked, and questions are numbered below `bound`. */
  ghost predicate KnownAskers(waiters: map<Qid, Waiter>, asker: map<Qid, Waiter>, bound: nat) {
    && (forall q :: q in waiters ==> q in asker && asker[q] == waiters[q])
    && (forall q :: q in asker ==> q < bound)
  }

  /** A new question has an asker. */
  lemma NewAsker(entropy: seq<Option<Random>>, inputs: seq<EngineRuns.Input>, s: State, bound: nat,
                 outbox: seq<Delivery>, asker: map<Qid, Waiter>, acts: seq<Action>, q: Qid, x: Waiter)
    requires Driven(entropy, inputs, s, bound, outbox, asker, acts) && q !in asker
    ensures Driven(entropy, inputs, s, bound, outbox, asker[q := x], acts)
  {
    hide EngineTheorems.LegalRun, EngineTheorems.After, DoneCount, AnswerCount, DeliveryOf;
  }

  /** A number set aside for something else. */
  lemma More(entropy: seq<Option<Random>>, inputs: seq<EngineRuns.Input>, s: State, bound: nat, outbox: seq<Delivery>,
             asker: map<Qid, Waiter>, acts: seq<Action>)
    requires Driven(entropy, inputs, s, bound, outbox, asker, acts)
    ensures Driven(entropy, inputs, s, bound + 1, outbox, asker, acts)
  {
    hide EngineTheorems.LegalRun, EngineTheorems.After, DoneCount, AnswerCount, Delivered;
  }

  lemma Undriven(entropy: seq<Option<Random>>, bound: nat)
    ensures Driven(entropy, [], Initial(entropy), bound, [], map[], [])
  {
  }

  lemma StartsUp(entropy: seq<Option<Random>>)
    ensures var s := Initial(entropy);
            && Inv(s, {}) && s.cfg == Config([], [], [], None, []) && ValidConfig(s.cfg) && SocketsMatch(s, {}, [])
            && WaitersMatch(s, map[], []) && Budgets(map[], {}, {}) && Driven(entropy, [], s, 1, [], map[], [])
            && KnownAskers(map[], map[], 1)
  {
    EmptyConfig();
    hide Inv, ValidConfig, SocketsMatch, WaitersMatch, Budgets, Driven;
    StartsAtRest(Initial(entropy));
    Undriven(entropy, 1);
  }

  // --------------------------------------------------------------- the daemon

  /** The input a native client's question is to the engine. */
  function RequestInput(q: Qid, request: NativeRequests.Request, now: nat): EngineRuns.Input
    requires request.Resolve? || request.Lookup? || request.Reverse?
  {
    match request
    case Resolve(name, rtype, noCache) => EngineRuns.OnResolve(q, name, rtype, noCache, now)
    case Lookup(name, family) => EngineRuns.OnLookup(q, name, family, now)
    case Reverse(address) => EngineRuns.OnReverse(q, address, now)
  }

  class Resolvd {
    ghost var entropy: seq<Option<Random>>
    ghost var inputs: seq<EngineRuns.Input>
    ghost var asker: map<Qid, Waiter>
    var engine: State
    var sockets: set<Txid>
    var waiters: map<Qid, Waiter>
    var clients: set<nat>
    var stubClients: set<nat>
    var nextId: nat
    var nextStub: nat
    var outbox: seq<Delivery>

    /** The engine is given the hostname and the configuration before the loop begins. */
    constructor (entropy: seq<Option<Random>>, hostname: Option<seq<byte>>, servers: seq<IpAddr>, domains: seq<Name>,
                 hosts: seq<Host>)
      requires ValidConfig(Config([], servers, domains, None, hosts))
      ensures AtRest() && outbox == [] && waiters == map[] && clients == {} && stubClients == {}
      ensures engine == SetHosts(SetFallback(SetHostname(Initial(entropy), hostname), servers, domains), hosts)
    {
      this.entropy, inputs, asker, engine, outbox := entropy, [], map[], Initial(entropy), [];
      sockets, waiters, clients, stubClients, nextId, nextStub := {}, map[], {}, {}, 1, 1;
      new;
      hide Initial, Inv, ValidConfig, SocketsMatch, WaitersMatch, Budgets, Driven, KnownAskers, SetHostname,
           SetFallback, SetHosts;
      StartsUp(entropy);
      Configure(hostname, servers, domains, hosts);
    }

    method Configure(hostname: Option<seq<byte>>, servers: seq<IpAddr>, domains: seq<Name>, hosts: seq<Host>)
      requires AtRest() && engine.cfg == Config([], [], [], None, [])
      requires ValidConfig(Config([], servers, domains, None, hosts))
      modifies this`engine, this`inputs
      ensures AtRest()
      ensures engine == SetHosts(SetFallback(SetHostname(old(engine), hostname), servers, domains), hosts)
    {
      hide Inv, ValidConfig, SocketsMatch, WaitersMatch, Budgets, Driven, SetHostname, SetFallback, SetHosts;
      ConfigFits(engine, hostname, servers, domains, hosts);
      Rename(hostname);
      OnConfig(servers, domains, hosts);
    }

    /** Everything agrees, but for the actions still to be done. */
    ghost predicate Busy(acts: seq<Action>)
      reads this
    {
      && Inv(engine, {}) && ValidConfig(engine.cfg)
      && SocketsMatch(engine, sockets, acts) && WaitersMatch(engine, waiters, acts)
      && Budgets(waiters, clients, stubClients)
      && (forall q :: q in waiters ==> q < nextId) && (forall c :: c in clients ==> c < nextId)
      && (forall c :: c in stubClients ==> c < nextStub)
      && KnownAskers(waiters, asker, nextId)
      && Driven(entropy, inputs, engine, nextId, outbox, asker, acts)
    }

    /** What holds whenever the loop waits for events. */
    ghost predicate AtRest()
      reads this
    {
      Busy([])
    }

    /** Hand an answer to whoever waits for it, at the door it asked at. */
    method Deliver(qid: Qid, completion: Completion)
      modifies this`waiters, this`outbox
      ensures waiters == old(waiters) - {qid}
      ensures outbox == old(outbox)
                        + if qid in old(waiters) then [DeliveryOf(qid, old(waiters)[qid], completion)] else []
    {
      if qid !in waiters {
        assert waiters == waiters - {qid};
        return;
      }
      var waiter := waiters[qid];
      waiters := waiters - {qid};
      match waiter {
        case Native(client) => outbox := outbox + [ToNative(qid, client, completion)];
        case _ =>
          match completion {
            case AnswerDone(a) => outbox := outbox + [ToStub(qid, waiter, a)];
            case AddressesDone(_) => outbox := outbox + [ToNobody(qid)];
          }
      }
    }

    /** A query that could not be sent: the engine is told, and what it asks instead is returned. */
    method NotSent(a: Action, local: bool, now: nat, ghost left: seq<Action>, ghost follow: seq<Action>, ghost k: nat)
      returns (more: seq<Action>)
      requires a.Send? && Busy([a] + (left + follow))
      requires TriedBy(engine, [a] + left, k) && TriedBy(engine, follow, k + 1)
      modifies this`engine, this`inputs
      ensures Busy(left + follow + more) && TriedBy(engine, left, k) && TriedBy(engine, follow + more, k + 1)
      ensures k <= MAX_ATTEMPTS && old(inputs) <= inputs
    {
      hide Inv, ValidConfig, SocketsMatch, WaitersMatch, Budgets, TriedBy, Failed, LocalFailed, Driven;
      HeadDone(engine, sockets, a, left + follow);
      HeadTried(engine, a, left, k);
      HeadQuiet(entropy, inputs, engine, nextId, outbox, asker, a, left + follow);
      AttemptsBound(engine, a.tx);
      var o := if local then LocalFailed(engine, a.tx, now) else Failed(engine, a.tx, now);
      ghost var fault := if local then EngineRuns.OnLocalFailed(a.tx, now) else EngineRuns.OnFailed(a.tx, now);
      Drives(entropy, inputs, engine, nextId, nextId, fault, outbox, asker, left + follow);
      SendFails(engine, sockets, waiters, a, left, follow, o, k, local, now);
      inputs := inputs + [fault];
      engine := o.s;
      return o.acts;
    }

    /**
     * Carry out what the engine asked for. `fate` says what opening each transaction comes to;
     * whatever it says, the rounds of failures end, for every round spends an attempt.
     */
    method Perform(acts: seq<Action>, now: nat, fate: Txid -> Fate, ghost k: nat)
      requires Busy(acts) && TriedBy(engine, acts, k) && k <= MAX_ATTEMPTS + 1
      modifies this
      ensures AtRest() && clients == old(clients) && stubClients == old(stubClients)
      ensures nextId == old(nextId) && nextStub == old(nextStub) && entropy == old(entropy) && asker == old(asker)
      ensures waiters.Keys <= old(waiters.Keys) && old(inputs) <= inputs && old(outbox) <= outbox
      decreases MAX_ATTEMPTS + 1 - k
    {
      hide Inv, ValidConfig, SocketsMatch, WaitersMatch, Budgets, TriedBy, Delta, Sends, Cancels, Failed, LocalFailed,
           Driven;
      var followUps: seq<Action> := [];
      assert acts[0..] + followUps == acts;
      NoneTried(engine, k + 1);
      for i := 0 to |acts|
        invariant Busy(acts[i..] + followUps) && TriedBy(engine, acts[i..], k) && TriedBy(engine, followUps, k + 1)
        invariant followUps != [] ==> k <= MAX_ATTEMPTS
        invariant waiters.Keys <= old(waiters.Keys) && old(inputs) <= inputs && old(outbox) <= outbox
        invariant clients == old(clients) && stubClients == old(stubClients) && nextId == old(nextId)
        invariant nextStub == old(nextStub) && entropy == old(entropy) && asker == old(asker)
      {
        var a, rest := acts[i], acts[i + 1..] + followUps;
        assert acts[i..] == [a] + acts[i + 1..] && acts[i..] + followUps == [a] + rest;
        HeadDone(engine, sockets, a, rest);
        HeadCounted(engine, waiters, a, rest);
        HeadTried(engine, a, acts[i + 1..], k);
        if !a.Done? { HeadQuiet(entropy, inputs, engine, nextId, outbox, asker, a, rest); }
        match a {
          case Send(tx, server, interface_, tcp, payload) =>
            if fate(tx) == Opened {
              sockets := sockets + {tx};
            } else {
              var more := NotSent(a, fate(tx) == LocalError, now, acts[i + 1..], followUps, k);
              followUps := followUps + more;
              assert rest + more == acts[i + 1..] + followUps;
            }
          case Cancel(tx) => sockets := sockets - {tx};
          case Done(q, completion) =>
            FewerWaiters(waiters, q, clients, stubClients);
            HeadDelivered(entropy, inputs, engine, nextId, outbox, asker, a, rest);
            Deliver(q, completion);
        }
      }
      assert acts[|acts|..] + followUps == followUps;
      if followUps != [] {
        Perform(followUps, now, fate, k + 1);
      }
    }

    // ------------------------------------------------------------- events

    /** A request read whole from a native client, which is then a client no more. */
    method OnRequest(id: nat, permitted: bool, request: NativeRequests.Request, now: nat, fate: Txid -> Fate)
      requires AtRest() && id in clients
      modifies this
      ensures AtRest() && clients == old(clients) - {id}
      ensures !permitted ==> outbox == old(outbox) + [Denied(id)] && engine == old(engine)
      ensures permitted && request.Status? ==> outbox == old(outbox) + [Reported(id)] && engine == old(engine)
      ensures permitted && request.Flush? ==>
                outbox == old(outbox) + [Cleared(id)] && engine == EngineModel.Flush(old(engine))
      ensures permitted && (request.Resolve? || request.Lookup? || request.Reverse?) ==>
                && old(inputs) + [RequestInput(old(nextId), request, now)] <= inputs && old(outbox) <= outbox
                && asker == old(asker)[old(nextId) := Native(id)]
    {
      hide Inv, ValidConfig, SocketsMatch, WaitersMatch, Driven, NativeWaiters, EngineModel.Flush;
      ClientLeaves(waiters, clients, stubClients, id);
      clients := clients - {id};
      if !permitted {
        DoorDriven(entropy, inputs, engine, nextId, outbox, asker, [], Denied(id));
        outbox := outbox + [Denied(id)];
        return;
      }
      match request {
        case Status =>
          More(entropy, inputs, engine, nextId, outbox, asker, []);
          nextId := nextId + 1;
          DoorDriven(entropy, inputs, engine, nextId, outbox, asker, [], Reported(id));
          outbox := outbox + [Reported(id)];
        case Flush =>
          More(entropy, inputs, engine, nextId, outbox, asker, []);
          nextId := nextId + 1;
          Empty(id);
        case _ => Ask(id, request, now, fate);
      }
    }

    /** The cache is emptied and the client told so. */
    method Empty(id: nat)
      requires AtRest()
      modifies this`engine, this`inputs, this`outbox
      ensures AtRest() && outbox == old(outbox) + [Cleared(id)] && engine == EngineModel.Flush(old(engine))
    {
      hide Inv, ValidConfig, SocketsMatch, WaitersMatch, Budgets, Driven, EngineModel.Flush;
      FlushRest(engine, sockets, waiters);
      Drives(entropy, inputs, engine, nextId, nextId, EngineRuns.OnFlush, outbox, asker, []);
      inputs := inputs + [EngineRuns.OnFlush];
      engine := EngineModel.Flush(engine);
      DoorDriven(entropy, inputs, engine, nextId, outbox, asker, [], Cleared(id));
      outbox := outbox + [Cleared(id)];
    }

    /** A question has been put to the engine: its asker waits, and what the engine asked for is carried out. */
    method Await(o: Out, x: Waiter, now: nat, fate: Txid -> Fate, ghost i: EngineRuns.Input)
      requires AtRest() && EngineRuns.IsAsk(i) && i.q == nextId && EngineRuns.Admissible(engine, i)
      requires o == EngineRuns.Step(engine, i) && Opens(engine, o, nextId) && Roomy(waiters, clients, stubClients, x)
      modifies this
      ensures AtRest() && clients == old(clients) && stubClients == old(stubClients) && nextId == old(nextId) + 1
      ensures old(inputs) + [i] <= inputs && asker == old(asker)[old(nextId) := x] && old(outbox) <= outbox
    {
      hide Inv, ValidConfig, SocketsMatch, WaitersMatch, Opens, TriedBy, Driven, EngineRuns.Admissible, EngineRuns.Step;
      var qid := nextId;
      Drives(entropy, inputs, engine, qid, qid + 1, i, outbox, asker, []);
      QuestionAsked(engine, sockets, waiters, o, qid, x);
      MoreWaiters(waiters, qid, x, clients, stubClients);
      hide Budgets;
      NewAsker(entropy, inputs + [i], o.s, qid + 1, outbox, asker, o.acts, qid, x);
      inputs, asker := inputs + [i], asker[qid := x];
      engine, nextId, waiters := o.s, nextId + 1, waiters[qid := x];
      Perform(o.acts, now, fate, 1);
    }

    /** A question of a native client, who then waits for its answer. */
    method Ask(id: nat, request: NativeRequests.Request, now: nat, fate: Txid -> Fate)
      requires AtRest() && |clients| + |NativeWaiters(waiters)| < MAX_PENDING_CLIENTS
      requires request.Resolve? || request.Lookup? || request.Reverse?
      modifies this
      ensures AtRest() && clients == old(clients) && nextId == old(nextId) + 1 && old(outbox) <= outbox
      ensures old(inputs) + [RequestInput(old(nextId), request, now)] <= inputs
      ensures asker == old(asker)[old(nextId) := Native(id)]
    {
      hide Inv, ValidConfig, SocketsMatch, WaitersMatch, Opens, Resolve, LookupAddresses, Reverse, TriedBy, Driven,
           NativeWaiters;
      var qid := nextId;
      var o: Out;
      NotLive(engine, waiters, qid);
      match request {
        case Resolve(name, rtype, noCache) =>
          o := EngineModel.Resolve(engine, qid, name, rtype, noCache, now);
          ResolveTextOpens(engine, qid, name, rtype, noCache, now);
        case Lookup(name, family) =>
          o := LookupAddresses(engine, qid, name, family, now);
          LookupTextOpens(engine, qid, name, family, now);
        case Reverse(address) =>
          o := EngineModel.Reverse(engine, qid, address, now);
          ReverseOpens(engine, qid, address, now);
      }
      Await(o, Native(id), now, fate, RequestInput(qid, request, now));
    }

    /** A query from the stub: one that came by datagram is turned away when its peer or the door is full. */
    method OnStubQuery(origin: Waiter, query: Message, now: nat, fate: Txid -> Fate) returns (admitted: bool)
      requires AtRest() && !origin.Native? && (origin.StubTcp? ==> origin.client in stubClients)
      requires WellFormed(query) && |query.questions| == 1
      modifies this
      ensures AtRest()
      ensures admitted <==>
                !(origin.StubUdp? && (|UdpWaiters(old(waiters))| >= MAX_PENDING_UDP
                                      || |PeerWaiters(old(waiters), origin.peer)| >= MAX_PENDING_UDP_PER_PEER))
      ensures !admitted ==> outbox == old(outbox) + [TurnedAway(origin)] && engine == Refused(old(engine))
      ensures !admitted ==> waiters == old(waiters)
      ensures admitted ==>
                && old(inputs) + [EngineRuns.OnQuestion(old(nextId), query.questions[0], now)] <= inputs
                && old(outbox) <= outbox && asker == old(asker)[old(nextId) := origin]
    {
      hide Inv, ValidConfig, SocketsMatch, WaitersMatch, UdpWaiters, PeerWaiters, TcpWaiters, Driven, Refused,
           WellFormed;
      if origin.StubUdp? {
        var ok := UdpHasCapacity(waiters, origin.peer);
        if !ok {
          TurnAway(origin);
          return false;
        }
      } else {
        StubLeaves(waiters, clients, stubClients, origin.client);
        stubClients := stubClients - {origin.client};
      }
      AskStub(origin, query, now, fate);
      return true;
    }

    /** A question refused at the door is counted. */
    method TurnAway(origin: Waiter)
      requires AtRest()
      modifies this`engine, this`inputs, this`outbox
      ensures AtRest() && outbox == old(outbox) + [TurnedAway(origin)] && engine == Refused(old(engine))
    {
      hide Inv, ValidConfig, SocketsMatch, WaitersMatch, Budgets, Driven;
      RefusedRest(engine, sockets, waiters);
      Drives(entropy, inputs, engine, nextId, nextId, EngineRuns.OnRefused, outbox, asker, []);
      inputs := inputs + [EngineRuns.OnRefused];
      engine := Refused(engine);
      DoorDriven(entropy, inputs, engine, nextId, outbox, asker, [], TurnedAway(origin));
      outbox := outbox + [TurnedAway(origin)];
    }

    /** A question of the stub's, where there is room for it. */
    method AskStub(origin: Waiter, query: Message, now: nat, fate: Txid -> Fate)
      requires AtRest() && !origin.Native? && WellFormed(query) && |query.questions| == 1
      requires Roomy(waiters, clients, stubClients, origin)
      modifies this
      ensures AtRest() && stubClients == old(stubClients) && nextId == old(nextId) + 1 && old(outbox) <= outbox
      ensures old(inputs) + [EngineRuns.OnQuestion(old(nextId), query.questions[0], now)] <= inputs
      ensures asker == old(asker)[old(nextId) := origin]
    {
      hide Inv, ValidConfig, SocketsMatch, WaitersMatch, Opens, ResolveQuestion, ValidName, Driven, Roomy, Budgets;
      var qid := nextId;
      var o := ResolveQuestion(engine, qid, query.questions[0], now);
      NotLive(engine, waiters, qid);
      QuestionOpens(engine, qid, query.questions[0], now);
      Await(o, origin, now, fate, EngineRuns.OnQuestion(qid, query.questions[0], now));
    }

    /** A message for a transaction: one the engine does not recognise leaves the socket open. */
    method OnMessage(tx: Txid, bytes: seq<byte>, now: nat, keys: seq<CacheKey>, fate: Txid -> Fate)
      requires AtRest() && tx in sockets && Walks(keys, engine.cache)
      modifies this
      ensures AtRest()
      ensures MatchingResponse(old(engine), tx, bytes).None? ==> sockets == old(sockets) && engine == old(engine)
      ensures MatchingResponse(old(engine), tx, bytes).Some? ==>
                old(inputs) + [EngineRuns.OnReceived(tx, bytes, now, keys)] <= inputs && old(outbox) <= outbox
    {
      hide Inv, ValidConfig, SocketsMatch, WaitersMatch, Delta, Received, MatchingResponse, TriedBy, Budgets, Driven,
           Walks;
      if MatchingResponse(engine, tx, bytes).None? { return; }
      var o := Received(engine, tx, bytes, now, keys);
      Drives(entropy, inputs, engine, nextId, nextId, EngineRuns.OnReceived(tx, bytes, now, keys), outbox, asker, []);
      inputs := inputs + [EngineRuns.OnReceived(tx, bytes, now, keys)];
      ReceivedDelta(engine, tx, bytes, now, keys);
      ReplyEnded(engine, sockets, waiters, o, tx);
      sockets := sockets - {tx};
      engine := o.s;
      Perform(o.acts, now, fate, 1);
    }

    /** A transaction's socket failed. */
    method OnBroken(tx: Txid, now: nat, fate: Txid -> Fate)
      requires AtRest() && tx in sockets
      modifies this
      ensures AtRest() && old(inputs) + [EngineRuns.OnFailed(tx, now)] <= inputs && old(outbox) <= outbox
    {
      hide Inv, ValidConfig, WaitersMatch, Delta, Failed, TriedBy, Budgets, Sends, Cancels, Driven;
      assert tx in engine.txs by { NoActions(); }
      hide SocketsMatch;
      var o := Failed(engine, tx, now);
      Drives(entropy, inputs, engine, nextId, nextId, EngineRuns.OnFailed(tx, now), outbox, asker, []);
      inputs := inputs + [EngineRuns.OnFailed(tx, now)];
      FailedDelta(engine, tx, now);
      ReplyEnded(engine, sockets, waiters, o, tx);
      sockets := sockets - {tx};
      engine := o.s;
      Perform(o.acts, now, fate, 1);
    }

    /** Time passed; `expired` walks the transactions whose time is up. */
    method OnTick(now: nat, expired: seq<Txid>, fate: Txid -> Fate)
      requires AtRest() && EngineRuns.Expired(engine, now, expired)
      modifies this
      ensures AtRest() && old(inputs) + [EngineRuns.OnTick(now, expired)] <= inputs && old(outbox) <= outbox
    {
      hide Inv, ValidConfig, SocketsMatch, WaitersMatch, Delta, Tick, TriedBy, Budgets, NoRepeats, Driven,
           EngineRuns.Expired;
      var o := Tick(engine, expired, now);
      Drives(entropy, inputs, engine, nextId, nextId, EngineRuns.OnTick(now, expired), outbox, asker, []);
      inputs := inputs + [EngineRuns.OnTick(now, expired)];
      ExpiredListed(engine, now, expired);
      TickDelta(engine, expired, now);
      Ticked(engine, sockets, waiters, o, Listed(expired));
      engine := o.s;
      Perform(o.acts, now, fate, 1);
    }

    /** An asker went away; `tasks` walks its question's tasks. */
    method OnHangup(q: Qid, tasks: seq<TaskId>, now: nat, fate: Txid -> Fate)
      requires AtRest() && q in waiters && EngineRuns.TasksOf(engine, q, tasks)
      modifies this
      ensures AtRest() && q !in waiters
      ensures old(inputs) + [EngineRuns.OnAbandon(q, tasks)] <= inputs && old(outbox) <= outbox
    {
      hide Inv, ValidConfig, SocketsMatch, WaitersMatch, Abandon, TriedBy, EngineRuns.TasksOf, Driven;
      var o := Abandon(engine, q, tasks);
      Drives(entropy, inputs, engine, nextId, nextId, EngineRuns.OnAbandon(q, tasks), outbox, asker, []);
      inputs := inputs + [EngineRuns.OnAbandon(q, tasks)];
      HungUp(engine, sockets, waiters, q, tasks);
      FewerWaiters(waiters, q, clients, stubClients);
      hide Budgets;
      waiters := waiters - {q};
      engine := o.s;
      Perform(o.acts, now, fate, 1);
    }

    method Rename(hostname: Option<seq<byte>>)
      requires AtRest()
      modifies this`engine, this`inputs
      ensures AtRest() && engine == SetHostname(old(engine), hostname)
    {
      hide Inv, ValidConfig, SocketsMatch, WaitersMatch, Budgets, Driven, SetHostname;
      HostnameRest(engine, sockets, waiters, hostname);
      Drives(entropy, inputs, engine, nextId, nextId, EngineRuns.OnHostname(hostname), outbox, asker, []);
      inputs := inputs + [EngineRuns.OnHostname(hostname)];
      engine := SetHostname(engine, hostname);
    }

    /** A hostname and scopes from the network daemon. */
    method OnSnapshot(hostname: Option<seq<byte>>, scopes: seq<Scope>)
      requires AtRest() && ValidConfig(engine.cfg.(scopes := scopes))
      modifies this
      ensures AtRest() && engine == SetScopes(SetHostname(old(engine), hostname), scopes)
    {
      hide Inv, ValidConfig, SocketsMatch, WaitersMatch, Budgets, Driven, SetScopes, SetHostname;
      ScopesFit(engine, hostname, scopes);
      Rename(hostname);
      ScopesRest(engine, sockets, waiters, scopes);
      Drives(entropy, inputs, engine, nextId, nextId, EngineRuns.OnScopes(scopes), outbox, asker, []);
      inputs := inputs + [EngineRuns.OnScopes(scopes)];
      engine := SetScopes(engine, scopes);
    }

    /** New fallback servers, domains and static hosts from the registry. */
    method OnConfig(servers: seq<IpAddr>, domains: seq<Name>, hosts: seq<Host>)
      requires AtRest()
      requires ValidConfig(engine.cfg.(fallbackServers := servers, fallbackDomains := domains, hosts := hosts))
      requires ValidConfig(engine.cfg.(fallbackServers := servers, fallbackDomains := domains))
      modifies this`engine, this`inputs
      ensures AtRest() && engine == SetHosts(SetFallback(old(engine), servers, domains), hosts)
    {
      hide Inv, ValidConfig, SocketsMatch, WaitersMatch, Budgets, Driven, SetFallback, SetHosts;
      ConfigRest(engine, sockets, waiters, servers, domains, hosts);
      ConfigDrives(entropy, inputs, engine, nextId, outbox, asker, servers, domains, hosts);
      inputs := inputs + [EngineRuns.OnFallback(servers, domains)] + [EngineRuns.OnHosts(hosts)];
      engine := SetHosts(SetFallback(engine, servers, domains), hosts);
    }

    /** A native client that left, broke or never finished its request. */
    method OnLeft(id: nat)
      requires AtRest() && id in clients
      modifies this
      ensures AtRest() && clients == old(clients) - {id} && engine == old(engine) && waiters == old(waiters)
    {
      hide Inv, ValidConfig, SocketsMatch, WaitersMatch, Driven;
      ClientLeaves(waiters, clients, stubClients, id);
      clients := clients - {id};
    }

    /** A stub client that left before it had asked. */
    method OnStubLeft(id: nat)
      requires AtRest() && id in stubClients
      modifies this
      ensures AtRest() && stubClients == old(stubClients) - {id} && engine == old(engine) && waiters == old(waiters)
    {
      hide Inv, ValidConfig, SocketsMatch, WaitersMatch, Driven;
      StubLeaves(waiters, clients, stubClients, id);
      stubClients := stubClients - {id};
    }

    /** Accept stub clients over TCP while there is room. */
    method AcceptStub(offered: nat) returns (taken: nat)
      requires AtRest()
      modifies this
      ensures AtRest() && taken <= offered && |stubClients| == |old(stubClients)| + taken
      ensures taken < offered ==> |stubClients| + |TcpWaiters(waiters)| >= MAX_PENDING_CLIENTS
    {
      hide Inv, ValidConfig, SocketsMatch, WaitersMatch, NativeWaiters, TcpWaiters, UdpWaiters, PeerWaiters, Driven;
      taken := 0;
      var pending := |TcpWaiters(waiters)|;
      var limit := if pending < MAX_PENDING_CLIENTS then MAX_PENDING_CLIENTS - pending else 0;
      for i := 0 to offered
        invariant AtRest() && waiters == old(waiters) && taken <= i && |stubClients| == |old(stubClients)| + taken
        invariant taken < i ==> |stubClients| >= limit
      {
        if |stubClients| < limit {
          stubClients := stubClients + {nextStub};
          nextStub := nextStub + 1;
          taken := taken + 1;
        }
      }
    }

    /** Accept native clients while there is room; beyond it they are closed at once. */
    method AcceptNative(offered: nat) returns (taken: nat)
      requires AtRest()
      modifies this
      ensures AtRest() && taken <= offered && |clients| == |old(clients)| + taken
      ensures taken < offered ==> |clients| + |NativeWaiters(waiters)| >= MAX_PENDING_CLIENTS
    {
      hide Inv, ValidConfig, SocketsMatch, WaitersMatch, NativeWaiters, TcpWaiters, UdpWaiters, PeerWaiters, Driven;
      taken := 0;
      var pending := |NativeWaiters(waiters)|;
      for i := 0 to offered
        invariant AtRest() && waiters == old(waiters) && taken <= i && |clients| == |old(clients)| + taken
        invariant taken < i ==> |clients| + pending >= MAX_PENDING_CLIENTS
      {
        if |clients| + pending < MAX_PENDING_CLIENTS {
          clients := clients + {nextId};
          More(entropy, inputs, engine, nextId, outbox, asker, []);
          nextId := nextId + 1;
          taken := taken + 1;
        }
      }
    }
  }

  /**
   * Whatever has happened to the daemon, it waits exactly for the questions still live. A question it
   * asked and no longer waits for has had its answer delivered exactly once, unless its asker left
   * first, and then never.
   */
  lemma AnsweredOnce(d: Resolvd, q: Qid)
    requires d.AtRest()
    ensures var s0 := Initial(d.entropy);
            && d.engine == EngineTheorems.Play(s0, d.inputs).s && (q in d.waiters <==> Live(d.engine, q))
            && EngineTheorems.AskCount(d.inputs, q) <= 1
            && AnswerCount(d.outbox, q)
               == if q in d.waiters || exists k: nat :: EngineTheorems.DroppedAt(s0, d.inputs, q, k) then 0
                  else EngineTheorems.AskCount(d.inputs, q)
  {
    hide Inv, ValidConfig, SocketsMatch, Budgets, Live, DoneCount, EngineRuns.Good, EngineTheorems.LegalRun,
         EngineTheorems.After, EngineTheorems.Play, EngineTheorems.DroppedAt, EngineTheorems.AskCount, AnswerCount;
    var w0, acts := EngineTheorems.Start(d.entropy), EngineTheorems.Play(Initial(d.entropy), d.inputs).acts;
    EngineTheorems.StartGood(d.entropy);
    EngineTheorems.RunGood(w0, d.inputs);
    assert w0.trace + acts == acts;
    EngineTheorems.ExactlyOnce(d.entropy, d.inputs, q);
    assert DoneCount([], q) == 0 by { EngineRuns.NoneDone(q); }
    assert LiveCount(d.engine, q) == if q in d.waiters then 1 else 0;
    assert AnswerCount(d.outbox, q) == DoneCount(acts, q);
  }

  /** Whatever has happened to the daemon, each answer in its outbox is the engine's own, made out to whoever asked. */
  lemma AnsweredRightly(d: Resolvd, k: nat)
    requires d.AtRest() && k < |d.outbox| && Answering(d.outbox[k])
    ensures Rightful(d.outbox[k], d.asker, EngineTheorems.Play(Initial(d.entropy), d.inputs).acts)
  {
    hide Inv, ValidConfig, SocketsMatch, WaitersMatch, Budgets, DoneCount, EngineRuns.Good, EngineTheorems.LegalRun,
         EngineTheorems.After, EngineTheorems.Play, AnswerCount, Rightful;
    var w0, acts := EngineTheorems.Start(d.entropy), EngineTheorems.Play(Initial(d.entropy), d.inputs).acts;
    EngineTheorems.StartGood(d.entropy);
    EngineTheorems.RunGood(w0, d.inputs);
    assert w0.trace + acts == acts;
  }

  lemma NoneTried(s: State, k: nat)
    ensures TriedBy(s, [], k)
  {
  }

  lemma AttemptsBound(s: State, tx: Txid)
    requires Inv(s, {}) && tx in s.txs
    ensures s.txs[tx].task in s.tasks && s.tasks[s.txs[tx].task].attempt <= MAX_ATTEMPTS
  {
    hide Owned, Valued;
  }

  lemma TriedOver(s: State, a: seq<Action>, b: seq<Action>, k: nat)
    requires TriedBy(s, a, k) && TriedBy(s, b, k)
    ensures TriedBy(s, a + b, k)
  {
    hide Sends;
    SendsOver(a, b);
  }

  /** What a failed send leaves to be done still agrees with the daemon's tables. */
  lemma SendFails(s: State, sockets: set<Txid>, waiters: map<Qid, Waiter>, a: Action, left: seq<Action>,
                  follow: seq<Action>, o: Out, k: nat, local: bool, now: nat)
    requires a.Send? && Inv(s, {}) && ValidConfig(s.cfg) && a.tx in s.txs
    requires SocketsMatch(s, sockets, [a] + (left + follow)) && WaitersMatch(s, waiters, [a] + (left + follow))
    requires TriedBy(s, [a] + left, k) && TriedBy(s, follow, k + 1)
    requires o == if local then LocalFailed(s, a.tx, now) else Failed(s, a.tx, now)
    ensures Inv(o.s, {}) && ValidConfig(o.s.cfg)
    ensures SocketsMatch(o.s, sockets, left + follow + o.acts) && WaitersMatch(o.s, waiters, left + follow + o.acts)
    ensures TriedBy(o.s, left, k) && TriedBy(o.s, follow + o.acts, k + 1)
  {
    hide Inv, ValidConfig, WaitersMatch, TriedBy, Sends, Cancels, Failed, LocalFailed, Once, Live, DoneCount, Charges,
         Numbered;
    if local {
      LocalFailedDelta(s, a.tx, now);
      LocalFailedCharges(s, a.tx, now);
    } else {
      FailedDelta(s, a.tx, now);
      FailedCharges(s, a.tx, now);
    }
    BelowNext(s);
    FailedMatch(s, sockets, a, left + follow, o);
    FailedCounted(s, waiters, a, left + follow, o, {a.tx});
    OnceRest(a, left + follow);
    SendsOver(left, follow);
    FailedTried(s, a, left, o, k);
    AloneTried(s, a, follow, o, k);
    TriedOver(o.s, follow, o.acts, k + 1);
  }

  lemma AloneTried(s: State, a: Action, follow: seq<Action>, o: Out, k: nat)
    requires a.Send? && Inv(s, {}) && TriedBy(s, follow, k + 1) && Charges(s, a.tx, o) && Delta(s, o, {a.tx})
    requires a.tx !in Sends(follow) && a.tx in s.txs
    ensures TriedBy(o.s, follow, k + 1)
  {
    hide Once, Sends, Cancels, Inv, Live, DoneCount, Numbered, TriedBy, Charges;
    RestTried(s, a.tx, follow, o, k + 1);
  }

  // ------------------------------------------------------- what events do

  lemma NoActions()
    ensures Sends([]) == {} && Cancels([]) == {} && Once([])
  {
  }

  lemma NotLive(s: State, waiters: map<Qid, Waiter>, q: Qid)
    requires WaitersMatch(s, waiters, []) && q !in waiters
    ensures !Live(s, q)
  {
    hide Live;
    assert LiveCount(s, q) + DoneCount([], q) == 0;
  }

  lemma SendsTried(s: State, acts: seq<Action>)
    requires Inv(s, {}) && Sends(acts) <= s.txs.Keys
    ensures TriedBy(s, acts, 1)
  {
    hide Sends, Owned, Valued;
    forall x | x in Sends(acts) ensures s.txs[x].task in s.tasks && s.tasks[s.txs[x].task].attempt >= 1 {
      assert Flying(s, s.txs[x].task);
    }
  }

  lemma QuestionAsked(s: State, sockets: set<Txid>, waiters: map<Qid, Waiter>, o: Out, q: Qid, x: Waiter)
    requires Inv(s, {}) && SocketsMatch(s, sockets, []) && WaitersMatch(s, waiters, []) && Opens(s, o, q)
    requires q !in waiters
    ensures Inv(o.s, {}) && o.s.cfg == s.cfg && TriedBy(o.s, o.acts, 1)
    ensures SocketsMatch(o.s, sockets, o.acts) && WaitersMatch(o.s, waiters[q := x], o.acts)
  {
    NoActions();
    hide Inv, Live, Sends, Cancels, Once, Numbered;
    BelowNext(s);
    NewSends(s, o.acts, s.nextId, o.s.nextId);
    SendsTried(o.s, o.acts);
    forall y ensures DoneCount([], y) == 0 {}
    hide DoneCount;
  }

  lemma ReplyEnded(s: State, sockets: set<Txid>, waiters: map<Qid, Waiter>, o: Out, tx: Txid)
    requires Inv(s, {}) && SocketsMatch(s, sockets, []) && WaitersMatch(s, waiters, []) && Delta(s, o, {tx})
    requires Cancels(o.acts) == {}
    ensures Inv(o.s, {}) && o.s.cfg == s.cfg && TriedBy(o.s, o.acts, 1)
    ensures SocketsMatch(o.s, sockets - {tx}, o.acts) && WaitersMatch(o.s, waiters, o.acts)
  {
    NoActions();
    hide Inv, Live, Sends, Cancels, Once, Numbered;
    BelowNext(s);
    NewSends(s, o.acts, s.nextId, o.s.nextId);
    SendsTried(o.s, o.acts);
    forall y ensures DoneCount([], y) == 0 {}
    hide DoneCount;
  }

  lemma Ticked(s: State, sockets: set<Txid>, waiters: map<Qid, Waiter>, o: Out, gone: set<Txid>)
    requires Inv(s, {}) && SocketsMatch(s, sockets, []) && WaitersMatch(s, waiters, []) && Delta(s, o, gone)
    requires Cancels(o.acts) == gone
    ensures Inv(o.s, {}) && o.s.cfg == s.cfg && TriedBy(o.s, o.acts, 1)
    ensures SocketsMatch(o.s, sockets, o.acts) && WaitersMatch(o.s, waiters, o.acts)
  {
    NoActions();
    hide Inv, Live, Sends, Cancels, Once, Numbered;
    BelowNext(s);
    NewSends(s, o.acts, s.nextId, o.s.nextId);
    SendsTried(o.s, o.acts);
    forall y ensures DoneCount([], y) == 0 {}
    hide DoneCount;
  }

  lemma ExpiredListed(s: State, now: nat, expired: seq<Txid>)
    requires EngineRuns.Expired(s, now, expired)
    ensures NoRepeats(expired) && Listed(expired) <= s.txs.Keys
  {
    forall x | x in Listed(expired) ensures x in s.txs { assert x in expired; }
  }

  lemma HungUp(s: State, sockets: set<Txid>, waiters: map<Qid, Waiter>, q: Qid, tasks: seq<TaskId>)
    requires Inv(s, {}) && SocketsMatch(s, sockets, []) && WaitersMatch(s, waiters, [])
    requires EngineRuns.TasksOf(s, q, tasks)
    ensures var o := Abandon(s, q, tasks);
            && Inv(o.s, {}) && o.s.cfg == s.cfg && TriedBy(o.s, o.acts, 1)
            && SocketsMatch(o.s, sockets, o.acts) && WaitersMatch(o.s, waiters - {q}, o.acts)
  {
    NoActions();
    hide Inv, Live, Sends, Cancels, Once, Abandon, EngineRuns.TasksOf;
    AbandonCloses(s, q, tasks);
    BelowNext(s);
    var o := Abandon(s, q, tasks);
    SendsTried(o.s, o.acts);
    forall y ensures DoneCount([], y) == 0 {}
    assert TxsOf(s, tasks) <= s.txs.Keys;
    hide DoneCount, TxsOf;
  }

  // -------------------------------------------------------------- new questions

  lemma ResolveTextOpens(s: State, q: Qid, text: seq<byte>, rtype: u16, noCache: bool, now: nat)
    requires Inv(s, {}) && !Live(s, q) && ValidConfig(s.cfg)
    ensures Opens(s, Resolve(s, q, text, rtype, noCache, now), q)
  {
    hide Inv, Live, ValidConfig, Opens, Parse, ResolveName, ValidName;
    if Parse(text).Ok? {
      ParsedValid(text);
      ResolveOpens(s, q, Parse(text).value, rtype, noCache, now);
    } else {
      RejectOpens(s, q, AnswerDone(NOT_FOUND));
    }
  }

  lemma LookupTextOpens(s: State, q: Qid, text: seq<byte>, family: Family, now: nat)
    requires Inv(s, {}) && !Live(s, q) && ValidConfig(s.cfg)
    ensures Opens(s, LookupAddresses(s, q, text, family, now), q)
  {
    hide Inv, Live, ValidConfig, Opens, Parse, LookupName, ValidName;
    if Parse(text).Ok? {
      ParsedValid(text);
      LookupOpens(s, q, Parse(text).value, family, now);
    } else {
      RejectOpens(s, q, AddressesDone(Addresses(NotFound, [], [], Local)));
    }
  }

  lemma ReverseOpens(s: State, q: Qid, address: IpAddr, now: nat)
    requires Inv(s, {}) && !Live(s, q) && ValidConfig(s.cfg)
    ensures Opens(s, Reverse(s, q, address, now), q)
  {
    hide Inv, Live, ValidConfig, Opens, Resolve;
    ResolveTextOpens(s, q, Show(ReverseNames.ReverseName(address)), PTR, false, now);
  }

  lemma QuestionOpens(s: State, q: Qid, question: Question, now: nat)
    requires Inv(s, {}) && !Live(s, q) && ValidConfig(s.cfg) && ValidName(question.name)
    ensures Opens(s, ResolveQuestion(s, q, question, now), q)
  {
    hide Inv, Live, ValidConfig, Opens, ResolveName, ValidName;
    ResolveOpens(s, q, question.name, question.rtype, false, now);
  }

  // -------------------------------------------------------------------- rooms

  lemma LessOne(c: set<nat>, id: nat)
    requires id in c
    ensures |c - {id}| + 1 == |c|
  {
    assert c == (c - {id}) + {id};
  }

  /** A native client leaves: there is room for its waiter. */
  lemma ClientLeaves(w: map<Qid, Waiter>, clients: set<nat>, stubClients: set<nat>, id: nat)
    requires Budgets(w, clients, stubClients) && id in clients
    ensures Budgets(w, clients - {id}, stubClients) && |clients - {id}| + |NativeWaiters(w)| < MAX_PENDING_CLIENTS
  {
    hide UdpWaiters, PeerWaiters, TcpWaiters, NativeWaiters;
    LessOne(clients, id);
  }

  lemma StubLeaves(w: map<Qid, Waiter>, clients: set<nat>, stubClients: set<nat>, id: nat)
    requires Budgets(w, clients, stubClients) && id in stubClients
    ensures Budgets(w, clients, stubClients - {id}) && |stubClients - {id}| + |TcpWaiters(w)| < MAX_PENDING_CLIENTS
  {
    hide UdpWaiters, PeerWaiters, TcpWaiters, NativeWaiters;
    LessOne(stubClients, id);
  }

  lemma RefusedRest(s: State, sockets: set<Txid>, waiters: map<Qid, Waiter>)
    requires Inv(s, {}) && SocketsMatch(s, sockets, []) && WaitersMatch(s, waiters, [])
    ensures var s' := Refused(s);
            Inv(s', {}) && SocketsMatch(s', sockets, []) && WaitersMatch(s', waiters, [])
  {
    hide Inv, Live, DoneCount, Sends, Cancels, Once;
    EngineRuns.CountedInv(s, Refused(s));
  }

  lemma FlushRest(s: State, sockets: set<Txid>, waiters: map<Qid, Waiter>)
    requires Inv(s, {}) && SocketsMatch(s, sockets, []) && WaitersMatch(s, waiters, [])
    ensures var s' := Flush(s);
            Inv(s', {}) && s'.cfg == s.cfg && SocketsMatch(s', sockets, []) && WaitersMatch(s', waiters, [])
  {
    var s' := Flush(s);
    assert EngineRuns.Retuned(s, s');
    hide Flush;
    RetunedRest(s, s', sockets, waiters);
  }

  /** A change of configuration opens and closes nothing. */
  lemma RetunedRest(s: State, s': State, sockets: set<Txid>, waiters: map<Qid, Waiter>)
    requires Inv(s, {}) && SocketsMatch(s, sockets, []) && WaitersMatch(s, waiters, []) && EngineRuns.Retuned(s, s')
    ensures Inv(s', {}) && SocketsMatch(s', sockets, []) && WaitersMatch(s', waiters, [])
  {
    hide Linked, Owned, Valued, Live, DoneCount, Sends, Cancels, Once;
    EngineRuns.RetunedLinked(s, s');
    EngineRuns.RetunedOwned(s, s');
    EngineRuns.RetunedValued(s, s');
    forall q ensures Live(s', q) == Live(s, q) { EngineRuns.RetunedLive(s, s', q); }
  }

  lemma ScopesSet(s: State, scopes: seq<Scope>)
    ensures SetScopes(s, scopes).cfg == s.cfg.(scopes := scopes)
  {
    hide Invalidate, StaleScopes;
  }

  lemma FallbackSet(s: State, servers: seq<IpAddr>, domains: seq<Name>)
    ensures SetFallback(s, servers, domains).cfg == s.cfg.(fallbackServers := servers, fallbackDomains := domains)
  {
    hide Invalidate;
  }

  /** A new hostname opens and closes nothing, and leaves the configuration valid. */
  lemma HostnameRest(s: State, sockets: set<Txid>, waiters: map<Qid, Waiter>, hostname: Option<seq<byte>>)
    requires Inv(s, {}) && ValidConfig(s.cfg) && SocketsMatch(s, sockets, []) && WaitersMatch(s, waiters, [])
    ensures var s' := SetHostname(s, hostname);
            Inv(s', {}) && ValidConfig(s'.cfg) && SocketsMatch(s', sockets, []) && WaitersMatch(s', waiters, [])
  {
    var s' := SetHostname(s, hostname);
    assert EngineRuns.Retuned(s, s') by { hide Parse; }
    NameSet(s, hostname);
    HostnameValid(s.cfg, s'.cfg.hostname);
    hide SetHostname, Inv, ValidConfig, SocketsMatch, WaitersMatch, EngineRuns.Retuned;
    RetunedRest(s, s', sockets, waiters);
  }

  lemma NameSet(s: State, hostname: Option<seq<byte>>)
    ensures var cfg := SetHostname(s, hostname).cfg;
            cfg == s.cfg.(hostname := cfg.hostname) && (cfg.hostname.Some? ==> ValidName(cfg.hostname.value))
  {
    if hostname.Some? && Parse(hostname.value).Ok? { ParsedValid(hostname.value); }
    hide Parse, ValidName;
  }

  lemma ScopesFit(s: State, hostname: Option<seq<byte>>, scopes: seq<Scope>)
    requires ValidConfig(s.cfg.(scopes := scopes))
    ensures ValidConfig(SetHostname(s, hostname).cfg.(scopes := scopes))
  {
    hide SetHostname, ValidConfig, ValidName;
    NameSet(s, hostname);
    HostnameValid(s.cfg.(scopes := scopes), SetHostname(s, hostname).cfg.hostname);
  }

  lemma EmptyConfig()
    ensures ValidConfig(Config([], [], [], None, []))
  {
  }

  lemma ConfigFits(s: State, hostname: Option<seq<byte>>, servers: seq<IpAddr>, domains: seq<Name>, hosts: seq<Host>)
    requires s.cfg == Config([], [], [], None, []) && ValidConfig(Config([], servers, domains, None, hosts))
    ensures var cfg := SetHostname(s, hostname).cfg;
            && ValidConfig(cfg.(fallbackServers := servers, fallbackDomains := domains))
            && ValidConfig(cfg.(fallbackServers := servers, fallbackDomains := domains, hosts := hosts))
  {
    NameSet(s, hostname);
    hide SetHostname, ValidName;
    var h := SetHostname(s, hostname).cfg.hostname;
    HostnameValid(Config([], servers, domains, None, []), h);
    HostnameValid(Config([], servers, domains, None, hosts), h);
  }

  lemma HostnameValid(cfg: Config, hostname: Option<Name>)
    requires ValidConfig(cfg) && (hostname.Some? ==> ValidName(hostname.value))
    ensures ValidConfig(cfg.(hostname := hostname))
  {
    hide ValidName, DistinctHosts;
  }

  /** New scopes open and close nothing. */
  lemma ScopesRest(s: State, sockets: set<Txid>, waiters: map<Qid, Waiter>, scopes: seq<Scope>)
    requires Inv(s, {}) && ValidConfig(s.cfg) && SocketsMatch(s, sockets, []) && WaitersMatch(s, waiters, [])
    requires ValidConfig(s.cfg.(scopes := scopes))
    ensures var s' := SetScopes(s, scopes);
            Inv(s', {}) && ValidConfig(s'.cfg) && SocketsMatch(s', sockets, []) && WaitersMatch(s', waiters, [])
  {
    hide Inv, ValidConfig, SocketsMatch, WaitersMatch, SetScopes, StaleScopes, EngineRuns.Retuned, EngineWorld.Replaced;
    EngineWorld.ScopesReplaced(s, scopes);
    EngineRuns.ReplacedRetuned(s, SetScopes(s, scopes), StaleScopes(s.cfg.scopes, scopes));
    RetunedRest(s, SetScopes(s, scopes), sockets, waiters);
    ScopesSet(s, scopes);
  }

  /** New fallback servers and hosts open and close nothing. */
  lemma ConfigRest(s: State, sockets: set<Txid>, waiters: map<Qid, Waiter>, servers: seq<IpAddr>, domains: seq<Name>,
                   hosts: seq<Host>)
    requires Inv(s, {}) && SocketsMatch(s, sockets, []) && WaitersMatch(s, waiters, [])
    requires ValidConfig(s.cfg.(fallbackServers := servers, fallbackDomains := domains))
    requires ValidConfig(s.cfg.(fallbackServers := servers, fallbackDomains := domains, hosts := hosts))
    ensures var s' := SetHosts(SetFallback(s, servers, domains), hosts);
            Inv(s', {}) && ValidConfig(s'.cfg) && SocketsMatch(s', sockets, []) && WaitersMatch(s', waiters, [])
  {
    hide Inv, ValidConfig, SocketsMatch, WaitersMatch, SetFallback, EngineRuns.Retuned, EngineWorld.Replaced;
    EngineWorld.FallbackReplaced(s, servers, domains);
    var s1 := SetFallback(s, servers, domains);
    EngineRuns.ReplacedRetuned(s, s1, if servers != s.cfg.fallbackServers then {FALLBACK_SCOPE} else {});
    RetunedRest(s, s1, sockets, waiters);
    FallbackSet(s, servers, domains);
    HostsRetuned(s1, hosts);
    RetunedRest(s1, SetHosts(s1, hosts), sockets, waiters);
  }

  lemma ConfigDrives(entropy: seq<Option<Random>>, inputs: seq<EngineRuns.Input>, s: State, bound: nat,
                     outbox: seq<Delivery>, asker: map<Qid, Waiter>, servers: seq<IpAddr>, domains: seq<Name>,
                     hosts: seq<Host>)
    requires Driven(entropy, inputs, s, bound, outbox, asker, [])
    requires ValidConfig(s.cfg.(fallbackServers := servers, fallbackDomains := domains))
    requires ValidConfig(s.cfg.(fallbackServers := servers, fallbackDomains := domains, hosts := hosts))
    ensures Driven(entropy, inputs + [EngineRuns.OnFallback(servers, domains)] + [EngineRuns.OnHosts(hosts)],
                   SetHosts(SetFallback(s, servers, domains), hosts), bound, outbox, asker, [])
  {
    assert DistinctHosts(hosts) by {
      ValidHosts(s.cfg.(fallbackServers := servers, fallbackDomains := domains, hosts := hosts));
    }
    hide Driven, ValidConfig, DistinctHosts, SetFallback, SetHosts;
    Drives(entropy, inputs, s, bound, bound, EngineRuns.OnFallback(servers, domains), outbox, asker, []);
    var s1 := SetFallback(s, servers, domains);
    Drives(entropy, inputs + [EngineRuns.OnFallback(servers, domains)], s1, bound, bound, EngineRuns.OnHosts(hosts),
           outbox, asker, []);
  }

  lemma ValidHosts(cfg: Config)
    requires ValidConfig(cfg)
    ensures DistinctHosts(cfg.hosts)
  {
  }

  lemma HostsRetuned(s: State, hosts: seq<Host>)
    ensures EngineRuns.Retuned(s, SetHosts(s, hosts))
  {
  }

  lemma StartsAtRest(s: State)
    requires s.tasks == map[] && s.txs == map[] && s.lookups == map[] && s.cache == map[]
    ensures Inv(s, {}) && SocketsMatch(s, {}, []) && WaitersMatch(s, map[], []) && Budgets(map[], {}, {})
  {
    NoActions();
    EmptyInv(s);
    hide Inv, Sends, Cancels, Once;
    forall q ensures !Live(s, q) {}
    assert UdpWaiters(map[]) == {} && NativeWaiters(map[]) == {} && TcpWaiters(map[]) == {};
    forall peer ensures PeerWaiters(map[], peer) == {} {}
  }
}
