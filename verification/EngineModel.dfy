/**
 * The resolution engine as a function of its state and one input.
 *
 * Every source of nondeterminism is explicit: `entropy` holds the outcomes of
 * the random draws to come, and `order` parameters give the order in which a
 * hash table happens to be walked.
 */
module EngineModel {
  import opened Bytes
  import opened Results
  import opened Names
  import opened Dns
  import opened Codec
  import opened ReverseNames
  import opened Aliases
  import opened Lookups
  import opened Caches
  import opened Routing
  import opened Synthetics

  const SERVER_TIMEOUT: nat := 2 * SECOND
  const MAX_ATTEMPTS: nat := 3
  const DEMOTION: nat := 30 * SECOND
  const MAX_POSITIVE_TTL: u32 := 86400
  const MAX_IN_FLIGHT: nat := 4096

  type Qid = nat
  type Txid = nat
  type TaskId = nat

  datatype Completion = AnswerDone(answer: Answer) | AddressesDone(addresses: Addresses)

  datatype Action =
    | Send(tx: Txid, server: IpAddr, interface_: Option<string>, tcp: bool, payload: seq<byte>)
    | Cancel(tx: Txid)
    | Done(qid: Qid, completion: Completion)

  datatype Family = FamilyAny | Inet | Inet6

  datatype Counters = Counters(
    queries: nat, synthetic: nat, cacheHits: nat, upstreamSent: nat, upstreamAnswered: nat,
    upstreamFailed: nat, refused: nat)

  datatype Owner = ResolveOwner(qid: Qid) | LookupOwner(qid: Qid)

  datatype Task = Task(
    owner: Owner, original: Name, rtype: u16, noCache: bool, cacheInvalidated: bool,
    candidates: seq<Name>, current: Option<Name>, scope: Option<string>, attempt: nat,
    tried: seq<IpAddr>, tx: Option<Txid>)

  datatype Tx = Tx(task: TaskId, dnsId: u16, question: Question, server: IpAddr, tcp: bool, deadline: nat)

  datatype Lookup = Lookup(name: Name, pending: seq<TaskId>, results: seq<Part>)

  /** Thirty-four fresh octets: two for the id, the rest case bits. */
  type Random = r: seq<byte> | |r| == 34 witness seq(34, _ => 0)

  datatype State = State(
    cfg: Config, cache: Entries, demoted: Demotions,
    tasks: map<TaskId, Task>, txs: map<Txid, Tx>, lookups: map<Qid, Lookup>,
    nextId: nat, entropy: seq<Option<Random>>, counters: Counters)

  /** A new state and what the engine asks to be done. */
  datatype Out = Out(s: State, acts: seq<Action>)

  function Initial(entropy: seq<Option<Random>>): State {
    State(Config([], [], [], None, []), map[], map[], map[], map[], map[], 1, entropy,
          Counters(0, 0, 0, 0, 0, 0, 0))
  }

  // ------------------------------------------------------------- questions

  predicate Letter(b: byte) {
    65 <= b <= 90 || 97 <= b <= 122
  }

  function Flip(b: byte): byte
    requires Letter(b)
  {
    if b <= 90 then b + 32 else b - 32
  }

  function Letters(l: seq<byte>): (n: nat)
    ensures n <= |l|
  {
    if l == [] then 0 else (if Letter(l[0]) then 1 else 0) + Letters(l[1..])
  }

  /** Case bit `k`, least significant first within each octet after the id. */
  predicate BitOf(r: Random, k: nat)
    requires k < 256
  {
    r[2 + k / 8] / Pow2(k % 8) % 2 == 1
  }

  predicate CaseBit(r: Random, k: nat) {
    k < 256 && BitOf(r, k)
  }

  function RandomLabel(l: Label, r: Random, k: nat): (x: Label)
    ensures |x| == |l|
  {
    if l == [] then []
    else if Letter(l[0]) then
      [if CaseBit(r, k) then Flip(l[0]) else l[0]] + RandomLabel(l[1..], r, k + 1)
    else [l[0]] + RandomLabel(l[1..], r, k)
  }

  /** The name with the case of its letters taken from the random bits, in order. */
  function RandomCase(n: Name, r: Random, k: nat): (x: Name)
    ensures |x| == |n|
  {
    if n == [] then [] else [RandomLabel(n[0], r, k)] + RandomCase(n[1..], r, k + Letters(n[0]))
  }

  /** The query's octets; encoding one always succeeds for a valid name. */
  function QueryBytes(id: u16, q: Question): seq<byte> {
    var e := Encode(Query(id, q));
    if e.Ok? then e.value else []
  }

  /** The transaction's id: the first two octets, low one first. */
  function IdOf(r: Random): u16 {
    r[0] as int + 0x100 * r[1] as int
  }

  function CurrentName(t: Task): Name {
    if t.current.Some? then t.current.value else t.original
  }

  function ScopeName(t: Task): string {
    if t.scope.Some? then t.scope.value else ""
  }

  const NOT_FOUND: Answer := DEFAULT_ANSWER.(outcome := NotFound)

  // --------------------------------------------------------- a task's steps

  function Without(ids: seq<TaskId>, id: TaskId): seq<TaskId> {
    if ids == [] then []
    else (if ids[0] == id then [] else [ids[0]]) + Without(ids[1..], id)
  }

  /** The task is over: hand the answer to its owner. */
  function Settle(s: State, id: TaskId, answer: Answer): Out {
    if id !in s.tasks then Out(s, [])
    else
      var t := s.tasks[id];
      var s1 := s.(tasks := s.tasks - {id}, txs := if t.tx.Some? then s.txs - {t.tx.value} else s.txs);
      match t.owner
      case ResolveOwner(q) => Out(s1, [Done(q, AnswerDone(answer))])
      case LookupOwner(q) =>
        if q !in s.lookups then Out(s1, [])
        else
          var l := s.lookups[q];
          var l' := l.(pending := Without(l.pending, id), results := l.results + [Part(t.rtype, answer)]);
          if l'.pending != [] then Out(s1.(lookups := s.lookups[q := l']), [])
          else Out(s1.(lookups := s.lookups - {q}), [Done(q, AddressesDone(Combine(l'.name, l'.results)))])
  }

  function Refuse(s: State): State {
    s.(counters := s.counters.(refused := s.counters.refused + 1))
  }

  /** A transaction for the task's current name, with its random id and case. */
  function Launch(s: State, id: TaskId, server: IpAddr, tcp: bool, r: Random, now: nat): Out
    requires id in s.tasks
  {
    var t := s.tasks[id];
    var q := Question(RandomCase(CurrentName(t), r, 0), t.rtype, IN);
    var dnsId := IdOf(r);
    var tx := s.nextId;
    Out(s.(nextId := tx + 1,
           txs := s.txs[tx := Tx(id, dnsId, q, server, tcp, now + SERVER_TIMEOUT)],
           tasks := s.tasks[id := t.(attempt := t.attempt + 1, tx := Some(tx))],
           counters := s.counters.(upstreamSent := s.counters.upstreamSent + 1)),
        [Send(tx, server, if t.scope.Some? then InterfaceOf(s.cfg, t.scope.value) else None, tcp,
              QueryBytes(dnsId, q))])
  }

  /** Start a transaction if the budgets and the entropy allow. Every transaction starts here. */
  function SendTo(s: State, id: TaskId, server: IpAddr, tcp: bool, now: nat): Out {
    if id !in s.tasks then Out(s, [])
    else
      var t := s.tasks[id];
      if t.attempt >= MAX_ATTEMPTS then
        Settle(s, id, DEFAULT_ANSWER.(interface_ := InterfaceOf(s.cfg, ScopeName(t))))
      else if |s.txs| >= MAX_IN_FLIGHT then Settle(Refuse(s), id, DEFAULT_ANSWER)
      else if s.entropy == [] then Settle(Refuse(s), id, DEFAULT_ANSWER)
      else
        var s1 := s.(entropy := s.entropy[1..]);
        if s.entropy[0].None? then Settle(Refuse(s1), id, DEFAULT_ANSWER)
        else Launch(s1, id, server, tcp, s.entropy[0].value, now)
  }

  /** The first server not yet asked, else round-robin. */
  function ChooseServer(servers: seq<IpAddr>, tried: seq<IpAddr>): (x: IpAddr)
    requires servers != []
    ensures x in servers
  {
    var i := FirstUntried(servers, tried);
    if i < |servers| then servers[i] else servers[|tried| % |servers|]
  }

  function FirstUntried(servers: seq<IpAddr>, tried: seq<IpAddr>): (i: nat)
    ensures i <= |servers|
    ensures i < |servers| ==> servers[i] !in tried
    ensures forall j :: 0 <= j < i ==> servers[j] in tried
  {
    if servers == [] || servers[0] !in tried then 0
    else
      var i := FirstUntried(servers[1..], tried);
      assert forall j :: 0 < j < 1 + i ==> servers[j] == servers[1..][j - 1];
      1 + i
  }

  /** Send the current candidate to the next server, or give up. */
  function NextAttempt(s: State, id: TaskId, now: nat): Out {
    if id !in s.tasks then Out(s, [])
    else
      var t := s.tasks[id];
      var scope := ScopeName(t);
      if t.attempt >= MAX_ATTEMPTS then
        Settle(s, id, DEFAULT_ANSWER.(interface_ := InterfaceOf(s.cfg, scope)))
      else
        var servers := ServersOf(s.cfg, s.demoted, scope, now);
        if servers == [] then Settle(s, id, DEFAULT_ANSWER)
        else
          var server := ChooseServer(servers, t.tried);
          SendTo(s.(tasks := s.tasks[id := t.(tried := t.tried + [server])]), id, server, false, now)
  }

  function CacheAnswer(cfg: Config, e: Entry, scope: string, candidate: Name, now: nat): Answer
    requires e.expires > now
  {
    Answer(e.outcome, e.records, FromCache, Some(e.server), InterfaceOf(cfg, scope), e.rcode,
           Some(candidate), if e.records == [] then Remaining(e, now) % 0x1_0000_0000 else 0)
  }

  /** Take the next candidate name: route it, try the cache, then the network. */
  function NextCandidate(s: State, id: TaskId, now: nat): Out
    decreases if id in s.tasks then |s.tasks[id].candidates| else 0
  {
    if id !in s.tasks then Out(s, [])
    else
      var t := s.tasks[id];
      if t.candidates == [] then Settle(s, id, NOT_FOUND)
      else
        var candidate := t.candidates[0];
        var t1 := t.(candidates := t.candidates[1..], current := Some(candidate), tried := []);
        var s1 := s.(tasks := s.tasks[id := t1]);
        var route := Route(s.cfg, candidate);
        if route.None? then Settle(s1, id, DEFAULT_ANSWER)
        else
          var t2 := t1.(scope := route);
          var s2 := s1.(tasks := s.tasks[id := t2]);
          if t.noCache then NextAttempt(s2, id, now)
          else
            var key := KeyOf(candidate, t.rtype, route.value);
            var (cache, hit) := Got(s2.cache, key, now);
            var s3 := s2.(cache := cache);
            if hit.None? then NextAttempt(s3, id, now)
            else
              var s4 := s3.(counters := s.counters.(cacheHits := s.counters.cacheHits + 1));
              if hit.value.outcome == NotFound && t1.candidates != [] then NextCandidate(s4, id, now)
              else Settle(s4, id, CacheAnswer(s.cfg, hit.value, route.value, candidate, now))
  }

  /** A fresh task: answer locally, or build the candidate list. */
  function Advance(s: State, id: TaskId, now: nat): Out {
    if id !in s.tasks then Out(s, [])
    else
      var t := s.tasks[id];
      if t.current.None? && t.candidates == [] && t.attempt == 0 then
        var synthetic := Synthesise(s.cfg, t.original, t.rtype);
        if synthetic.Some? then
          Settle(s.(counters := s.counters.(synthetic := s.counters.synthetic + 1)), id, synthetic.value)
        else
          var candidates := Candidates(s.cfg, t.original);
          if candidates == [] then Settle(s, id, NOT_FOUND)
          else NextCandidate(s.(tasks := s.tasks[id := t.(candidates := candidates)]), id, now)
      else NextCandidate(s, id, now)
  }

  function NewTask(owner: Owner, name: Name, rtype: u16, noCache: bool): Task {
    Task(owner, name, rtype, noCache, false, [], None, None, 0, [], None)
  }

  /** Allocate the next task id. */
  function StartTask(s: State, owner: Owner, name: Name, rtype: u16, noCache: bool): State {
    s.(nextId := s.nextId + 1, tasks := s.tasks[s.nextId := NewTask(owner, name, rtype, noCache)])
  }

  // --------------------------------------------------------------- questions

  function Asked(s: State): State {
    s.(counters := s.counters.(queries := s.counters.queries + 1))
  }

  /** A question turned away at the door is counted, and that is all. */
  function Refused(s: State): State {
    s.(counters := s.counters.(queries := s.counters.queries + 1, refused := s.counters.refused + 1))
  }

  function ResolveName(s: State, qid: Qid, name: Name, rtype: u16, noCache: bool, now: nat): Out {
    Advance(StartTask(s, ResolveOwner(qid), name, rtype, noCache), s.nextId, now)
  }

  function Resolve(s: State, qid: Qid, text: seq<byte>, rtype: u16, noCache: bool, now: nat): Out {
    match Parse(text)
    case Err(_) => Out(Asked(s), [Done(qid, AnswerDone(NOT_FOUND))])
    case Ok(name) => ResolveName(Asked(s), qid, name, rtype, noCache, now)
  }

  function ResolveQuestion(s: State, qid: Qid, q: Question, now: nat): Out {
    ResolveName(Asked(s), qid, q.name, q.rtype, false, now)
  }

  function Reverse(s: State, qid: Qid, addr: IpAddr, now: nat): Out {
    Resolve(s, qid, Show(ReverseName(addr)), PTR, false, now)
  }

  function FamilyTypes(f: Family): seq<u16> {
    match f
    case FamilyAny => [A, AAAA]
    case Inet => [A]
    case Inet6 => [AAAA]
  }

  function StartTasks(s: State, qid: Qid, name: Name, types: seq<u16>): State
    decreases |types|
  {
    if types == [] then s
    else StartTasks(StartTask(s, LookupOwner(qid), name, types[0], false), qid, name, types[1..])
  }

  function AdvanceAll(s: State, ids: seq<TaskId>, now: nat): Out
    decreases |ids|
  {
    if ids == [] then Out(s, [])
    else
      var o := Advance(s, ids[0], now);
      var rest := AdvanceAll(o.s, ids[1..], now);
      Out(rest.s, o.acts + rest.acts)
  }

  function LookupName(s: State, qid: Qid, name: Name, family: Family, now: nat): Out {
    var types := FamilyTypes(family);
    var ids := seq(|types|, i => s.nextId + i);
    var s1 := StartTasks(s, qid, name, types);
    AdvanceAll(s1.(lookups := s1.lookups[qid := Lookup(name, ids, [])]), ids, now)
  }

  function LookupAddresses(s: State, qid: Qid, text: seq<byte>, family: Family, now: nat): Out {
    match Parse(text)
    case Err(_) => Out(Asked(s), [Done(qid, AddressesDone(Addresses(NotFound, [], [], Local)))])
    case Ok(name) => LookupName(Asked(s), qid, name, family, now)
  }

  /** Drop the tasks listed, cancelling their transactions. */
  function DropTasks(s: State, ids: seq<TaskId>): Out
    decreases |ids|
  {
    if ids == [] then Out(s, [])
    else
      var id := ids[0];
      if id !in s.tasks then DropTasks(s, ids[1..])
      else
        var t := s.tasks[id];
        if t.tx.None? then DropTasks(s.(tasks := s.tasks - {id}), ids[1..])
        else
          var rest := DropTasks(s.(tasks := s.tasks - {id}, txs := s.txs - {t.tx.value}), ids[1..]);
          Out(rest.s, [Cancel(t.tx.value)] + rest.acts)
  }

  /** Forget a question; `order` lists its tasks as the table is walked. */
  function Abandon(s: State, qid: Qid, order: seq<TaskId>): Out {
    var o := DropTasks(s, order);
    Out(o.s.(lookups := o.s.lookups - {qid}), o.acts)
  }

  // ------------------------------------------------------------------ inputs

  function MatchingResponse(s: State, tx: Txid, bytes: seq<byte>): Option<Message> {
    if tx !in s.txs then None
    else
      var t := s.txs[tx];
      match Decode(bytes)
      case Err(_) => None
      case Ok(m) =>
        if m.header.id != t.dnsId || !m.header.response then None
        else match SingleQuestion(m)
          case None => None
          case Some(q) =>
            if q.rtype != t.question.rtype || q.class_ != t.question.class_ || q.name != t.question.name then None
            else Some(m)
  }

  /** The lifetime of a usable reply: the least relevant TTL, or the negative lifetime. */
  function ReplyTtl(m: Message, candidate: Name, rtype: u16): (ttl: u32)
    ensures ttl <= MAX_POSITIVE_TTL
  {
    var relevant := Relevant(m.answers, candidate, rtype);
    if Rcode(m) != NXDOMAIN as int && relevant != [] then MinTtl(relevant, MAX_POSITIVE_TTL)
    else
      Min(NegativeTtl(m.authority, EffectiveName(m.answers, candidate, rtype)),
          MinTtl(AliasRecords(relevant), 0xffff_ffff))
  }

  function AliasRecords(rs: seq<Record>): seq<Record> {
    if rs == [] then []
    else (if rs[0].rtype == CNAME then [rs[0]] else []) + AliasRecords(rs[1..])
  }

  function ReplyRecords(m: Message, candidate: Name, rtype: u16): seq<Record> {
    if Rcode(m) == NXDOMAIN as int then [] else Recase(Relevant(m.answers, candidate, rtype), candidate)
  }

  function ReplyOutcome(m: Message): Outcome {
    if Rcode(m) == NXDOMAIN as int then NotFound else Found
  }

  function Demote(s: State, server: IpAddr, scope: string, now: nat): State {
    s.(demoted := s.demoted[ServerKeyOf(server, scope) := now + DEMOTION])
  }

  /** The transaction is over and its task has none in flight. */
  function Ended(s: State, tx: Txid): State
    requires tx in s.txs
  {
    var id := s.txs[tx].task;
    s.(txs := s.txs - {tx},
       tasks := if id in s.tasks then s.tasks[id := s.tasks[id].(tx := None)] else s.tasks)
  }

  /** A usable reply as the cache holds it. */
  function ReplyEntry(m: Message, candidate: Name, rtype: u16, server: IpAddr, now: nat): Entry {
    Entry(ReplyOutcome(m), ReplyRecords(m, candidate, rtype), Rcode(m), server,
          now + ReplyTtl(m, candidate, rtype) * SECOND)
  }

  /** The state in which a usable reply has been remembered. */
  function Remembered(s: State, id: TaskId, server: IpAddr, m: Message, now: nat, order: seq<CacheKey>): State
    requires id in s.tasks
  {
    var t := s.tasks[id];
    var candidate, scope := CurrentName(t), ScopeName(t);
    var s1 := s.(demoted := s.demoted - {ServerKeyOf(server, scope)});
    if ReplyTtl(m, candidate, t.rtype) > 0 && !t.cacheInvalidated
    then s1.(cache := Inserted(s1.cache, KeyOf(candidate, t.rtype, scope),
                              ReplyEntry(m, candidate, t.rtype, server, now),
                               now, order))
    else s1
  }

  /** A reply usable as an answer: remember it, then move on or settle. */
  function Usable(s: State, id: TaskId, server: IpAddr, m: Message, now: nat, order: seq<CacheKey>): Out
    requires id in s.tasks
  {
    var t := s.tasks[id];
    var s1 := Remembered(s, id, server, m, now, order);
    if ReplyOutcome(m) == NotFound && t.candidates != [] then
      var t1 := t.(attempt := if t.attempt == 0 then 0 else t.attempt - 1);
      NextCandidate(s1.(tasks := s1.tasks[id := t1]), id, now)
    else Settle(s1, id, ReplyAnswer(s.cfg, t, server, m))
  }

  function ReplyAnswer(cfg: Config, t: Task, server: IpAddr, m: Message): Answer {
    var candidate := CurrentName(t);
    var records := ReplyRecords(m, candidate, t.rtype);
    Answer(ReplyOutcome(m), records, FromDns, Some(server), InterfaceOf(cfg, ScopeName(t)), Rcode(m),
           Some(candidate), if records == [] then ReplyTtl(m, candidate, t.rtype) else 0)
  }

  function Received(s: State, tx: Txid, bytes: seq<byte>, now: nat, order: seq<CacheKey>): Out {
    match MatchingResponse(s, tx, bytes)
    case None => Out(s, [])
    case Some(m) =>
      var x := s.txs[tx];
      var s1 := Ended(s, tx);
      if x.task !in s.tasks then Out(s1, [])
      else
        var s2 := CountAnswer(s1);
        if m.header.truncated && !x.tcp then SendTo(s2, x.task, x.server, true, now)
        else if Rcode(m) == NOERROR as int || Rcode(m) == NXDOMAIN as int then
          Usable(s2, x.task, x.server, m, now, order)
        else
          NextAttempt(Demote(CountFailure(s2), x.server, ScopeName(s.tasks[x.task]), now), x.task, now)
  }

  function CountAnswer(s: State): State {
    s.(counters := s.counters.(upstreamAnswered := s.counters.upstreamAnswered + 1))
  }

  function CountFailure(s: State): State {
    s.(counters := s.counters.(upstreamFailed := s.counters.upstreamFailed + 1))
  }

  function Failed(s: State, tx: Txid, now: nat): Out {
    if tx !in s.txs then Out(s, [])
    else
      var x := s.txs[tx];
      var scope := if x.task in s.tasks then ScopeName(s.tasks[x.task]) else "";
      NextAttempt(Demote(CountFailure(Ended(s, tx)), x.server, scope, now), x.task, now)
  }

  function LocalFailed(s: State, tx: Txid, now: nat): Out {
    if tx !in s.txs then Out(s, [])
    else NextAttempt(CountFailure(Ended(s, tx)), s.txs[tx].task, now)
  }

  /** Expired transactions, in the order the table is walked, move to the next attempt. */
  function Tick(s: State, expired: seq<Txid>, now: nat): Out
    decreases |expired|
  {
    if expired == [] then Out(s, [])
    else
      var o := Failed(s, expired[0], now);
      var rest := Tick(o.s, expired[1..], now);
      Out(rest.s, [Cancel(expired[0])] + o.acts + rest.acts)
  }

  // ----------------------------------------------------------- configuration

  /** The scopes whose server list appears, changes or goes away. */
  function StaleScopes(old_: seq<Scope>, new_: seq<Scope>): set<string> {
    (set i | 0 <= i < |new_| &&
             (var j := ScopeIndex(old_, new_[i].id); j == |old_| || old_[j].servers != new_[i].servers) :: new_[i].id)
    + (set i | 0 <= i < |old_| && ScopeIndex(new_, old_[i].id) == |new_| :: old_[i].id)
  }

  predicate IsStale(t: Task, stale: set<string>) {
    t.scope.Some? && t.scope.value in stale
  }

  /** Drop the scopes' answers, and their tasks' permission to store more. */
  function Invalidate(s: State, stale: set<string>): State {
    s.(cache := map k | k in s.cache && k.scope !in stale :: s.cache[k],
       tasks := map id | id in s.tasks ::
         if IsStale(s.tasks[id], stale) then s.tasks[id].(cacheInvalidated := true) else s.tasks[id])
  }

  function SetScopes(s: State, scopes: seq<Scope>): State {
    var s1 := Invalidate(s, StaleScopes(s.cfg.scopes, scopes));
    s1.(cfg := s.cfg.(scopes := scopes))
  }

  function SetFallback(s: State, servers: seq<IpAddr>, domains: seq<Name>): State {
    var s1 := if servers != s.cfg.fallbackServers then Invalidate(s, {FALLBACK_SCOPE}) else s;
    s1.(cfg := s.cfg.(fallbackServers := servers, fallbackDomains := domains))
  }

  function SetHostname(s: State, text: Option<seq<byte>>): State {
    var name := match text
      case None => None
      case Some(h) => match Parse(h)
        case Ok(n) => if n != [] then Some(n) else None
        case Err(_) => None;
    s.(cfg := s.cfg.(hostname := name))
  }

  function SetHosts(s: State, hosts: seq<Host>): State {
    s.(cfg := s.cfg.(hosts := hosts))
  }

  function Flush(s: State): State {
    s.(cache := map[], tasks := map id | id in s.tasks :: s.tasks[id].(cacheInvalidated := true))
  }
}
