/** Replies whose peers are slow to drain them: partial writes, a ceiling, and a deadline. */
module ReplyQueue {
  import opened Bytes
  import opened Results
  import opened Sets
  import Caches

  const WRITE_TIMEOUT: nat := Caches.SECOND
  const MAX_PENDING_REPLIES: nat := 256

  /** What the peer's socket did with a write. */
  datatype Wrote = Took(n: nat) | Blocked | Broken

  datatype QueueFault = WriteFailed | Full | TimedOut

  /** A reply on its way, with what its peer has been given so far. */
  datatype Pending = Pending(frame: seq<byte>, sent: nat, received: seq<byte>, since: nat, deadline: nat)

  /** What became of a reply: it waits in the table under a key, or is done with. */
  datatype Fate = Waiting(id: nat) | Whole | Lost | Refused

  datatype Reply = Reply(p: Pending, fate: Fate)

  /** The octets taken, none when the socket is not ready; a write that takes nothing is an error. */
  function WriteOnce(bytes: seq<byte>, w: Wrote): (r: Result<nat, QueueFault>)
    ensures r.Ok? ==> r.value <= |bytes|
  {
    match w
    case Took(n) => if n == 0 || bytes == [] then Err(WriteFailed) else Ok(if n < |bytes| then n else |bytes|)
    case Blocked => Ok(0)
    case Broken => Err(WriteFailed)
  }

  /** The queue, with every reply ever handed in and what became of it, and where in that log each key's reply is. */
  datatype Queue = Queue(pending: map<nat, Pending>, nextId: nat, log: seq<Reply>, place: map<nat, nat>)

  const EMPTY: Queue := Queue(map[], 0, [], map[])

  /** A reply of which `n` octets were taken at once. */
  function Fresh(frame: seq<byte>, n: nat, now: nat): Pending
    requires n <= |frame|
  {
    Pending(frame, n, frame[..n], now, now + WRITE_TIMEOUT)
  }

  function Logged(q: Queue, p: Pending, fate: Fate): Queue {
    q.(log := q.log + [Reply(p, fate)])
  }

  function Enqueued(q: Queue, frame: seq<byte>, now: nat, w: Wrote): (Queue, Option<QueueFault>) {
    match WriteOnce(frame, w)
    case Err(e) => (Logged(q, Fresh(frame, 0, now), Refused), Some(e))
    case Ok(n) =>
      var p := Fresh(frame, n, now);
      if n == |frame| then (Logged(q, p, Whole), None)
      else if |q.pending| >= MAX_PENDING_REPLIES then (Logged(q, p, Refused), Some(Full))
      else (Pushed(q, p), None)
  }

  function Pushed(q: Queue, p: Pending): Queue {
    Queue(q.pending[q.nextId := p], q.nextId + 1, q.log + [Reply(p, Waiting(q.nextId))], q.place[q.nextId := |q.log|])
  }

  /** The reply with `n` more octets given to its peer. */
  function Given(p: Pending, n: nat): Pending
    requires p.sent + n <= |p.frame|
  {
    p.(sent := p.sent + n, received := p.received + p.frame[p.sent..][..n])
  }

  /** The reply leaves the table with this fate, or stays with what its peer has now. */
  function Moved(q: Queue, id: nat, p: Pending, fate: Fate): Queue
    requires id in q.place && q.place[id] < |q.log|
  {
    q.(pending := if fate.Waiting? then q.pending[id := p] else q.pending - {id},
       log := q.log[q.place[id] := Reply(p, fate)])
  }

  /** The reply's socket is ready again. */
  function Serviced(q: Queue, id: nat, now: nat, w: Wrote): (Queue, Option<QueueFault>)
    requires Kept(q)
  {
    if id !in q.pending then (q, None)
    else
      assert InTable(q, id);
      var p := q.pending[id];
      if p.deadline <= now then (Moved(q, id, p, Lost), Some(TimedOut))
      else
        match WriteOnce(p.frame[p.sent..], w)
        case Err(e) => (Moved(q, id, p, Lost), Some(e))
        case Ok(n) =>
          var p' := Given(p, n);
          (Moved(q, id, p', if p'.sent < |p.frame| then Waiting(id) else Whole), None)
  }

  function OnTime(m: map<nat, Pending>, now: nat): map<nat, Pending> {
    map id | id in m && m[id].deadline > now :: m[id]
  }

  /** What becomes of a reply when the overdue are dropped. */
  function Timed(r: Reply, now: nat): Reply {
    if r.fate.Waiting? && r.p.deadline <= now then r.(fate := Lost) else r
  }

  function Expired(q: Queue, now: nat): Queue {
    q.(pending := OnTime(q.pending, now), log := seq(|q.log|, s requires 0 <= s < |q.log| => Timed(q.log[s], now)))
  }

  // -------------------------------------------------------------- invariants

  /** The peer holds exactly the part of the frame sent, and the deadline is the one first set. */
  predicate Faithful(p: Pending) {
    p.sent <= |p.frame| && p.received == p.frame[..p.sent] && p.deadline == p.since + WRITE_TIMEOUT
  }

  /** A reply in the table is logged as waiting there, part sent. */
  predicate InTable(q: Queue, id: nat)
    requires id in q.pending
  {
    var p := q.pending[id];
    && id < q.nextId && id in q.place && q.place[id] < |q.log| && q.log[q.place[id]] == Reply(p, Waiting(id))
    && p.sent < |p.frame|
  }

  /** A reply in the log is faithful, waits in the table if it waits, and was given whole if it left whole. */
  predicate InLog(q: Queue, s: nat)
    requires s < |q.log|
  {
    var r := q.log[s];
    && Faithful(r.p)
    && (r.fate.Waiting? ==>
          var id := r.fate.id; id in q.pending && q.pending[id] == r.p && id in q.place && q.place[id] == s)
    && (r.fate.Whole? ==> r.p.received == r.p.frame)
  }

  /** The table and the log agree, and the table never outgrows its ceiling. */
  ghost predicate Kept(q: Queue) {
    && (forall id :: id in q.pending ==> InTable(q, id))
    && (forall s :: 0 <= s < |q.log| ==> InLog(q, s))
    && |q.pending| <= MAX_PENDING_REPLIES
  }

  /** A reply keeps its frame and its deadline, its peer only gains, and a fate once met is final. */
  predicate Onward(r: Reply, r': Reply) {
    && r'.p.frame == r.p.frame && r'.p.since == r.p.since && r'.p.deadline == r.p.deadline && r.p.sent <= r'.p.sent
    && (!r.fate.Waiting? ==> r' == r)
  }

  ghost predicate Progress(q: Queue, q': Queue) {
    |q.log| <= |q'.log| && forall s :: 0 <= s < |q.log| ==> Onward(q.log[s], q'.log[s])
  }

  lemma LoggedKeeps(q: Queue, p: Pending, fate: Fate)
    requires Kept(q) && Faithful(p) && !fate.Waiting? && (fate.Whole? ==> p.received == p.frame)
    ensures Kept(Logged(q, p, fate)) && Progress(q, Logged(q, p, fate))
  {
    hide Faithful;
    var q' := Logged(q, p, fate);
    forall id | id in q'.pending ensures InTable(q', id) { assert InTable(q, id); }
    forall s | 0 <= s < |q'.log| ensures InLog(q', s) { if s < |q.log| { assert InLog(q, s); } }
  }

  lemma NextUnused(q: Queue)
    requires Kept(q)
    ensures q.nextId !in q.pending
  {
    assert q.nextId in q.pending ==> InTable(q, q.nextId);
  }

  lemma PushKeeps(q: Queue, p: Pending)
    requires Kept(q) && Faithful(p) && p.sent < |p.frame| && |q.pending| < MAX_PENDING_REPLIES
    ensures Kept(Pushed(q, p)) && Progress(q, Pushed(q, p))
  {
    NextUnused(q);
    MapMore(q.pending, q.nextId, p);
    hide Faithful;
    var q' := Pushed(q, p);
    forall id | id in q'.pending ensures InTable(q', id) { if id != q.nextId { assert InTable(q, id); } }
    forall s | 0 <= s < |q'.log| ensures InLog(q', s) { if s < |q.log| { assert InLog(q, s); } }
  }

  lemma EnqueueKeeps(q: Queue, frame: seq<byte>, now: nat, w: Wrote)
    requires Kept(q)
    ensures Kept(Enqueued(q, frame, now, w).0) && Progress(q, Enqueued(q, frame, now, w).0)
    ensures Enqueued(q, frame, now, w).1 == Some(Full) ==>
              |q.pending| >= MAX_PENDING_REPLIES && WriteOnce(frame, w).Ok? && WriteOnce(frame, w).value < |frame|
  {
    hide Kept, Progress;
    var n := WriteOnce(frame, w);
    if n.Ok? {
      var p := Fresh(frame, n.value, now);
      if n.value == |frame| {
        LoggedKeeps(q, p, Whole);
      } else if |q.pending| < MAX_PENDING_REPLIES {
        PushKeeps(q, p);
      } else {
        LoggedKeeps(q, p, Refused);
      }
    } else {
      LoggedKeeps(q, Fresh(frame, 0, now), Refused);
    }
  }

  lemma WaitingIs(q: Queue, id: nat)
    requires Kept(q) && id in q.pending
    ensures InTable(q, id) && Faithful(q.pending[id])
  {
    assert InTable(q, id);
    assert InLog(q, q.place[id]);
  }

  lemma MovedSize(q: Queue, id: nat, p: Pending)
    requires id in q.pending
    ensures |q.pending - {id}| <= |q.pending| && |q.pending[id := p]| == |q.pending|
  {
    SubsetSize((q.pending - {id}).Keys, q.pending.Keys);
    assert q.pending[id := p].Keys == q.pending.Keys;
  }

  lemma MovedKeeps(q: Queue, id: nat, p: Pending, fate: Fate)
    requires Kept(q) && id in q.pending && Faithful(p) && !fate.Refused?
    requires p == q.pending[id].(sent := p.sent, received := p.received) && q.pending[id].sent <= p.sent
    requires (fate.Waiting? ==> fate.id == id && p.sent < |p.frame|) && (fate.Whole? ==> p.received == p.frame)
    ensures id in q.place && q.place[id] < |q.log|
    ensures Kept(Moved(q, id, p, fate)) && Progress(q, Moved(q, id, p, fate))
  {
    WaitingIs(q, id);
    MovedSize(q, id, p);
    hide Faithful;
    var q' := Moved(q, id, p, fate);
    forall x | x in q'.pending ensures InTable(q', x) { assert InTable(q, x); }
    forall s | 0 <= s < |q'.log| ensures InLog(q', s) { assert InLog(q, s); }
  }

  lemma GivenMore(p: Pending, n: nat)
    requires Faithful(p) && p.sent + n <= |p.frame|
    ensures p.received + p.frame[p.sent..][..n] == p.frame[..p.sent + n]
    ensures Faithful(Given(p, n)) && (p.sent + n == |p.frame| ==> Given(p, n).received == p.frame)
  {
  }

  lemma ServiceKeeps(q: Queue, id: nat, now: nat, w: Wrote)
    requires Kept(q)
    ensures Kept(Serviced(q, id, now, w).0) && Progress(q, Serviced(q, id, now, w).0)
  {
    if id in q.pending {
      WaitingIs(q, id);
      hide Kept, Progress;
      var p := q.pending[id];
      MovedKeeps(q, id, p, Lost);
      var n := WriteOnce(p.frame[p.sent..], w);
      if n.Ok? {
        GivenMore(p, n.value);
        MovedKeeps(q, id, Given(p, n.value), if p.sent + n.value < |p.frame| then Waiting(id) else Whole);
      }
    } else {
      SameProgress(q);
    }
  }

  lemma SameProgress(q: Queue)
    ensures Progress(q, q)
  {
  }

  lemma ExpireKeeps(q: Queue, now: nat)
    requires Kept(q)
    ensures Kept(Expired(q, now)) && Progress(q, Expired(q, now))
    ensures forall id :: id in Expired(q, now).pending ==> Expired(q, now).pending[id].since + WRITE_TIMEOUT > now
  {
    var q' := Expired(q, now);
    SubsetSize(q'.pending.Keys, q.pending.Keys);
    forall id | id in q'.pending ensures InTable(q', id) && q'.pending[id].since + WRITE_TIMEOUT > now {
      WaitingIs(q, id);
    }
    hide Faithful;
    forall s | 0 <= s < |q'.log| ensures InLog(q', s) { assert InLog(q, s); }
  }

  // -------------------------------------------------------------------- runs

  datatype Event = Enqueue(frame: seq<byte>, at: nat, w: Wrote) | Service(id: nat, at: nat, w: Wrote) | Expire(at: nat)

  ghost function Step(q: Queue, e: Event): Queue
    requires Kept(q)
  {
    match e
    case Enqueue(frame, at, w) => Enqueued(q, frame, at, w).0
    case Service(id, at, w) => Serviced(q, id, at, w).0
    case Expire(at) => Expired(q, at)
  }

  lemma StepKeeps(q: Queue, e: Event)
    requires Kept(q)
    ensures Kept(Step(q, e)) && Progress(q, Step(q, e))
  {
    hide Kept, Progress, Enqueued, Serviced, Expired;
    match e
    case Enqueue(frame, at, w) => EnqueueKeeps(q, frame, at, w);
    case Service(id, at, w) => ServiceKeeps(q, id, at, w);
    case Expire(at) => ExpireKeeps(q, at);
  }

  ghost function After(q: Queue, events: seq<Event>): (q': Queue)
    requires Kept(q)
    ensures Kept(q')
    decreases |events|
  {
    if events == [] then q
    else
      StepKeeps(q, events[0]);
      After(Step(q, events[0]), events[1..])
  }

  /** The frames handed in, in order. */
  function Frames(events: seq<Event>): seq<seq<byte>> {
    if events == [] then []
    else (if events[0].Enqueue? then [events[0].frame] else []) + Frames(events[1..])
  }

  lemma StepLogs(q: Queue, e: Event)
    requires Kept(q)
    ensures |Step(q, e).log| == |q.log| + if e.Enqueue? then 1 else 0
    ensures e.Enqueue? ==> Step(q, e).log[|q.log|].p.frame == e.frame
  {
    if e.Service? && e.id in q.pending { WaitingIs(q, e.id); }
    hide Kept;
  }

  lemma {:induction false} RunProgress(q: Queue, events: seq<Event>)
    requires Kept(q)
    ensures Progress(q, After(q, events))
    decreases |events|
  {
    hide Kept, Step;
    if events != [] {
      StepKeeps(q, events[0]);
      RunProgress(Step(q, events[0]), events[1..]);
    }
  }

  lemma {:induction false} RunLogs(q: Queue, events: seq<Event>)
    requires Kept(q)
    ensures var log, frames := After(q, events).log, Frames(events);
            && |log| == |q.log| + |frames|
            && forall s :: 0 <= s < |frames| ==> log[|q.log| + s].p.frame == frames[s]
    decreases |events|
  {
    hide Kept, Step;
    if events != [] {
      var q1, rest := Step(q, events[0]), Frames(events[1..]);
      StepKeeps(q, events[0]);
      StepLogs(q, events[0]);
      RunLogs(q1, events[1..]);
      RunProgress(q1, events[1..]);
      var log := After(q1, events[1..]).log;
      if events[0].Enqueue? {
        assert Onward(q1.log[|q.log|], log[|q.log|]);
        forall s | 0 <= s < |Frames(events)| ensures log[|q.log| + s].p.frame == Frames(events)[s] {
          if s > 0 { assert log[|q1.log| + (s - 1)].p.frame == rest[s - 1]; }
        }
      }
    }
  }

  /**
   * In every run, each reply handed in has one line in the log: it carries the frame handed in, waits
   * in the table under one key or has met one fate, its peer holds a prefix of the frame, all of it
   * when it left whole, and its deadline is the one first set. The table stays within its ceiling.
   */
  lemma NoByteLost(events: seq<Event>, s: nat)
    requires s < |Frames(events)|
    ensures var q := After(EMPTY, events);
            && |q.log| == |Frames(events)| && |q.pending| <= MAX_PENDING_REPLIES
            && var r := q.log[s];
            && r.p.frame == Frames(events)[s]
            && r.p.received <= r.p.frame && r.p.deadline == r.p.since + WRITE_TIMEOUT
            && (r.fate.Whole? ==> r.p.received == r.p.frame)
            && (r.fate.Waiting? ==> r.fate.id in q.pending && q.pending[r.fate.id] == r.p)
  {
    hide After, Frames;
    RunLogs(EMPTY, events);
    var q := After(EMPTY, events);
    assert InLog(q, s);
    assert EMPTY.log == [] && q.log[0 + s] == q.log[s];
  }

  /** In every run, what waits in the table is one reply handed in, each key its own. */
  lemma WaitingIsOne(events: seq<Event>, id: nat) returns (s: nat)
    requires id in After(EMPTY, events).pending
    ensures var q := After(EMPTY, events);
            && s < |Frames(events)| == |q.log| && q.log[s] == Reply(q.pending[id], Waiting(id))
            && forall s' :: 0 <= s' < |q.log| && q.log[s'].fate == Waiting(id) ==> s' == s
  {
    hide After, Frames;
    RunLogs(EMPTY, events);
    var q := After(EMPTY, events);
    assert InTable(q, id);
    s := q.place[id];
    forall s' | 0 <= s' < |q.log| && q.log[s'].fate == Waiting(id) ensures s' == s { assert InLog(q, s'); }
  }

  /** What became of a reply is final, whatever happens next. */
  lemma FateIsFinal(events: seq<Event>, more: seq<Event>, s: nat)
    requires s < |After(EMPTY, events).log| && !After(EMPTY, events).log[s].fate.Waiting?
    ensures var q := After(After(EMPTY, events), more); s < |q.log| && q.log[s] == After(EMPTY, events).log[s]
  {
    hide After;
    RunProgress(After(EMPTY, events), more);
    assert Onward(After(EMPTY, events).log[s], After(After(EMPTY, events), more).log[s]);
  }

  // --------------------------------------------------------------- as a class

  class Replies {
    var pending: map<nat, Pending>
    var nextId: nat
    ghost var log: seq<Reply>
    ghost var place: map<nat, nat>

    ghost function View(): Queue
      reads this
    {
      Queue(pending, nextId, log, place)
    }

    constructor ()
      ensures View() == EMPTY
    {
      pending, nextId, log, place := map[], 0, [], map[];
    }

    /** Try once even when full, so that stalled peers do not shut out ready ones. */
    method EnqueueReply(frame: seq<byte>, now: nat, w: Wrote) returns (fault: Option<QueueFault>)
      requires Kept(View())
      modifies this
      ensures (View(), fault) == Enqueued(old(View()), frame, now, w)
    {
      var sent := WriteOnce(frame, w);
      if sent.Err? {
        log := log + [Reply(Fresh(frame, 0, now), Refused)];
        return Some(sent.error);
      }
      var p := Fresh(frame, sent.value, now);
      if sent.value == |frame| {
        log := log + [Reply(p, Whole)];
        return None;
      }
      if |pending| >= MAX_PENDING_REPLIES {
        log := log + [Reply(p, Refused)];
        return Some(Full);
      }
      log, place := log + [Reply(p, Waiting(nextId))], place[nextId := |log|];
      pending := pending[nextId := p];
      nextId := nextId + 1;
      return None;
    }

    method ServiceReply(id: nat, now: nat, w: Wrote) returns (fault: Option<QueueFault>)
      requires Kept(View())
      modifies this
      ensures (View(), fault) == Serviced(old(View()), id, now, w)
    {
      if id !in pending { return None; }
      WaitingIs(View(), id);
      hide Kept;
      var p := pending[id];
      pending := pending - {id};
      if p.deadline <= now {
        log := log[place[id] := Reply(p, Lost)];
        return Some(TimedOut);
      }
      var n := WriteOnce(p.frame[p.sent..], w);
      if n.Err? {
        log := log[place[id] := Reply(p, Lost)];
        return Some(n.error);
      }
      p := Given(p, n.value);
      if p.sent < |p.frame| {
        pending := pending[id := p];
        assert pending == old(pending)[id := p];
        log := log[place[id] := Reply(p, Waiting(id))];
      } else {
        log := log[place[id] := Reply(p, Whole)];
      }
      return None;
    }

    method ExpireReplies(now: nat) returns (dropped: nat)
      requires Kept(View())
      modifies this
      ensures View() == Expired(old(View()), now)
      ensures dropped == |old(pending)| - |pending|
    {
      hide Kept;
      var before := |pending|;
      ghost var was := log;
      log := seq(|was|, s requires 0 <= s < |was| => Timed(was[s], now));
      pending := map id | id in pending && pending[id].deadline > now :: pending[id];
      SubsetSize(pending.Keys, old(pending).Keys);
      return before - |pending|;
    }
  }
}
