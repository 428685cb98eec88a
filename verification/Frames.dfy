/** Streams cut into frames: what is received does not depend on how the bytes arrive. */
module Frames {
  import opened Bytes
  import opened Results

  // ------------------------------------------ replies from upstream over TCP

  /** What one read of the stream yields. */
  datatype Arrival = Data(bytes: seq<byte>) | Blocked | Ended

  /** What has become of the transaction. */
  datatype Received = Waiting(buf: seq<byte>) | Got(message: seq<byte>) | Lost

  /** A two-octet length and that many octets stand at the front (section 4.2.2 of RFC 1035). */
  predicate Framed(s: seq<byte>) {
    |s| >= 2 && |s| >= 2 + FromBe16(s[0..2])
  }

  function Front(s: seq<byte>): seq<byte>
    requires Framed(s)
  {
    s[2..2 + FromBe16(s[0..2])]
  }

  function Behind(s: seq<byte>): (r: seq<byte>)
    requires Framed(s)
    ensures |r| < |s|
  {
    s[2 + FromBe16(s[0..2])..]
  }

  /** The first frame of the stream that is accepted. */
  function FirstAccepted(s: seq<byte>, accepts: seq<byte> -> bool): Option<seq<byte>>
    decreases |s|
  {
    if !Framed(s) then None
    else if accepts(Front(s)) then Some(Front(s))
    else FirstAccepted(Behind(s), accepts)
  }

  /** What is left of the stream once its whole frames are passed over. */
  function Leftover(s: seq<byte>): (r: seq<byte>)
    ensures !Framed(r)
    decreases |s|
  {
    if Framed(s) then Leftover(Behind(s)) else s
  }

  /** One ready event of the transaction's socket. */
  function OnReady(r: Received, a: Arrival, accepts: seq<byte> -> bool): Received {
    match r
    case Waiting(buf) =>
      if FirstAccepted(buf, accepts).Some? then Got(FirstAccepted(buf, accepts).value)
      else (match a
        case Blocked => Waiting(Leftover(buf))
        case Ended => Lost
        case Data(d) => Settled(Leftover(buf) + d, accepts))
    case _ => r
  }

  /** Whole frames consumed: one accepted, or none of them. */
  function Settled(s: seq<byte>, accepts: seq<byte> -> bool): Received {
    var m := FirstAccepted(s, accepts);
    if m.Some? then Got(m.value) else Waiting(Leftover(s))
  }

  method Service(buf0: seq<byte>, a: Arrival, accepts: seq<byte> -> bool) returns (r: Received)
    ensures r == OnReady(Waiting(buf0), a, accepts)
  {
    var buf := buf0;
    var read := false;
    while true
      invariant !read ==> FirstAccepted(buf, accepts) == FirstAccepted(buf0, accepts) && Leftover(buf) == Leftover(buf0)
      invariant read ==> a.Data? && FirstAccepted(buf0, accepts).None?
                         && Settled(buf, accepts) == Settled(Leftover(buf0) + a.bytes, accepts)
      decreases !read, |buf|
    {
      if |buf| >= 2 {
        var len: nat := FromBe16(buf[0..2]);
        if |buf| >= 2 + len {
          var message := buf[2..2 + len];
          buf := buf[2 + len..];
          if accepts(message) { return Got(message); }
          continue;
        }
      }
      if read { return Waiting(buf); }
      read := true;
      match a {
        case Ended => return Lost;
        case Blocked => return Waiting(buf);
        case Data(d) => buf := buf + d;
      }
    }
  }

  function Feed(r: Received, arrivals: seq<Arrival>, accepts: seq<byte> -> bool): Received
    decreases |arrivals|
  {
    if arrivals == [] then r else Feed(OnReady(r, arrivals[0], accepts), arrivals[1..], accepts)
  }

  /** The bytes that arrive before the stream ends. */
  function Stream(arrivals: seq<Arrival>): seq<byte> {
    if arrivals == [] || arrivals[0].Ended? then []
    else (if arrivals[0].Data? then arrivals[0].bytes else []) + Stream(arrivals[1..])
  }

  predicate Ends(arrivals: seq<Arrival>) {
    exists i :: 0 <= i < |arrivals| && arrivals[i].Ended?
  }

  /** What a stream comes to, whole: the first accepted frame, or what was left when it stopped. */
  function Comes(s: seq<byte>, ended: bool, accepts: seq<byte> -> bool): Received {
    var r := Settled(s, accepts);
    if r.Waiting? && ended then Lost else r
  }

  lemma FramedMore(a: seq<byte>, b: seq<byte>)
    requires Framed(a)
    ensures Framed(a + b) && Front(a + b) == Front(a) && Behind(a + b) == Behind(a) + b
  {
    assert (a + b)[0..2] == a[0..2];
  }

  /** Frames already passed over make no difference to what the rest of the stream settles to. */
  lemma {:induction false} SettledMore(a: seq<byte>, b: seq<byte>, accepts: seq<byte> -> bool)
    ensures Settled(a + b, accepts) ==
            if FirstAccepted(a, accepts).Some? then Settled(a, accepts) else Settled(Leftover(a) + b, accepts)
    decreases |a|
  {
    if Framed(a) {
      FramedMore(a, b);
      hide Framed, Front, Behind;
      if !accepts(Front(a)) { SettledMore(Behind(a), b, accepts); }
    }
  }

  lemma {:induction false} FeedDone(r: Received, arrivals: seq<Arrival>, accepts: seq<byte> -> bool)
    requires !r.Waiting?
    ensures Feed(r, arrivals, accepts) == r
  {
    if arrivals != [] { FeedDone(r, arrivals[1..], accepts); }
  }

  lemma EndsRest(arrivals: seq<Arrival>)
    requires arrivals != [] && !arrivals[0].Ended?
    ensures Ends(arrivals) == Ends(arrivals[1..])
  {
    if Ends(arrivals) {
      var i :| 0 <= i < |arrivals| && arrivals[i].Ended?;
      assert arrivals[1..][i - 1].Ended?;
    }
    if Ends(arrivals[1..]) {
      var i :| 0 <= i < |arrivals[1..]| && arrivals[1..][i].Ended?;
      assert arrivals[i + 1].Ended?;
    }
  }

  /** From a buffer with no whole frame, the outcome is that of the buffer and the rest of the stream together. */
  lemma {:induction false} FeedComes(buf: seq<byte>, arrivals: seq<Arrival>, accepts: seq<byte> -> bool)
    requires !Framed(buf)
    ensures Feed(Waiting(buf), arrivals, accepts) == Comes(buf + Stream(arrivals), Ends(arrivals), accepts)
    decreases |arrivals|
  {
    if arrivals == [] {
      assert buf + Stream(arrivals) == buf;
    } else {
      hide Framed;
      var a := arrivals[0];
      var next := OnReady(Waiting(buf), a, accepts);
      assert FirstAccepted(buf, accepts).None? && Leftover(buf) == buf;
      if a.Ended? {
        FeedDone(Lost, arrivals[1..], accepts);
        assert buf + Stream(arrivals) == buf;
      } else {
        EndsRest(arrivals);
        var d := if a.Data? then a.bytes else [];
        assert buf + Stream(arrivals) == (buf + d) + Stream(arrivals[1..]);
        SettledMore(buf + d, Stream(arrivals[1..]), accepts);
        assert a.Blocked? ==> buf + d == buf;
        assert next == Settled(buf + d, accepts);
        if next.Waiting? {
          FeedComes(next.buf, arrivals[1..], accepts);
        } else {
          FeedDone(next, arrivals[1..], accepts);
        }
      }
    }
  }

  /** However the stream is cut, the receiver delivers the first accepted frame of the whole. */
  lemma SplitIndependent(a: seq<Arrival>, b: seq<Arrival>, accepts: seq<byte> -> bool)
    requires Stream(a) == Stream(b) && Ends(a) == Ends(b)
    ensures Feed(Waiting([]), a, accepts) == Feed(Waiting([]), b, accepts)
    ensures Feed(Waiting([]), a, accepts).Got? <==> FirstAccepted(Stream(a), accepts).Some?
    ensures forall m :: Feed(Waiting([]), a, accepts) == Got(m) ==> FirstAccepted(Stream(a), accepts) == Some(m)
  {
    FeedComes([], a, accepts);
    FeedComes([], b, accepts);
    assert [] + Stream(a) == Stream(a);
  }

  // -------------------------------------------- requests on the native socket

  const MAX_MESSAGE_BYTES: nat := 65_536
  const CHUNK: nat := 4096

  /** The declared payload length, least significant octet first. */
  function Declared(s: seq<byte>): nat
    requires |s| >= 4
  {
    s[0] as int + 0x100 * s[1] as int + 0x1_0000 * s[2] as int + 0x100_0000 * s[3] as int
  }

  /** `Closed` is a peer that is gone, `Incomplete` one that has sent no more yet. */
  datatype Progress = Incomplete | Whole(payload: seq<byte>) | TooLarge | Closed

  /** What one read of the socket comes to: octets, none of which means the end; or a reason there are none. */
  datatype Offer = Octets(n: nat) | WouldBlock | Interrupted | Broken

  /** How much of the stream belongs to the request, as far as `k` octets of it tell. */
  function Goal(s: seq<byte>, k: nat): nat
    requires k <= |s|
  {
    if k < 4 then 4 else 4 + Declared(s)
  }

  /** What `k` octets already read amount to, if anything. */
  function Verdict(s: seq<byte>, k: nat): Progress
    requires k <= |s|
  {
    if k < 4 then Incomplete
    else if Declared(s) > MAX_MESSAGE_BYTES then TooLarge
    else if k == 4 + Declared(s) then Whole(s[4..k])
    else Incomplete
  }

  function Least(a: int, b: int): int {
    if a < b then a else b
  }

  /** The octets one read takes: no more than are offered, wanted, or there. */
  function Taken(s: seq<byte>, k: nat, n: nat): int
    requires k <= |s|
  {
    Least(Least(n, Least(CHUNK, Goal(s, k) - k)), |s| - k)
  }

  /** One call of the reader at work on the stream `s`, of which it has taken `k` octets. */
  function Reading(s: seq<byte>, k: nat, offers: seq<Offer>): (r: (Progress, nat))
    requires k <= |s|
    ensures k <= r.1 <= |s|
    decreases |offers|
  {
    if Verdict(s, k) != Incomplete then (Verdict(s, k), k)
    else if offers == [] then (Incomplete, k)
    else match offers[0]
      case Octets(n) => if Taken(s, k, n) <= 0 then (Closed, k) else Reading(s, k + Taken(s, k, n), offers[1..])
      case WouldBlock => (Incomplete, k)
      case Interrupted => Reading(s, k, offers[1..])
      case Broken => (Closed, k)
  }

  method ReadRequest(s: seq<byte>, k0: nat, offers: seq<Offer>) returns (p: Progress, k: nat)
    requires k0 <= |s|
    ensures (p, k) == Reading(s, k0, offers)
  {
    k := k0;
    var buf := s[..k0];
    for i := 0 to |offers|
      invariant k <= |s| && buf == s[..k]
      invariant Reading(s, k, offers[i..]) == Reading(s, k0, offers)
    {
      assert offers[i..][0] == offers[i] && offers[i..][1..] == offers[i + 1..];
      var target := 4;
      if |buf| >= 4 {
        assert Declared(buf) == Declared(s);
        var len := Declared(buf);
        if len > MAX_MESSAGE_BYTES { return TooLarge, k; }
        if |buf| == 4 + len { return Whole(buf[4..]), k; }
        target := 4 + len;
      }
      var take := Least(CHUNK, target - |buf|);
      match offers[i] {
        case Octets(offered) =>
          var n := Least(Least(offered, take), |s| - k);
          if n <= 0 { return Closed, k; }
          buf := buf + s[k..k + n];
          k := k + n;
        case WouldBlock => return Incomplete, k;
        case Interrupted =>
        case Broken => return Closed, k;
      }
    }
    assert offers[|offers|..] == [];
    return Verdict(s, k), k;
  }

  /** The reader never takes an octet past its request. */
  predicate Within(s: seq<byte>, k: nat) {
    k <= |s| && (k > 4 ==> Declared(s) <= MAX_MESSAGE_BYTES && k <= 4 + Declared(s))
  }

  /** The request has been read, or is known never to be. */
  predicate Final(p: Progress) {
    p.Whole? || p.TooLarge?
  }

  /** A verdict on the request depends on the stream alone. */
  predicate Just(s: seq<byte>, p: Progress, k: nat) {
    && (p.Whole? ==> 4 <= k <= |s| && k == 4 + Declared(s) && Declared(s) <= MAX_MESSAGE_BYTES && p.payload == s[4..k])
    && (p.TooLarge? ==> k == 4 <= |s| && Declared(s) > MAX_MESSAGE_BYTES)
  }

  lemma {:induction false} ReadsOneRequest(s: seq<byte>, k: nat, offers: seq<Offer>)
    requires Within(s, k)
    ensures var (p, k') := Reading(s, k, offers); k <= k' && Within(s, k') && Just(s, p, k')
    decreases |offers|
  {
    if Verdict(s, k) == Incomplete && offers != [] {
      match offers[0]
      case Octets(n) => if Taken(s, k, n) > 0 { ReadsOneRequest(s, k + Taken(s, k, n), offers[1..]); }
      case Interrupted => ReadsOneRequest(s, k, offers[1..]);
      case _ =>
    }
  }

  /** The reader called again each time it came away incomplete. */
  function Session(s: seq<byte>, k: nat, calls: seq<seq<Offer>>): (Progress, nat)
    requires k <= |s|
    decreases |calls|
  {
    if calls == [] then (Incomplete, k)
    else
      var r := Reading(s, k, calls[0]);
      if r.0 == Incomplete then Session(s, r.1, calls[1..]) else r
  }

  lemma {:induction false} SessionReads(s: seq<byte>, k: nat, calls: seq<seq<Offer>>)
    requires Within(s, k)
    ensures var (p, k') := Session(s, k, calls); Within(s, k') && Just(s, p, k')
    decreases |calls|
  {
    if calls != [] {
      ReadsOneRequest(s, k, calls[0]);
      if Reading(s, k, calls[0]).0 == Incomplete { SessionReads(s, Reading(s, k, calls[0]).1, calls[1..]); }
    }
  }

  /**
   * However the reads and calls are cut, two readers of one stream that reach a verdict agree on it and
   * on where it ends.
   */
  lemma RequestSplitIndependent(s: seq<byte>, a: seq<seq<Offer>>, b: seq<seq<Offer>>)
    requires Final(Session(s, 0, a).0) && Final(Session(s, 0, b).0)
    ensures Session(s, 0, a) == Session(s, 0, b)
  {
    SessionReads(s, 0, a);
    SessionReads(s, 0, b);
  }

  /** The stream holds a whole request, or the length of one too large. */
  predicate Complete(s: seq<byte>) {
    |s| >= 4 && (Declared(s) > MAX_MESSAGE_BYTES || |s| >= 4 + Declared(s))
  }

  /** The reads that bring octets. */
  function Fruitful(offers: seq<Offer>): nat {
    if offers == [] then 0 else (if offers[0].Octets? then 1 else 0) + Fruitful(offers[1..])
  }

  /** No peer that is gone or has nothing yet. */
  predicate Steady(offers: seq<Offer>) {
    forall i :: 0 <= i < |offers| ==> offers[i].Interrupted? || (offers[i].Octets? && offers[i].n > 0)
  }

  /** Over a complete request, an octet a read is enough to reach the verdict. */
  lemma {:induction false} ReadingFinishes(s: seq<byte>, k: nat, offers: seq<Offer>)
    requires Complete(s) && Within(s, k) && Steady(offers) && Fruitful(offers) + k >= 4 + Declared(s)
    ensures Final(Reading(s, k, offers).0)
    decreases |offers|
  {
    if Verdict(s, k) == Incomplete {
      assert offers != [];
      match offers[0]
      case Octets(n) =>
        assert Taken(s, k, n) >= 1;
        ReadingFinishes(s, k + Taken(s, k, n), offers[1..]);
      case Interrupted => ReadingFinishes(s, k, offers[1..]);
    }
  }
}
