/** Names on the wire: the uncompressed writer and the compressed reader. */
module NameWire {
  import opened Bytes
  import opened Results
  import opened Names

  const MAX_HOPS: nat := 64

  /** The decoding and encoding errors of the wire format. */
  datatype WireError = Truncated | TooLong | BadLabel | BadPointer | BadRData | TooLarge

  // --------------------------------------------------------------- writing

  /** Each label behind its length octet, then the root label. */
  function Write(n: Name): (s: seq<byte>)
    ensures s != []
  {
    if n == [] then [0] else [|n[0]| % 0x100] + n[0] + Write(n[1..])
  }

  lemma {:induction false} WriteLen(n: Name)
    ensures |Write(n)| == WireLen(n)
  {
    if n != [] { WriteLen(n[1..]); }
  }

  method WriteName(n: Name, out: seq<byte>) returns (buf: seq<byte>)
    ensures buf == out + Write(n)
  {
    buf := out;
    for i := 0 to |n|
      invariant buf + Write(n[i..]) == out + Write(n)
    {
      assert n[i..][0] == n[i] && n[i..][1..] == n[i + 1..];
      buf := buf + [|n[i]| % 0x100];
      buf := buf + n[i];
    }
    assert n[|n|..] == [];
    buf := buf + [0];
  }

  // ------------------------------------------ what a compressed name means

  /** The offset a two-octet pointer denotes. */
  function Target(hi: byte, lo: byte): nat {
    hi as int % 64 * 0x100 + lo as int
  }

  /**
   * The name at `p`, as section 4.1.4 of RFC 1035 defines it: a root octet, or a
   * label followed by a name, or a pointer to a prior occurrence of a name.
   * `hops` bounds the pointers followed.
   */
  predicate Denotes(msg: seq<byte>, p: nat, n: Name, hops: nat)
    decreases |n|, hops
  {
    && p < |msg|
    && if msg[p] == 0 then n == []
       else if msg[p] < 64 then
         && p + 1 + msg[p] <= |msg|
         && n != [] && n[0] == msg[p + 1..p + 1 + msg[p]]
         && Denotes(msg, p + 1 + msg[p], n[1..], hops)
       else if msg[p] >= 192 then
         && p + 1 < |msg|
         && hops > 0 && Target(msg[p], msg[p + 1]) < p
         && Denotes(msg, Target(msg[p], msg[p + 1]), n, hops - 1)
       else false
  }

  /** Where the octets of the name at `p` stop: after its root octet or its first pointer. */
  function Extent(msg: seq<byte>, p: nat): Option<nat>
    decreases |msg| - p
  {
    if p >= |msg| then None
    else if msg[p] == 0 then Some(p + 1)
    else if msg[p] < 64 then Extent(msg, p + 1 + msg[p])
    else if msg[p] >= 192 && p + 1 < |msg| then Some(p + 2)
    else None
  }

  // --------------------------------------------------------------- reading

  /**
   * The reader from position `p`, after `total` octets of labels and `hops`
   * pointers. The measure leaves `hops` out: a label raises `total`, a pointer
   * lowers `p`, so the hop ceiling plays no part in termination.
   */
  function ReadFrom(msg: seq<byte>, p: nat, total: nat, hops: nat): (r: Result<(Name, nat), WireError>)
    requires total < MAX_NAME_LEN
    decreases MAX_NAME_LEN - total, p
  {
    if p >= |msg| then Err(Truncated)
    else if msg[p] < 64 then
      var len := msg[p];
      if len == 0 then Ok(([], p + 1))
      else if p + 1 + len > |msg| then Err(Truncated)
      else if total + len + 1 + 1 > MAX_NAME_LEN then Err(TooLong)
      else
        var (rest, end) :- ReadFrom(msg, p + 1 + len, total + len + 1, hops);
        Ok(([msg[p + 1..p + 1 + len]] + rest, end))
    else if msg[p] >= 192 then
      if p + 1 >= |msg| then Err(Truncated)
      else
        var target := Target(msg[p], msg[p + 1]);
        if target >= p then Err(BadPointer)
        else if hops + 1 > MAX_HOPS then Err(BadPointer)
        else
          var (rest, _) :- ReadFrom(msg, target, total, hops + 1);
          Ok((rest, p + 2))
    else Err(BadLabel)
  }

  function ReadName(msg: seq<byte>, pos: nat): Result<(Name, nat), WireError> {
    ReadFrom(msg, pos, 0, 0)
  }

  lemma {:induction false} ReadFromSound(msg: seq<byte>, p: nat, total: nat, hops: nat)
    requires total < MAX_NAME_LEN && hops <= MAX_HOPS
    requires ReadFrom(msg, p, total, hops).Ok?
    ensures var (n, end) := ReadFrom(msg, p, total, hops).value;
            && Denotes(msg, p, n, MAX_HOPS - hops)
            && total + WireLen(n) <= MAX_NAME_LEN
            && Extent(msg, p) == Some(end)
            && (forall i :: 0 <= i < |n| ==> ValidLabel(n[i]))
    decreases MAX_NAME_LEN - total, p
  {
    if msg[p] == 0 {
    } else if msg[p] < 64 {
      ReadFromSound(msg, p + 1 + msg[p], total + msg[p] + 1, hops);
      var (rest, _) := ReadFrom(msg, p + 1 + msg[p], total + msg[p] + 1, hops).value;
      var n := [msg[p + 1..p + 1 + msg[p]]] + rest;
      assert n[1..] == rest;
    } else {
      ReadFromSound(msg, Target(msg[p], msg[p + 1]), total, hops + 1);
    }
  }

  lemma {:induction false} ReadFromComplete(msg: seq<byte>, p: nat, total: nat, hops: nat, n: Name)
    requires hops <= MAX_HOPS && Denotes(msg, p, n, MAX_HOPS - hops)
    requires total + WireLen(n) <= MAX_NAME_LEN
    ensures Extent(msg, p).Some?
    ensures ReadFrom(msg, p, total, hops) == Ok((n, Extent(msg, p).value))
    decreases |n|, MAX_HOPS - hops
  {
    if msg[p] == 0 {
    } else if msg[p] < 64 {
      ReadFromComplete(msg, p + 1 + msg[p], total + msg[p] + 1, hops, n[1..]);
      assert n == [n[0]] + n[1..];
    } else {
      ReadFromComplete(msg, Target(msg[p], msg[p + 1]), total, hops + 1, n);
    }
  }

  /**
   * The reader accepts exactly the names the message denotes through at most
   * `MAX_HOPS` pointers and whose wire length is at most 255, and continues
   * exactly where the name's own octets stop.
   */
  lemma ReadNameIff(msg: seq<byte>, pos: nat, n: Name, end: nat)
    ensures ReadName(msg, pos) == Ok((n, end)) <==>
            && Denotes(msg, pos, n, MAX_HOPS)
            && WireLen(n) <= MAX_NAME_LEN && Extent(msg, pos) == Some(end)
  {
    if ReadName(msg, pos) == Ok((n, end)) {
      ReadFromSound(msg, pos, 0, 0);
    }
    if Denotes(msg, pos, n, MAX_HOPS) && WireLen(n) <= MAX_NAME_LEN {
      ReadFromComplete(msg, pos, 0, 0, n);
    }
  }

  lemma {:induction false} ExtentBounds(msg: seq<byte>, p: nat)
    requires Extent(msg, p).Some?
    ensures p < Extent(msg, p).value <= |msg|
    decreases |msg| - p
  {
    if 0 < msg[p] < 64 { ExtentBounds(msg, p + 1 + msg[p]); }
  }

  /** What is read is a valid name, and reading makes progress inside the message. */
  lemma ReadNameValid(msg: seq<byte>, pos: nat)
    requires ReadName(msg, pos).Ok?
    ensures ValidName(ReadName(msg, pos).value.0)
    ensures pos < ReadName(msg, pos).value.1 <= |msg|
  {
    ReadFromSound(msg, pos, 0, 0);
    ExtentBounds(msg, pos);
  }

  /** The loop as it runs: labels, `total`, `p`, the first pointer's end and `hops`. */
  method Read(msg: seq<byte>, pos: nat) returns (r: Result<(Name, nat), WireError>)
    ensures r == ReadName(msg, pos)
  {
    var labels: Name := [];
    var total: nat, p: nat, hops: nat := 0, pos, 0;
    var end: Option<nat> := None;
    ResumeNothing(ReadName(msg, pos));
    while true
      invariant total < MAX_NAME_LEN && hops <= MAX_HOPS
      invariant ReadName(msg, pos) == Resume(labels, end, ReadFrom(msg, p, total, hops))
      decreases MAX_NAME_LEN - total, p
    {
      if p >= |msg| { return Err(Truncated); }
      var len := msg[p];
      if len < 64 {
        p := p + 1;
        if len == 0 { break; }
        if p + len > |msg| { return Err(Truncated); }
        var piece := msg[p..p + len];
        total := total + len + 1;
        if total + 1 > MAX_NAME_LEN { return Err(TooLong); }
        ResumeLabel(labels, end, piece, ReadFrom(msg, p + len, total, hops));
        labels := labels + [piece];
        p := p + len;
      } else if len >= 192 {
        if p + 1 >= |msg| { return Err(Truncated); }
        var target := Target(len, msg[p + 1]);
        if end.None? { end := Some(p + 2); }
        if target >= p { return Err(BadPointer); }
        hops := hops + 1;
        if hops > MAX_HOPS { return Err(BadPointer); }
        p := target;
      } else {
        return Err(BadLabel);
      }
    }
    assert labels + [] == labels;
    return Ok((labels, if end.Some? then end.value else p));
  }

  /** The result of the whole read, given what the rest of it returns. */
  function Resume(labels: Name, end: Option<nat>, rest: Result<(Name, nat), WireError>)
    : Result<(Name, nat), WireError>
  {
    var (n, e) :- rest;
    Ok((labels + n, if end.Some? then end.value else e))
  }

  lemma ResumeNothing(r: Result<(Name, nat), WireError>)
    ensures Resume([], None, r) == r
  {
    if r.Ok? { assert [] + r.value.0 == r.value.0; }
  }

  lemma ResumeLabel(labels: Name, end: Option<nat>, l: Label, rest: Result<(Name, nat), WireError>)
    ensures rest.Ok? ==>
              Resume(labels, end, Ok(([l] + rest.value.0, rest.value.1))) == Resume(labels + [l], end, rest)
  {
    if rest.Ok? { assert labels + ([l] + rest.value.0) == labels + [l] + rest.value.0; }
  }

  // ------------------------------------------------------------ round trip

  lemma {:induction false} WriteDenotes(msg: seq<byte>, p: nat, n: Name)
    requires forall i :: 0 <= i < |n| ==> ValidLabel(n[i])
    requires At(msg, p, Write(n))
    ensures Denotes(msg, p, n, MAX_HOPS)
    ensures Extent(msg, p) == Some(p + |Write(n)|)
    decreases |n|
  {
    assert msg[p] == Write(n)[0];
    if n != [] {
      assert ValidLabel(n[0]);
      AtSplit(msg, p, [|n[0]| % 0x100] + n[0], Write(n[1..]));
      AtSplit(msg, p, [|n[0]| % 0x100], n[0]);
      AtSlice(msg, p + 1, n[0]);
      WriteDenotes(msg, p + 1 + |n[0]|, n[1..]);
    }
  }

  /** Writing then reading, anywhere in a message, gives the name back and stops after it. */
  lemma WriteThenRead(msg: seq<byte>, p: nat, n: Name)
    requires ValidName(n) && At(msg, p, Write(n))
    ensures ReadName(msg, p) == Ok((n, p + |Write(n)|))
  {
    WriteDenotes(msg, p, n);
    ReadNameIff(msg, p, n, p + |Write(n)|);
  }
}
