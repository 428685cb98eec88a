/** The MessagePack subset of the native wire: writers, readers, and skipping values without interpreting them. */
module MsgPack {
  import opened Bytes
  import opened Results

  datatype Fault = Truncated | Type | Unsupported | Utf8 | Depth

  const MAX_DEPTH: nat := 32

  // ------------------------------------------------------------------ UTF-8

  predicate Trail(b: byte) {
    0x80 <= b <= 0xbf
  }

  /** The length of the well-formed sequence a lead octet and its second octet begin, or 0 (section 4 of RFC 3629). */
  function LeadLength(s: seq<byte>): nat
    requires s != []
  {
    var b := s[0];
    if b <= 0x7f then 1
    else if |s| < 2 then 0
    else
      var c := s[1];
      if 0xc2 <= b <= 0xdf then (if Trail(c) then 2 else 0)
      else if b == 0xe0 then (if 0xa0 <= c <= 0xbf then 3 else 0)
      else if b == 0xed then (if 0x80 <= c <= 0x9f then 3 else 0)
      else if 0xe1 <= b <= 0xef then (if Trail(c) then 3 else 0)
      else if b == 0xf0 then (if 0x90 <= c <= 0xbf then 4 else 0)
      else if 0xf1 <= b <= 0xf3 then (if Trail(c) then 4 else 0)
      else if b == 0xf4 then (if 0x80 <= c <= 0x8f then 4 else 0)
      else 0
  }

  predicate ValidUtf8(s: seq<byte>) {
    s != [] ==>
      var n := LeadLength(s);
      0 < n <= |s| && (n > 2 ==> Trail(s[2])) && (n > 3 ==> Trail(s[3])) && ValidUtf8(s[n..])
  }

  /** The strings the wire carries. */
  type Text = s: seq<byte> | ValidUtf8(s) && |s| < 0x1_0000_0000 witness []

  // ---------------------------------------------------------------- writing

  function PackBool(v: bool): seq<byte> {
    [if v then 0xc3 else 0xc2]
  }

  function PackUint(v: u64): (s: seq<byte>)
    ensures |s| >= 1
  {
    if v < 0x80 then [v]
    else if v <= 0xff then [0xcc, v]
    else if v <= 0xffff then [0xcd] + Be(2, v)
    else if v <= 0xffff_ffff then [0xce] + Be(4, v)
    else [0xcf] + Be(8, v)
  }

  type i64 = v: int | -0x8000_0000_0000_0000 <= v < 0x8000_0000_0000_0000

  /** Negative numbers go out as the low octets of their two's complement. */
  function PackInt(v: i64): seq<byte> {
    if v >= 0 then PackUint(v)
    else if v >= -32 then [v + 0x100]
    else if v >= -0x80 then [0xd0, v + 0x100]
    else if v >= -0x8000 then [0xd1] + Be(2, v + 0x1_0000)
    else if v >= -0x8000_0000 then [0xd2] + Be(4, v + 0x1_0000_0000)
    else [0xd3] + Be(8, v + 0x1_0000_0000_0000_0000)
  }

  function StrHead(n: nat): seq<byte> {
    if n < 32 then [0xa0 + n]
    else if n <= 0xff then [0xd9, n]
    else if n <= 0xffff then [0xda] + Be(2, n)
    else [0xdb] + Be(4, n)
  }

  function PackStr(s: seq<byte>): (r: seq<byte>)
    ensures |r| >= 1
  {
    StrHead(|s|) + s
  }

  function BinHead(n: nat): seq<byte> {
    if n <= 0xff then [0xc4, n]
    else if n <= 0xffff then [0xc5] + Be(2, n)
    else [0xc6] + Be(4, n)
  }

  function PackBin(s: seq<byte>): seq<byte> {
    BinHead(|s|) + s
  }

  function ArrayHead(n: u32): seq<byte> {
    if n < 16 then [0x90 + n]
    else if n <= 0xffff then [0xdc] + Be(2, n)
    else [0xdd] + Be(4, n)
  }

  function MapHead(n: u32): (s: seq<byte>)
    ensures |s| >= 1
  {
    if n < 16 then [0x80 + n]
    else if n <= 0xffff then [0xde] + Be(2, n)
    else [0xdf] + Be(4, n)
  }

  // ---------------------------------------------------------------- reading

  /** What was read, and where reading goes on. */
  type Read<T> = Result<(T, nat), Fault>

  function Take(buf: seq<byte>, pos: nat, n: nat): (r: Read<seq<byte>>) {
    if pos + n > |buf| then Err(Truncated) else Ok((buf[pos..pos + n], pos + n))
  }

  function Num(buf: seq<byte>, pos: nat, w: nat): (r: Read<nat>) {
    var (s, p) :- Take(buf, pos, w);
    Ok((UnBe(s), p))
  }

  function ReadBool(buf: seq<byte>, pos: nat): Read<bool> {
    if pos >= |buf| then Err(Truncated)
    else if buf[pos] == 0xc2 then Ok((false, pos + 1))
    else if buf[pos] == 0xc3 then Ok((true, pos + 1))
    else Err(Type)
  }

  /** The signed reading of `w` octets. */
  function Signed(v: nat, w: nat): int {
    if 2 * v >= Pow256(w) then v - Pow256(w) else v
  }

  function SignedNum(buf: seq<byte>, pos: nat, w: nat): Read<int> {
    var (v, p) :- Num(buf, pos, w);
    Ok((Signed(v, w), p))
  }

  function PlainNum(buf: seq<byte>, pos: nat, w: nat): Read<int> {
    var (v, p) :- Num(buf, pos, w);
    Ok((v, p))
  }

  function ReadInt(buf: seq<byte>, pos: nat): Read<int> {
    if pos >= |buf| then Err(Truncated)
    else
      var b := buf[pos];
      if b <= 0x7f then Ok((b, pos + 1))
      else if b >= 0xe0 then Ok((b as int - 0x100, pos + 1))
      else if b == 0xcc then PlainNum(buf, pos + 1, 1)
      else if b == 0xcd then PlainNum(buf, pos + 1, 2)
      else if b == 0xce then PlainNum(buf, pos + 1, 4)
      else if b == 0xcf then
        var (v, p) :- PlainNum(buf, pos + 1, 8);
        if v >= 0x8000_0000_0000_0000 then Err(Type) else Ok((v, p))
      else if b == 0xd0 then SignedNum(buf, pos + 1, 1)
      else if b == 0xd1 then SignedNum(buf, pos + 1, 2)
      else if b == 0xd2 then SignedNum(buf, pos + 1, 4)
      else if b == 0xd3 then SignedNum(buf, pos + 1, 8)
      else Err(Type)
  }

  function ReadUint(buf: seq<byte>, pos: nat): (r: Read<nat>) {
    var (v, p) :- ReadInt(buf, pos);
    if v < 0 then Err(Type) else Ok((v, p))
  }

  function StrLength(buf: seq<byte>, pos: nat): (r: Read<nat>) {
    if pos >= |buf| then Err(Truncated)
    else
      var b := buf[pos];
      if 0xa0 <= b <= 0xbf then Ok((b - 0xa0, pos + 1))
      else if b == 0xd9 then Num(buf, pos + 1, 1)
      else if b == 0xda then Num(buf, pos + 1, 2)
      else if b == 0xdb then Num(buf, pos + 1, 4)
      else Err(Type)
  }

  function ReadStr(buf: seq<byte>, pos: nat): Read<seq<byte>> {
    var (n, p) :- StrLength(buf, pos);
    var (s, p) :- Take(buf, p, n);
    if ValidUtf8(s) then Ok((s, p)) else Err(Utf8)
  }

  function BinLength(buf: seq<byte>, pos: nat): (r: Read<nat>) {
    if pos >= |buf| then Err(Truncated)
    else
      var b := buf[pos];
      if b == 0xc4 then Num(buf, pos + 1, 1)
      else if b == 0xc5 then Num(buf, pos + 1, 2)
      else if b == 0xc6 then Num(buf, pos + 1, 4)
      else Err(Type)
  }

  function ReadBin(buf: seq<byte>, pos: nat): Read<seq<byte>> {
    var (n, p) :- BinLength(buf, pos);
    Take(buf, p, n)
  }

  function ArrayCount(buf: seq<byte>, pos: nat): (r: Read<nat>) {
    if pos >= |buf| then Err(Truncated)
    else
      var b := buf[pos];
      if 0x90 <= b <= 0x9f then Ok((b - 0x90, pos + 1))
      else if b == 0xdc then Num(buf, pos + 1, 2)
      else if b == 0xdd then Num(buf, pos + 1, 4)
      else Err(Type)
  }

  /** A count larger than the octets left cannot be honest. */
  function ReadArray(buf: seq<byte>, pos: nat): (r: Read<nat>) {
    var (n, p) :- ArrayCount(buf, pos);
    if p + n > |buf| then Err(Truncated) else Ok((n, p))
  }

  function MapCount(buf: seq<byte>, pos: nat): (r: Read<nat>) {
    if pos >= |buf| then Err(Truncated)
    else
      var b := buf[pos];
      if 0x80 <= b <= 0x8f then Ok((b - 0x80, pos + 1))
      else if b == 0xde then Num(buf, pos + 1, 2)
      else if b == 0xdf then Num(buf, pos + 1, 4)
      else Err(Type)
  }

  function ReadMap(buf: seq<byte>, pos: nat): (r: Read<nat>) {
    var (n, p) :- MapCount(buf, pos);
    if p + 2 * n > |buf| then Err(Truncated) else Ok((n, p))
  }

  // ------------------------------------------------------- what reads back

  /** `w` octets of a number, read back where they were written. */
  lemma NumReads(buf: seq<byte>, pos: nat, w: nat, v: nat)
    requires At(buf, pos, Be(w, v)) && v < Pow256(w)
    ensures Num(buf, pos, w) == Ok((v, pos + w))
  {
    AtSlice(buf, pos, Be(w, v));
    UnBeOfBe(w, v);
  }

  /** A tag octet and the number after it. */
  lemma TaggedReads(buf: seq<byte>, pos: nat, tag: byte, w: nat, v: nat)
    requires At(buf, pos, [tag] + Be(w, v)) && v < Pow256(w)
    ensures pos < |buf| && buf[pos] == tag && Num(buf, pos + 1, w) == Ok((v, pos + 1 + w))
  {
    assert buf[pos + 0] == ([tag] + Be(w, v))[0] == tag;
    AtSplit(buf, pos, [tag], Be(w, v));
    NumReads(buf, pos + 1, w, v);
  }

  lemma ByteTagged(tag: byte, v: byte)
    ensures [tag, v] == [tag] + Be(1, v)
  {
    assert Be(1, v)[0] == v by { assert v % 0x100 == v && Be(0, v / 0x100) == []; }
    assert Be(1, v) == [v];
    assert [tag] + [v] == [tag, v];
  }

  /** Unsigned numbers read back exactly when they also fit a signed word. */
  lemma UintReads(buf: seq<byte>, pos: nat, v: u64)
    requires At(buf, pos, PackUint(v))
    ensures ReadUint(buf, pos) == if v < 0x8000_0000_0000_0000 then Ok((v, pos + |PackUint(v)|)) else Err(Type)
  {
    hide UnBe, Be;
    Widths();
    if v < 0x80 {
      assert buf[pos] == PackUint(v)[0];
    } else if v <= 0xff {
      ByteTagged(0xcc, v);
      TaggedReads(buf, pos, 0xcc, 1, v);
    } else if v <= 0xffff {
      TaggedReads(buf, pos, 0xcd, 2, v);
    } else if v <= 0xffff_ffff {
      TaggedReads(buf, pos, 0xce, 4, v);
    } else {
      TaggedReads(buf, pos, 0xcf, 8, v);
    }
  }

  lemma IntReads(buf: seq<byte>, pos: nat, v: i64)
    requires At(buf, pos, PackInt(v))
    ensures ReadInt(buf, pos) == Ok((v, pos + |PackInt(v)|))
  {
    hide UnBe, Be;
    Widths();
    if v >= 0 {
      UintReads(buf, pos, v);
    } else if v >= -32 {
      assert buf[pos] == PackInt(v)[0];
    } else if v >= -0x80 {
      ByteTagged(0xd0, v + 0x100);
      TaggedReads(buf, pos, 0xd0, 1, v + 0x100);
    } else if v >= -0x8000 {
      TaggedReads(buf, pos, 0xd1, 2, v + 0x1_0000);
    } else if v >= -0x8000_0000 {
      TaggedReads(buf, pos, 0xd2, 4, v + 0x1_0000_0000);
    } else {
      TaggedReads(buf, pos, 0xd3, 8, v + 0x1_0000_0000_0000_0000);
    }
  }

  lemma StrHeadReads(buf: seq<byte>, pos: nat, n: nat)
    requires At(buf, pos, StrHead(n)) && n < 0x1_0000_0000
    ensures StrLength(buf, pos) == Ok((n, pos + |StrHead(n)|))
  {
    hide UnBe, Be;
    Widths();
    if n < 32 {
      assert buf[pos] == StrHead(n)[0];
    } else if n <= 0xff {
      ByteTagged(0xd9, n);
      TaggedReads(buf, pos, 0xd9, 1, n);
    } else if n <= 0xffff {
      TaggedReads(buf, pos, 0xda, 2, n);
    } else {
      TaggedReads(buf, pos, 0xdb, 4, n);
    }
  }

  lemma StrReads(buf: seq<byte>, pos: nat, s: Text)
    requires At(buf, pos, PackStr(s))
    ensures ReadStr(buf, pos) == Ok((s, pos + |PackStr(s)|))
  {
    hide StrHead, StrLength, ValidUtf8, At;
    AtSplit(buf, pos, StrHead(|s|), s);
    StrHeadReads(buf, pos, |s|);
    AtSlice(buf, pos + |StrHead(|s|)|, s);
  }

  lemma BinReads(buf: seq<byte>, pos: nat, s: seq<byte>)
    requires At(buf, pos, PackBin(s)) && |s| < 0x1_0000_0000
    ensures ReadBin(buf, pos) == Ok((s, pos + |PackBin(s)|))
  {
    hide UnBe, Be;
    Widths();
    AtSplit(buf, pos, BinHead(|s|), s);
    AtSlice(buf, pos + |BinHead(|s|)|, s);
    if |s| <= 0xff {
      ByteTagged(0xc4, |s|);
      TaggedReads(buf, pos, 0xc4, 1, |s|);
    } else if |s| <= 0xffff {
      TaggedReads(buf, pos, 0xc5, 2, |s|);
    } else {
      TaggedReads(buf, pos, 0xc6, 4, |s|);
    }
  }

  lemma ArrayReads(buf: seq<byte>, pos: nat, n: u32)
    requires At(buf, pos, ArrayHead(n)) && pos + |ArrayHead(n)| + n <= |buf|
    ensures ReadArray(buf, pos) == Ok((n, pos + |ArrayHead(n)|))
  {
    hide UnBe, Be;
    Widths();
    if n < 16 {
      assert buf[pos] == ArrayHead(n)[0];
    } else if n <= 0xffff {
      TaggedReads(buf, pos, 0xdc, 2, n);
    } else {
      TaggedReads(buf, pos, 0xdd, 4, n);
    }
  }

  lemma MapReads(buf: seq<byte>, pos: nat, n: u32)
    requires At(buf, pos, MapHead(n)) && pos + |MapHead(n)| + 2 * n <= |buf|
    ensures ReadMap(buf, pos) == Ok((n, pos + |MapHead(n)|))
  {
    hide UnBe, Be;
    Widths();
    if n < 16 {
      assert buf[pos] == MapHead(n)[0];
    } else if n <= 0xffff {
      TaggedReads(buf, pos, 0xde, 2, n);
    } else {
      TaggedReads(buf, pos, 0xdf, 4, n);
    }
  }

  lemma BoolReads(buf: seq<byte>, pos: nat, v: bool)
    requires At(buf, pos, PackBool(v))
    ensures ReadBool(buf, pos) == Ok((v, pos + |PackBool(v)|))
  {
    assert buf[pos] == PackBool(v)[0];
  }

  // ---------------------------------------------------------------- skipping

  predicate IsTiny(b: byte) {
    b <= 0x7f || b >= 0xe0 || b == 0xc0 || b == 0xc2 || b == 0xc3
  }

  predicate IsFixed(b: byte) {
    0xca <= b <= 0xd8
  }

  /** The octets after a fixed-length tag: numbers, floats, and extensions with their type octet. */
  function FixedLength(b: byte): nat
    requires IsFixed(b)
  {
    if b == 0xcc || b == 0xd0 then 1
    else if b == 0xcd || b == 0xd1 || b == 0xd4 then 2
    else if b == 0xd5 then 3
    else if b == 0xca || b == 0xce || b == 0xd2 then 4
    else if b == 0xd6 then 5
    else if b == 0xcb || b == 0xcf || b == 0xd3 then 8
    else if b == 0xd7 then 9
    else 17
  }

  predicate IsExt(b: byte) {
    0xc7 <= b <= 0xc9
  }

  function ExtWidth(b: byte): nat {
    if b == 0xc7 then 1 else if b == 0xc8 then 2 else 4
  }

  predicate IsStr(b: byte) {
    0xa0 <= b <= 0xbf || 0xd9 <= b <= 0xdb
  }

  predicate IsBin(b: byte) {
    0xc4 <= b <= 0xc6
  }

  predicate IsArray(b: byte) {
    0x90 <= b <= 0x9f || b == 0xdc || b == 0xdd
  }

  predicate IsMap(b: byte) {
    0x80 <= b <= 0x8f || b == 0xde || b == 0xdf
  }

  /** The end of the one value at `pos`, which lies inside `depth` containers. */
  function Skip(buf: seq<byte>, pos: nat, depth: nat): (r: Result<nat, Fault>)
    ensures r.Ok? ==> pos < r.value <= |buf|
    decreases if pos <= |buf| then |buf| - pos else 0, 0, 0
  {
    if pos >= |buf| then Err(Truncated)
    else
      var b := buf[pos];
      if IsArray(b) then
        var (n, p) :- ReadArray(buf, pos);
        if depth + 1 > MAX_DEPTH then Err(Depth) else SkipAll(buf, p, n, depth + 1)
      else if IsMap(b) then
        var (n, p) :- ReadMap(buf, pos);
        if depth + 1 > MAX_DEPTH then Err(Depth) else SkipAll(buf, p, 2 * n, depth + 1)
      else SkipLeaf(buf, pos)
  }

  function SkipAll(buf: seq<byte>, pos: nat, n: nat, depth: nat): (r: Result<nat, Fault>)
    requires pos <= |buf|
    ensures r.Ok? ==> pos + n <= r.value <= |buf|
    decreases |buf| - pos, 1, n
  {
    if n == 0 then Ok(pos)
    else
      var p :- Skip(buf, pos, depth);
      SkipAll(buf, p, n - 1, depth)
  }

  function SkipLeaf(buf: seq<byte>, pos: nat): (r: Result<nat, Fault>)
    requires pos < |buf|
    ensures r.Ok? ==> pos < r.value <= |buf|
  {
    var b := buf[pos];
    if IsTiny(b) then Ok(pos + 1)
    else if IsFixed(b) then
      var (_, p) :- Take(buf, pos + 1, FixedLength(b));
      Ok(p)
    else if IsExt(b) then
      var (n, p) :- Num(buf, pos + 1, ExtWidth(b));
      if p >= |buf| then Err(Truncated)
      else
        var (_, p) :- Take(buf, p + 1, n);
        Ok(p)
    else if IsStr(b) then
      var (_, p) :- ReadStr(buf, pos);
      Ok(p)
    else if IsBin(b) then
      var (_, p) :- ReadBin(buf, pos);
      Ok(p)
    else Err(Unsupported)
  }

  // ------------------------------------------- what a well-formed value is

  /** A value as a tree: leaves are whole scalars, strings and extensions. */
  datatype Tree = Leaf(raw: seq<byte>) | Node(head: seq<byte>, items: Trees)

  datatype Trees = Nil | Cons(first: Tree, rest: Trees)

  function Count(ts: Trees): nat {
    match ts
    case Nil => 0
    case Cons(_, rest) => 1 + Count(rest)
  }

  function Flat(t: Tree): seq<byte> {
    match t
    case Leaf(raw) => raw
    case Node(head, items) => head + FlatAll(items)
  }

  function FlatAll(ts: Trees): seq<byte> {
    match ts
    case Nil => []
    case Cons(t, rest) => Flat(t) + FlatAll(rest)
  }

  /** A number in the octets after the first. */
  predicate Counted(head: seq<byte>, w: nat, n: nat) {
    |head| == 1 + w && UnBe(head[1..]) == n
  }

  /** A string's or binary's head: its tag and the length of what follows. */
  predicate SizedHead(head: seq<byte>, n: nat) {
    && head != []
    && var b := head[0];
    if 0xa0 <= b <= 0xbf then |head| == 1 && n == b - 0xa0
    else if b == 0xd9 || b == 0xc4 then Counted(head, 1, n)
    else if b == 0xda || b == 0xc5 then Counted(head, 2, n)
    else (b == 0xdb || b == 0xc6) && Counted(head, 4, n)
  }

  /** A leaf is one octet, a tag with its fixed octets, a sized string or binary, or a sized extension. */
  ghost predicate WholeLeaf(raw: seq<byte>) {
    && raw != []
    && var b := raw[0];
    if IsTiny(b) then |raw| == 1
    else if IsFixed(b) then |raw| == 1 + FixedLength(b)
    else if IsExt(b) then
      1 + ExtWidth(b) < |raw| && |raw| == 2 + ExtWidth(b) + UnBe(raw[1..1 + ExtWidth(b)])
    else if IsStr(b) || IsBin(b) then
      exists k: nat :: k <= |raw| && SizedHead(raw[..k], |raw| - k) && (IsStr(b) ==> ValidUtf8(raw[k..]))
    else false
  }

  /** A container's head, for as many items as follow: a map's are its keys and values. */
  predicate ContainerHead(head: seq<byte>, n: nat) {
    && head != []
    && var b := head[0];
    if 0x90 <= b <= 0x9f then |head| == 1 && n == b - 0x90
    else if b == 0xdc then Counted(head, 2, n)
    else if b == 0xdd then Counted(head, 4, n)
    else if 0x80 <= b <= 0x8f then |head| == 1 && n == 2 * (b - 0x80)
    else if b == 0xde then n % 2 == 0 && Counted(head, 2, n / 2)
    else b == 0xdf && n % 2 == 0 && Counted(head, 4, n / 2)
  }

  /** The value is well formed and no deeper than `depth` containers. */
  ghost predicate Fits(t: Tree, depth: nat) {
    match t
    case Leaf(raw) => WholeLeaf(raw)
    case Node(head, items) => depth > 0 && ContainerHead(head, Count(items)) && FitAll(items, depth - 1)
  }

  ghost predicate FitAll(ts: Trees, depth: nat) {
    match ts
    case Nil => true
    case Cons(t, rest) => Fits(t, depth) && FitAll(rest, depth)
  }

  lemma {:induction false} FlatSize(t: Tree, depth: nat)
    requires Fits(t, depth)
    ensures Flat(t) != []
  {
  }

  lemma {:induction false} FlatAllSize(ts: Trees, depth: nat)
    requires FitAll(ts, depth)
    ensures |FlatAll(ts)| >= Count(ts)
  {
    match ts
    case Nil =>
    case Cons(t, rest) =>
      FlatSize(t, depth);
      FlatAllSize(rest, depth);
  }

  lemma AtPart(buf: seq<byte>, pos: nat, w: seq<byte>, i: nat, j: nat)
    requires At(buf, pos, w) && i <= j <= |w|
    ensures buf[pos + i..pos + j] == w[i..j]
  {
  }

  /** A head where it was written is read as its count. */
  lemma HeadReads(buf: seq<byte>, pos: nat, head: seq<byte>, n: nat)
    requires At(buf, pos, head) && ContainerHead(head, n) && pos + |head| + n <= |buf|
    ensures pos < |buf| && (IsArray(buf[pos]) || IsMap(buf[pos]))
    ensures IsArray(buf[pos]) ==> ReadArray(buf, pos) == Ok((n, pos + |head|))
    ensures !IsArray(buf[pos]) ==> n % 2 == 0 && ReadMap(buf, pos) == Ok((n / 2, pos + |head|))
  {
    hide UnBe;
    assert buf[pos] == head[0];
    AtPart(buf, pos, head, 1, |head|);
    assert head[1..|head|] == head[1..];
  }

  lemma SizedReads(buf: seq<byte>, pos: nat, raw: seq<byte>, k: nat)
    requires At(buf, pos, raw) && k <= |raw| && SizedHead(raw[..k], |raw| - k)
    ensures IsStr(raw[0]) && ValidUtf8(raw[k..]) ==> ReadStr(buf, pos) == Ok((raw[k..], pos + |raw|))
    ensures IsBin(raw[0]) ==> ReadBin(buf, pos) == Ok((raw[k..], pos + |raw|))
  {
    hide UnBe, ValidUtf8;
    assert buf[pos] == raw[0] == raw[..k][0];
    AtPart(buf, pos, raw, 1, k);
    AtPart(buf, pos, raw, k, |raw|);
    assert raw[..k][1..] == raw[1..k] && raw[k..|raw|] == raw[k..];
  }

  lemma LeafSkips(buf: seq<byte>, pos: nat, raw: seq<byte>)
    requires WholeLeaf(raw) && At(buf, pos, raw)
    ensures SkipLeaf(buf, pos) == Ok(pos + |raw|)
    ensures !IsArray(buf[pos]) && !IsMap(buf[pos])
  {
    hide UnBe, ValidUtf8, ReadStr, ReadBin, SizedHead;
    assert buf[pos] == raw[0];
    var b := raw[0];
    if IsExt(b) {
      AtPart(buf, pos, raw, 1, 1 + ExtWidth(b));
    } else if !IsTiny(b) && !IsFixed(b) {
      var k: nat :| k <= |raw| && SizedHead(raw[..k], |raw| - k) && (IsStr(b) ==> ValidUtf8(raw[k..]));
      SizedReads(buf, pos, raw, k);
    }
  }

  /** Skipping passes over exactly one well-formed value. */
  lemma {:induction false} SkipsTree(buf: seq<byte>, pos: nat, t: Tree, depth: nat)
    requires depth <= MAX_DEPTH && Fits(t, MAX_DEPTH - depth) && At(buf, pos, Flat(t))
    ensures Skip(buf, pos, depth) == Ok(pos + |Flat(t)|)
    decreases t
  {
    hide WholeLeaf, ContainerHead, SkipLeaf, ReadArray, ReadMap, IsArray, IsMap, At;
    match t
    case Leaf(raw) =>
      LeafSkips(buf, pos, raw);
    case Node(head, items) =>
      AtSplit(buf, pos, head, FlatAll(items));
      AtEnd(buf, pos + |head|, FlatAll(items));
      FlatAllSize(items, MAX_DEPTH - depth - 1);
      HeadReads(buf, pos, head, Count(items));
      SkipsTrees(buf, pos + |head|, items, depth + 1);
  }

  lemma AtEnd(buf: seq<byte>, pos: nat, w: seq<byte>)
    requires At(buf, pos, w)
    ensures pos + |w| <= |buf|
  {
  }

  lemma {:induction false} SkipsTrees(buf: seq<byte>, pos: nat, ts: Trees, depth: nat)
    requires depth <= MAX_DEPTH && FitAll(ts, MAX_DEPTH - depth) && At(buf, pos, FlatAll(ts)) && pos <= |buf|
    ensures SkipAll(buf, pos, Count(ts), depth) == Ok(pos + |FlatAll(ts)|)
    decreases ts
  {
    hide Skip, At, Flat, Fits;
    match ts
    case Nil =>
    case Cons(t, rest) =>
      AtSplit(buf, pos, Flat(t), FlatAll(rest));
      AtEnd(buf, pos + |Flat(t)|, FlatAll(rest));
      SkipsTree(buf, pos, t, depth);
      SkipsTrees(buf, pos + |Flat(t)|, rest, depth);
  }

  // ------------------------------------------------ and nothing else skips

  lemma LeafIsWhole(buf: seq<byte>, pos: nat)
    requires pos < |buf| && SkipLeaf(buf, pos).Ok?
    ensures WholeLeaf(buf[pos..SkipLeaf(buf, pos).value])
  {
    hide UnBe, ValidUtf8;
    var end := SkipLeaf(buf, pos).value;
    var raw := buf[pos..end];
    var b := buf[pos];
    if IsExt(b) {
      assert raw[1..1 + ExtWidth(b)] == buf[pos + 1..pos + 1 + ExtWidth(b)];
    } else if IsStr(b) {
      var p := StrLength(buf, pos).value.1;
      SizedIs(buf, pos, p, end);
      assert raw[p - pos..] == buf[p..end];
    } else if IsBin(b) {
      SizedIs(buf, pos, BinLength(buf, pos).value.1, end);
    }
  }

  lemma SizedIs(buf: seq<byte>, pos: nat, p: nat, end: nat)
    requires pos < |buf| && (IsStr(buf[pos]) || IsBin(buf[pos])) && pos < p <= end <= |buf|
    requires IsStr(buf[pos]) ==> StrLength(buf, pos) == Ok((end - p, p))
    requires IsBin(buf[pos]) ==> BinLength(buf, pos) == Ok((end - p, p))
    ensures SizedHead(buf[pos..end][..p - pos], |buf[pos..end]| - (p - pos))
  {
    hide UnBe;
    var head := buf[pos..end][..p - pos];
    assert head == buf[pos..p] && head[0] == buf[pos];
    assert head[1..] == buf[pos + 1..p];
  }

  lemma ContainerIs(buf: seq<byte>, pos: nat, p: nat, n: nat)
    requires pos < |buf| && pos < p <= |buf|
    requires (IsArray(buf[pos]) && ReadArray(buf, pos) == Ok((n, p)))
             || (IsMap(buf[pos]) && n % 2 == 0 && ReadMap(buf, pos) == Ok((n / 2, p)))
    ensures ContainerHead(buf[pos..p], n)
  {
    hide UnBe;
    assert buf[pos..p][0] == buf[pos] && buf[pos..p][1..] == buf[pos + 1..p];
  }

  lemma CountEnds(buf: seq<byte>, pos: nat)
    ensures ReadArray(buf, pos).Ok? ==> pos < ReadArray(buf, pos).value.1 <= |buf|
    ensures ReadMap(buf, pos).Ok? ==> pos < ReadMap(buf, pos).value.1 <= |buf|
  {
    hide UnBe;
  }

  /** Whatever is skipped is one well-formed value, no deeper than allowed. */
  lemma {:induction false} SkippedTree(buf: seq<byte>, pos: nat, depth: nat) returns (t: Tree)
    requires depth <= MAX_DEPTH && Skip(buf, pos, depth).Ok?
    ensures Fits(t, MAX_DEPTH - depth) && Flat(t) == buf[pos..Skip(buf, pos, depth).value]
    decreases if pos <= |buf| then |buf| - pos else 0, 0, 0
  {
    hide WholeLeaf, ContainerHead, SkipLeaf, ReadArray, ReadMap;
    var end := Skip(buf, pos, depth).value;
    if IsArray(buf[pos]) || IsMap(buf[pos]) {
      CountEnds(buf, pos);
      var n, p;
      if IsArray(buf[pos]) {
        n, p := ReadArray(buf, pos).value.0, ReadArray(buf, pos).value.1;
      } else {
        n, p := 2 * ReadMap(buf, pos).value.0, ReadMap(buf, pos).value.1;
      }
      ContainerIs(buf, pos, p, n);
      var items := SkippedTrees(buf, p, n, depth + 1);
      t := Node(buf[pos..p], items);
      assert buf[pos..p] + buf[p..end] == buf[pos..end];
    } else {
      LeafIsWhole(buf, pos);
      t := Leaf(buf[pos..end]);
    }
  }

  lemma {:induction false} SkippedTrees(buf: seq<byte>, pos: nat, n: nat, depth: nat) returns (ts: Trees)
    requires depth <= MAX_DEPTH && pos <= |buf| && SkipAll(buf, pos, n, depth).Ok?
    ensures FitAll(ts, MAX_DEPTH - depth) && Count(ts) == n
    ensures FlatAll(ts) == buf[pos..SkipAll(buf, pos, n, depth).value]
    decreases |buf| - pos, 1, n
  {
    hide Skip;
    if n == 0 {
      ts := Nil;
    } else {
      var p := Skip(buf, pos, depth).value;
      var t := SkippedTree(buf, pos, depth);
      var rest := SkippedTrees(buf, p, n - 1, depth);
      ts := Cons(t, rest);
      var end := SkipAll(buf, pos, n, depth).value;
      assert buf[pos..p] + buf[p..end] == buf[pos..end];
    }
  }
}
