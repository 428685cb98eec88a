/** Packing an answer into the caller's buffer, as the name-service entry points must. */
module NssBuffer {
  import opened Bytes
  import opened Results

  /** The size and alignment of a pointer. */
  const WORD: nat := 8

  const ADDRESS_SPACE: nat := 0x1_0000_0000_0000_0000

  // ------------------------------------------------------------------ layout

  /** Room asked for: so many octets, starting at a multiple of `align`. */
  datatype Ask = Ask(size: nat, align: nat)

  predicate Sane(a: Ask) {
    a.align > 0
  }

  function RoundUp(n: nat, align: nat): (r: nat)
    requires align > 0
    ensures r >= n && r % align == 0 && r < n + align
  {
    Rounding(n, align);
    (n + align - 1) / align * align
  }

  lemma Rounding(n: nat, align: nat)
    requires align > 0
    ensures var r := (n + align - 1) / align * align; r >= n && r % align == 0 && r < n + align
  {
    var q := (n + align - 1) / align;
    assert n + align - 1 == q * align + (n + align - 1) % align;
    DivUnique(q, align, 0);
  }

  lemma {:induction false} AtLeastOne(k: int, d: nat)
    requires k >= 1
    ensures k * d >= d
  {
    if k > 1 {
      AtLeastOne(k - 1, d);
      assert k * d == (k - 1) * d + d;
    }
  }

  lemma Apart(a: int, b: int, d: nat)
    requires a > b
    ensures a * d - b * d >= d
  {
    AtLeastOne(a - b, d);
    assert (a - b) * d == a * d - b * d;
  }

  lemma DivUnique(q: nat, d: nat, r: nat)
    requires r < d
    ensures (q * d + r) % d == r
  {
    var x := q * d + r;
    var q', r' := x / d, x % d;
    assert x == q' * d + r';
    if q' < q {
      Apart(q, q', d);
    } else if q' > q {
      Apart(q', q, d);
    }
  }

  /** The offset reserved after `used` octets of a buffer of `len`, or nothing when it is full. */
  function Offset(len: nat, used: nat, a: Ask): Option<nat>
    requires Sane(a)
  {
    var start := RoundUp(used, a.align);
    if start + a.size > len then None else Some(start)
  }

  /** Where each thing asked for goes, one after another. */
  function Layout(len: nat, used: nat, asks: seq<Ask>): (r: Option<seq<nat>>)
    requires forall i :: 0 <= i < |asks| ==> Sane(asks[i])
    ensures r.Some? ==> |r.value| == |asks|
    decreases |asks|
  {
    if asks == [] then Some([])
    else match Offset(len, used, asks[0])
      case None => None
      case Some(start) =>
        match Layout(len, start + asks[0].size, asks[1..])
        case None => None
        case Some(rest) => Some([start] + rest)
  }

  /** The least length that holds everything asked for. */
  function Needed(used: nat, asks: seq<Ask>): nat
    requires forall i :: 0 <= i < |asks| ==> Sane(asks[i])
    decreases |asks|
  {
    if asks == [] then 0
    else
      assert Sane(asks[0]);
      var end := RoundUp(used, asks[0].align) + asks[0].size;
      var rest := Needed(end, asks[1..]);
      if rest > end then rest else end
  }

  /** The places themselves, whatever the length. */
  function Places(used: nat, asks: seq<Ask>): (r: seq<nat>)
    requires forall i :: 0 <= i < |asks| ==> Sane(asks[i])
    ensures |r| == |asks|
    decreases |asks|
  {
    if asks == [] then []
    else
      assert Sane(asks[0]);
      var start := RoundUp(used, asks[0].align);
      [start] + Places(start + asks[0].size, asks[1..])
  }

  /** Packing succeeds from a least length upward, and puts things in the same places at every such length. */
  lemma {:induction false} LayoutIff(len: nat, used: nat, asks: seq<Ask>)
    requires forall i :: 0 <= i < |asks| ==> Sane(asks[i])
    ensures Layout(len, used, asks) == if Needed(used, asks) <= len then Some(Places(used, asks)) else None
    decreases |asks|
  {
    if asks != [] {
      var start := RoundUp(used, asks[0].align);
      LayoutIff(len, start + asks[0].size, asks[1..]);
      hide RoundUp;
    }
  }

  /** Every region lies past what was used, aligned, in bounds, and clear of the others. */
  lemma {:induction false} PlacesApart(used: nat, asks: seq<Ask>)
    requires forall i :: 0 <= i < |asks| ==> Sane(asks[i])
    ensures forall i :: 0 <= i < |asks| ==> used <= Places(used, asks)[i] && Places(used, asks)[i] % asks[i].align == 0
                                            && Places(used, asks)[i] + asks[i].size <= Needed(used, asks)
    ensures forall i, j :: 0 <= i < j < |asks| ==> Places(used, asks)[i] + asks[i].size <= Places(used, asks)[j]
    decreases |asks|
  {
    if asks != [] {
      var start := RoundUp(used, asks[0].align);
      var end := start + asks[0].size;
      PlacesApart(end, asks[1..]);
      var ps, rest := Places(used, asks), Places(end, asks[1..]);
      assert ps == [start] + rest;
      hide RoundUp, Places, Needed;
      forall i | 1 <= i < |asks| ensures ps[i] == rest[i - 1] && asks[i] == asks[1..][i - 1] {}
    }
  }

  // ------------------------------------------------------------- the packer

  /** A bump allocator over the caller's buffer. */
  class Packer {
    const buf: array<byte>
    var used: nat

    ghost predicate Valid()
      reads this
    {
      used <= buf.Length
    }

    constructor (b: array<byte>)
      ensures Valid() && buf == b && used == 0
    {
      buf, used := b, 0;
    }

    /** Reserve room; the offset, or nothing when the buffer is full. */
    method Reserve(size: nat, align: nat) returns (r: Option<nat>)
      requires Valid() && align > 0
      modifies this`used
      ensures Valid() && r == Offset(buf.Length, old(used), Ask(size, align))
      ensures used == if r.Some? then r.value + size else old(used)
    {
      var start := RoundUp(used, align);
      var end := start + size;
      if end > buf.Length { return None; }
      used := end;
      return Some(start);
    }

    method Fill(at: nat, bytes: seq<byte>)
      requires at + |bytes| <= buf.Length
      modifies buf
      ensures buf[at..at + |bytes|] == bytes
      ensures forall k :: 0 <= k < buf.Length && !(at <= k < at + |bytes|) ==> buf[k] == old(buf[k])
    {
      for i := 0 to |bytes|
        invariant buf[at..at + i] == bytes[..i]
        invariant forall k :: 0 <= k < buf.Length && !(at <= k < at + i) ==> buf[k] == old(buf[k])
      {
        buf[at + i] := bytes[i];
      }
      assert bytes[..|bytes|] == bytes;
    }

    /** Copy a string in, with its terminator; a string with a NUL inside has no place. */
    method Str(s: seq<byte>) returns (r: Option<nat>)
      requires Valid()
      modifies this`used, buf
      ensures Valid() && used >= old(used)
      ensures r == if 0 in s then None else Offset(buf.Length, old(used), Ask(|s| + 1, 1))
      ensures r.Some? ==> used == r.value + |s| + 1 && r.value >= old(used) && buf[r.value..used] == s + [0]
      ensures r.None? ==> used == old(used)
      ensures buf[..old(used)] == old(buf[..used])
    {
      if 0 in s { return None; }
      r := Reserve(|s| + 1, 1);
      if r.Some? { Fill(r.value, s + [0]); }
    }

    /** Copy octets in, aligned. */
    method PutBytes(s: seq<byte>, align: nat) returns (r: Option<nat>)
      requires Valid() && align > 0
      modifies this`used, buf
      ensures Valid() && used >= old(used)
      ensures r == Offset(buf.Length, old(used), Ask(|s|, align))
      ensures r.Some? ==> used == r.value + |s| && r.value >= old(used) && buf[r.value..used] == s
      ensures r.None? ==> used == old(used)
      ensures buf[..old(used)] == old(buf[..used])
    {
      r := Reserve(|s|, align);
      if r.Some? { Fill(r.value, s); }
    }

    /** Room for `count` pointers and a terminating null, all zero. */
    method Pointers(count: nat) returns (r: Option<nat>)
      requires Valid()
      modifies this`used, buf
      ensures Valid() && used >= old(used)
      ensures r == Offset(buf.Length, old(used), Ask((count + 1) * WORD, WORD))
      ensures r.Some? ==> used == r.value + (count + 1) * WORD && r.value >= old(used)
                          && forall k :: r.value <= k < used ==> buf[k] == 0
      ensures r.None? ==> used == old(used)
      ensures buf[..old(used)] == old(buf[..used])
    {
      r := Reserve((count + 1) * WORD, WORD);
      if r.Some? {
        var zeros := seq((count + 1) * WORD, _ => 0);
        Fill(r.value, zeros);
        forall k | r.value <= k < used ensures buf[k] == 0 {
          assert buf[k] == buf[r.value..used][k - r.value] == zeros[k - r.value];
        }
      }
    }
  }

  // -------------------------------------------------------------- a host entry

  datatype Status = Success(name: nat, aliases: nat, addresses: nat, slots: seq<nat>) | TryAgain

  /** The name, an empty alias list, the address list, and each address. */
  function HostAsks(name: seq<byte>, addrs: seq<seq<byte>>): (asks: seq<Ask>)
    ensures |asks| == 3 + |addrs| && forall i :: 0 <= i < |asks| ==> Sane(asks[i])
  {
    [Ask(|name| + 1, 1), Ask(2 * WORD, WORD), Ask((|addrs| + 2) * WORD, WORD)] + AddressAsks(addrs)
  }

  function AddressAsks(addrs: seq<seq<byte>>): (asks: seq<Ask>)
    ensures |asks| == |addrs| && forall i :: 0 <= i < |asks| ==> Sane(asks[i]) && asks[i] == Ask(|addrs[i]|, 4)
  {
    seq(|addrs|, i requires 0 <= i < |addrs| => Ask(|addrs[i]|, 4))
  }

  function Rendered(len: nat, name: seq<byte>, addrs: seq<seq<byte>>): Status {
    if 0 in name then TryAgain
    else match Layout(len, 0, HostAsks(name, addrs))
      case None => TryAgain
      case Some(ps) => Success(ps[0], ps[1], ps[2], ps[3..])
  }

  /** The least buffer a host entry fits in. */
  function HostNeeds(name: seq<byte>, addrs: seq<seq<byte>>): nat {
    Needed(0, HostAsks(name, addrs))
  }

  /**
   * A host entry with a NUL-free name is packed exactly when the buffer has the least length or more,
   * at the same offsets however much more; below it, and for a name with a NUL in it always, the caller
   * is told to try again with more room.
   */
  lemma RenderIff(len: nat, more: nat, name: seq<byte>, addrs: seq<seq<byte>>)
    requires len <= more
    ensures Rendered(len, name, addrs).Success? <==> 0 !in name && HostNeeds(name, addrs) <= len
    ensures Rendered(len, name, addrs).Success? ==> Rendered(more, name, addrs) == Rendered(len, name, addrs)
  {
    LayoutIff(len, 0, HostAsks(name, addrs));
    LayoutIff(more, 0, HostAsks(name, addrs));
  }

  /** The input at which the promise to retry fails: no room is ever enough for a name with a NUL in it. */
  lemma NulNeverFits(len: nat, addrs: seq<seq<byte>>)
    ensures Rendered(len, [97, 0, 98], addrs) == TryAgain
  {
    var name: seq<byte> := [97, 0, 98];
    assert name[1] == 0;
  }

  /** The regions of a packed entry, in the order they were asked for. */
  function Regions(r: Status): seq<nat>
    requires r.Success?
  {
    [r.name, r.aliases, r.addresses] + r.slots
  }

  /** Each region of a packed entry is aligned and within the buffer, and ends before the next begins. */
  lemma RegionsApart(len: nat, name: seq<byte>, addrs: seq<seq<byte>>, i: nat, j: nat)
    requires Rendered(len, name, addrs).Success? && i < j < 3 + |addrs|
    ensures var at, asks := Regions(Rendered(len, name, addrs)), HostAsks(name, addrs);
            && |at| == |asks| == 3 + |addrs|
            && at[i] % asks[i].align == 0 && at[j] % asks[j].align == 0
            && at[i] + asks[i].size <= at[j] && at[j] + asks[j].size <= len
  {
    var asks := HostAsks(name, addrs);
    LayoutIff(len, 0, asks);
    PlacesApart(0, asks);
    hide HostAsks, Layout, Places, Needed;
    var ps := Places(0, asks);
    assert [ps[0], ps[1], ps[2]] + ps[3..] == ps;
  }

  lemma LayoutStep(len: nat, used: nat, asks: seq<Ask>)
    requires asks != [] && forall i :: 0 <= i < |asks| ==> Sane(asks[i])
    ensures Offset(len, used, asks[0]).None? ==> Layout(len, used, asks).None?
    ensures Offset(len, used, asks[0]).Some? ==>
              var start := Offset(len, used, asks[0]).value;
              var rest := Layout(len, start + asks[0].size, asks[1..]);
              Layout(len, used, asks) == if rest.None? then None else Some([start] + rest.value)
  {
  }

  lemma NoneLaid(len: nat, used: nat)
    ensures Layout(len, used, []) == Some([])
  {
  }

  // ------------------------------------------------------- octets and pointers

  /** `k` octets of a number, least significant first. */
  function Word(x: nat, k: nat): (s: seq<byte>)
    ensures |s| == k
  {
    if k == 0 then [] else [x % 0x100] + Word(x / 0x100, k - 1)
  }

  function UnWord(s: seq<byte>): nat {
    if s == [] then 0 else s[0] as int + 0x100 * UnWord(s[1..])
  }

  lemma {:induction false} WordReads(x: nat, k: nat)
    requires x < Pow256(k)
    ensures UnWord(Word(x, k)) == x
  {
    if k > 0 {
      WordReads(x / 0x100, k - 1);
      assert Word(x, k)[1..] == Word(x / 0x100, k - 1);
    }
  }

  lemma PointerReads(x: nat)
    requires x < ADDRESS_SPACE
    ensures UnWord(Word(x, WORD)) == x
  {
    assert Pow256(4) == 0x1_0000_0000;
    assert Pow256(8) == 0x1_0000_0000 * 0x1_0000_0000;
    WordReads(x, WORD);
  }

  /** Octets in their slots, all from `lo` on. */
  ghost predicate Holds(mem: seq<byte>, lo: nat, slots: seq<nat>, addrs: seq<seq<byte>>) {
    && |slots| == |addrs|
    && forall i :: 0 <= i < |addrs| ==>
         lo <= slots[i] && slots[i] + |addrs[i]| <= |mem| && mem[slots[i]..slots[i] + |addrs[i]|] == addrs[i]
  }

  lemma InSlice(s: seq<byte>, lo: nat, hi: nat, from: nat, to: nat)
    requires lo <= from <= to <= hi <= |s|
    ensures s[from..to] == s[lo..hi][from - lo..to - lo]
  {
    var a, b := s[from..to], s[lo..hi][from - lo..to - lo];
    assert |a| == |b|;
    forall k | 0 <= k < |a| ensures a[k] == b[k] { assert s[lo..hi][from - lo + k] == s[from + k]; }
  }

  lemma HoldsStill(mem: seq<byte>, mem': seq<byte>, lo: nat, slots: seq<nat>, addrs: seq<seq<byte>>)
    requires Holds(mem, lo, slots, addrs) && lo <= |mem| <= |mem'| && mem'[lo..|mem|] == mem[lo..|mem|]
    ensures Holds(mem', lo, slots, addrs)
  {
    forall i | 0 <= i < |addrs| ensures mem'[slots[i]..slots[i] + |addrs[i]|] == addrs[i] {
      InSlice(mem', lo, |mem|, slots[i], slots[i] + |addrs[i]|);
      InSlice(mem, lo, |mem|, slots[i], slots[i] + |addrs[i]|);
    }
  }

  lemma HoldsSnoc(mem: seq<byte>, lo: nat, slots: seq<nat>, addrs: seq<seq<byte>>, at: nat, a: seq<byte>)
    requires Holds(mem, lo, slots, addrs) && lo <= at && at + |a| <= |mem| && mem[at..at + |a|] == a
    ensures Holds(mem, lo, slots + [at], addrs + [a])
  {
  }

  lemma NothingHeld(mem: seq<byte>, lo: nat)
    ensures Holds(mem, lo, [], [])
  {
  }

  /** The words from `list` on point at the slots, for a buffer that begins at `base`. */
  ghost predicate Points(mem: seq<byte>, base: nat, list: nat, slots: seq<nat>) {
    && list + |slots| * WORD <= |mem|
    && forall i :: 0 <= i < |slots| ==> UnWord(mem[list + i * WORD..list + i * WORD + WORD]) == base + slots[i]
  }

  lemma PointsStill(mem: seq<byte>, mem': seq<byte>, base: nat, list: nat, slots: seq<nat>)
    requires Points(mem, base, list, slots) && list + |slots| * WORD <= |mem'|
    requires mem'[list..list + |slots| * WORD] == mem[list..list + |slots| * WORD]
    ensures Points(mem', base, list, slots)
  {
    forall i | 0 <= i < |slots| ensures UnWord(mem'[list + i * WORD..list + i * WORD + WORD]) == base + slots[i] {
      var from, to := list + i * WORD, list + i * WORD + WORD;
      InSlice(mem', list, list + |slots| * WORD, from, to);
      InSlice(mem, list, list + |slots| * WORD, from, to);
    }
  }

  lemma PointsSnoc(mem: seq<byte>, base: nat, list: nat, slots: seq<nat>, at: nat)
    requires Points(mem, base, list, slots) && list + |slots| * WORD + WORD <= |mem| && base + at < ADDRESS_SPACE
    requires mem[list + |slots| * WORD..list + |slots| * WORD + WORD] == Word(base + at, WORD)
    ensures Points(mem, base, list, slots + [at])
  {
    hide UnWord, Word;
    PointerReads(base + at);
  }

  predicate Zero(mem: seq<byte>, from: nat, to: nat) {
    from <= to <= |mem| && forall k :: from <= k < to ==> mem[k] == 0
  }

  /** Where the packer stands after `slots` addresses: their octets above `lo`, their pointers in the list below it. */
  ghost predicate Packed(mem: seq<byte>, used: nat, lo: nat, base: nat, list: nat, slots: seq<nat>,
                         addrs: seq<seq<byte>>,
                         all: nat)
  {
    && list + (all + 2) * WORD <= lo <= used <= |mem| && |slots| <= all
    && Holds(mem[..used], lo, slots, addrs) && Points(mem[..lo], base, list, slots)
    && Zero(mem, list + |slots| * WORD, list + (all + 2) * WORD)
  }

  /** Storing one address and its pointer. */
  lemma PackedOne(mem: seq<byte>, mid: seq<byte>, mem': seq<byte>, used: nat, used': nat, lo: nat, base: nat, list: nat,
                  slots: seq<nat>, addrs: seq<seq<byte>>, all: nat, at: nat, a: seq<byte>)
    requires Packed(mem, used, lo, base, list, slots, addrs, all) && |slots| < all
    requires |mid| == |mem'| == |mem| && used <= at && used' == at + |a| <= |mem| && base + at < ADDRESS_SPACE
    requires mid[..used] == mem[..used] && mid[at..used'] == a
    requires var w := list + |slots| * WORD;
             && mem'[w..w + WORD] == Word(base + at, WORD)
             && forall k :: 0 <= k < |mem| && !(w <= k < w + WORD) ==> mem'[k] == mid[k]
    ensures Packed(mem', used', lo, base, list, slots + [at], addrs + [a], all)
  {
    hide Word;
    var w := list + |slots| * WORD;
    assert Zero(mem', w + WORD, list + (all + 2) * WORD) by {
      forall k | w + WORD <= k < list + (all + 2) * WORD ensures mem'[k] == 0 {
        assert mem'[k] == mid[k] == mid[..used][k] == mem[..used][k];
      }
    }
    PackedOctets(mem, mid, mem', used, used', lo, slots, addrs, at, a, w);
    PackedPointers(mem, mid, mem', used, lo, base, list, slots, at);
  }

  lemma PackedOctets(mem: seq<byte>, mid: seq<byte>, mem': seq<byte>, used: nat, used': nat, lo: nat, slots: seq<nat>,
                     addrs: seq<seq<byte>>, at: nat, a: seq<byte>, w: nat)
    requires lo <= used <= at && used' == at + |a| <= |mem| && |mid| == |mem'| == |mem| && w + WORD <= lo
    requires Holds(mem[..used], lo, slots, addrs) && mid[..used] == mem[..used] && mid[at..used'] == a
    requires forall k :: 0 <= k < |mem| && !(w <= k < w + WORD) ==> mem'[k] == mid[k]
    ensures Holds(mem'[..used'], lo, slots + [at], addrs + [a])
  {
    hide Holds;
    forall k | lo <= k < used ensures mem'[k] == mem[k] {
      assert mem'[k] == mid[k] == mid[..used][k] == mem[..used][k];
    }
    assert mem'[..used'][lo..used] == mem[..used][lo..used];
    HoldsStill(mem[..used], mem'[..used'], lo, slots, addrs);
    assert mem'[..used'][at..used'] == mid[at..used'];
    HoldsSnoc(mem'[..used'], lo, slots, addrs, at, a);
  }

  lemma PackedPointers(mem: seq<byte>, mid: seq<byte>, mem': seq<byte>, used: nat, lo: nat, base: nat, list: nat,
                       slots: seq<nat>, at: nat)
    requires lo <= used <= |mem| && |mid| == |mem'| == |mem| && list + |slots| * WORD + WORD <= lo
    requires Points(mem[..lo], base, list, slots) && mid[..used] == mem[..used] && base + at < ADDRESS_SPACE
    requires var w := list + |slots| * WORD;
             && mem'[w..w + WORD] == Word(base + at, WORD)
             && forall k :: 0 <= k < |mem| && !(w <= k < w + WORD) ==> mem'[k] == mid[k]
    ensures Points(mem'[..lo], base, list, slots + [at])
  {
    hide Points, Word;
    var w := list + |slots| * WORD;
    forall k | list <= k < w ensures mem'[k] == mem[k] { assert mem'[k] == mid[k] == mid[..used][k] == mem[..used][k]; }
    assert mem'[..lo][list..w] == mem[..lo][list..w];
    PointsStill(mem[..lo], mem'[..lo], base, list, slots);
    assert mem'[..lo][w..w + WORD] == mem'[w..w + WORD];
    PointsSnoc(mem'[..lo], base, list, slots, at);
  }

  lemma NothingPacked(mem: seq<byte>, used: nat, base: nat, list: nat, all: nat)
    requires list + (all + 2) * WORD <= used <= |mem| && Zero(mem, list, list + (all + 2) * WORD)
    ensures Packed(mem, used, used, base, list, [], [], all)
  {
    NothingHeld(mem[..used], used);
  }

  lemma PackedShape(mem: seq<byte>, used: nat, lo: nat, base: nat, list: nat, slots: seq<nat>, addrs: seq<seq<byte>>,
                    all: nat)
    requires Packed(mem, used, lo, base, list, slots, addrs, all)
    ensures list + (all + 2) * WORD <= lo <= used <= |mem| && |slots| == |addrs| <= all
  {
  }

  /** Each address in turn with its pointer, stopping at the first that does not fit. */
  method PutAddresses(p: Packer, base: nat, list: nat, addrs: seq<seq<byte>>) returns (r: Option<seq<nat>>)
    requires p.Valid() && base + p.buf.Length < ADDRESS_SPACE
    requires list + (|addrs| + 2) * WORD <= p.used && Zero(p.buf[..], list, list + (|addrs| + 2) * WORD)
    modifies p`used, p.buf
    ensures p.Valid() && p.used >= old(p.used) && p.buf[..list] == old(p.buf[..list])
    ensures r == Layout(p.buf.Length, old(p.used), AddressAsks(addrs))
    ensures r.Some? ==> Packed(p.buf[..], p.used, old(p.used), base, list, r.value, addrs, |addrs|)
  {
    hide Offset, Layout, Packed, Zero, Word;
    var slots: seq<nat> := [];
    ghost var lo, asks := p.used, AddressAsks(addrs);
    assert asks[0..] == asks && addrs[..0] == [];
    NothingPacked(p.buf[..], p.used, base, list, |addrs|);
    OnwardNone(Layout(p.buf.Length, p.used, asks));
    for i := 0 to |addrs|
      invariant p.Valid() && lo <= p.used && p.buf[..list] == old(p.buf[..list])
      invariant |slots| == i && Packed(p.buf[..], p.used, lo, base, list, slots, addrs[..i], |addrs|)
      invariant Layout(p.buf.Length, lo, asks) == Onward(slots, Layout(p.buf.Length, p.used, asks[i..]))
    {
      ghost var before, mem := p.used, p.buf[..];
      LayoutStep(p.buf.Length, p.used, asks[i..]);
      assert asks[i..][0] == asks[i] && asks[i..][1..] == asks[i + 1..];
      var slot := p.PutBytes(addrs[i], 4);
      assert p.buf[..][..before] == mem[..before];
      assert p.buf[..list] == mem[..before][..list];
      if slot.None? { return None; }
      ghost var mid := p.buf[..];
      assert mid[slot.value..p.used] == addrs[i];
      PackedShape(mem, before, lo, base, list, slots, addrs[..i], |addrs|);
      p.Fill(list + i * WORD, Word(base + slot.value, WORD));
      assert p.buf[..list] == mid[..list];
      assert addrs[..i + 1] == addrs[..i] + [addrs[i]];
      PackedOne(mem, mid, p.buf[..], before, p.used, lo, base, list, slots, addrs[..i], |addrs|, slot.value, addrs[i]);
      OnwardOne(slots, slot.value, Layout(p.buf.Length, p.used, asks[i + 1..]));
      slots := slots + [slot.value];
    }
    assert asks[|addrs|..] == [] && addrs[..|addrs|] == addrs;
    NoneLaid(p.buf.Length, p.used);
    assert slots + [] == slots;
    return Some(slots);
  }

  lemma OnwardNone(rest: Option<seq<nat>>)
    ensures Onward([], rest) == rest
  {
    if rest.Some? { assert [] + rest.value == rest.value; }
  }

  lemma OnwardOne(done: seq<nat>, x: nat, rest: Option<seq<nat>>)
    ensures Onward(done, if rest.None? then None else Some([x] + rest.value)) == Onward(done + [x], rest)
  {
    if rest.Some? { assert done + ([x] + rest.value) == done + [x] + rest.value; }
  }

  /** The layout of a host entry, thing by thing. */
  function HostLayout(len: nat, name: seq<byte>, addrs: seq<seq<byte>>): Status {
    var a := Offset(len, 0, Ask(|name| + 1, 1));
    if 0 in name || a.None? then TryAgain
    else
      var b := Offset(len, a.value + |name| + 1, Ask(2 * WORD, WORD));
      if b.None? then TryAgain
      else
        var c := Offset(len, b.value + 2 * WORD, Ask((|addrs| + 2) * WORD, WORD));
        if c.None? then TryAgain
        else
          var ps := Layout(len, c.value + (|addrs| + 2) * WORD, AddressAsks(addrs));
          if ps.None? then TryAgain else Success(a.value, b.value, c.value, ps.value)
  }

  lemma HostLaid(len: nat, name: seq<byte>, addrs: seq<seq<byte>>)
    ensures HostLayout(len, name, addrs) == Rendered(len, name, addrs)
  {
    hide Offset, Layout;
    var asks := HostAsks(name, addrs);
    assert asks[1..][0] == asks[1] && asks[1..][1..][0] == asks[2] && asks[1..][1..][1..] == AddressAsks(addrs);
    LayoutStep(len, 0, asks);
    var a := Offset(len, 0, asks[0]);
    if a.Some? {
      LayoutStep(len, a.value + asks[0].size, asks[1..]);
      var b := Offset(len, a.value + asks[0].size, asks[1]);
      if b.Some? {
        LayoutStep(len, b.value + asks[1].size, asks[1..][1..]);
        var c := Offset(len, b.value + asks[1].size, asks[2]);
        if c.Some? {
          var ps := Layout(len, c.value + asks[2].size, AddressAsks(addrs));
          if ps.Some? { assert ([a.value] + ([b.value] + ([c.value] + ps.value)))[3..] == ps.value; }
        }
      }
    }
  }

  /**
   * A packed entry in memory: the name with its terminator, no aliases, and a null-ended list of
   * pointers to the octets.
   */
  ghost predicate Entry(mem: seq<byte>, base: nat, r: Status, name: seq<byte>, addrs: seq<seq<byte>>)
    requires r.Success?
  {
    && r.name + |name| + 1 <= |mem| && mem[r.name..r.name + |name| + 1] == name + [0]
    && Zero(mem, r.aliases, r.aliases + 2 * WORD)
    && Points(mem, base, r.addresses, r.slots)
    && Zero(mem, r.addresses + |addrs| * WORD, r.addresses + (|addrs| + 2) * WORD)
    && Holds(mem, 0, r.slots, addrs)
  }

  lemma PackedEntry(mem: seq<byte>, used: nat, lo: nat, base: nat, r: Status, name: seq<byte>, addrs: seq<seq<byte>>)
    requires r.Success? && Packed(mem, used, lo, base, r.addresses, r.slots, addrs, |addrs|)
    requires r.name + |name| + 1 <= |mem| && mem[r.name..r.name + |name| + 1] == name + [0]
    requires Zero(mem, r.aliases, r.aliases + 2 * WORD)
    ensures Entry(mem, base, r, name, addrs)
  {
    assert Points(mem, base, r.addresses, r.slots) by {
      var n := |r.slots| * WORD;
      assert mem[..lo][r.addresses..r.addresses + n] == mem[r.addresses..r.addresses + n];
      PointsStill(mem[..lo], mem, base, r.addresses, r.slots);
    }
    assert Holds(mem, lo, r.slots, addrs) by {
      assert mem[lo..used] == mem[..used][lo..used];
      HoldsStill(mem[..used], mem, lo, r.slots, addrs);
    }
  }

  lemma ZeroBelow(mem: seq<byte>, mem': seq<byte>, cut: nat, from: nat, to: nat)
    requires Zero(mem, from, to) && to <= cut <= |mem| && cut <= |mem'| && mem'[..cut] == mem[..cut]
    ensures Zero(mem', from, to)
  {
    forall k | from <= k < to ensures mem'[k] == 0 { assert mem'[..cut][k] == mem[..cut][k]; }
  }

  lemma SameBelow(mem: seq<byte>, mem': seq<byte>, cut: nat, from: nat, to: nat)
    requires from <= to <= cut <= |mem| && cut <= |mem'| && mem'[..cut] == mem[..cut]
    ensures mem'[from..to] == mem[from..to]
  {
    assert mem'[from..to] == mem'[..cut][from..to] && mem[from..to] == mem[..cut][from..to];
  }

  /** The entry as it is packed into a buffer that begins at address `base`. */
  method RenderHost(b: array<byte>, base: nat, name: seq<byte>, addrs: seq<seq<byte>>) returns (r: Status)
    requires base + b.Length < ADDRESS_SPACE
    modifies b
    ensures r == Rendered(b.Length, name, addrs)
    ensures r.Success? ==> Entry(b[..], base, r, name, addrs)
  {
    hide Offset, Layout, Packed, Rendered, Zero, Entry;
    HostLaid(b.Length, name, addrs);
    var p := new Packer(b);
    var at := p.Str(name);
    if at.None? { return TryAgain; }
    ghost var head, m0 := p.used, b[..];
    var aliases := p.Pointers(1);
    if aliases.None? { return TryAgain; }
    ghost var mid, m1 := p.used, b[..];
    assert m1[..head] == m0[..head];
    SameBelow(m0, m1, head, at.value, head);
    AllZero(m1, aliases.value, mid);
    var list := p.Pointers(|addrs| + 1);
    if list.None? { return TryAgain; }
    ghost var m2 := b[..];
    assert m2[..mid] == m1[..mid];
    SameBelow(m1, m2, mid, at.value, head);
    ZeroBelow(m1, m2, mid, aliases.value, mid);
    AllZero(m2, list.value, p.used);
    ghost var lo := p.used;
    var slots := PutAddresses(p, base, list.value, addrs);
    if slots.None? { return TryAgain; }
    r := Success(at.value, aliases.value, list.value, slots.value);
    assert b[..][..list.value] == m2[..list.value];
    SameBelow(m2, b[..], list.value, at.value, head);
    ZeroBelow(m2, b[..], list.value, aliases.value, mid);
    PackedEntry(b[..], p.used, lo, base, r, name, addrs);
  }

  lemma AllZero(mem: seq<byte>, from: nat, to: nat)
    requires from <= to <= |mem| && forall k :: from <= k < to ==> mem[k] == 0
    ensures Zero(mem, from, to)
  {
  }

  function Onward(done: seq<nat>, rest: Option<seq<nat>>): Option<seq<nat>> {
    match rest
    case None => None
    case Some(ps) => Some(done + ps)
  }
}
