/** Maps of named fields on the native wire: walked in order, duplicates refused, unknown fields skipped. */
module NativeFields {
  import opened Bytes
  import opened Results
  import opened MsgPack

  type Key = seq<byte>

  datatype WireFault =
    | Encoding(fault: Fault)
    | Missing(what: string)
    | Duplicate(key: Key)
    | UnknownQuery(query: seq<byte>)

  /** A value read, or the fault as the message layer reports it. */
  type Parsed<T> = Result<(T, nat), WireFault>

  function Lift<T>(r: Read<T>): Parsed<T> {
    match r
    case Ok(x) => Ok(x)
    case Err(e) => Err(Encoding(e))
  }

  /** What one field does to the fields gathered so far. */
  type Handler<!A> = (seq<byte>, Key, nat, A) -> Parsed<A>

  function EachField<A>(f: Handler<A>, buf: seq<byte>, pos: nat, n: nat, seen: seq<Key>, acc: A): Parsed<A>
    decreases n
  {
    if n == 0 then Ok((acc, pos))
    else
      var (key, p) :- Lift(ReadStr(buf, pos));
      if key in seen then Err(Duplicate(key))
      else
        var (acc', p) :- f(buf, key, p, acc);
        EachField(f, buf, p, n - 1, seen + [key], acc')
  }

  function Fields<A>(f: Handler<A>, buf: seq<byte>, pos: nat, acc: A): Parsed<A> {
    var (n, p) :- Lift(ReadMap(buf, pos));
    EachField(f, buf, p, n, [], acc)
  }

  function SkipField<A>(buf: seq<byte>, pos: nat, acc: A): Parsed<A> {
    match Skip(buf, pos, 0)
    case Ok(p) => Ok((acc, p))
    case Err(e) => Err(Encoding(e))
  }

  type Item<!T> = (seq<byte>, nat) -> Parsed<T>

  function EachItem<T>(g: Item<T>, buf: seq<byte>, pos: nat, n: nat): Parsed<seq<T>>
    decreases n
  {
    if n == 0 then Ok(([], pos))
    else
      var (x, p) :- g(buf, pos);
      var (rest, p) :- EachItem(g, buf, p, n - 1);
      Ok(([x] + rest, p))
  }

  function Items<T>(g: Item<T>, buf: seq<byte>, pos: nat): Parsed<seq<T>> {
    var (n, p) :- Lift(ReadArray(buf, pos));
    EachItem(g, buf, p, n)
  }

  // ---------------------------------------------------------------- writing

  datatype Field = Field(key: Text, raw: seq<byte>)

  function PackField(x: Field): seq<byte> {
    PackStr(x.key) + x.raw
  }

  function PackFields(xs: seq<Field>): seq<byte> {
    if xs == [] then [] else PackField(xs[0]) + PackFields(xs[1..])
  }

  function PackMap(xs: seq<Field>): (s: seq<byte>)
    requires |xs| < 0x1_0000_0000
    ensures s != []
  {
    MapHead(|xs|) + PackFields(xs)
  }

  function PackItems(raws: seq<seq<byte>>): seq<byte> {
    if raws == [] then [] else raws[0] + PackItems(raws[1..])
  }

  function PackArray(raws: seq<seq<byte>>): seq<byte>
    requires |raws| < 0x1_0000_0000
  {
    ArrayHead(|raws|) + PackItems(raws)
  }

  // -------------------------------------------------------- reading it back

  /** Wherever `raw` lies, the handler takes it to mean the change from `acc` to `acc'`. */
  ghost predicate Reads<A>(f: Handler<A>, x: Field, acc: A, acc': A) {
    x.raw != [] && forall buf, pos: nat :: At(buf, pos, x.raw) ==> f(buf, x.key, pos, acc) == Ok((acc', pos + |x.raw|))
  }

  ghost predicate ItemReads<T>(g: Item<T>, raw: seq<byte>, x: T) {
    raw != [] && forall buf, pos: nat :: At(buf, pos, raw) ==> g(buf, pos) == Ok((x, pos + |raw|))
  }

  /** The fields, one after another, take `accs[0]` through to the last. */
  ghost predicate Chain<A>(f: Handler<A>, fs: seq<Field>, accs: seq<A>) {
    |accs| == |fs| + 1 && forall j :: 0 <= j < |fs| ==> Reads(f, fs[j], accs[j], accs[j + 1])
  }

  /** One well-formed value of any kind. */
  ghost predicate IsValue(raw: seq<byte>) {
    exists t: Tree :: Fits(t, MAX_DEPTH) && Flat(t) == raw
  }

  /** Keys the handler does not know, it skips. */
  ghost predicate SkipsOthers<A(!new)>(f: Handler<A>, known: Key -> bool) {
    forall buf, key, pos: nat, acc: A :: !known(key) ==> f(buf, key, pos, acc) == SkipField(buf, pos, acc)
  }

  function OnlyKnown(gs: seq<Field>, known: Key -> bool): seq<Field> {
    if gs == [] then [] else (if known(gs[0].key) then [gs[0]] else []) + OnlyKnown(gs[1..], known)
  }

  predicate DistinctKeys(gs: seq<Field>) {
    forall i, j :: 0 <= i < j < |gs| ==> gs[i].key != gs[j].key
  }

  /** `gs` is `fs` with well-formed fields of unknown keys put in anywhere. */
  ghost predicate Padded(gs: seq<Field>, fs: seq<Field>, known: Key -> bool) {
    && |gs| < 0x1_0000_0000 && DistinctKeys(gs) && OnlyKnown(gs, known) == fs
    && forall i :: 0 <= i < |gs| && !known(gs[i].key) ==> IsValue(gs[i].raw)
  }

  lemma PaddedSize(gs: seq<Field>, fs: seq<Field>, known: Key -> bool)
    requires Padded(gs, fs, known)
    ensures |gs| < 0x1_0000_0000
  {
  }

  lemma SkipsValue<A>(buf: seq<byte>, pos: nat, raw: seq<byte>, acc: A)
    requires IsValue(raw) && At(buf, pos, raw)
    ensures raw != [] && SkipField(buf, pos, acc) == Ok((acc, pos + |raw|))
  {
    var t: Tree :| Fits(t, MAX_DEPTH) && Flat(t) == raw;
    FlatSize(t, MAX_DEPTH);
    SkipsTree(buf, pos, t, 0);
  }

  /** A field read, then the rest. */
  lemma FieldThen<A>(f: Handler<A>, buf: seq<byte>, pos: nat, x: Field, n: nat, seen: seq<Key>, acc: A, acc': A)
    requires n > 0 && x.key !in seen && At(buf, pos, PackField(x))
    requires f(buf, x.key, pos + |PackStr(x.key)|, acc) == Ok((acc', pos + |PackField(x)|))
    ensures EachField(f, buf, pos, n, seen, acc) == EachField(f, buf, pos + |PackField(x)|, n - 1, seen + [x.key], acc')
  {
    hide At, ReadStr, PackStr;
    AtSplit(buf, pos, PackStr(x.key), x.raw);
    StrReads(buf, pos, x.key);
  }

  /** The first field is read or skipped, and the rest of the chain is for the rest of the fields. */
  lemma FirstField<A(!new)>(f: Handler<A>, known: Key -> bool, gs: seq<Field>, accs: seq<A>, buf: seq<byte>, pos: nat)
    returns (rest: seq<A>)
    requires gs != [] && SkipsOthers(f, known) && Chain(f, OnlyKnown(gs, known), accs)
    requires !known(gs[0].key) ==> IsValue(gs[0].raw)
    requires At(buf, pos, gs[0].raw)
    ensures accs != [] && Chain(f, OnlyKnown(gs[1..], known), rest) && rest != []
    ensures rest[|rest| - 1] == accs[|accs| - 1]
    ensures f(buf, gs[0].key, pos, accs[0]) == Ok((rest[0], pos + |gs[0].raw|))
  {
    hide At, IsValue, SkipField, Reads, SkipsOthers;
    ChainSize(f, OnlyKnown(gs, known), accs);
    if known(gs[0].key) {
      KnownFirst(gs, known);
      ChainFirst(f, OnlyKnown(gs, known), accs, buf, pos);
      assert OnlyKnown(gs, known)[1..] == OnlyKnown(gs[1..], known);
      rest := accs[1..];
    } else {
      SkipsValue(buf, pos, gs[0].raw, accs[0]);
      SkipsOther(f, known, buf, gs[0].key, pos, accs[0]);
      assert OnlyKnown(gs, known) == OnlyKnown(gs[1..], known);
      rest := accs;
    }
  }

  lemma NoFields(known: Key -> bool, gs: seq<Field>)
    requires gs == []
    ensures OnlyKnown(gs, known) == [] && PackFields(gs) == []
  {
  }

  lemma SeenMore(gs: seq<Field>, seen: seq<Key>)
    requires gs != [] && DistinctKeys(gs) && forall i :: 0 <= i < |gs| ==> gs[i].key !in seen
    ensures DistinctKeys(gs[1..]) && forall i :: 0 <= i < |gs[1..]| ==> gs[1..][i].key !in seen + [gs[0].key]
  {
    forall i | 0 <= i < |gs[1..]| ensures gs[1..][i].key !in seen + [gs[0].key] { assert gs[1..][i] == gs[i + 1]; }
  }

  lemma {:induction false} EachPadded<A(!new)>(f: Handler<A>, known: Key -> bool, gs: seq<Field>, accs: seq<A>,
                                               buf: seq<byte>, pos: nat, seen: seq<Key>)
    requires SkipsOthers(f, known) && Chain(f, OnlyKnown(gs, known), accs) && DistinctKeys(gs)
    requires forall i :: 0 <= i < |gs| ==> gs[i].key !in seen
    requires forall i :: 0 <= i < |gs| && !known(gs[i].key) ==> IsValue(gs[i].raw)
    requires At(buf, pos, PackFields(gs))
    ensures accs != [] && EachField(f, buf, pos, |gs|, seen, accs[0]) == Ok((accs[|accs| - 1], pos + |PackFields(gs)|))
    decreases |gs|
  {
    hide At, PackField, IsValue, Reads, SkipsOthers, Chain, DistinctKeys, OnlyKnown, EachField;
    ChainSize(f, OnlyKnown(gs, known), accs);
    if gs == [] {
      NoFields(known, gs);
      FieldsDone(f, buf, pos, seen, accs[0]);
    } else {
      var x := gs[0];
      AtSplit(buf, pos, PackField(x), PackFields(gs[1..]));
      RawAt(buf, pos, x);
      var rest := FirstField(f, known, gs, accs, buf, pos + |PackStr(x.key)|);
      FieldThen(f, buf, pos, x, |gs|, seen, accs[0], rest[0]);
      SeenMore(gs, seen);
      EachPadded(f, known, gs[1..], rest, buf, pos + |PackField(x)|, seen + [x.key]);
    }
  }

  lemma FieldsDone<A>(f: Handler<A>, buf: seq<byte>, pos: nat, seen: seq<Key>, acc: A)
    ensures EachField(f, buf, pos, 0, seen, acc) == Ok((acc, pos))
  {
  }

  lemma SkipsOther<A(!new)>(f: Handler<A>, known: Key -> bool, buf: seq<byte>, key: Key, pos: nat, acc: A)
    requires SkipsOthers(f, known) && !known(key)
    ensures f(buf, key, pos, acc) == SkipField(buf, pos, acc)
  {
  }

  lemma RawAt(buf: seq<byte>, pos: nat, x: Field)
    requires At(buf, pos, PackField(x))
    ensures At(buf, pos + |PackStr(x.key)|, x.raw) && |PackField(x)| == |PackStr(x.key)| + |x.raw|
  {
    AtSplit(buf, pos, PackStr(x.key), x.raw);
  }

  lemma KnownFirst(gs: seq<Field>, known: Key -> bool)
    requires gs != [] && known(gs[0].key)
    ensures OnlyKnown(gs, known) == [gs[0]] + OnlyKnown(gs[1..], known)
  {
  }

  lemma ChainFirst<A>(f: Handler<A>, fs: seq<Field>, accs: seq<A>, buf: seq<byte>, pos: nat)
    requires fs != [] && Chain(f, fs, accs) && At(buf, pos, fs[0].raw)
    ensures f(buf, fs[0].key, pos, accs[0]) == Ok((accs[1], pos + |fs[0].raw|))
    ensures Chain(f, fs[1..], accs[1..])
  {
    assert Reads(f, fs[0], accs[0], accs[1]);
    forall j | 0 <= j < |fs[1..]| ensures Reads(f, fs[1..][j], accs[1..][j], accs[1..][j + 1]) {
      assert Reads(f, fs[j + 1], accs[j + 1], accs[j + 2]);
    }
  }

  lemma {:induction false} FieldsSize<A(!new)>(f: Handler<A>, known: Key -> bool, gs: seq<Field>, accs: seq<A>)
    requires Chain(f, OnlyKnown(gs, known), accs)
    requires forall i :: 0 <= i < |gs| && !known(gs[i].key) ==> IsValue(gs[i].raw)
    ensures |PackFields(gs)| >= 2 * |gs|
    decreases |gs|
  {
    if gs != [] {
      hide IsValue, PackStr, Reads;
      if known(gs[0].key) {
        KnownFirst(gs, known);
        assert gs[0].raw != [] by { ChainRaw(f, OnlyKnown(gs, known), accs); }
        ChainRest(f, OnlyKnown(gs, known), accs);
        FieldsSize(f, known, gs[1..], accs[1..]);
      } else {
        ValueSize(gs[0].raw);
        FieldsSize(f, known, gs[1..], accs);
      }
    }
  }

  lemma ChainRaw<A>(f: Handler<A>, fs: seq<Field>, accs: seq<A>)
    requires fs != [] && Chain(f, fs, accs)
    ensures fs[0].raw != []
  {
    assert Reads(f, fs[0], accs[0], accs[1]);
  }

  lemma ChainRest<A>(f: Handler<A>, fs: seq<Field>, accs: seq<A>)
    requires fs != [] && Chain(f, fs, accs)
    ensures Chain(f, fs[1..], accs[1..])
  {
    forall j | 0 <= j < |fs[1..]| ensures Reads(f, fs[1..][j], accs[1..][j], accs[1..][j + 1]) {
      assert Reads(f, fs[j + 1], accs[j + 1], accs[j + 2]);
    }
  }

  lemma ValueSize(raw: seq<byte>)
    requires IsValue(raw)
    ensures raw != []
  {
    var t: Tree :| Fits(t, MAX_DEPTH) && Flat(t) == raw;
    FlatSize(t, MAX_DEPTH);
  }

  /** A map with any well-formed unknown fields put in means what it meant without them. */
  lemma MapPadded<A(!new)>(f: Handler<A>, known: Key -> bool, gs: seq<Field>, fs: seq<Field>, accs: seq<A>,
                           buf: seq<byte>, pos: nat)
    requires SkipsOthers(f, known) && Padded(gs, fs, known) && Chain(f, fs, accs) && At(buf, pos, PackMap(gs))
    ensures Fields(f, buf, pos, accs[0]) == Ok((accs[|fs|], pos + |PackMap(gs)|))
  {
    hide At, MapHead, ReadMap, EachField, SkipsOthers, Chain, IsValue, DistinctKeys;
    AtSplit(buf, pos, MapHead(|gs|), PackFields(gs));
    FieldsSize(f, known, gs, accs);
    AtEnd(buf, pos + |MapHead(|gs|)|, PackFields(gs));
    MapReads(buf, pos, |gs|);
    EachPadded(f, known, gs, accs, buf, pos + |MapHead(|gs|)|, []);
    ChainSize(f, fs, accs);
  }

  lemma ChainSize<A>(f: Handler<A>, fs: seq<Field>, accs: seq<A>)
    requires Chain(f, fs, accs)
    ensures |accs| == |fs| + 1
  {
  }

  // ------------------------------------------------------------------- lists

  lemma ItemAt<T>(g: Item<T>, raw: seq<byte>, x: T, buf: seq<byte>, pos: nat)
    requires ItemReads(g, raw, x) && At(buf, pos, raw)
    ensures raw != [] && g(buf, pos) == Ok((x, pos + |raw|))
  {
  }

  lemma ItemsDone<T>(g: Item<T>, buf: seq<byte>, pos: nat)
    ensures EachItem(g, buf, pos, 0) == Ok(([], pos))
  {
  }

  lemma ItemThen<T>(g: Item<T>, buf: seq<byte>, pos: nat, n: nat, x: T, p: nat, rest: seq<T>, end: nat)
    requires g(buf, pos) == Ok((x, p)) && EachItem(g, buf, p, n) == Ok((rest, end))
    ensures EachItem(g, buf, pos, n + 1) == Ok(([x] + rest, end))
  {
  }

  lemma {:induction false} EachItemReads<T>(g: Item<T>, raws: seq<seq<byte>>, xs: seq<T>, buf: seq<byte>, pos: nat)
    requires |raws| == |xs| && forall i :: 0 <= i < |raws| ==> ItemReads(g, raws[i], xs[i])
    requires At(buf, pos, PackItems(raws))
    ensures EachItem(g, buf, pos, |raws|) == Ok((xs, pos + |PackItems(raws)|))
    ensures |PackItems(raws)| >= |raws|
    decreases |raws|
  {
    hide At, ItemReads, EachItem;
    if raws == [] {
      ItemsDone(g, buf, pos);
    } else {
      forall i | 0 <= i < |raws| - 1 ensures ItemReads(g, raws[1..][i], xs[1..][i]) {
        assert raws[1..][i] == raws[i + 1] && xs[1..][i] == xs[i + 1];
      }
      AtSplit(buf, pos, raws[0], PackItems(raws[1..]));
      ItemAt(g, raws[0], xs[0], buf, pos);
      EachItemReads(g, raws[1..], xs[1..], buf, pos + |raws[0]|);
      ItemThen(g, buf, pos, |raws| - 1, xs[0], pos + |raws[0]|, xs[1..], pos + |PackItems(raws)|);
      assert xs == [xs[0]] + xs[1..];
    }
  }

  lemma ItemsRead<T>(g: Item<T>, raws: seq<seq<byte>>, xs: seq<T>, buf: seq<byte>, pos: nat)
    requires |raws| == |xs| < 0x1_0000_0000 && forall i :: 0 <= i < |raws| ==> ItemReads(g, raws[i], xs[i])
    requires At(buf, pos, PackArray(raws))
    ensures Items(g, buf, pos) == Ok((xs, pos + |PackArray(raws)|))
  {
    hide At, ArrayHead, ReadArray, ItemReads;
    AtSplit(buf, pos, ArrayHead(|raws|), PackItems(raws));
    EachItemReads(g, raws, xs, buf, pos + |ArrayHead(|raws|)|);
    AtEnd(buf, pos + |ArrayHead(|raws|)|, PackItems(raws));
    ArrayReads(buf, pos, |raws|);
  }

  // -------------------------------------------- the readers, wherever they read

  predicate IsText(s: seq<byte>) {
    ValidUtf8(s) && |s| < 0x1_0000_0000
  }

  lemma StrAlways(s: seq<byte>)
    requires IsText(s)
    ensures forall buf, pos: nat :: At(buf, pos, PackStr(s)) ==> ReadStr(buf, pos) == Ok((s, pos + |PackStr(s)|))
    ensures PackStr(s) != []
  {
    hide At, PackStr, ReadStr;
    forall buf, pos: nat | At(buf, pos, PackStr(s)) ensures ReadStr(buf, pos) == Ok((s, pos + |PackStr(s)|)) {
      StrReads(buf, pos, s);
    }
  }

  lemma UintAlways(v: nat)
    requires v < 0x8000_0000_0000_0000
    ensures forall buf, pos: nat :: At(buf, pos, PackUint(v)) ==> ReadUint(buf, pos) == Ok((v, pos + |PackUint(v)|))
    ensures PackUint(v) != []
  {
    hide At, PackUint, ReadUint;
    forall buf, pos: nat | At(buf, pos, PackUint(v)) ensures ReadUint(buf, pos) == Ok((v, pos + |PackUint(v)|)) {
      UintReads(buf, pos, v);
    }
  }

  lemma BoolAlways(v: bool)
    ensures forall buf, pos: nat :: At(buf, pos, PackBool(v)) ==> ReadBool(buf, pos) == Ok((v, pos + |PackBool(v)|))
    ensures PackBool(v) != []
  {
    hide At, ReadBool;
    forall buf, pos: nat | At(buf, pos, PackBool(v)) ensures ReadBool(buf, pos) == Ok((v, pos + |PackBool(v)|)) {
      BoolReads(buf, pos, v);
    }
  }

  lemma BinAlways(s: seq<byte>)
    requires |s| < 0x1_0000_0000
    ensures forall buf, pos: nat :: At(buf, pos, PackBin(s)) ==> ReadBin(buf, pos) == Ok((s, pos + |PackBin(s)|))
    ensures PackBin(s) != []
  {
    hide At, ReadBin;
    forall buf, pos: nat | At(buf, pos, PackBin(s)) ensures ReadBin(buf, pos) == Ok((s, pos + |PackBin(s)|)) {
      BinReads(buf, pos, s);
    }
  }

  lemma ItemsAlways<T>(g: Item<T>, raws: seq<seq<byte>>, xs: seq<T>)
    requires |raws| == |xs| < 0x1_0000_0000 && forall i :: 0 <= i < |raws| ==> ItemReads(g, raws[i], xs[i])
    ensures forall buf, pos: nat :: At(buf, pos, PackArray(raws)) ==>
              Items(g, buf, pos) == Ok((xs, pos + |PackArray(raws)|))
    ensures PackArray(raws) != []
  {
    hide At, ItemReads, Items;
    forall buf, pos: nat | At(buf, pos, PackArray(raws))
      ensures Items(g, buf, pos) == Ok((xs, pos + |PackArray(raws)|))
    {
      ItemsRead(g, raws, xs, buf, pos);
    }
  }

  lemma {:induction false} PackSnoc(xs: seq<Field>, x: Field)
    ensures PackFields(xs + [x]) == PackFields(xs) + PackField(x)
  {
    hide PackField;
    if xs == [] {
      assert xs + [x] == [x] && [x][1..] == [];
    } else {
      assert (xs + [x])[1..] == xs[1..] + [x];
      PackSnoc(xs[1..], x);
    }
  }
}
