/** Reply values on the native wire, and maps of known keys in general. */
module NativeSchemas {
  import opened Bytes
  import opened Results
  import opened Dns
  import opened Lookups
  import opened MsgPack
  import opened NativeFields

  datatype Validation = Unvalidated | Secure | Insecure | Bogus

  datatype RecordOut = RecordOut(name: seq<byte>, rtype: u16, ttl: u32, data: seq<byte>, text: seq<byte>)

  datatype AnswerOut = AnswerOut(
    outcome: Outcome, records: seq<RecordOut>, source: seq<byte>, server: Option<seq<byte>>,
    interface_: Option<seq<byte>>, validation: Validation, rcode: u16)

  datatype AddressOut = AddressOut(address: IpAddr, ttl: u32)

  datatype AddressesOut = AddressesOut(
    outcome: Outcome, canonical: seq<byte>, addresses: seq<AddressOut>, source: seq<byte>, validation: Validation)

  datatype ScopeOut = ScopeOut(
    interface_: seq<byte>, servers: seq<seq<byte>>, domains: seq<seq<byte>>, defaultRoute: bool, exclusive: bool,
    metric: u32, subnets: seq<seq<byte>>, demoted: seq<seq<byte>>)

  datatype CountersOut = CountersOut(
    queries: nat, synthetic: nat, cacheHits: nat, upstreamSent: nat, upstreamAnswered: nat, upstreamFailed: nat,
    refused: nat)

  datatype StatusOut = StatusOut(
    hostname: seq<byte>, netd: bool, scopes: seq<ScopeOut>, fallbackServers: seq<seq<byte>>, cacheEntries: nat,
    counters: CountersOut)

  datatype Reply =
    | Done
    | Failed(message: seq<byte>)
    | Answered(answer: AnswerOut)
    | Addressed(addresses: AddressesOut)
    | Reported(status: StatusOut)

  // ------------------------------------------------------------------ values

  /** What a field's value may be. */
  datatype Val =
    | VStr(s: seq<byte>)
    | VUint(n: nat)
    | VBool(b: bool)
    | VBin(bin: seq<byte>)
    | VOpt(o: Option<seq<byte>>)
    | VStrs(ss: seq<seq<byte>>)
    | VRecords(records: seq<RecordOut>)
    | VAddresses(addresses: seq<AddressOut>)
    | VScopes(scopes: seq<ScopeOut>)
    | VCounters(counters: CountersOut)

  datatype Kind = AStr | AUint | ABool | ABin | AOpt | AStrs | ARecords | AnAddresses | AScopes | ACounters

  function StrItem(buf: seq<byte>, pos: nat): Parsed<seq<byte>> {
    Lift(ReadStr(buf, pos))
  }

  /** A string or nil. */
  function OptItem(buf: seq<byte>, pos: nat): Parsed<Option<seq<byte>>> {
    if pos < |buf| && buf[pos] == 0xc0 then Ok((None, pos + 1))
    else
      var (s, p) :- Lift(ReadStr(buf, pos));
      Ok((Some(s), p))
  }

  function ReadScalar(k: Kind, buf: seq<byte>, pos: nat): Parsed<Val> {
    match k
    case AStr =>
      var (s, p) :- Lift(ReadStr(buf, pos));
      Ok((VStr(s), p))
    case AUint =>
      var (n, p) :- Lift(ReadUint(buf, pos));
      Ok((VUint(n), p))
    case ABool =>
      var (b, p) :- Lift(ReadBool(buf, pos));
      Ok((VBool(b), p))
    case ABin =>
      var (s, p) :- Lift(ReadBin(buf, pos));
      Ok((VBin(s), p))
    case AOpt =>
      var (o, p) :- OptItem(buf, pos);
      Ok((VOpt(o), p))
    case _ =>
      var (ss, p) :- Items(StrItem, buf, pos);
      Ok((VStrs(ss), p))
  }

  function PackOpt(o: Option<seq<byte>>): seq<byte> {
    match o
    case None => [0xc0]
    case Some(s) => PackStr(s)
  }

  function PackStrs(ss: seq<seq<byte>>): seq<byte>
    requires |ss| < 0x1_0000_0000
  {
    PackArray(seq(|ss|, i requires 0 <= i < |ss| => PackStr(ss[i])))
  }

  predicate Texts(ss: seq<seq<byte>>) {
    |ss| < 0x1_0000_0000 && forall i :: 0 <= i < |ss| ==> IsText(ss[i])
  }

  /** `raw`, wherever it lies, reads as the value. */
  ghost predicate Means(read: (Kind, seq<byte>, nat) -> Parsed<Val>, k: Kind, raw: seq<byte>, v: Val) {
    raw != [] && forall buf, pos: nat :: At(buf, pos, raw) ==> read(k, buf, pos) == Ok((v, pos + |raw|))
  }

  lemma StrMeans(s: seq<byte>)
    requires IsText(s)
    ensures Means(ReadScalar, AStr, PackStr(s), VStr(s))
  {
    hide At, PackStr, ReadStr, IsText;
    StrAlways(s);
  }

  lemma UintMeans(n: nat)
    requires n < 0x8000_0000_0000_0000
    ensures Means(ReadScalar, AUint, PackUint(n), VUint(n))
  {
    hide At, PackUint, ReadUint;
    UintAlways(n);
  }

  lemma BoolMeans(b: bool)
    ensures Means(ReadScalar, ABool, PackBool(b), VBool(b))
  {
    hide At, PackBool, ReadBool;
    BoolAlways(b);
  }

  lemma BinMeans(s: seq<byte>)
    requires |s| < 0x1_0000_0000
    ensures Means(ReadScalar, ABin, PackBin(s), VBin(s))
  {
    hide At, PackBin, ReadBin;
    BinAlways(s);
  }

  lemma NotNil(buf: seq<byte>, pos: nat, s: seq<byte>)
    requires At(buf, pos, PackStr(s))
    ensures pos < |buf| && buf[pos] != 0xc0
  {
    assert buf[pos + 0] == PackStr(s)[0];
  }

  lemma OptMeans(o: Option<seq<byte>>)
    requires o.Some? ==> IsText(o.value)
    ensures Means(ReadScalar, AOpt, PackOpt(o), VOpt(o))
  {
    hide Means, IsText;
    if o.Some? { SomeMeans(o.value); } else { NilMeans(); }
  }

  lemma SomeMeans(s: seq<byte>)
    requires IsText(s)
    ensures Means(ReadScalar, AOpt, PackStr(s), VOpt(Some(s)))
  {
    hide At, PackStr, ReadStr, IsText;
    StrAlways(s);
    forall buf, pos: nat | At(buf, pos, PackStr(s)) ensures OptItem(buf, pos) == Ok((Some(s), pos + |PackStr(s)|)) {
      NotNil(buf, pos, s);
    }
  }

  lemma NilMeans()
    ensures Means(ReadScalar, AOpt, [0xc0], VOpt(None))
  {
    forall buf, pos: nat | At(buf, pos, [0xc0]) ensures OptItem(buf, pos) == Ok((None, pos + 1)) {
      assert buf[pos + 0] == [0xc0][0];
    }
  }

  lemma StrsMean(ss: seq<seq<byte>>)
    requires Texts(ss)
    ensures Means(ReadScalar, AStrs, PackStrs(ss), VStrs(ss))
  {
    hide At, PackStr, ReadStr, IsText, Items, PackArray;
    var raws := seq(|ss|, i requires 0 <= i < |ss| => PackStr(ss[i]));
    forall i | 0 <= i < |raws| ensures ItemReads(StrItem, raws[i], ss[i]) { StrAlways(ss[i]); }
    ItemsAlways(StrItem, raws, ss);
  }

  // ----------------------------------------------------------------- schemas

  /** A kind of map: the keys it knows, what each holds, and what each sets. */
  datatype Schema<!K, !A> = Schema(
    keyOf: Key -> Option<K>, spell: K -> Text, kindOf: K -> Kind, set_: (A, K, Val) -> A,
    read: (Kind, seq<byte>, nat) -> Parsed<Val>)

  function SchemaField<K, A>(m: Schema<K, A>, buf: seq<byte>, key: Key, pos: nat, a: A): Parsed<A> {
    match m.keyOf(key)
    case None => SkipField(buf, pos, a)
    case Some(k) =>
      var (v, p) :- m.read(m.kindOf(k), buf, pos);
      Ok((m.set_(a, k, v), p))
  }

  function HandlerOf<K, A>(m: Schema<K, A>): Handler<A> {
    (buf, key, pos, a) => SchemaField(m, buf, key, pos, a)
  }

  function KnownTo<K, A>(m: Schema<K, A>): Key -> bool {
    key => m.keyOf(key).Some?
  }

  /** Every key is known by its spelling. */
  ghost predicate Spelled<K(!new), A>(m: Schema<K, A>) {
    forall k: K :: m.keyOf(m.spell(k)) == Some(k)
  }

  /** A field as written, and the value it stands for. */
  datatype Entry<K> = Entry(k: K, raw: seq<byte>, v: Val)

  ghost predicate Spelt<K, A>(m: Schema<K, A>, es: seq<Entry<K>>) {
    && |es| < 100
    && (forall i :: 0 <= i < |es| ==> Means(m.read, m.kindOf(es[i].k), es[i].raw, es[i].v))
    && (forall i, j :: 0 <= i < j < |es| ==> es[i].k != es[j].k)
  }

  function EntryFields<K, A>(m: Schema<K, A>, es: seq<Entry<K>>): (fs: seq<Field>)
    ensures |fs| == |es|
  {
    seq(|es|, i requires 0 <= i < |es| => Field(m.spell(es[i].k), es[i].raw))
  }

  /** The first `i` entries set, in order. */
  function SetTo<K, A>(m: Schema<K, A>, a: A, es: seq<Entry<K>>, i: nat): A
    requires i <= |es|
  {
    if i == 0 then a else m.set_(SetTo(m, a, es, i - 1), es[i - 1].k, es[i - 1].v)
  }

  function SetAll<K, A>(m: Schema<K, A>, a: A, es: seq<Entry<K>>): A {
    SetTo(m, a, es, |es|)
  }

  lemma SetNone<K, A>(m: Schema<K, A>, a: A, es: seq<Entry<K>>)
    ensures SetTo(m, a, es, 0) == a
  {
  }

  lemma SetNext<K, A>(m: Schema<K, A>, a: A, es: seq<Entry<K>>, i: nat)
    requires i < |es|
    ensures SetTo(m, a, es, i + 1) == m.set_(SetTo(m, a, es, i), es[i].k, es[i].v)
  {
  }

  /** What has been gathered before each entry, and after the last. */
  function Steps<K, A>(m: Schema<K, A>, a: A, es: seq<Entry<K>>): (accs: seq<A>)
    ensures |accs| == |es| + 1 && accs[0] == a && accs[|es|] == SetAll(m, a, es)
  {
    seq(|es| + 1, i requires 0 <= i <= |es| => SetTo(m, a, es, i))
  }

  lemma EntryReads<K(!new), A>(m: Schema<K, A>, e: Entry<K>, a: A)
    requires Spelled(m) && Means(m.read, m.kindOf(e.k), e.raw, e.v)
    ensures Reads(HandlerOf(m), Field(m.spell(e.k), e.raw), a, m.set_(a, e.k, e.v))
  {
    hide At;
  }

  lemma EntriesChain<K(!new), A>(m: Schema<K, A>, a: A, es: seq<Entry<K>>)
    requires Spelled(m) && forall i :: 0 <= i < |es| ==> Means(m.read, m.kindOf(es[i].k), es[i].raw, es[i].v)
    ensures Chain(HandlerOf(m), EntryFields(m, es), Steps(m, a, es))
  {
    hide Reads, Means, Spelled, HandlerOf, SetTo;
    var fs, accs := EntryFields(m, es), Steps(m, a, es);
    forall j | 0 <= j < |fs| ensures Reads(HandlerOf(m), fs[j], accs[j], accs[j + 1]) {
      EntryReads(m, es[j], accs[j]);
      SetNext(m, a, es, j);
    }
  }

  lemma SchemaSkips<K, A(!new)>(m: Schema<K, A>)
    ensures SkipsOthers(HandlerOf(m), KnownTo(m))
  {
    hide SkipField;
  }

  /** A map of the schema, with any well-formed unknown fields put in, reads as its own entries say. */
  lemma SchemaTolerant<K(!new), A(!new)>(m: Schema<K, A>, a: A, es: seq<Entry<K>>, gs: seq<Field>,
                                            buf: seq<byte>, pos: nat)
    requires Spelled(m) && Spelt(m, es) && Padded(gs, EntryFields(m, es), KnownTo(m)) && At(buf, pos, PackMap(gs))
    ensures Fields(HandlerOf(m), buf, pos, a) == Ok((SetAll(m, a, es), pos + |PackMap(gs)|))
  {
    hide At, Chain, Spelled, Means, Padded, SkipsOthers, PackMap, HandlerOf, KnownTo, Fields;
    SchemaSkips(m);
    EntriesChain(m, a, es);
    MapPadded(HandlerOf(m), KnownTo(m), gs, EntryFields(m, es), Steps(m, a, es), buf, pos);
  }

  /** The map as written has nothing put in. */
  lemma OwnFields<K(!new), A>(m: Schema<K, A>, es: seq<Entry<K>>)
    requires Spelled(m) && Spelt(m, es)
    ensures Padded(EntryFields(m, es), EntryFields(m, es), KnownTo(m))
  {
    hide Means, IsValue;
    var fs := EntryFields(m, es);
    forall i | 0 <= i < |fs| ensures m.keyOf(fs[i].key) == Some(es[i].k) {}
    KnownAll(fs, KnownTo(m));
  }

  lemma {:induction false} KnownAll(fs: seq<Field>, known: Key -> bool)
    requires forall i :: 0 <= i < |fs| ==> known(fs[i].key)
    ensures OnlyKnown(fs, known) == fs
  {
    if fs != [] {
      KnownAll(fs[1..], known);
      assert fs == [fs[0]] + fs[1..];
    }
  }
}
