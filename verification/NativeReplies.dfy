/** Replies on the native wire: what each map holds, and that it reads back. */
module NativeReplies {
  import opened Bytes
  import opened Results
  import opened Dns
  import opened MsgPack
  import opened NativeFields
  import opened NativeRequests
  import opened NativeSchemas

  // ----------------------------------------------------------------- records

  datatype RecordKey = RName | RType | RTtl | RBytes | RText

  function RecordWord(k: RecordKey): Text {
    match k
    case RName => Ascii("name")
    case RType => Ascii("type")
    case RTtl => Ascii("ttl")
    case RBytes => Ascii("data")
    case RText => Ascii("text")
  }

  function RecordKeyOf(key: Key): Option<RecordKey> {
    if key == RecordWord(RName) then Some(RName)
    else if key == RecordWord(RType) then Some(RType)
    else if key == RecordWord(RTtl) then Some(RTtl)
    else if key == RecordWord(RBytes) then Some(RBytes)
    else if key == RecordWord(RText) then Some(RText)
    else None
  }

  function RecordMark(k: RecordKey): nat {
    match k
    case RName => 0x04_6e_6d_65
    case RType => 0x04_74_70_65
    case RTtl => 0x03_74_74_6c
    case RBytes => 0x04_64_74_61
    case RText => 0x04_74_78_74
  }

  lemma RecordMarked(k: RecordKey)
    ensures RecordWord(k) != [] && Mark(RecordWord(k)) == RecordMark(k)
  {
    hide Ascii, Mark;
    match k
    case RName => MarkIs("name");
    case RType => MarkIs("type");
    case RTtl => MarkIs("ttl");
    case RBytes => MarkIs("data");
    case RText => MarkIs("text");
  }

  lemma RecordWordReads(k: RecordKey)
    ensures RecordKeyOf(RecordWord(k)) == Some(k)
  {
    hide RecordWord, Mark;
    forall j: RecordKey ensures RecordWord(j) != [] && Mark(RecordWord(j)) == RecordMark(j) { RecordMarked(j); }
  }

  function RecordKind(k: RecordKey): Kind {
    match k
    case RName => AStr
    case RType => AUint
    case RTtl => AUint
    case RBytes => ABin
    case RText => AStr
  }

  function SetRecord(r: RecordOut, k: RecordKey, v: Val): RecordOut {
    match (k, v)
    case (RName, VStr(s)) => r.(name := s)
    case (RType, VUint(n)) => r.(rtype := n % 0x1_0000)
    case (RTtl, VUint(n)) => r.(ttl := n % 0x1_0000_0000)
    case (RBytes, VBin(s)) => r.(data := s)
    case (RText, VStr(s)) => r.(text := s)
    case _ => r
  }

  const RECORD: Schema<RecordKey, RecordOut> := Schema(RecordKeyOf, RecordWord, RecordKind, SetRecord, ReadScalar)

  const NO_RECORD: RecordOut := RecordOut([], 0, 0, [], [])

  function RecordItem(buf: seq<byte>, pos: nat): Parsed<RecordOut> {
    Fields(HandlerOf(RECORD), buf, pos, NO_RECORD)
  }

  lemma RecordSpelled()
    ensures Spelled(RECORD)
  {
    hide RecordWord, RecordKeyOf;
    forall k ensures RecordKeyOf(RecordWord(k)) == Some(k) { RecordWordReads(k); }
  }

  predicate FitsRecord(r: RecordOut) {
    IsText(r.name) && IsText(r.text) && |r.data| < 0x1_0000_0000
  }

  function RecordEntries(r: RecordOut): seq<Entry<RecordKey>> {
    [Entry(RName, PackStr(r.name), VStr(r.name)), Entry(RType, PackUint(r.rtype), VUint(r.rtype)),
     Entry(RTtl, PackUint(r.ttl), VUint(r.ttl)), Entry(RBytes, PackBin(r.data), VBin(r.data)),
     Entry(RText, PackStr(r.text), VStr(r.text))]
  }

  lemma RecordWritten(r: RecordOut)
    requires FitsRecord(r)
    ensures Spelt(RECORD, RecordEntries(r))
  {
    hide Means, PackStr, PackUint, PackBin, IsText;
    StrMeans(r.name);
    UintMeans(r.rtype);
    UintMeans(r.ttl);
    BinMeans(r.data);
    StrMeans(r.text);
  }

  lemma RecordSet(r: RecordOut)
    ensures SetAll(RECORD, NO_RECORD, RecordEntries(r)) == r
  {
    hide PackStr, PackUint, PackBin, SetTo;
    var m, es := RECORD, RecordEntries(r);
    SetNone(m, NO_RECORD, es);
    SetNext(m, NO_RECORD, es, 0);
    SetNext(m, NO_RECORD, es, 1);
    SetNext(m, NO_RECORD, es, 2);
    SetNext(m, NO_RECORD, es, 3);
    SetNext(m, NO_RECORD, es, 4);
  }

  /** A record's map reads as the record, whatever well-formed unknown fields are put in. */
  lemma RecordReads(r: RecordOut, gs: seq<Field>)
    requires FitsRecord(r) && Padded(gs, EntryFields(RECORD, RecordEntries(r)), KnownTo(RECORD))
    ensures ItemReads(RecordItem, PackMap(gs), r)
  {
    hide At, Spelled, Padded, PackMap, Spelt, SetAll, RecordEntries, Fields;
    RecordSpelled();
    RecordWritten(r);
    RecordSet(r);
    PaddedSize(gs, EntryFields(RECORD, RecordEntries(r)), KnownTo(RECORD));
    forall buf, pos: nat | At(buf, pos, PackMap(gs)) ensures RecordItem(buf, pos) == Ok((r, pos + |PackMap(gs)|)) {
      SchemaTolerant(RECORD, NO_RECORD, RecordEntries(r), gs, buf, pos);
    }
  }

  // --------------------------------------------------------------- addresses

  datatype AddressKey = XAddress | XTtl

  function AddressWord(k: AddressKey): Text {
    match k
    case XAddress => Ascii("address")
    case XTtl => Ascii("ttl")
  }

  function AddressKeyOf(key: Key): Option<AddressKey> {
    if key == AddressWord(XAddress) then Some(XAddress)
    else if key == AddressWord(XTtl) then Some(XTtl)
    else None
  }

  function AddressMark(k: AddressKey): nat {
    match k
    case XAddress => 0x07_61_72_73
    case XTtl => 0x03_74_74_6c
  }

  lemma AddressMarked(k: AddressKey)
    ensures AddressWord(k) != [] && Mark(AddressWord(k)) == AddressMark(k)
  {
    hide Ascii, Mark;
    match k
    case XAddress => MarkIs("address");
    case XTtl => MarkIs("ttl");
  }

  lemma AddressWordReads(k: AddressKey)
    ensures AddressKeyOf(AddressWord(k)) == Some(k)
  {
    hide AddressWord, Mark;
    forall j: AddressKey ensures AddressWord(j) != [] && Mark(AddressWord(j)) == AddressMark(j) { AddressMarked(j); }
  }

  function AddressKind(k: AddressKey): Kind {
    match k
    case XAddress => AStr
    case XTtl => AUint
  }

  /** An address not yet read, or not read as one, and its lifetime. */
  datatype Partial = Partial(address: Option<IpAddr>, ttl: u32)

  function SetAddress(x: AddressText, a: Partial, k: AddressKey, v: Val): Partial {
    match (k, v)
    case (XAddress, VStr(s)) => a.(address := x.parse(s))
    case (XTtl, VUint(n)) => a.(ttl := n % 0x1_0000_0000)
    case _ => a
  }

  function AddressSchema(x: AddressText): Schema<AddressKey, Partial> {
    Schema(AddressKeyOf, AddressWord, AddressKind, (a, k, v) => SetAddress(x, a, k, v), ReadScalar)
  }

  const NO_ADDRESS: Partial := Partial(None, 0)

  function AddressItem(x: AddressText): Item<Partial> {
    (buf, pos) => Fields(HandlerOf(AddressSchema(x)), buf, pos, NO_ADDRESS)
  }

  /** Items without a readable address are dropped. */
  function Present(ps: seq<Partial>): seq<AddressOut> {
    if ps == [] then []
    else (if ps[0].address.Some? then [AddressOut(ps[0].address.value, ps[0].ttl)] else []) + Present(ps[1..])
  }

  lemma AddressSpelled(x: AddressText)
    ensures Spelled(AddressSchema(x))
  {
    hide AddressWord, AddressKeyOf;
    forall k ensures AddressKeyOf(AddressWord(k)) == Some(k) { AddressWordReads(k); }
  }

  function AddressEntries(x: AddressText, a: AddressOut): seq<Entry<AddressKey>> {
    [Entry(XAddress, PackStr(x.show(a.address)), VStr(x.show(a.address))), Entry(XTtl, PackUint(a.ttl), VUint(a.ttl))]
  }

  lemma AddressSpelt(x: AddressText, a: AddressOut)
    requires Faithful(x)
    ensures Spelt(AddressSchema(x), AddressEntries(x, a))
  {
    hide Means, PackStr, PackUint, ValidUtf8;
    StrMeans(x.show(a.address));
    UintMeans(a.ttl);
  }

  lemma AddressSet(x: AddressText, a: AddressOut)
    requires Faithful(x)
    ensures SetAll(AddressSchema(x), NO_ADDRESS, AddressEntries(x, a)) == Partial(Some(a.address), a.ttl)
  {
    hide PackStr, PackUint, SetTo, ValidUtf8;
    var m, es := AddressSchema(x), AddressEntries(x, a);
    SetNone(m, NO_ADDRESS, es);
    SetNext(m, NO_ADDRESS, es, 0);
    SetNext(m, NO_ADDRESS, es, 1);
  }

  lemma AddressReadsBack(x: AddressText, a: AddressOut, gs: seq<Field>)
    requires Faithful(x) && Padded(gs, EntryFields(AddressSchema(x), AddressEntries(x, a)), KnownTo(AddressSchema(x)))
    ensures ItemReads(AddressItem(x), PackMap(gs), Partial(Some(a.address), a.ttl))
  {
    hide At, Spelled, Padded, PackMap, Spelt, SetAll, AddressEntries, Fields, Faithful, AddressSchema;
    var m, es := AddressSchema(x), AddressEntries(x, a);
    AddressSpelled(x);
    AddressSpelt(x, a);
    AddressSet(x, a);
    PaddedSize(gs, EntryFields(m, es), KnownTo(m));
    forall buf, pos: nat | At(buf, pos, PackMap(gs))
      ensures AddressItem(x)(buf, pos) == Ok((Partial(Some(a.address), a.ttl), pos + |PackMap(gs)|))
    {
      SchemaTolerant(m, NO_ADDRESS, es, gs, buf, pos);
    }
  }

  // ---------------------------------------------------------------- counters

  datatype CounterKey = CQueries | CSynthetic | CHits | CSent | CAnswered | CFailed | CRefused

  function CounterWord(k: CounterKey): Text {
    match k
    case CQueries => Ascii("queries")
    case CSynthetic => Ascii("synthetic")
    case CHits => Ascii("cache_hits")
    case CSent => Ascii("upstream_sent")
    case CAnswered => Ascii("upstream_answered")
    case CFailed => Ascii("upstream_failed")
    case CRefused => Ascii("refused")
  }

  function CounterKeyOf(key: Key): Option<CounterKey> {
    if key == CounterWord(CQueries) then Some(CQueries)
    else if key == CounterWord(CSynthetic) then Some(CSynthetic)
    else if key == CounterWord(CHits) then Some(CHits)
    else if key == CounterWord(CSent) then Some(CSent)
    else if key == CounterWord(CAnswered) then Some(CAnswered)
    else if key == CounterWord(CFailed) then Some(CFailed)
    else if key == CounterWord(CRefused) then Some(CRefused)
    else None
  }

  function CounterMark(k: CounterKey): nat {
    match k
    case CQueries => 0x07_71_72_73
    case CSynthetic => 0x09_73_68_63
    case CHits => 0x0a_63_5f_73
    case CSent => 0x0d_75_61_74
    case CAnswered => 0x11_75_5f_64
    case CFailed => 0x0f_75_6d_64
    case CRefused => 0x07_72_75_64
  }

  lemma CounterMarkedFirst(k: CounterKey)
    requires k == CQueries || k == CSynthetic || k == CHits || k == CSent
    ensures CounterWord(k) != [] && Mark(CounterWord(k)) == CounterMark(k)
  {
    hide Ascii, Mark;
    MarkIs("queries");
    MarkIs("synthetic");
    MarkIs("cache_hits");
    MarkIs("upstream_sent");
  }

  lemma CounterMarkedSecond(k: CounterKey)
    requires k == CAnswered || k == CFailed || k == CRefused
    ensures CounterWord(k) != [] && Mark(CounterWord(k)) == CounterMark(k)
  {
    hide Ascii, Mark;
    MarkIs("upstream_answered");
    MarkIs("upstream_failed");
    MarkIs("refused");
  }

  lemma CounterMarked(k: CounterKey)
    ensures CounterWord(k) != [] && Mark(CounterWord(k)) == CounterMark(k)
  {
    hide CounterWord, CounterMark, Mark;
    if k == CQueries || k == CSynthetic || k == CHits || k == CSent {
      CounterMarkedFirst(k);
    } else {
      CounterMarkedSecond(k);
    }
  }

  lemma CounterWordReads(k: CounterKey)
    ensures CounterKeyOf(CounterWord(k)) == Some(k)
  {
    hide CounterWord, Mark;
    forall j: CounterKey ensures CounterWord(j) != [] && Mark(CounterWord(j)) == CounterMark(j) { CounterMarked(j); }
  }

  function SetCounter(c: CountersOut, k: CounterKey, v: Val): CountersOut {
    if !v.VUint? then c
    else match k
      case CQueries => c.(queries := v.n)
      case CSynthetic => c.(synthetic := v.n)
      case CHits => c.(cacheHits := v.n)
      case CSent => c.(upstreamSent := v.n)
      case CAnswered => c.(upstreamAnswered := v.n)
      case CFailed => c.(upstreamFailed := v.n)
      case CRefused => c.(refused := v.n)
  }

  const COUNTERS: Schema<CounterKey, CountersOut> :=
    Schema(CounterKeyOf, CounterWord, _ => AUint, SetCounter, ReadScalar)

  const NO_COUNTERS: CountersOut := CountersOut(0, 0, 0, 0, 0, 0, 0)

  function CountersItem(buf: seq<byte>, pos: nat): Parsed<CountersOut> {
    Fields(HandlerOf(COUNTERS), buf, pos, NO_COUNTERS)
  }

  lemma CountersSpelled()
    ensures Spelled(COUNTERS)
  {
    hide CounterWord, CounterKeyOf;
    forall k ensures CounterKeyOf(CounterWord(k)) == Some(k) { CounterWordReads(k); }
  }

  function CounterEntry(k: CounterKey, n: u64): Entry<CounterKey> {
    Entry(k, PackUint(n), VUint(n))
  }

  predicate Small(n: nat) {
    n < 0x8000_0000_0000_0000
  }

  /** Counters the signed wire integer can carry. */
  predicate FitsCounters(c: CountersOut) {
    && Small(c.queries) && Small(c.synthetic) && Small(c.cacheHits) && Small(c.upstreamSent)
    && Small(c.upstreamAnswered) && Small(c.upstreamFailed) && Small(c.refused)
  }

  function CounterEntries(c: CountersOut): seq<Entry<CounterKey>>
    requires FitsCounters(c)
  {
    [CounterEntry(CQueries, c.queries), CounterEntry(CSynthetic, c.synthetic), CounterEntry(CHits, c.cacheHits),
     CounterEntry(CSent, c.upstreamSent), CounterEntry(CAnswered, c.upstreamAnswered),
     CounterEntry(CFailed, c.upstreamFailed), CounterEntry(CRefused, c.refused)]
  }

  lemma CountersSpelt(c: CountersOut)
    requires FitsCounters(c)
    ensures Spelt(COUNTERS, CounterEntries(c))
  {
    hide Means, PackUint;
    UintMeans(c.queries);
    UintMeans(c.synthetic);
    UintMeans(c.cacheHits);
    UintMeans(c.upstreamSent);
    UintMeans(c.upstreamAnswered);
    UintMeans(c.upstreamFailed);
    UintMeans(c.refused);
  }

  lemma CountersSet(c: CountersOut)
    requires FitsCounters(c)
    ensures SetAll(COUNTERS, NO_COUNTERS, CounterEntries(c)) == c
  {
    hide PackUint, SetTo;
    var m, es := COUNTERS, CounterEntries(c);
    SetNone(m, NO_COUNTERS, es);
    SetNext(m, NO_COUNTERS, es, 0);
    SetNext(m, NO_COUNTERS, es, 1);
    SetNext(m, NO_COUNTERS, es, 2);
    SetNext(m, NO_COUNTERS, es, 3);
    SetNext(m, NO_COUNTERS, es, 4);
    SetNext(m, NO_COUNTERS, es, 5);
    SetNext(m, NO_COUNTERS, es, 6);
  }

  lemma CountersReadBack(c: CountersOut, gs: seq<Field>)
    requires FitsCounters(c) && Padded(gs, EntryFields(COUNTERS, CounterEntries(c)), KnownTo(COUNTERS))
    ensures ItemReads(CountersItem, PackMap(gs), c)
  {
    hide At, Spelled, Padded, PackMap, Spelt, SetAll, CounterEntries, Fields, FitsCounters;
    CountersSpelled();
    CountersSpelt(c);
    CountersSet(c);
    PaddedSize(gs, EntryFields(COUNTERS, CounterEntries(c)), KnownTo(COUNTERS));
    forall buf, pos: nat | At(buf, pos, PackMap(gs)) ensures CountersItem(buf, pos) == Ok((c, pos + |PackMap(gs)|)) {
      SchemaTolerant(COUNTERS, NO_COUNTERS, CounterEntries(c), gs, buf, pos);
    }
  }

  // ------------------------------------------------------------------ scopes

  datatype ScopeKey = SInterface | SServers | SDomains | SDefault | SExclusive | SMetric | SSubnets | SDemoted

  function ScopeWord(k: ScopeKey): Text {
    match k
    case SInterface => Ascii("interface")
    case SServers => Ascii("servers")
    case SDomains => Ascii("domains")
    case SDefault => Ascii("default_route")
    case SExclusive => Ascii("exclusive")
    case SMetric => Ascii("metric")
    case SSubnets => Ascii("subnets")
    case SDemoted => Ascii("demoted")
  }

  function ScopeKeyOf(key: Key): Option<ScopeKey> {
    if key == ScopeWord(SInterface) then Some(SInterface)
    else if key == ScopeWord(SServers) then Some(SServers)
    else if key == ScopeWord(SDomains) then Some(SDomains)
    else if key == ScopeWord(SDefault) then Some(SDefault)
    else if key == ScopeWord(SExclusive) then Some(SExclusive)
    else if key == ScopeWord(SMetric) then Some(SMetric)
    else if key == ScopeWord(SSubnets) then Some(SSubnets)
    else if key == ScopeWord(SDemoted) then Some(SDemoted)
    else None
  }

  function ScopeMark(k: ScopeKey): nat {
    match k
    case SInterface => 0x09_69_72_65
    case SServers => 0x07_73_76_73
    case SDomains => 0x07_64_61_73
    case SDefault => 0x0d_64_74_65
    case SExclusive => 0x09_65_75_65
    case SMetric => 0x06_6d_72_63
    case SSubnets => 0x07_73_6e_73
    case SDemoted => 0x07_64_6f_64
  }

  lemma ScopeMarkedFirst(k: ScopeKey)
    requires k == SInterface || k == SServers || k == SDomains || k == SDefault
    ensures ScopeWord(k) != [] && Mark(ScopeWord(k)) == ScopeMark(k)
  {
    hide Ascii, Mark;
    MarkIs("interface");
    MarkIs("servers");
    MarkIs("domains");
    MarkIs("default_route");
  }

  lemma ScopeMarkedSecond(k: ScopeKey)
    requires k == SExclusive || k == SMetric || k == SSubnets || k == SDemoted
    ensures ScopeWord(k) != [] && Mark(ScopeWord(k)) == ScopeMark(k)
  {
    hide Ascii, Mark;
    MarkIs("exclusive");
    MarkIs("metric");
    MarkIs("subnets");
    MarkIs("demoted");
  }

  lemma ScopeMarked(k: ScopeKey)
    ensures ScopeWord(k) != [] && Mark(ScopeWord(k)) == ScopeMark(k)
  {
    hide ScopeWord, ScopeMark, Mark;
    if k == SInterface || k == SServers || k == SDomains || k == SDefault {
      ScopeMarkedFirst(k);
    } else {
      ScopeMarkedSecond(k);
    }
  }

  lemma ScopeWordReads(k: ScopeKey)
    ensures ScopeKeyOf(ScopeWord(k)) == Some(k)
  {
    hide ScopeWord, Mark;
    forall j: ScopeKey ensures ScopeWord(j) != [] && Mark(ScopeWord(j)) == ScopeMark(j) { ScopeMarked(j); }
  }

  function ScopeKind(k: ScopeKey): Kind {
    match k
    case SInterface => AStr
    case SDefault => ABool
    case SExclusive => ABool
    case SMetric => AUint
    case _ => AStrs
  }

  function SetScope(c: ScopeOut, k: ScopeKey, v: Val): ScopeOut {
    match (k, v)
    case (SInterface, VStr(s)) => c.(interface_ := s)
    case (SServers, VStrs(ss)) => c.(servers := ss)
    case (SDomains, VStrs(ss)) => c.(domains := ss)
    case (SDefault, VBool(b)) => c.(defaultRoute := b)
    case (SExclusive, VBool(b)) => c.(exclusive := b)
    case (SMetric, VUint(n)) => c.(metric := n % 0x1_0000_0000)
    case (SSubnets, VStrs(ss)) => c.(subnets := ss)
    case (SDemoted, VStrs(ss)) => c.(demoted := ss)
    case _ => c
  }

  const SCOPE: Schema<ScopeKey, ScopeOut> := Schema(ScopeKeyOf, ScopeWord, ScopeKind, SetScope, ReadScalar)

  const NO_SCOPE: ScopeOut := ScopeOut([], [], [], false, false, 0, [], [])

  function ScopeItem(buf: seq<byte>, pos: nat): Parsed<ScopeOut> {
    Fields(HandlerOf(SCOPE), buf, pos, NO_SCOPE)
  }

  lemma ScopeSpelled()
    ensures Spelled(SCOPE)
  {
    hide ScopeWord, ScopeKeyOf;
    forall k ensures ScopeKeyOf(ScopeWord(k)) == Some(k) { ScopeWordReads(k); }
  }

  predicate FitsScope(c: ScopeOut) {
    IsText(c.interface_) && Texts(c.servers) && Texts(c.domains) && Texts(c.subnets) && Texts(c.demoted)
  }

  function ScopeEntries(c: ScopeOut): seq<Entry<ScopeKey>>
    requires FitsScope(c)
  {
    [Entry(SInterface, PackStr(c.interface_), VStr(c.interface_)),
     Entry(SServers, PackStrs(c.servers), VStrs(c.servers)),
     Entry(SDomains, PackStrs(c.domains), VStrs(c.domains)),
     Entry(SDefault, PackBool(c.defaultRoute), VBool(c.defaultRoute)),
     Entry(SExclusive, PackBool(c.exclusive), VBool(c.exclusive)), Entry(SMetric, PackUint(c.metric), VUint(c.metric)),
     Entry(SSubnets, PackStrs(c.subnets), VStrs(c.subnets)), Entry(SDemoted, PackStrs(c.demoted), VStrs(c.demoted))]
  }

  lemma ScopeSpelt(c: ScopeOut)
    requires FitsScope(c)
    ensures Spelt(SCOPE, ScopeEntries(c))
  {
    hide Means, PackStr, PackStrs, PackUint, PackBool, IsText, Texts;
    StrMeans(c.interface_);
    StrsMean(c.servers);
    StrsMean(c.domains);
    BoolMeans(c.defaultRoute);
    BoolMeans(c.exclusive);
    UintMeans(c.metric);
    StrsMean(c.subnets);
    StrsMean(c.demoted);
  }

  lemma ScopeSet(c: ScopeOut)
    requires FitsScope(c)
    ensures SetAll(SCOPE, NO_SCOPE, ScopeEntries(c)) == c
  {
    hide PackStr, PackStrs, PackUint, PackBool, SetTo, IsText, Texts;
    var m, es := SCOPE, ScopeEntries(c);
    SetNone(m, NO_SCOPE, es);
    SetNext(m, NO_SCOPE, es, 0);
    SetNext(m, NO_SCOPE, es, 1);
    SetNext(m, NO_SCOPE, es, 2);
    SetNext(m, NO_SCOPE, es, 3);
    SetNext(m, NO_SCOPE, es, 4);
    SetNext(m, NO_SCOPE, es, 5);
    SetNext(m, NO_SCOPE, es, 6);
    SetNext(m, NO_SCOPE, es, 7);
  }

  lemma ScopeReadsBack(c: ScopeOut, gs: seq<Field>)
    requires FitsScope(c) && Padded(gs, EntryFields(SCOPE, ScopeEntries(c)), KnownTo(SCOPE))
    ensures ItemReads(ScopeItem, PackMap(gs), c)
  {
    hide At, Spelled, Padded, PackMap, Spelt, SetAll, ScopeEntries, Fields, FitsScope;
    ScopeSpelled();
    ScopeSpelt(c);
    ScopeSet(c);
    PaddedSize(gs, EntryFields(SCOPE, ScopeEntries(c)), KnownTo(SCOPE));
    forall buf, pos: nat | At(buf, pos, PackMap(gs)) ensures ScopeItem(buf, pos) == Ok((c, pos + |PackMap(gs)|)) {
      SchemaTolerant(SCOPE, NO_SCOPE, ScopeEntries(c), gs, buf, pos);
    }
  }
}
