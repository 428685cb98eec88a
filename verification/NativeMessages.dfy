/** Whole replies: decoding, encoding, and what any well-formed unknown fields do to them, which is nothing. */
module NativeMessages {
  import opened Bytes
  import opened Results
  import opened Lookups
  import opened MsgPack
  import opened NativeFields
  import opened NativeRequests
  import opened NativeSchemas
  import opened NativeReplies

  // -------------------------------------------------------------------- words

  function OutcomeText(o: Outcome): Text {
    match o
    case Found => Ascii("found")
    case NotFound => Ascii("notfound")
    case Unavailable => Ascii("unavailable")
  }

  /** Anything else is taken for the default. */
  function ParseOutcome(s: seq<byte>): Outcome {
    if s == Ascii("found") then Found else if s == Ascii("notfound") then NotFound else Unavailable
  }

  lemma OutcomeReads(o: Outcome)
    ensures ParseOutcome(OutcomeText(o)) == o
  {
    hide Ascii;
    assert |Ascii("found")| == 5 && |Ascii("notfound")| == 8 && |Ascii("unavailable")| == 11;
  }

  function ValidationText(v: Validation): Text {
    match v
    case Unvalidated => Ascii("unvalidated")
    case Secure => Ascii("secure")
    case Insecure => Ascii("insecure")
    case Bogus => Ascii("bogus")
  }

  function ParseValidation(s: seq<byte>): Validation {
    if s == Ascii("secure") then Secure
    else if s == Ascii("insecure") then Insecure
    else if s == Ascii("bogus") then Bogus
    else Unvalidated
  }

  lemma ValidationReads(v: Validation)
    ensures ParseValidation(ValidationText(v)) == v
  {
    hide Ascii, Mark;
    MarkIs("unvalidated");
    MarkIs("secure");
    MarkIs("insecure");
    MarkIs("bogus");
  }

  /** The kinds of reply that carry data, as the wire names them. */
  datatype Shape = AnAnswer | Addrs | AStatus

  function ShapeText(k: Shape): Text {
    match k
    case AnAnswer => Ascii("answer")
    case Addrs => Ascii("addresses")
    case AStatus => Ascii("status")
  }

  // -------------------------------------------------------------------- keys

  datatype ReplyKey =
    | POk
    | PError
    | PKind
    | POutcome
    | PValidation
    | PSource
    | PServer
    | PInterface
    | PRcode
    | PRecords
    | PCanonical
    | PAddresses
    | PHostname
    | PNetd
    | PFallback
    | PEntries
    | PScopes
    | PCounters

  function ReplyWord(k: ReplyKey): Text {
    match k
    case POk => Ascii("ok")
    case PError => Ascii("error")
    case PKind => Ascii("kind")
    case POutcome => Ascii("outcome")
    case PValidation => Ascii("validation")
    case PSource => Ascii("source")
    case PServer => Ascii("server")
    case PInterface => Ascii("interface")
    case PRcode => Ascii("rcode")
    case PRecords => Ascii("records")
    case PCanonical => Ascii("canonical")
    case PAddresses => Ascii("addresses")
    case PHostname => Ascii("hostname")
    case PNetd => Ascii("netd")
    case PFallback => Ascii("fallback_servers")
    case PEntries => Ascii("cache_entries")
    case PScopes => Ascii("scopes")
    case PCounters => Ascii("counters")
  }

  function ReplyKeyOf(key: Key): Option<ReplyKey> {
    if key == ReplyWord(POk) then Some(POk)
    else if key == ReplyWord(PError) then Some(PError)
    else if key == ReplyWord(PKind) then Some(PKind)
    else if key == ReplyWord(POutcome) then Some(POutcome)
    else if key == ReplyWord(PValidation) then Some(PValidation)
    else if key == ReplyWord(PSource) then Some(PSource)
    else if key == ReplyWord(PServer) then Some(PServer)
    else if key == ReplyWord(PInterface) then Some(PInterface)
    else if key == ReplyWord(PRcode) then Some(PRcode)
    else LaterKeyOf(key)
  }

  function LaterKeyOf(key: Key): Option<ReplyKey> {
    if key == ReplyWord(PRecords) then Some(PRecords)
    else if key == ReplyWord(PCanonical) then Some(PCanonical)
    else if key == ReplyWord(PAddresses) then Some(PAddresses)
    else if key == ReplyWord(PHostname) then Some(PHostname)
    else if key == ReplyWord(PNetd) then Some(PNetd)
    else if key == ReplyWord(PFallback) then Some(PFallback)
    else if key == ReplyWord(PEntries) then Some(PEntries)
    else if key == ReplyWord(PScopes) then Some(PScopes)
    else if key == ReplyWord(PCounters) then Some(PCounters)
    else None
  }

  function ReplyMark(k: ReplyKey): nat {
    match k
    case POk => 0x02_6f_6b_6b
    case PError => 0x05_65_72_72
    case PKind => 0x04_6b_6e_64
    case POutcome => 0x07_6f_63_65
    case PValidation => 0x0a_76_61_6e
    case PSource => 0x06_73_72_65
    case PServer => 0x06_73_76_72
    case PInterface => 0x09_69_72_65
    case PRcode => 0x05_72_6f_65
    case PRecords => 0x07_72_6f_73
    case PCanonical => 0x09_63_6e_6c
    case PAddresses => 0x09_61_65_73
    case PHostname => 0x08_68_6e_65
    case PNetd => 0x04_6e_74_64
    case PFallback => 0x10_66_5f_73
    case PEntries => 0x0d_63_65_73
    case PScopes => 0x06_73_70_73
    case PCounters => 0x08_63_74_73
  }

  lemma ReplyMarkedFirst(k: ReplyKey)
    requires k == POk || k == PError || k == PKind || k == POutcome
    ensures ReplyWord(k) != [] && Mark(ReplyWord(k)) == ReplyMark(k)
  {
    hide Ascii, Mark;
    MarkIs("ok");
    MarkIs("error");
    MarkIs("kind");
    MarkIs("outcome");
  }

  lemma ReplyMarkedSecond(k: ReplyKey)
    requires k == PValidation || k == PSource || k == PServer || k == PInterface
    ensures ReplyWord(k) != [] && Mark(ReplyWord(k)) == ReplyMark(k)
  {
    hide Ascii, Mark;
    MarkIs("validation");
    MarkIs("source");
    MarkIs("server");
    MarkIs("interface");
  }

  lemma ReplyMarkedThird(k: ReplyKey)
    requires k == PRcode || k == PRecords || k == PCanonical || k == PAddresses
    ensures ReplyWord(k) != [] && Mark(ReplyWord(k)) == ReplyMark(k)
  {
    hide Ascii, Mark;
    MarkIs("rcode");
    MarkIs("records");
    MarkIs("canonical");
    MarkIs("addresses");
  }

  lemma ReplyMarkedFourth(k: ReplyKey)
    requires k == PHostname || k == PNetd || k == PFallback || k == PEntries
    ensures ReplyWord(k) != [] && Mark(ReplyWord(k)) == ReplyMark(k)
  {
    hide Ascii, Mark;
    MarkIs("hostname");
    MarkIs("netd");
    MarkIs("fallback_servers");
    MarkIs("cache_entries");
  }

  lemma ReplyMarkedFifth(k: ReplyKey)
    requires k == PScopes || k == PCounters
    ensures ReplyWord(k) != [] && Mark(ReplyWord(k)) == ReplyMark(k)
  {
    hide Ascii, Mark;
    MarkIs("scopes");
    MarkIs("counters");
  }

  lemma ReplyMarked(k: ReplyKey)
    ensures ReplyWord(k) != [] && Mark(ReplyWord(k)) == ReplyMark(k)
  {
    hide ReplyWord, ReplyMark, Mark;
    if k == POk || k == PError || k == PKind || k == POutcome {
      ReplyMarkedFirst(k);
    } else if k == PValidation || k == PSource || k == PServer || k == PInterface {
      ReplyMarkedSecond(k);
    } else if k == PRcode || k == PRecords || k == PCanonical || k == PAddresses {
      ReplyMarkedThird(k);
    } else if k == PHostname || k == PNetd || k == PFallback || k == PEntries {
      ReplyMarkedFourth(k);
    } else {
      ReplyMarkedFifth(k);
    }
  }

  lemma ReplyWordsDiffer(j: ReplyKey, k: ReplyKey)
    requires j != k
    ensures ReplyWord(j) != ReplyWord(k)
  {
    hide ReplyWord, Mark;
    ReplyMarked(j);
    ReplyMarked(k);
  }

  lemma LaterKeyOfIs(key: Key, j: ReplyKey)
    ensures LaterKeyOf(key) == Some(j) ==> key == ReplyWord(j)
    ensures LaterKeyOf(key).None? ==> key != ReplyWord(j) || IsEarly(j)
  {
    hide ReplyWord;
  }

  predicate IsEarly(k: ReplyKey) {
    k in {POk, PError, PKind, POutcome, PValidation, PSource, PServer, PInterface, PRcode}
  }

  lemma ReplyKeyOfIs(key: Key, j: ReplyKey)
    ensures ReplyKeyOf(key) == Some(j) ==> key == ReplyWord(j)
    ensures ReplyKeyOf(key).None? ==> key != ReplyWord(j)
  {
    hide ReplyWord, LaterKeyOf;
    LaterKeyOfIs(key, j);
  }

  lemma ReplyWordReads(k: ReplyKey)
    ensures ReplyKeyOf(ReplyWord(k)) == Some(k)
  {
    hide ReplyWord, ReplyKeyOf;
    var found := ReplyKeyOf(ReplyWord(k));
    ReplyKeyOfIs(ReplyWord(k), k);
    if found.Some? && found.value != k {
      ReplyKeyOfIs(ReplyWord(k), found.value);
      ReplyWordsDiffer(found.value, k);
    }
  }

  function ReplyKind(k: ReplyKey): Kind {
    match k
    case POk => ABool
    case PNetd => ABool
    case PServer => AOpt
    case PInterface => AOpt
    case PRcode => AUint
    case PEntries => AUint
    case PFallback => AStrs
    case PRecords => ARecords
    case PAddresses => AnAddresses
    case PScopes => AScopes
    case PCounters => ACounters
    case _ => AStr
  }

  // ---------------------------------------------------------------- decoding

  /** The fields of a reply gathered so far. */
  datatype Told = Told(
    ok: Option<bool>, error: Option<seq<byte>>, kind: Option<seq<byte>>,
    answer: AnswerOut, addresses: AddressesOut, status: StatusOut)

  const NO_ANSWER: AnswerOut := AnswerOut(Unavailable, [], [], None, None, Unvalidated, 0)
  const NO_ADDRESSES: AddressesOut := AddressesOut(Unavailable, [], [], [], Unvalidated)
  const NO_STATUS: StatusOut := StatusOut([], false, [], [], 0, NO_COUNTERS)
  const NOTHING_TOLD: Told := Told(None, None, None, NO_ANSWER, NO_ADDRESSES, NO_STATUS)

  function SetReply(t: Told, k: ReplyKey, v: Val): Told {
    match v
    case VBool(b) =>
      if k == POk then t.(ok := Some(b)) else if k == PNetd then t.(status := t.status.(netd := b)) else t
    case VStr(s) => SetText(t, k, s)
    case VOpt(o) =>
      if k == PServer then t.(answer := t.answer.(server := o))
      else if k == PInterface then t.(answer := t.answer.(interface_ := o)) else t
    case VUint(n) =>
      if k == PRcode then t.(answer := t.answer.(rcode := n % 0x1_0000))
      else if k == PEntries then t.(status := t.status.(cacheEntries := n)) else t
    case VStrs(ss) => t.(status := t.status.(fallbackServers := ss))
    case VRecords(rs) => t.(answer := t.answer.(records := rs))
    case VAddresses(xs) => t.(addresses := t.addresses.(addresses := xs))
    case VScopes(cs) => t.(status := t.status.(scopes := cs))
    case VCounters(c) => t.(status := t.status.(counters := c))
    case VBin(_) => t
  }

  function SetText(t: Told, k: ReplyKey, s: seq<byte>): Told {
    match k
    case PError => t.(error := Some(s))
    case PKind => t.(kind := Some(s))
    case POutcome =>
      t.(answer := t.answer.(outcome := ParseOutcome(s)), addresses := t.addresses.(outcome := ParseOutcome(s)))
    case PValidation =>
      t.(answer := t.answer.(validation := ParseValidation(s)),
         addresses := t.addresses.(validation := ParseValidation(s)))
    case PSource => t.(answer := t.answer.(source := s), addresses := t.addresses.(source := s))
    case PCanonical => t.(addresses := t.addresses.(canonical := s))
    case PHostname => t.(status := t.status.(hostname := s))
    case _ => t
  }

  function ReadVal(x: AddressText, k: Kind, buf: seq<byte>, pos: nat): Parsed<Val> {
    match k
    case ARecords =>
      var (rs, p) :- Items(RecordItem, buf, pos);
      Ok((VRecords(rs), p))
    case AnAddresses =>
      var (ps, p) :- Items(AddressItem(x), buf, pos);
      Ok((VAddresses(Present(ps)), p))
    case AScopes =>
      var (cs, p) :- Items(ScopeItem, buf, pos);
      Ok((VScopes(cs), p))
    case ACounters =>
      var (c, p) :- CountersItem(buf, pos);
      Ok((VCounters(c), p))
    case _ => ReadScalar(k, buf, pos)
  }

  function ReplySchema(x: AddressText): Schema<ReplyKey, Told> {
    Schema(ReplyKeyOf, ReplyWord, ReplyKind, SetReply, (k, buf, pos) => ReadVal(x, k, buf, pos))
  }

  function MeantReply(t: Told): Result<Reply, WireFault> {
    match t.ok
    case None => Err(Missing("ok"))
    case Some(false) => Ok(Failed(if t.error.Some? then t.error.value else Ascii("unspecified error")))
    case Some(true) =>
      if t.kind == Some(ShapeText(AnAnswer)) then Ok(Answered(t.answer))
      else if t.kind == Some(ShapeText(Addrs)) then Ok(Addressed(t.addresses))
      else if t.kind == Some(ShapeText(AStatus)) then Ok(Reported(t.status))
      else Ok(Done)
  }

  function DecodeReply(bytes: seq<byte>, x: AddressText): Result<Reply, WireFault> {
    var (t, _) :- Fields(HandlerOf(ReplySchema(x)), bytes, 0, NOTHING_TOLD);
    MeantReply(t)
  }

  lemma ReplySpelled(x: AddressText)
    ensures Spelled(ReplySchema(x))
  {
    hide ReplyWord, ReplyKeyOf;
    forall k ensures ReplyKeyOf(ReplyWord(k)) == Some(k) { ReplyWordReads(k); }
  }

  // ---------------------------------------------------------------- encoding

  /** The octets of a reply's nested values. */
  datatype Nested = Nested(
    records: seq<seq<byte>>, addresses: seq<seq<byte>>, scopes: seq<seq<byte>>, counters: seq<byte>)

  function PartialOf(a: AddressOut): Partial {
    Partial(Some(a.address), a.ttl)
  }

  /** The nested octets read as the reply's nested values, whatever unknown fields they may hold. */
  ghost predicate Nests(x: AddressText, r: Reply, n: Nested) {
    match r
    case Answered(a) =>
      && |n.records| == |a.records| < 0x1_0000_0000
      && forall i :: 0 <= i < |n.records| ==> ItemReads(RecordItem, n.records[i], a.records[i])
    case Addressed(a) =>
      && |n.addresses| == |a.addresses| < 0x1_0000_0000
      && forall i :: 0 <= i < |n.addresses| ==> ItemReads(AddressItem(x), n.addresses[i], PartialOf(a.addresses[i]))
    case Reported(s) =>
      && |n.scopes| == |s.scopes| < 0x1_0000_0000
      && (forall i :: 0 <= i < |n.scopes| ==> ItemReads(ScopeItem, n.scopes[i], s.scopes[i]))
      && ItemReads(CountersItem, n.counters, s.counters)
    case _ => true
  }

  predicate OptText(o: Option<seq<byte>>) {
    o.Some? ==> IsText(o.value)
  }

  /** A reply's strings are text, and its numbers fit the wire's signed integer. */
  predicate FitsReply(r: Reply) {
    match r
    case Done => true
    case Failed(m) => IsText(m)
    case Answered(a) =>
      && |a.records| < 0x1_0000_0000 && IsText(a.source) && OptText(a.server) && OptText(a.interface_)
      && forall i :: 0 <= i < |a.records| ==> FitsRecord(a.records[i])
    case Addressed(a) => |a.addresses| < 0x1_0000_0000 && IsText(a.canonical) && IsText(a.source)
    case Reported(s) =>
      && |s.scopes| < 0x1_0000_0000 && IsText(s.hostname) && Texts(s.fallbackServers) && Small(s.cacheEntries)
      && FitsCounters(s.counters) && forall i :: 0 <= i < |s.scopes| ==> FitsScope(s.scopes[i])
  }

  function StrEntry(k: ReplyKey, s: seq<byte>): Entry<ReplyKey> {
    Entry(k, PackStr(s), VStr(s))
  }

  function BoolEntry(k: ReplyKey, b: bool): Entry<ReplyKey> {
    Entry(k, PackBool(b), VBool(b))
  }

  function UintEntry(k: ReplyKey, n: u64): Entry<ReplyKey> {
    Entry(k, PackUint(n), VUint(n))
  }

  function OptEntry(k: ReplyKey, o: Option<seq<byte>>): Entry<ReplyKey> {
    Entry(k, PackOpt(o), VOpt(o))
  }

  function AnswerEntries(a: AnswerOut, raws: seq<seq<byte>>): (es: seq<Entry<ReplyKey>>)
    requires |raws| < 0x1_0000_0000
    ensures |es| == 9
  {
    [BoolEntry(POk, true), StrEntry(PKind, ShapeText(AnAnswer)), StrEntry(POutcome, OutcomeText(a.outcome)),
     Entry(PRecords, PackArray(raws), VRecords(a.records)), StrEntry(PSource, a.source), OptEntry(PServer, a.server),
     OptEntry(PInterface, a.interface_), StrEntry(PValidation, ValidationText(a.validation)),
     UintEntry(PRcode, a.rcode)]
  }

  function AddressesEntries(a: AddressesOut, raws: seq<seq<byte>>): (es: seq<Entry<ReplyKey>>)
    requires |raws| < 0x1_0000_0000
    ensures |es| == 7
  {
    [BoolEntry(POk, true), StrEntry(PKind, ShapeText(Addrs)), StrEntry(POutcome, OutcomeText(a.outcome)),
     StrEntry(PCanonical, a.canonical), Entry(PAddresses, PackArray(raws), VAddresses(a.addresses)),
     StrEntry(PSource, a.source), StrEntry(PValidation, ValidationText(a.validation))]
  }

  function StatusEntries(s: StatusOut, raws: seq<seq<byte>>, counters: seq<byte>): (es: seq<Entry<ReplyKey>>)
    requires |raws| < 0x1_0000_0000 && |s.fallbackServers| < 0x1_0000_0000 && Small(s.cacheEntries)
    ensures |es| == 8
  {
    [BoolEntry(POk, true), StrEntry(PKind, ShapeText(AStatus)), StrEntry(PHostname, s.hostname),
     BoolEntry(PNetd, s.netd),
     Entry(PScopes, PackArray(raws), VScopes(s.scopes)),
     Entry(PFallback, PackStrs(s.fallbackServers), VStrs(s.fallbackServers)), UintEntry(PEntries, s.cacheEntries),
     Entry(PCounters, counters, VCounters(s.counters))]
  }

  function ReplyEntries(r: Reply, n: Nested): (es: seq<Entry<ReplyKey>>)
    requires FitsReply(r) && |n.records| < 0x1_0000_0000 && |n.addresses| < 0x1_0000_0000 && |n.scopes| < 0x1_0000_0000
    ensures |es| < 10
  {
    match r
    case Done => [BoolEntry(POk, true)]
    case Failed(m) => [BoolEntry(POk, false), StrEntry(PError, m)]
    case Answered(a) => AnswerEntries(a, n.records)
    case Addressed(a) => AddressesEntries(a, n.addresses)
    case Reported(s) => StatusEntries(s, n.scopes, n.counters)
  }

  // ------------------------------------------------------ the entries' values

  lemma Lifted(x: AddressText, k: Kind, raw: seq<byte>, v: Val)
    requires Means(ReadScalar, k, raw, v) && k !in {ARecords, AnAddresses, AScopes, ACounters}
    ensures Means(ReplySchema(x).read, k, raw, v)
  {
    hide At, ReadScalar;
  }

  lemma StrLifted(x: AddressText, s: seq<byte>)
    requires IsText(s)
    ensures Means(ReplySchema(x).read, AStr, PackStr(s), VStr(s))
  {
    hide Means, IsText, ReplySchema;
    StrMeans(s);
    Lifted(x, AStr, PackStr(s), VStr(s));
  }

  lemma OptLifted(x: AddressText, o: Option<seq<byte>>)
    requires OptText(o)
    ensures Means(ReplySchema(x).read, AOpt, PackOpt(o), VOpt(o))
  {
    hide Means, IsText, ReplySchema;
    OptMeans(o);
    Lifted(x, AOpt, PackOpt(o), VOpt(o));
  }

  lemma UintLifted(x: AddressText, n: nat)
    requires Small(n)
    ensures Means(ReplySchema(x).read, AUint, PackUint(n), VUint(n))
  {
    hide Means, ReplySchema;
    UintMeans(n);
    Lifted(x, AUint, PackUint(n), VUint(n));
  }

  lemma BoolLifted(x: AddressText, b: bool)
    ensures Means(ReplySchema(x).read, ABool, PackBool(b), VBool(b))
  {
    hide Means, ReplySchema;
    BoolMeans(b);
    Lifted(x, ABool, PackBool(b), VBool(b));
  }

  lemma RecordsMean(x: AddressText, raws: seq<seq<byte>>, rs: seq<RecordOut>)
    requires |raws| == |rs| < 0x1_0000_0000 && forall i :: 0 <= i < |raws| ==> ItemReads(RecordItem, raws[i], rs[i])
    ensures Means(ReplySchema(x).read, ARecords, PackArray(raws), VRecords(rs))
  {
    hide At, ItemReads, Items, PackArray, RecordItem;
    ItemsAlways(RecordItem, raws, rs);
  }

  lemma ScopesMean(x: AddressText, raws: seq<seq<byte>>, cs: seq<ScopeOut>)
    requires |raws| == |cs| < 0x1_0000_0000 && forall i :: 0 <= i < |raws| ==> ItemReads(ScopeItem, raws[i], cs[i])
    ensures Means(ReplySchema(x).read, AScopes, PackArray(raws), VScopes(cs))
  {
    hide At, ItemReads, Items, PackArray, ScopeItem;
    ItemsAlways(ScopeItem, raws, cs);
  }

  lemma CountersMean(x: AddressText, raw: seq<byte>, c: CountersOut)
    requires ItemReads(CountersItem, raw, c)
    ensures Means(ReplySchema(x).read, ACounters, raw, VCounters(c))
  {
    hide At, CountersItem;
  }

  lemma {:induction false} PresentAll(xs: seq<AddressOut>, ps: seq<Partial>)
    requires |ps| == |xs| && forall i :: 0 <= i < |xs| ==> ps[i] == PartialOf(xs[i])
    ensures Present(ps) == xs
  {
    if xs != [] {
      PresentAll(xs[1..], ps[1..]);
      assert xs == [xs[0]] + xs[1..];
    }
  }

  lemma AddressesMean(x: AddressText, raws: seq<seq<byte>>, xs: seq<AddressOut>)
    requires |raws| == |xs| < 0x1_0000_0000
    requires forall i :: 0 <= i < |raws| ==> ItemReads(AddressItem(x), raws[i], PartialOf(xs[i]))
    ensures Means(ReplySchema(x).read, AnAddresses, PackArray(raws), VAddresses(xs))
  {
    hide At, ItemReads, Items, PackArray, AddressItem, Present;
    var ps := seq(|xs|, i requires 0 <= i < |xs| => PartialOf(xs[i]));
    ItemsAlways(AddressItem(x), raws, ps);
    PresentAll(xs, ps);
  }

  lemma WordLifted(x: AddressText, s: Text)
    ensures Means(ReplySchema(x).read, AStr, PackStr(s), VStr(s))
  {
    hide Means, ReplySchema, ValidUtf8;
    StrLifted(x, s);
  }

  lemma AnswerSpelt(x: AddressText, r: Reply, n: Nested)
    requires r.Answered? && FitsReply(r) && Nests(x, r, n)
    ensures Spelt(ReplySchema(x), AnswerEntries(r.answer, n.records))
  {
    hide Means, PackStr, PackOpt, PackUint, PackBool, PackArray, IsText, ItemReads, FitsRecord, ShapeText,
         OutcomeText, ValidationText, ReplyKeyOf, ReplyWord, SetReply, ReadVal, ValidUtf8, OptText;
    var a := r.answer;
    BoolLifted(x, true);
    WordLifted(x, ShapeText(AnAnswer));
    WordLifted(x, OutcomeText(a.outcome));
    RecordsMean(x, n.records, a.records);
    StrLifted(x, a.source);
    OptLifted(x, a.server);
    OptLifted(x, a.interface_);
    WordLifted(x, ValidationText(a.validation));
    UintLifted(x, a.rcode);
  }

  lemma AddressesSpelt(x: AddressText, r: Reply, n: Nested)
    requires r.Addressed? && FitsReply(r) && Nests(x, r, n)
    ensures Spelt(ReplySchema(x), AddressesEntries(r.addresses, n.addresses))
  {
    hide Means, PackStr, PackBool, PackArray, IsText, ItemReads, ShapeText, OutcomeText, ValidationText, ReplyKeyOf,
         ReplyWord, SetReply, ReadVal, ValidUtf8, PartialOf;
    var a := r.addresses;
    BoolLifted(x, true);
    WordLifted(x, ShapeText(Addrs));
    WordLifted(x, OutcomeText(a.outcome));
    StrLifted(x, a.canonical);
    AddressesMean(x, n.addresses, a.addresses);
    StrLifted(x, a.source);
    WordLifted(x, ValidationText(a.validation));
  }

  lemma StatusSpelt(x: AddressText, r: Reply, n: Nested)
    requires r.Reported? && FitsReply(r) && Nests(x, r, n)
    ensures Spelt(ReplySchema(x), StatusEntries(r.status, n.scopes, n.counters))
  {
    hide Means, PackStr, PackStrs, PackUint, PackBool, PackArray, IsText, ItemReads, ShapeText, ReplyKeyOf, ReplyWord,
         SetReply, ReadVal, ValidUtf8, FitsScope, FitsCounters;
    var s := r.status;
    BoolLifted(x, true);
    BoolLifted(x, s.netd);
    WordLifted(x, ShapeText(AStatus));
    StrLifted(x, s.hostname);
    ScopesMean(x, n.scopes, s.scopes);
    StrsMean(s.fallbackServers);
    Lifted(x, AStrs, PackStrs(s.fallbackServers), VStrs(s.fallbackServers));
    UintLifted(x, s.cacheEntries);
    CountersMean(x, n.counters, s.counters);
  }

  lemma ReplySpelt(x: AddressText, r: Reply, n: Nested)
    requires FitsReply(r) && Nests(x, r, n)
    requires |n.records| < 0x1_0000_0000 && |n.addresses| < 0x1_0000_0000 && |n.scopes| < 0x1_0000_0000
    ensures Spelt(ReplySchema(x), ReplyEntries(r, n))
  {
    match r
    case Answered(a) =>
      hide Spelt, AnswerEntries;
      AnswerSpelt(x, r, n);
    case Addressed(a) =>
      hide Spelt, AddressesEntries;
      AddressesSpelt(x, r, n);
    case Reported(s) =>
      hide Spelt, StatusEntries;
      StatusSpelt(x, r, n);
    case _ => PlainSpelt(x, r, n);
  }

  lemma PlainSpelt(x: AddressText, r: Reply, n: Nested)
    requires (r.Done? || r.Failed?) && FitsReply(r)
    requires |n.records| < 0x1_0000_0000 && |n.addresses| < 0x1_0000_0000 && |n.scopes| < 0x1_0000_0000
    ensures Spelt(ReplySchema(x), ReplyEntries(r, n))
  {
    hide Means, PackStr, PackBool, IsText, ReplyKeyOf, ReplyWord, SetReply, ReadVal;
    BoolLifted(x, r.Done?);
    if r.Failed? { StrLifted(x, r.message); }
  }

  // -------------------------------------------------- what the entries set

  lemma StrSets(t: Told, e: Entry<ReplyKey>, k: ReplyKey, s: seq<byte>)
    requires e == StrEntry(k, s)
    ensures SetReply(t, e.k, e.v) == SetText(t, k, s)
  {
    hide PackStr, SetText;
  }

  lemma BoolSets(t: Told, e: Entry<ReplyKey>, b: bool)
    ensures e == BoolEntry(POk, b) ==> SetReply(t, e.k, e.v) == t.(ok := Some(b))
    ensures e == BoolEntry(PNetd, b) ==> SetReply(t, e.k, e.v) == t.(status := t.status.(netd := b))
  {
    hide PackBool;
  }

  lemma OptSets(t: Told, e: Entry<ReplyKey>, o: Option<seq<byte>>)
    ensures e == OptEntry(PServer, o) ==> SetReply(t, e.k, e.v) == t.(answer := t.answer.(server := o))
    ensures e == OptEntry(PInterface, o) ==> SetReply(t, e.k, e.v) == t.(answer := t.answer.(interface_ := o))
  {
    hide PackOpt;
  }

  lemma UintSets(t: Told, e: Entry<ReplyKey>, n: u64)
    ensures e == UintEntry(PRcode, n) ==> SetReply(t, e.k, e.v) == t.(answer := t.answer.(rcode := n % 0x1_0000))
    ensures e == UintEntry(PEntries, n) ==> SetReply(t, e.k, e.v) == t.(status := t.status.(cacheEntries := n))
  {
    hide PackUint;
  }

  lemma NestedSets(t: Told, e: Entry<ReplyKey>)
    ensures e.v.VRecords? ==> SetReply(t, e.k, e.v) == t.(answer := t.answer.(records := e.v.records))
    ensures e.v.VAddresses? ==> SetReply(t, e.k, e.v) == t.(addresses := t.addresses.(addresses := e.v.addresses))
    ensures e.v.VScopes? ==> SetReply(t, e.k, e.v) == t.(status := t.status.(scopes := e.v.scopes))
    ensures e.v.VCounters? ==> SetReply(t, e.k, e.v) == t.(status := t.status.(counters := e.v.counters))
    ensures e.v.VStrs? ==> SetReply(t, e.k, e.v) == t.(status := t.status.(fallbackServers := e.v.ss))
  {
  }

  lemma Put(x: AddressText, es: seq<Entry<ReplyKey>>, i: nat)
    requires i < |es|
    ensures SetTo(ReplySchema(x), NOTHING_TOLD, es, i + 1)
            == SetReply(SetTo(ReplySchema(x), NOTHING_TOLD, es, i), es[i].k, es[i].v)
  {
    hide SetTo, SetReply, ReplyKeyOf, ReplyWord, ReadVal;
    SetNext(ReplySchema(x), NOTHING_TOLD, es, i);
  }

  lemma AnswerAt(a: AnswerOut, raws: seq<seq<byte>>)
    requires |raws| < 0x1_0000_0000
    ensures var es := AnswerEntries(a, raws);
            && |es| == 9 && es[0] == BoolEntry(POk, true) && es[1] == StrEntry(PKind, ShapeText(AnAnswer))
            && es[2] == StrEntry(POutcome, OutcomeText(a.outcome))
            && es[3].k == PRecords && es[3].v == VRecords(a.records)
            && es[4] == StrEntry(PSource, a.source) && es[5] == OptEntry(PServer, a.server)
            && es[6] == OptEntry(PInterface, a.interface_)
            && es[7] == StrEntry(PValidation, ValidationText(a.validation)) && es[8] == UintEntry(PRcode, a.rcode)
  {
    hide StrEntry, BoolEntry, OptEntry, UintEntry, ShapeText, OutcomeText, ValidationText;
  }

  lemma AddressesAt(a: AddressesOut, raws: seq<seq<byte>>)
    requires |raws| < 0x1_0000_0000
    ensures var es := AddressesEntries(a, raws);
            && |es| == 7 && es[0] == BoolEntry(POk, true) && es[1] == StrEntry(PKind, ShapeText(Addrs))
            && es[2] == StrEntry(POutcome, OutcomeText(a.outcome)) && es[3] == StrEntry(PCanonical, a.canonical)
            && es[4].k == PAddresses && es[4].v == VAddresses(a.addresses) && es[5] == StrEntry(PSource, a.source)
            && es[6] == StrEntry(PValidation, ValidationText(a.validation))
  {
    hide StrEntry, BoolEntry, ShapeText, OutcomeText, ValidationText;
  }

  lemma StatusAt(s: StatusOut, raws: seq<seq<byte>>, counters: seq<byte>)
    requires |raws| < 0x1_0000_0000 && |s.fallbackServers| < 0x1_0000_0000 && Small(s.cacheEntries)
    ensures var es := StatusEntries(s, raws, counters);
            && |es| == 8 && es[0] == BoolEntry(POk, true) && es[1] == StrEntry(PKind, ShapeText(AStatus))
            && es[2] == StrEntry(PHostname, s.hostname) && es[3] == BoolEntry(PNetd, s.netd)
            && es[4].k == PScopes && es[4].v == VScopes(s.scopes)
            && es[5].k == PFallback && es[5].v == VStrs(s.fallbackServers)
            && es[6] == UintEntry(PEntries, s.cacheEntries)
            && es[7].k == PCounters && es[7].v == VCounters(s.counters)
  {
    hide StrEntry, BoolEntry, UintEntry, ShapeText;
  }

  function AnswerHalf(a: AnswerOut): Told {
    NOTHING_TOLD.(ok := Some(true), kind := Some(ShapeText(AnAnswer)),
                  answer := NO_ANSWER.(outcome := a.outcome, records := a.records),
                  addresses := NO_ADDRESSES.(outcome := a.outcome))
  }

  lemma AnswerSetHalf(x: AddressText, a: AnswerOut, raws: seq<seq<byte>>)
    requires |raws| < 0x1_0000_0000
    ensures SetTo(ReplySchema(x), NOTHING_TOLD, AnswerEntries(a, raws), 4) == AnswerHalf(a)
  {
    hide SetTo, ShapeText, ReplySchema, OutcomeText, ValidationText, ParseOutcome, ParseValidation, AnswerEntries,
         SetReply, StrEntry, BoolEntry, UintEntry, OptEntry;
    OutcomeReads(a.outcome);
    AnswerAt(a, raws);
    var m, es := ReplySchema(x), AnswerEntries(a, raws);
    SetNone(m, NOTHING_TOLD, es);
    Put(x, es, 0);
    BoolSets(SetTo(m, NOTHING_TOLD, es, 0), es[0], true);
    Put(x, es, 1);
    StrSets(SetTo(m, NOTHING_TOLD, es, 1), es[1], PKind, ShapeText(AnAnswer));
    Put(x, es, 2);
    StrSets(SetTo(m, NOTHING_TOLD, es, 2), es[2], POutcome, OutcomeText(a.outcome));
    Put(x, es, 3);
    NestedSets(SetTo(m, NOTHING_TOLD, es, 3), es[3]);
  }

  lemma AnswerSet(x: AddressText, a: AnswerOut, raws: seq<seq<byte>>)
    requires |raws| < 0x1_0000_0000
    ensures var t := SetAll(ReplySchema(x), NOTHING_TOLD, AnswerEntries(a, raws));
            t.ok == Some(true) && t.kind == Some(ShapeText(AnAnswer)) && t.answer == a
  {
    hide SetTo, ShapeText, ReplySchema, OutcomeText, ValidationText, ParseOutcome, ParseValidation, AnswerEntries,
         SetReply, StrEntry, BoolEntry, UintEntry, OptEntry;
    ValidationReads(a.validation);
    AnswerAt(a, raws);
    AnswerSetHalf(x, a, raws);
    var m, es := ReplySchema(x), AnswerEntries(a, raws);
    Put(x, es, 4);
    StrSets(SetTo(m, NOTHING_TOLD, es, 4), es[4], PSource, a.source);
    Put(x, es, 5);
    OptSets(SetTo(m, NOTHING_TOLD, es, 5), es[5], a.server);
    Put(x, es, 6);
    OptSets(SetTo(m, NOTHING_TOLD, es, 6), es[6], a.interface_);
    Put(x, es, 7);
    StrSets(SetTo(m, NOTHING_TOLD, es, 7), es[7], PValidation, ValidationText(a.validation));
    Put(x, es, 8);
    UintSets(SetTo(m, NOTHING_TOLD, es, 8), es[8], a.rcode);
  }

  function AddressesHalf(a: AddressesOut): Told {
    NOTHING_TOLD.(ok := Some(true), kind := Some(ShapeText(Addrs)), answer := NO_ANSWER.(outcome := a.outcome),
                  addresses := NO_ADDRESSES.(outcome := a.outcome, canonical := a.canonical))
  }

  lemma AddressesSetHalf(x: AddressText, a: AddressesOut, raws: seq<seq<byte>>)
    requires |raws| < 0x1_0000_0000
    ensures SetTo(ReplySchema(x), NOTHING_TOLD, AddressesEntries(a, raws), 4) == AddressesHalf(a)
  {
    hide SetTo, ShapeText, ReplySchema, OutcomeText, ValidationText, ParseOutcome, ParseValidation, AddressesEntries,
         SetReply, StrEntry, BoolEntry, UintEntry, OptEntry;
    OutcomeReads(a.outcome);
    AddressesAt(a, raws);
    var m, es := ReplySchema(x), AddressesEntries(a, raws);
    SetNone(m, NOTHING_TOLD, es);
    Put(x, es, 0);
    BoolSets(SetTo(m, NOTHING_TOLD, es, 0), es[0], true);
    Put(x, es, 1);
    StrSets(SetTo(m, NOTHING_TOLD, es, 1), es[1], PKind, ShapeText(Addrs));
    Put(x, es, 2);
    StrSets(SetTo(m, NOTHING_TOLD, es, 2), es[2], POutcome, OutcomeText(a.outcome));
    Put(x, es, 3);
    StrSets(SetTo(m, NOTHING_TOLD, es, 3), es[3], PCanonical, a.canonical);
  }

  lemma AddressesSet(x: AddressText, a: AddressesOut, raws: seq<seq<byte>>)
    requires |raws| < 0x1_0000_0000
    ensures var t := SetAll(ReplySchema(x), NOTHING_TOLD, AddressesEntries(a, raws));
            t.ok == Some(true) && t.kind == Some(ShapeText(Addrs)) && t.addresses == a
  {
    hide SetTo, ShapeText, ReplySchema, OutcomeText, ValidationText, ParseOutcome, ParseValidation, AddressesEntries,
         SetReply, StrEntry, BoolEntry, UintEntry, OptEntry;
    ValidationReads(a.validation);
    AddressesAt(a, raws);
    AddressesSetHalf(x, a, raws);
    var m, es := ReplySchema(x), AddressesEntries(a, raws);
    Put(x, es, 4);
    NestedSets(SetTo(m, NOTHING_TOLD, es, 4), es[4]);
    Put(x, es, 5);
    StrSets(SetTo(m, NOTHING_TOLD, es, 5), es[5], PSource, a.source);
    Put(x, es, 6);
    StrSets(SetTo(m, NOTHING_TOLD, es, 6), es[6], PValidation, ValidationText(a.validation));
  }

  function StatusHalf(s: StatusOut): Told {
    NOTHING_TOLD.(ok := Some(true), kind := Some(ShapeText(AStatus)),
                  status := NO_STATUS.(hostname := s.hostname, netd := s.netd))
  }

  lemma StatusSetHalf(x: AddressText, s: StatusOut, raws: seq<seq<byte>>, counters: seq<byte>)
    requires |raws| < 0x1_0000_0000 && |s.fallbackServers| < 0x1_0000_0000 && Small(s.cacheEntries)
    ensures SetTo(ReplySchema(x), NOTHING_TOLD, StatusEntries(s, raws, counters), 4) == StatusHalf(s)
  {
    hide SetTo, ShapeText, ReplySchema, StatusEntries, SetReply, StrEntry, BoolEntry, UintEntry;
    StatusAt(s, raws, counters);
    var m, es := ReplySchema(x), StatusEntries(s, raws, counters);
    SetNone(m, NOTHING_TOLD, es);
    Put(x, es, 0);
    BoolSets(NOTHING_TOLD, es[0], true);
    Put(x, es, 1);
    StrSets(SetTo(m, NOTHING_TOLD, es, 1), es[1], PKind, ShapeText(AStatus));
    Put(x, es, 2);
    StrSets(SetTo(m, NOTHING_TOLD, es, 2), es[2], PHostname, s.hostname);
    Put(x, es, 3);
    BoolSets(SetTo(m, NOTHING_TOLD, es, 3), es[3], s.netd);
  }

  lemma StatusSet(x: AddressText, s: StatusOut, raws: seq<seq<byte>>, counters: seq<byte>)
    requires |raws| < 0x1_0000_0000 && |s.fallbackServers| < 0x1_0000_0000 && Small(s.cacheEntries)
    ensures var t := SetAll(ReplySchema(x), NOTHING_TOLD, StatusEntries(s, raws, counters));
            t.ok == Some(true) && t.kind == Some(ShapeText(AStatus)) && t.status == s
  {
    hide SetTo, ShapeText, ReplySchema, StatusEntries, SetReply, StrEntry, BoolEntry, UintEntry, OptEntry;
    StatusAt(s, raws, counters);
    StatusSetHalf(x, s, raws, counters);
    var m, es := ReplySchema(x), StatusEntries(s, raws, counters);
    Put(x, es, 4);
    NestedSets(SetTo(m, NOTHING_TOLD, es, 4), es[4]);
    Put(x, es, 5);
    NestedSets(SetTo(m, NOTHING_TOLD, es, 5), es[5]);
    Put(x, es, 6);
    UintSets(SetTo(m, NOTHING_TOLD, es, 6), es[6], s.cacheEntries);
    Put(x, es, 7);
    NestedSets(SetTo(m, NOTHING_TOLD, es, 7), es[7]);
  }

  lemma PlainSet(x: AddressText, r: Reply, n: Nested)
    requires (r.Done? || r.Failed?) && FitsReply(r)
    requires |n.records| < 0x1_0000_0000 && |n.addresses| < 0x1_0000_0000 && |n.scopes| < 0x1_0000_0000
    ensures MeantReply(SetAll(ReplySchema(x), NOTHING_TOLD, ReplyEntries(r, n))) == Ok(r)
  {
    hide PackStr, PackBool, SetTo, IsText, ReplySchema, ShapeText;
    var es := ReplyEntries(r, n);
    SetNone(ReplySchema(x), NOTHING_TOLD, es);
    Put(x, es, 0);
    if r.Failed? { Put(x, es, 1); }
  }

  lemma KindsDiffer()
    ensures ShapeText(AnAnswer) != ShapeText(Addrs) && ShapeText(AnAnswer) != ShapeText(AStatus)
    ensures ShapeText(Addrs) != ShapeText(AStatus)
  {
    hide Ascii, Mark;
    MarkIs("answer");
    MarkIs("addresses");
    MarkIs("status");
  }

  lemma MeantKind(t: Told)
    requires t.ok == Some(true)
    ensures t.kind == Some(ShapeText(AnAnswer)) ==> MeantReply(t) == Ok(Answered(t.answer))
    ensures t.kind == Some(ShapeText(Addrs)) ==> MeantReply(t) == Ok(Addressed(t.addresses))
    ensures t.kind == Some(ShapeText(AStatus)) ==> MeantReply(t) == Ok(Reported(t.status))
  {
    hide ShapeText;
    KindsDiffer();
  }

  lemma ReplySet(x: AddressText, r: Reply, n: Nested)
    requires FitsReply(r)
    requires |n.records| < 0x1_0000_0000 && |n.addresses| < 0x1_0000_0000 && |n.scopes| < 0x1_0000_0000
    ensures MeantReply(SetAll(ReplySchema(x), NOTHING_TOLD, ReplyEntries(r, n))) == Ok(r)
  {
    hide SetAll, AnswerEntries, AddressesEntries, StatusEntries, ShapeText, ReplySchema, IsText, FitsRecord,
         FitsScope, FitsCounters, MeantReply, Texts, OptText;
    var t := SetAll(ReplySchema(x), NOTHING_TOLD, ReplyEntries(r, n));
    match r
    case Answered(a) =>
      AnswerSet(x, a, n.records);
      MeantKind(t);
    case Addressed(a) =>
      AddressesSet(x, a, n.addresses);
      MeantKind(t);
    case Reported(s) =>
      assert |s.fallbackServers| < 0x1_0000_0000 by { TextsSize(s.fallbackServers); }
      StatusSet(x, s, n.scopes, n.counters);
      MeantKind(t);
    case _ => PlainSet(x, r, n);
  }

  lemma TextsSize(ss: seq<seq<byte>>)
    requires Texts(ss)
    ensures |ss| < 0x1_0000_0000
  {
  }

  // ------------------------------------------------------------- the theorem

  /** A reply whose maps, at any level, hold extra well-formed fields of unknown keys decodes to the reply. */
  lemma ReplyTolerant(x: AddressText, r: Reply, n: Nested, gs: seq<Field>)
    requires FitsReply(r) && Nests(x, r, n)
    requires |n.records| < 0x1_0000_0000 && |n.addresses| < 0x1_0000_0000 && |n.scopes| < 0x1_0000_0000
    requires Padded(gs, EntryFields(ReplySchema(x), ReplyEntries(r, n)), KnownTo(ReplySchema(x)))
    ensures |gs| < 0x1_0000_0000 && DecodeReply(PackMap(gs), x) == Ok(r)
  {
    hide Padded, Spelled, Spelt, SetAll, ReplyEntries, ReplySchema, FitsReply, Nests, Fields, PackMap, MeantReply;
    var m, es := ReplySchema(x), ReplyEntries(r, n);
    ReplySpelled(x);
    ReplySpelt(x, r, n);
    ReplySet(x, r, n);
    PaddedSize(gs, EntryFields(m, es), KnownTo(m));
    WholeAt(PackMap(gs));
    SchemaTolerant(m, NOTHING_TOLD, es, gs, PackMap(gs), 0);
  }

  /** A map of a schema with its own fields and no others. */
  function OwnMap<K, A>(m: Schema<K, A>, es: seq<Entry<K>>): seq<byte>
    requires |es| < 100
  {
    PackMap(EntryFields(m, es))
  }

  /** The nested values as the daemon writes them. */
  function OwnNested(x: AddressText, r: Reply): (n: Nested)
    requires FitsReply(r)
    ensures |n.records| < 0x1_0000_0000 && |n.addresses| < 0x1_0000_0000 && |n.scopes| < 0x1_0000_0000
  {
    Nested(
      if r.Answered? then RecordMaps(r.answer.records) else [],
      if r.Addressed? then AddressMaps(x, r.addresses.addresses) else [],
      if r.Reported? then ScopeMaps(r.status.scopes) else [],
      if r.Reported? then OwnMap(COUNTERS, CounterEntries(r.status.counters)) else [])
  }

  function RecordMaps(rs: seq<RecordOut>): (raws: seq<seq<byte>>)
    ensures |raws| == |rs|
  {
    seq(|rs|, i requires 0 <= i < |rs| => OwnMap(RECORD, RecordEntries(rs[i])))
  }

  function AddressMaps(x: AddressText, xs: seq<AddressOut>): (raws: seq<seq<byte>>)
    ensures |raws| == |xs|
  {
    seq(|xs|, i requires 0 <= i < |xs| => OwnMap(AddressSchema(x), AddressEntries(x, xs[i])))
  }

  function ScopeMaps(cs: seq<ScopeOut>): (raws: seq<seq<byte>>)
    requires forall i :: 0 <= i < |cs| ==> FitsScope(cs[i])
    ensures |raws| == |cs|
  {
    seq(|cs|, i requires 0 <= i < |cs| => OwnMap(SCOPE, ScopeEntries(cs[i])))
  }

  function EncodeReply(x: AddressText, r: Reply): seq<byte>
    requires FitsReply(r)
  {
    OwnMap(ReplySchema(x), ReplyEntries(r, OwnNested(x, r)))
  }

  lemma OwnRecord(r: RecordOut)
    requires FitsRecord(r)
    ensures ItemReads(RecordItem, OwnMap(RECORD, RecordEntries(r)), r)
  {
    hide FitsRecord, ItemReads, Padded, Spelled, Spelt;
    RecordSpelled();
    RecordWritten(r);
    OwnFields(RECORD, RecordEntries(r));
    RecordReads(r, EntryFields(RECORD, RecordEntries(r)));
  }

  lemma OwnAddress(x: AddressText, a: AddressOut)
    requires Faithful(x)
    ensures ItemReads(AddressItem(x), OwnMap(AddressSchema(x), AddressEntries(x, a)), PartialOf(a))
  {
    hide ItemReads, Padded, Spelled, Spelt, Faithful, AddressItem, AddressSchema;
    AddressSpelled(x);
    AddressSpelt(x, a);
    OwnFields(AddressSchema(x), AddressEntries(x, a));
    AddressReadsBack(x, a, EntryFields(AddressSchema(x), AddressEntries(x, a)));
  }

  lemma OwnScope(c: ScopeOut)
    requires FitsScope(c)
    ensures ItemReads(ScopeItem, OwnMap(SCOPE, ScopeEntries(c)), c)
  {
    hide FitsScope, ItemReads, Padded, Spelled, Spelt;
    ScopeSpelled();
    ScopeSpelt(c);
    OwnFields(SCOPE, ScopeEntries(c));
    ScopeReadsBack(c, EntryFields(SCOPE, ScopeEntries(c)));
  }

  lemma OwnCounters(c: CountersOut)
    requires FitsCounters(c)
    ensures ItemReads(CountersItem, OwnMap(COUNTERS, CounterEntries(c)), c)
  {
    hide FitsCounters, ItemReads, Padded, Spelled, Spelt;
    CountersSpelled();
    CountersSpelt(c);
    OwnFields(COUNTERS, CounterEntries(c));
    CountersReadBack(c, EntryFields(COUNTERS, CounterEntries(c)));
  }

  lemma OwnNests(x: AddressText, r: Reply)
    requires FitsReply(r) && Faithful(x)
    ensures Nests(x, r, OwnNested(x, r))
  {
    hide ItemReads, OwnMap, FitsRecord, FitsScope, FitsCounters, Faithful, AddressItem, PartialOf, IsText, Texts,
         OptText, RecordEntries, AddressEntries, ScopeEntries, CounterEntries, RecordItem, ScopeItem, CountersItem;
    match r
    case Answered(a) =>
      forall i | 0 <= i < |a.records| ensures ItemReads(RecordItem, RecordMaps(a.records)[i], a.records[i]) {
        OwnRecord(a.records[i]);
      }
    case Addressed(a) =>
      forall i | 0 <= i < |a.addresses|
        ensures ItemReads(AddressItem(x), AddressMaps(x, a.addresses)[i], PartialOf(a.addresses[i]))
      {
        OwnAddress(x, a.addresses[i]);
      }
    case Reported(s) =>
      forall i | 0 <= i < |s.scopes| ensures ItemReads(ScopeItem, ScopeMaps(s.scopes)[i], s.scopes[i]) {
        OwnScope(s.scopes[i]);
      }
      OwnCounters(s.counters);
    case _ =>
  }

  /** A reply decodes from its own encoding. */
  lemma ReplyRoundTrip(x: AddressText, r: Reply)
    requires FitsReply(r) && Faithful(x)
    ensures DecodeReply(EncodeReply(x, r), x) == Ok(r)
  {
    hide FitsReply, Faithful, Nests, Spelled, Spelt, Padded, ReplyEntries, OwnNested, ReplySchema, DecodeReply;
    var m, n := ReplySchema(x), OwnNested(x, r);
    OwnNests(x, r);
    ReplySpelled(x);
    ReplySpelt(x, r, n);
    OwnFields(m, ReplyEntries(r, n));
    ReplyTolerant(x, r, n, EntryFields(m, ReplyEntries(r, n)));
  }
}
