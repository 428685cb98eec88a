/** Requests on the native wire. */
module NativeRequests {
  import opened Bytes
  import opened Results
  import opened Dns
  import opened MsgPack
  import opened MsgPackIo
  import opened NativeFields
  import EngineModel

  type Family = EngineModel.Family

  datatype Request =
    | Resolve(name: seq<byte>, rtype: u16, noCache: bool)
    | Lookup(name: seq<byte>, family: Family)
    | Reverse(address: IpAddr)
    | Status
    | Flush

  // ---------------------------------------------------------------- spelling

  /** The octets of an ASCII word. */
  function Ascii(s: string): (r: Text)
    requires |s| < 100
    ensures |r| == |s|
  {
    var r := seq(|s|, i requires 0 <= i < |s| => s[i] as int % 0x80);
    AsciiValid(r);
    r
  }

  lemma {:induction false} AsciiValid(s: seq<byte>)
    requires forall i :: 0 <= i < |s| ==> s[i] < 0x80
    ensures ValidUtf8(s)
  {
    if s != [] { AsciiValid(s[1..]); }
  }

  /** A word's length and first, middle and last octets, enough to tell the wire's words apart. */
  function Mark(s: seq<byte>): nat
    requires s != []
  {
    |s| * 0x100_0000 + s[0] as int * 0x1_0000 + s[|s| / 2] as int * 0x100 + s[|s| - 1] as int
  }

  /** A word has the mark its spelling says. */
  lemma MarkIs(s: string)
    requires 0 < |s| < 100
    ensures Ascii(s) != []
    ensures Mark(Ascii(s)) == |s| * 0x100_0000 + (s[0] as int % 0x80) * 0x1_0000 + (s[|s| / 2] as int % 0x80) * 0x100
                              + s[|s| - 1] as int % 0x80
  {
  }

  /** How addresses are written and read as text. */
  datatype AddressText = AddressText(show: IpAddr -> seq<byte>, parse: seq<byte> -> Option<IpAddr>)

  /** Every address reads back from its text. */
  ghost predicate Faithful(x: AddressText) {
    forall a :: ValidUtf8(x.show(a)) && |x.show(a)| < 0x1_0000_0000 && x.parse(x.show(a)) == Some(a)
  }

  function FamilyText(f: Family): Text {
    match f
    case FamilyAny => Ascii("any")
    case Inet => Ascii("inet")
    case Inet6 => Ascii("inet6")
  }

  function ParseFamily(s: seq<byte>): Option<Family> {
    if s == Ascii("any") then Some(EngineModel.FamilyAny)
    else if s == Ascii("inet") then Some(EngineModel.Inet)
    else if s == Ascii("inet6") then Some(EngineModel.Inet6)
    else None
  }

  lemma FamilyReads(f: Family)
    ensures ParseFamily(FamilyText(f)) == Some(f)
  {
    assert |Ascii("any")| == 3 && |Ascii("inet")| == 4 && |Ascii("inet6")| == 5;
  }

  // -------------------------------------------------------------------- keys

  datatype RequestKey = KQuery | KName | KType | KNoCache | KFamily | KAddress

  function Spell(k: RequestKey): Text {
    match k
    case KQuery => Ascii("query")
    case KName => Ascii("name")
    case KType => Ascii("type")
    case KNoCache => Ascii("no_cache")
    case KFamily => Ascii("family")
    case KAddress => Ascii("address")
  }

  function KeyOf(key: Key): Option<RequestKey> {
    if key == Spell(KQuery) then Some(KQuery)
    else if key == Spell(KName) then Some(KName)
    else if key == Spell(KType) then Some(KType)
    else if key == Spell(KNoCache) then Some(KNoCache)
    else if key == Spell(KFamily) then Some(KFamily)
    else if key == Spell(KAddress) then Some(KAddress)
    else None
  }

  predicate Known(key: Key) {
    KeyOf(key).Some?
  }

  lemma KeySpelled(k: RequestKey)
    ensures KeyOf(Spell(k)) == Some(k)
  {
    hide Ascii, Mark;
    MarkIs("query");
    MarkIs("name");
    MarkIs("type");
    MarkIs("no_cache");
    MarkIs("family");
    MarkIs("address");
  }

  // ---------------------------------------------------------------- decoding

  /** The fields of a request gathered so far. */
  datatype Asked = Asked(
    query: Option<seq<byte>>, name: Option<seq<byte>>, rtype: Option<u16>, noCache: bool,
    family: Option<Family>, address: Option<seq<byte>>)

  const NOTHING: Asked := Asked(None, None, None, false, None, None)

  function AskField(buf: seq<byte>, key: Key, pos: nat, a: Asked): Parsed<Asked> {
    match KeyOf(key)
    case Some(KQuery) =>
      var (s, p) :- Lift(ReadStr(buf, pos));
      Ok((a.(query := Some(s)), p))
    case Some(KName) =>
      var (s, p) :- Lift(ReadStr(buf, pos));
      Ok((a.(name := Some(s)), p))
    case Some(KType) =>
      var (v, p) :- Lift(ReadUint(buf, pos));
      if v > 0xffff then Err(Missing("type")) else Ok((a.(rtype := Some(v)), p))
    case Some(KNoCache) =>
      var (v, p) :- Lift(ReadBool(buf, pos));
      Ok((a.(noCache := v), p))
    case Some(KFamily) =>
      var (s, p) :- Lift(ReadStr(buf, pos));
      Ok((a.(family := ParseFamily(s)), p))
    case Some(KAddress) =>
      var (s, p) :- Lift(ReadStr(buf, pos));
      Ok((a.(address := Some(s)), p))
    case None => SkipField(buf, pos, a)
  }

  function Meant(a: Asked, x: AddressText): Result<Request, WireFault> {
    match a.query
    case None => Err(Missing("query"))
    case Some(q) =>
      if q == Ascii("resolve") then
        if a.name.None? then Err(Missing("name"))
        else if a.rtype.None? then Err(Missing("type"))
        else Ok(Resolve(a.name.value, a.rtype.value, a.noCache))
      else if q == Ascii("lookup") then
        if a.name.None? then Err(Missing("name"))
        else Ok(Lookup(a.name.value, if a.family.Some? then a.family.value else EngineModel.FamilyAny))
      else if q == Ascii("reverse") then
        if a.address.None? then Err(Missing("address"))
        else match x.parse(a.address.value)
          case None => Err(Missing("address"))
          case Some(addr) => Ok(Reverse(addr))
      else if q == Ascii("status") then Ok(Status)
      else if q == Ascii("flush") then Ok(Flush)
      else Err(UnknownQuery(q))
  }

  function Decode(bytes: seq<byte>, x: AddressText): Result<Request, WireFault> {
    var (a, _) :- Fields(AskField, bytes, 0, NOTHING);
    Meant(a, x)
  }

  // ---------------------------------------------------------------- encoding

  /** The keys of a request's own fields. */
  function OwnKeys(r: Request): (ks: seq<RequestKey>)
    ensures |ks| <= 4
  {
    match r
    case Resolve(_, _, _) => [KQuery, KName, KType, KNoCache]
    case Lookup(_, _) => [KQuery, KName, KFamily]
    case Reverse(_) => [KQuery, KAddress]
    case _ => [KQuery]
  }

  function QueryText(r: Request): Text {
    match r
    case Resolve(_, _, _) => Ascii("resolve")
    case Lookup(_, _) => Ascii("lookup")
    case Reverse(_) => Ascii("reverse")
    case Status => Ascii("status")
    case Flush => Ascii("flush")
  }

  /** And their values, in the same order. */
  function OwnValues(r: Request, x: AddressText): (vs: seq<seq<byte>>)
    ensures |vs| == |OwnKeys(r)|
  {
    match r
    case Resolve(name, rtype, noCache) => [PackStr(QueryText(r)), PackStr(name), PackUint(rtype), PackBool(noCache)]
    case Lookup(name, family) => [PackStr(QueryText(r)), PackStr(name), PackStr(FamilyText(family))]
    case Reverse(address) => [PackStr(QueryText(r)), PackStr(x.show(address))]
    case _ => [PackStr(QueryText(r))]
  }

  function RequestFields(r: Request, x: AddressText): (fs: seq<Field>)
    ensures |fs| == |OwnKeys(r)|
  {
    seq(|OwnKeys(r)|, i requires 0 <= i < |OwnKeys(r)| => Field(Spell(OwnKeys(r)[i]), OwnValues(r, x)[i]))
  }

  function Encode(r: Request, x: AddressText): seq<byte> {
    PackMap(RequestFields(r, x))
  }

  lemma OthersSkipped()
    ensures SkipsOthers(AskField, Known)
  {
    hide KeyOf, SkipField;
  }

  // ----------------------------------------------------------- round trips

  lemma QueryReads(a: Asked, s: seq<byte>)
    requires IsText(s)
    ensures Reads(AskField, Field(Spell(KQuery), PackStr(s)), a, a.(query := Some(s)))
  {
    hide KeyOf, Spell, PackStr, ReadStr, At, IsText, ParseFamily;
    KeySpelled(KQuery);
    StrAlways(s);
  }

  lemma NameReads(a: Asked, s: seq<byte>)
    requires IsText(s)
    ensures Reads(AskField, Field(Spell(KName), PackStr(s)), a, a.(name := Some(s)))
  {
    hide KeyOf, Spell, PackStr, ReadStr, At, IsText, ParseFamily;
    KeySpelled(KName);
    StrAlways(s);
  }

  lemma FamilyFieldReads(a: Asked, s: seq<byte>)
    requires IsText(s)
    ensures Reads(AskField, Field(Spell(KFamily), PackStr(s)), a, a.(family := ParseFamily(s)))
  {
    hide KeyOf, Spell, PackStr, ReadStr, At, IsText, ParseFamily;
    KeySpelled(KFamily);
    StrAlways(s);
  }

  lemma AddressReads(a: Asked, s: seq<byte>)
    requires IsText(s)
    ensures Reads(AskField, Field(Spell(KAddress), PackStr(s)), a, a.(address := Some(s)))
  {
    hide KeyOf, Spell, PackStr, ReadStr, At, IsText, ParseFamily;
    KeySpelled(KAddress);
    StrAlways(s);
  }

  lemma TypeReads(a: Asked, v: u16)
    ensures Reads(AskField, Field(Spell(KType), PackUint(v)), a, a.(rtype := Some(v)))
  {
    hide KeyOf, Spell, PackUint, ReadUint, At;
    KeySpelled(KType);
    UintAlways(v);
  }

  lemma NoCacheReads(a: Asked, v: bool)
    ensures Reads(AskField, Field(Spell(KNoCache), PackBool(v)), a, a.(noCache := v))
  {
    hide KeyOf, Spell, PackBool, ReadBool, At;
    KeySpelled(KNoCache);
    BoolAlways(v);
  }

  /** A request's strings are text, as its type guarantees. */
  predicate Spellable(r: Request) {
    match r
    case Resolve(name, _, _) => IsText(name)
    case Lookup(name, _) => IsText(name)
    case _ => true
  }

  function Saying(r: Request): Asked {
    NOTHING.(query := Some(QueryText(r)))
  }

  /** The fields gathered after each of a request's own. */
  function Gathered(r: Request, x: AddressText): seq<Asked> {
    match r
    case Resolve(name, rtype, noCache) =>
      var a := Saying(r);
      [NOTHING, a, a.(name := Some(name)), a.(name := Some(name), rtype := Some(rtype)),
       a.(name := Some(name), rtype := Some(rtype), noCache := noCache)]
    case Lookup(name, family) =>
      var a := Saying(r);
      [NOTHING, a, a.(name := Some(name)), a.(name := Some(name), family := Some(family))]
    case Reverse(address) => [NOTHING, Saying(r), Saying(r).(address := Some(x.show(address)))]
    case Status => [NOTHING, Saying(r)]
    case Flush => [NOTHING, Saying(r)]
  }

  lemma RequestChain(r: Request, x: AddressText)
    requires Spellable(r) && Faithful(x)
    ensures Chain(AskField, RequestFields(r, x), Gathered(r, x))
  {
    hide Reads, PackStr, PackUint, QueryText, ValidUtf8, Spell, PackBool, FamilyText;
    var accs := Gathered(r, x);
    QueryReads(NOTHING, QueryText(r));
    match r
    case Resolve(name, rtype, noCache) =>
      NameReads(accs[1], name);
      TypeReads(accs[2], rtype);
      NoCacheReads(accs[3], noCache);
    case Lookup(name, family) =>
      NameReads(accs[1], name);
      FamilyFieldReads(accs[2], FamilyText(family));
      FamilyReads(family);
    case Reverse(address) => AddressReads(accs[1], x.show(address));
    case _ =>
  }

  lemma Queries()
    ensures Ascii("resolve") != Ascii("lookup") && Ascii("resolve") != Ascii("reverse")
    ensures Ascii("resolve") != Ascii("status")
    ensures Ascii("resolve") != Ascii("flush") && Ascii("lookup") != Ascii("reverse")
    ensures Ascii("lookup") != Ascii("status")
    ensures Ascii("lookup") != Ascii("flush") && Ascii("reverse") != Ascii("status")
    ensures Ascii("reverse") != Ascii("flush")
    ensures Ascii("status") != Ascii("flush")
  {
    hide Ascii, Mark;
    MarkIs("resolve");
    MarkIs("lookup");
    MarkIs("reverse");
    MarkIs("status");
    MarkIs("flush");
  }

  /** All that is gathered from a request's own fields. */
  function AllGathered(r: Request, x: AddressText): Asked {
    match r
    case Resolve(name, rtype, noCache) =>
      Saying(r).(name := Some(name), rtype := Some(rtype), noCache := noCache)
    case Lookup(name, family) => Saying(r).(name := Some(name), family := Some(family))
    case Reverse(address) => Saying(r).(address := Some(x.show(address)))
    case Status => Saying(r)
    case Flush => Saying(r)
  }

  lemma GatheredEnds(r: Request, x: AddressText)
    ensures var accs := Gathered(r, x);
            |accs| == |OwnKeys(r)| + 1 && accs[0] == NOTHING && accs[|accs| - 1] == AllGathered(r, x)
  {
    hide Saying;
  }

  lemma GatheredMeans(r: Request, x: AddressText)
    requires Faithful(x)
    ensures Meant(AllGathered(r, x), x) == Ok(r)
  {
    hide Ascii, ValidUtf8;
    Queries();
  }

  /** A request with any well-formed fields of unknown keys put in decodes to the request. */
  lemma RequestTolerant(r: Request, x: AddressText, gs: seq<Field>)
    requires Spellable(r) && Faithful(x) && Padded(gs, RequestFields(r, x), Known)
    ensures Decode(PackMap(gs), x) == Ok(r)
  {
    hide Padded, Chain, SkipsOthers, Fields, Gathered, AllGathered, RequestFields, OwnKeys, Meant, Faithful, PackMap,
         Spellable;
    OthersSkipped();
    RequestChain(r, x);
    GatheredEnds(r, x);
    GatheredMeans(r, x);
    assert |gs| < 0x1_0000_0000 by { PaddedSize(gs, RequestFields(r, x), Known); }
    WholeAt(PackMap(gs));
    MapPadded(AskField, Known, gs, RequestFields(r, x), Gathered(r, x), PackMap(gs), 0);
  }

  lemma WholeAt(s: seq<byte>)
    ensures At(s, 0, s)
  {
  }

  /** A request decodes from its own encoding. */
  lemma RequestRoundTrip(r: Request, x: AddressText)
    requires Spellable(r) && Faithful(x)
    ensures Decode(Encode(r, x), x) == Ok(r)
  {
    hide Decode, PackMap, Padded, Faithful, Spellable;
    OwnPadding(r, x);
    RequestTolerant(r, x, RequestFields(r, x));
  }

  lemma OwnKeysDiffer(r: Request)
    ensures forall i, j :: 0 <= i < j < |OwnKeys(r)| ==> OwnKeys(r)[i] != OwnKeys(r)[j]
  {
  }

  lemma OwnPadding(r: Request, x: AddressText)
    ensures Padded(RequestFields(r, x), RequestFields(r, x), Known)
  {
    hide Spell, KeyOf, OwnValues, OwnKeys, IsValue;
    OwnKeysDiffer(r);
    var fs := RequestFields(r, x);
    forall i | 0 <= i < |fs| ensures KeyOf(fs[i].key) == Some(OwnKeys(r)[i]) { KeySpelled(OwnKeys(r)[i]); }
    AllKnown(fs);
  }

  lemma {:induction false} AllKnown(fs: seq<Field>)
    requires forall i :: 0 <= i < |fs| ==> Known(fs[i].key)
    ensures OnlyKnown(fs, Known) == fs
  {
    if fs != [] {
      AllKnown(fs[1..]);
      assert fs == [fs[0]] + fs[1..];
    }
  }

  // ---------------------------------------------------------- as it is done

  /** Fields `0` to `i` are in the buffer. */
  ghost predicate Written(buf: seq<byte>, fs: seq<Field>, i: nat) {
    i <= |fs| < 0x1_0000_0000 && buf == MapHead(|fs|) + PackFields(fs[..i])
  }

  lemma WrittenNext(buf: seq<byte>, fs: seq<Field>, i: nat)
    requires i < |fs| && Written(buf, fs, i)
    ensures Written(buf + PackStr(fs[i].key) + fs[i].raw, fs, i + 1)
  {
    hide MapHead, PackStr;
    assert fs[..i + 1] == fs[..i] + [fs[i]];
    PackSnoc(fs[..i], fs[i]);
    assert buf + PackStr(fs[i].key) + fs[i].raw == buf + PackField(fs[i]);
  }

  lemma WrittenAll(buf: seq<byte>, fs: seq<Field>)
    requires Written(buf, fs, |fs|)
    ensures buf == PackMap(fs)
  {
    assert fs[..|fs|] == fs;
  }

  method EncodeRequest(r: Request, x: AddressText) returns (bytes: seq<byte>)
    ensures bytes == Encode(r, x)
  {
    hide QueryText, FamilyText, Spell, PackStr, PackUint, PackBool, MapHead, Written, RequestFields, PackMap;
    ghost var fs := RequestFields(r, x);
    var w := new Writer();
    w.WriteMap(|OwnKeys(r)|);
    NoneWritten(fs);
    assert [] + MapHead(|fs|) == MapHead(|fs|);
    PutStr(w, r, x, 0, KQuery, QueryText(r));
    match r {
      case Resolve(name, rtype, noCache) =>
        PutStr(w, r, x, 1, KName, name);
        PutUint(w, r, x, 2, KType, rtype);
        PutBool(w, r, x, 3, KNoCache, noCache);
      case Lookup(name, family) =>
        PutStr(w, r, x, 1, KName, name);
        PutStr(w, r, x, 2, KFamily, FamilyText(family));
      case Reverse(address) =>
        PutStr(w, r, x, 1, KAddress, x.show(address));
      case Status =>
      case Flush =>
    }
    WrittenAll(w.buf, fs);
    return w.buf;
  }

  /** A key and its string value. */
  method PutStr(w: Writer, ghost r: Request, ghost x: AddressText, ghost i: nat, k: RequestKey, v: seq<byte>)
    requires i < |OwnKeys(r)| && OwnKeys(r)[i] == k && OwnValues(r, x)[i] == PackStr(v)
    requires Written(w.buf, RequestFields(r, x), i)
    modifies w
    ensures Written(w.buf, RequestFields(r, x), i + 1)
  {
    hide PackStr, Written, Spell, OwnKeys, OwnValues;
    WrittenNext(w.buf, RequestFields(r, x), i);
    w.WriteStr(Spell(k));
    w.WriteStr(v);
  }

  method PutUint(w: Writer, ghost r: Request, ghost x: AddressText, ghost i: nat, k: RequestKey, v: u64)
    requires i < |OwnKeys(r)| && OwnKeys(r)[i] == k && OwnValues(r, x)[i] == PackUint(v)
    requires Written(w.buf, RequestFields(r, x), i)
    modifies w
    ensures Written(w.buf, RequestFields(r, x), i + 1)
  {
    hide PackStr, PackUint, Written, Spell, OwnKeys, OwnValues;
    WrittenNext(w.buf, RequestFields(r, x), i);
    w.WriteStr(Spell(k));
    w.WriteUint(v);
  }

  method PutBool(w: Writer, ghost r: Request, ghost x: AddressText, ghost i: nat, k: RequestKey, v: bool)
    requires i < |OwnKeys(r)| && OwnKeys(r)[i] == k && OwnValues(r, x)[i] == PackBool(v)
    requires Written(w.buf, RequestFields(r, x), i)
    modifies w
    ensures Written(w.buf, RequestFields(r, x), i + 1)
  {
    hide PackStr, PackBool, Written, Spell, OwnKeys, OwnValues;
    WrittenNext(w.buf, RequestFields(r, x), i);
    w.WriteStr(Spell(k));
    w.WriteBool(v);
  }

  lemma NoneWritten(fs: seq<Field>)
    requires |fs| < 0x1_0000_0000
    ensures Written(MapHead(|fs|), fs, 0)
  {
    assert MapHead(|fs|) + [] == MapHead(|fs|);
  }

  method DecodeRequest(bytes: seq<byte>, x: AddressText) returns (result: Result<Request, WireFault>)
    ensures result == Decode(bytes, x)
  {
    hide Spell, ReadMap, ReadStr, AskField, Meant;
    var r := new Reader(bytes);
    var n := r.ReadMap();
    if n.Err? { return Err(Encoding(n.error)); }
    var a := NOTHING;
    var seen: seq<Key> := [];
    ghost var start := r.pos;
    for i := 0 to n.value
      invariant r.Valid() && r.depth == 0 && r.buf == bytes && fresh(r)
      invariant EachField(AskField, bytes, r.pos, n.value - i, seen, a)
             == EachField(AskField, bytes, start, n.value, [], NOTHING)
    {
      var key := r.ReadStr();
      if key.Err? { return Err(Encoding(key.error)); }
      if key.value in seen { return Err(Duplicate(key.value)); }
      seen := seen + [key.value];
      var next := OneField(r, key.value, a);
      if next.Err? { return Err(next.error); }
      a := next.value;
    }
    return Meant(a, x);
  }

  /** The field's value, into the variable it is for. */
  method OneField(r: Reader, key: Key, a: Asked) returns (next: Result<Asked, WireFault>)
    requires r.Valid() && r.depth == 0
    modifies r
    ensures next.Ok? ==> r.Valid() && r.depth == 0 && AskField(r.buf, key, old(r.pos), a) == Ok((next.value, r.pos))
    ensures next.Err? ==> AskField(r.buf, key, old(r.pos), a) == Err(next.error)
  {
    hide KeyOf, ReadStr, ReadUint, Skip, ParseFamily;
    var k := KeyOf(key);
    if k.None? {
      var skipped := r.Skip();
      if skipped.Err? { return Err(Encoding(skipped.error)); }
      return Ok(a);
    }
    if k.value == KType {
      var v := r.ReadUint();
      if v.Err? { return Err(Encoding(v.error)); }
      if v.value > 0xffff { return Err(Missing("type")); }
      return Ok(a.(rtype := Some(v.value)));
    }
    if k.value == KNoCache {
      var v := r.ReadBool();
      if v.Err? { return Err(Encoding(v.error)); }
      return Ok(a.(noCache := v.value));
    }
    var s := r.ReadStr();
    if s.Err? { return Err(Encoding(s.error)); }
    match k.value
    case KQuery => return Ok(a.(query := Some(s.value)));
    case KName => return Ok(a.(name := Some(s.value)));
    case KFamily => return Ok(a.(family := ParseFamily(s.value)));
    case KAddress => return Ok(a.(address := Some(s.value)));
  }
}
