/** Encoding and decoding of whole messages (sections 4.1 of RFC 1035 and 6.1 of RFC 6891). */
module Codec {
  import opened Bytes
  import opened Results
  import opened Names
  import opened NameWire
  import opened Dns

  // ---------------------------------------------------------------- header

  function Bit(b: bool): (n: nat)
    ensures n <= 1
  {
    if b then 1 else 0
  }

  function Flags(h: Header): u16 {
    Bit(h.response) * 0x8000 + h.opcode % 16 * 0x800 + Bit(h.authoritative) * 0x400
    + Bit(h.truncated) * 0x200 + Bit(h.recursionDesired) * 0x100 + Bit(h.recursionAvailable) * 0x80
    + Bit(h.authenticData) * 0x20 + Bit(h.checkingDisabled) * 0x10 + h.rcode % 16
  }

  function FromFlags(id: u16, flags: u16): (h: Header)
    ensures h.opcode < 16 && h.rcode < 16
  {
    Header(id, flags / 0x8000 % 2 == 1, flags / 0x800 % 16, flags / 0x400 % 2 == 1, flags / 0x200 % 2 == 1,
           flags / 0x100 % 2 == 1, flags / 0x80 % 2 == 1, flags / 0x20 % 2 == 1, flags / 0x10 % 2 == 1, flags % 16)
  }

  lemma FlagFields(f: nat, resp: nat, op: nat, aa: nat, tc: nat, rd: nat, ra: nat, ad: nat, cd: nat, rc: nat)
    requires resp <= 1 && aa <= 1 && tc <= 1 && rd <= 1 && ra <= 1 && ad <= 1 && cd <= 1 && op < 16 && rc < 16
    requires f == resp * 0x8000 + op * 0x800 + aa * 0x400 + tc * 0x200 + rd * 0x100
                  + ra * 0x80 + ad * 0x20 + cd * 0x10 + rc
    ensures f % 16 == rc && f / 0x10 % 2 == cd && f / 0x20 % 2 == ad && f / 0x80 % 2 == ra
    ensures f / 0x100 % 2 == rd && f / 0x200 % 2 == tc && f / 0x400 % 2 == aa
    ensures f / 0x800 % 16 == op && f / 0x8000 % 2 == resp
  {
    var y8 := op + 16 * resp;
    var y7 := aa + 2 * y8;
    var y6 := tc + 2 * y7;
    var y5 := rd + 2 * y6;
    var y4 := ra + 2 * y5;
    var y2 := ad + 4 * y4;
    var y1 := cd + 2 * y2;
    assert f / 0x10 == y1;
    assert f / 0x20 == y2;
    assert f / 0x80 == y4;
    assert f / 0x100 == y5;
    assert f / 0x200 == y6;
    assert f / 0x400 == y7;
    assert f / 0x800 == y8;
    assert f / 0x8000 == resp;
  }

  lemma HeaderRoundTrip(h: Header)
    requires h.opcode < 16 && h.rcode < 16
    ensures FromFlags(h.id, Flags(h)) == h
  {
    hide FromFlags;
    var f := Flags(h);
    FlagFields(f, Bit(h.response), h.opcode, Bit(h.authoritative), Bit(h.truncated),
               Bit(h.recursionDesired), Bit(h.recursionAvailable), Bit(h.authenticData),
               Bit(h.checkingDisabled), h.rcode);
    FromFields(f, h);
  }

  lemma FromFields(f: u16, h: Header)
    requires f % 16 == h.rcode && f / 0x800 % 16 == h.opcode
    requires f / 0x8000 % 2 == Bit(h.response) && f / 0x400 % 2 == Bit(h.authoritative)
    requires f / 0x200 % 2 == Bit(h.truncated) && f / 0x100 % 2 == Bit(h.recursionDesired)
    requires f / 0x80 % 2 == Bit(h.recursionAvailable) && f / 0x20 % 2 == Bit(h.authenticData)
    requires f / 0x10 % 2 == Bit(h.checkingDisabled)
    ensures FromFlags(h.id, f) == h
  {
  }

  // ----------------------------------------------------------- record data

  function WriteStrings(ss: seq<seq<byte>>): seq<byte> {
    if ss == [] then []
    else
      var n := if |ss[0]| < 255 then |ss[0]| else 255;
      [n] + ss[0][..n] + WriteStrings(ss[1..])
  }

  function WriteRData(rdata: RData): seq<byte> {
    match rdata
    case RA(a) => Be32(a)
    case RAaaa(a) => Be128(a)
    case RCname(n) => Write(n)
    case RPtr(n) => Write(n)
    case RNs(n) => Write(n)
    case RSoa(m, r, s, f, t, e, mn) =>
      Write(m) + (Write(r) + (Be32(s) + (Be32(f) + (Be32(t) + (Be32(e) + Be32(mn))))))
    case RMx(p, n) => Be16(p) + Write(n)
    case RSrv(p, w, o, n) => Be16(p) + (Be16(w) + (Be16(o) + Write(n)))
    case RTxt(ss) => WriteStrings(ss)
    case ROpt(b) => b
    case RUnknown(b) => b
  }

  function ReadStrings(data: seq<byte>): Result<seq<seq<byte>>, WireError> {
    if data == [] then Ok([])
    else if 1 + data[0] > |data| then Err(BadRData)
    else
      var rest :- ReadStrings(data[1 + data[0]..]);
      Ok([data[1..1 + data[0]]] + rest)
  }

  /** A name inside record data: read against the whole message, but not past `end`. */
  function NameAt(msg: seq<byte>, pos: nat, end: nat): Result<(Name, nat), WireError> {
    var (n, next) :- ReadName(msg, pos);
    if next > end then Err(BadRData) else Ok((n, next))
  }

  /** A name that must fill record data up to `end` exactly. */
  function LastName(msg: seq<byte>, pos: nat, end: nat): Result<Name, WireError> {
    var (n, next) :- NameAt(msg, pos, end);
    if next != end then Err(BadRData) else Ok(n)
  }

  /** The five numbers after the names of an SOA record. */
  function SoaAt(msg: seq<byte>, mname: Name, rname: Name, p: nat): RData
    requires p + 20 <= |msg|
  {
    RSoa(mname, rname, FromBe32(msg[p..p + 4]), FromBe32(msg[p + 4..p + 8]), FromBe32(msg[p + 8..p + 12]),
         FromBe32(msg[p + 12..p + 16]), FromBe32(msg[p + 16..p + 20]))
  }

  function ReadRData(msg: seq<byte>, t: u16, start: nat, len: nat): Result<RData, WireError> {
    if start + len > |msg| then Err(Truncated)
    else
      var data := msg[start..start + len];
      var end := start + len;
      if t == A then
        if len != 4 then Err(BadRData) else Ok(RA(FromBe32(data)))
      else if t == AAAA then
        if len != 16 then Err(BadRData) else Ok(RAaaa(FromBe128(data)))
      else if t == CNAME then
        var n :- LastName(msg, start, end);
        Ok(RCname(n))
      else if t == PTR then
        var n :- LastName(msg, start, end);
        Ok(RPtr(n))
      else if t == NS then
        var n :- LastName(msg, start, end);
        Ok(RNs(n))
      else if t == SOA then
        var (m, p) :- NameAt(msg, start, end);
        var (r, p) :- NameAt(msg, p, end);
        if p + 20 != end then Err(BadRData) else Ok(SoaAt(msg, m, r, p))
      else if t == MX then
        if len < 3 then Err(BadRData)
        else
          var n :- LastName(msg, start + 2, end);
          Ok(RMx(FromBe16(msg[start..start + 2]), n))
      else if t == SRV then
        if len < 7 then Err(BadRData)
        else
          var n :- LastName(msg, start + 6, end);
          Ok(RSrv(FromBe16(msg[start..start + 2]), FromBe16(msg[start + 2..start + 4]),
                  FromBe16(msg[start + 4..start + 6]), n))
      else if t == TXT then
        var ss :- ReadStrings(data);
        Ok(RTxt(ss))
      else if t == OPT then Ok(ROpt(data))
      else Ok(RUnknown(data))
  }

  lemma {:induction false} StringsRoundTrip(ss: seq<seq<byte>>)
    requires forall i :: 0 <= i < |ss| ==> |ss[i]| <= 255
    ensures ReadStrings(WriteStrings(ss)) == Ok(ss)
  {
    if ss != [] {
      var w := WriteStrings(ss);
      assert ss[0][..|ss[0]|] == ss[0];
      assert w[1..1 + |ss[0]|] == ss[0];
      assert w[1 + |ss[0]|..] == WriteStrings(ss[1..]);
      StringsRoundTrip(ss[1..]);
      assert ss == [ss[0]] + ss[1..];
    }
  }

  lemma {:induction false} StringsFit(data: seq<byte>)
    requires ReadStrings(data).Ok?
    ensures forall i :: 0 <= i < |ReadStrings(data).value| ==> |ReadStrings(data).value[i]| <= 255
  {
    if data != [] { StringsFit(data[1 + data[0]..]); }
  }

  function SoaNumbers(d: RData): seq<byte>
    requires d.RSoa?
  {
    Be32(d.serial) + (Be32(d.refresh) + (Be32(d.retry) + (Be32(d.expire) + Be32(d.minimum))))
  }

  lemma SoaNumbersRead(msg: seq<byte>, p: nat, d: RData)
    requires d.RSoa? && At(msg, p, SoaNumbers(d))
    ensures p + 20 <= |msg| && SoaAt(msg, d.mname, d.rname, p) == d
  {
    hide At, Be32, FromBe32;
    var w4 := Be32(d.expire) + Be32(d.minimum);
    var w3 := Be32(d.retry) + w4;
    AtSplit(msg, p, Be32(d.serial), Be32(d.refresh) + w3);
    AtSplit(msg, p + 4, Be32(d.refresh), w3);
    AtSplit(msg, p + 8, Be32(d.retry), w4);
    AtSplit(msg, p + 12, Be32(d.expire), Be32(d.minimum));
    AtSlice(msg, p, Be32(d.serial));
    AtSlice(msg, p + 4, Be32(d.refresh));
    AtSlice(msg, p + 8, Be32(d.retry));
    AtSlice(msg, p + 12, Be32(d.expire));
    AtSlice(msg, p + 16, Be32(d.minimum));
  }

  lemma SoaRoundTrip(msg: seq<byte>, start: nat, d: RData)
    requires d.RSoa? && RDataFits(SOA, d) && At(msg, start, WriteRData(d))
    ensures ReadRData(msg, SOA, start, |WriteRData(d)|) == Ok(d)
  {
    hide At, Be32, FromBe32, SoaAt, ReadName, Write, ValidName;
    var w1 := SoaNumbers(d);
    assert WriteRData(d) == Write(d.mname) + (Write(d.rname) + w1);
    AtSplit(msg, start, Write(d.mname), Write(d.rname) + w1);
    WriteThenRead(msg, start, d.mname);
    var q := start + |Write(d.mname)|;
    AtSplit(msg, q, Write(d.rname), w1);
    WriteThenRead(msg, q, d.rname);
    SoaNumbersRead(msg, q + |Write(d.rname)|, d);
  }

  lemma SrvRoundTrip(msg: seq<byte>, start: nat, d: RData)
    requires d.RSrv? && RDataFits(SRV, d) && At(msg, start, WriteRData(d))
    ensures ReadRData(msg, SRV, start, |WriteRData(d)|) == Ok(d)
  {
    AtSplit(msg, start, Be16(d.priority), Be16(d.weight) + (Be16(d.port) + Write(d.target)));
    AtSplit(msg, start + 2, Be16(d.weight), Be16(d.port) + Write(d.target));
    AtSplit(msg, start + 4, Be16(d.port), Write(d.target));
    WriteThenRead(msg, start + 6, d.target);
  }

  lemma MxRoundTrip(msg: seq<byte>, start: nat, d: RData)
    requires d.RMx? && RDataFits(MX, d) && At(msg, start, WriteRData(d))
    ensures ReadRData(msg, MX, start, |WriteRData(d)|) == Ok(d)
  {
    AtSplit(msg, start, Be16(d.preference), Write(d.exchange));
    WriteThenRead(msg, start + 2, d.exchange);
  }

  lemma NameRoundTrip(msg: seq<byte>, t: u16, start: nat, d: RData, n: Name)
    requires d in {RCname(n), RPtr(n), RNs(n)} && RDataFits(t, d) && At(msg, start, Write(n))
    ensures ReadRData(msg, t, start, |WriteRData(d)|) == Ok(d)
  {
    hide ReadName, Write, ValidName;
    WriteThenRead(msg, start, n);
  }

  lemma PlainRoundTrip(msg: seq<byte>, t: u16, start: nat, d: RData)
    requires d.RA? || d.RAaaa? || d.RTxt? || d.ROpt? || d.RUnknown?
    requires RDataFits(t, d) && At(msg, start, WriteRData(d))
    ensures ReadRData(msg, t, start, |WriteRData(d)|) == Ok(d)
  {
    AtSlice(msg, start, WriteRData(d));
    hide At;
    if d.RTxt? { StringsRoundTrip(d.strings); }
  }

  /** Record data read back where it was written is the data written. */
  lemma RDataRoundTrip(msg: seq<byte>, t: u16, start: nat, d: RData)
    requires RDataFits(t, d) && At(msg, start, WriteRData(d))
    ensures ReadRData(msg, t, start, |WriteRData(d)|) == Ok(d)
  {
    hide At, ReadRData, Write, ValidName, Be16, Be32, Be128, WriteStrings;
    match d
    case RCname(n) => NameRoundTrip(msg, t, start, d, n);
    case RPtr(n) => NameRoundTrip(msg, t, start, d, n);
    case RNs(n) => NameRoundTrip(msg, t, start, d, n);
    case RSoa(_, _, _, _, _, _, _) => SoaRoundTrip(msg, start, d);
    case RMx(_, _) => MxRoundTrip(msg, start, d);
    case RSrv(_, _, _, _) => SrvRoundTrip(msg, start, d);
    case _ => PlainRoundTrip(msg, t, start, d);
  }

  lemma RDataFitsRead(msg: seq<byte>, t: u16, start: nat, len: nat)
    requires ReadRData(msg, t, start, len).Ok?
    ensures RDataFits(t, ReadRData(msg, t, start, len).value)
  {
    if t == SOA {
      ReadNameValid(msg, start);
      ReadNameValid(msg, ReadName(msg, start).value.1);
    } else if t in {CNAME, PTR, NS} {
      ReadNameValid(msg, start);
    } else if t == MX {
      ReadNameValid(msg, start + 2);
    } else if t == SRV {
      ReadNameValid(msg, start + 6);
    } else if t == TXT {
      StringsFit(msg[start..start + len]);
    }
  }

  // ------------------------------------------------------ records, questions

  /** The fields between a record's name and its data; the length cast keeps 16 bits. */
  function RecordFixed(r: Record): (s: seq<byte>)
    ensures |s| == 10
  {
    Be16(r.rtype) + Be16(r.class_) + Be32(r.ttl) + Be16(|WriteRData(r.rdata)| % 0x1_0000)
  }

  function WriteRecord(r: Record): (s: seq<byte>)
    ensures s != []
  {
    Write(r.name) + (RecordFixed(r) + WriteRData(r.rdata))
  }

  function WriteQuestion(q: Question): (s: seq<byte>)
    ensures s != []
  {
    Write(q.name) + (Be16(q.rtype) + Be16(q.class_))
  }

  function WriteRecords(rs: seq<Record>): seq<byte> {
    if rs == [] then [] else WriteRecord(rs[0]) + WriteRecords(rs[1..])
  }

  function WriteQuestions(qs: seq<Question>): seq<byte> {
    if qs == [] then [] else WriteQuestion(qs[0]) + WriteQuestions(qs[1..])
  }

  function ReadQuestion(msg: seq<byte>, p: nat): (r: Result<(Question, nat), WireError>)
  {
    var (name, next) :- ReadName(msg, p);
    if next + 4 > |msg| then Err(Truncated)
    else
      Ok((Question(name, FromBe16(msg[next..next + 2]), FromBe16(msg[next + 2..next + 4])), next + 4))
  }

  function ReadQuestions(msg: seq<byte>, p: nat, n: nat): Result<(seq<Question>, nat), WireError>
    decreases n
  {
    if n == 0 then Ok(([], p))
    else
      var (q, next) :- ReadQuestion(msg, p);
      var (rest, end) :- ReadQuestions(msg, next, n - 1);
      Ok(([q] + rest, end))
  }

  function ReadRecord(msg: seq<byte>, p: nat): Result<(Record, nat), WireError> {
    var (name, next) :- ReadName(msg, p);
    if next + 10 > |msg| then Err(Truncated)
    else
      var t := FromBe16(msg[next..next + 2]);
      var len := FromBe16(msg[next + 8..next + 10]);
      var rdata :- ReadRData(msg, t, next + 10, len);
      Ok((Record(name, t, FromBe16(msg[next + 2..next + 4]), FromBe32(msg[next + 4..next + 8]), rdata),
          next + 10 + len))
  }

  function ReadRecords(msg: seq<byte>, p: nat, n: nat): Result<(seq<Record>, nat), WireError>
    decreases n
  {
    if n == 0 then Ok(([], p))
    else
      var (r, next) :- ReadRecord(msg, p);
      var (rest, end) :- ReadRecords(msg, next, n - 1);
      Ok(([r] + rest, end))
  }

  lemma QuestionRoundTrip(msg: seq<byte>, p: nat, q: Question)
    requires ValidName(q.name) && At(msg, p, WriteQuestion(q))
    ensures ReadQuestion(msg, p) == Ok((q, p + |WriteQuestion(q)|))
  {
    AtSplit(msg, p, Write(q.name), Be16(q.rtype) + Be16(q.class_));
    WriteThenRead(msg, p, q.name);
    AtSplit(msg, p + |Write(q.name)|, Be16(q.rtype), Be16(q.class_));
  }

  lemma QuestionsNil(msg: seq<byte>, p: nat)
    ensures ReadQuestions(msg, p, 0) == Ok(([], p))
  {
  }

  lemma QuestionsCons(msg: seq<byte>, p: nat, q: Question, next: nat, rest: seq<Question>, end: nat)
    requires ReadQuestion(msg, p) == Ok((q, next))
    requires ReadQuestions(msg, next, |rest|) == Ok((rest, end))
    ensures ReadQuestions(msg, p, |rest| + 1) == Ok(([q] + rest, end))
  {
  }

  lemma {:induction false} QuestionsRoundTrip(msg: seq<byte>, p: nat, qs: seq<Question>)
    requires WellFormedQuestions(qs) && At(msg, p, WriteQuestions(qs))
    ensures ReadQuestions(msg, p, |qs|) == Ok((qs, p + |WriteQuestions(qs)|))
    decreases |qs|
  {
    hide At, WriteQuestion, ReadQuestion, ReadQuestions;
    if qs != [] {
      AtSplit(msg, p, WriteQuestion(qs[0]), WriteQuestions(qs[1..]));
      QuestionRoundTrip(msg, p, qs[0]);
      var next := p + |WriteQuestion(qs[0])|;
      QuestionsRoundTrip(msg, next, qs[1..]);
      QuestionsCons(msg, p, qs[0], next, qs[1..], p + |WriteQuestions(qs)|);
      assert qs == [qs[0]] + qs[1..];
    } else {
      QuestionsNil(msg, p);
    }
  }

  lemma FixedFields(msg: seq<byte>, p: nat, r: Record)
    requires At(msg, p, RecordFixed(r))
    ensures FromBe16(msg[p..p + 2]) == r.rtype && FromBe16(msg[p + 2..p + 4]) == r.class_
    ensures FromBe32(msg[p + 4..p + 8]) == r.ttl
    ensures FromBe16(msg[p + 8..p + 10]) == |WriteRData(r.rdata)| % 0x1_0000
  {
    var len := Be16(|WriteRData(r.rdata)| % 0x1_0000);
    AtSplit(msg, p, Be16(r.rtype) + Be16(r.class_) + Be32(r.ttl), len);
    AtSplit(msg, p, Be16(r.rtype) + Be16(r.class_), Be32(r.ttl));
    AtSplit(msg, p, Be16(r.rtype), Be16(r.class_));
    AtSlice(msg, p, Be16(r.rtype));
    AtSlice(msg, p + 2, Be16(r.class_));
    AtSlice(msg, p + 4, Be32(r.ttl));
    AtSlice(msg, p + 8, len);
  }

  lemma RecordRoundTrip(msg: seq<byte>, p: nat, r: Record)
    requires WellFormedRecord(r) && At(msg, p, WriteRecord(r)) && |msg| <= MAX_MESSAGE_SIZE
    ensures ReadRecord(msg, p) == Ok((r, p + |WriteRecord(r)|))
  {
    hide At, RDataFits, ReadRData, WriteRData, RecordFixed, FromBe16, FromBe32, ReadName, Write, ValidName;
    AtSplit(msg, p, Write(r.name), RecordFixed(r) + WriteRData(r.rdata));
    WriteThenRead(msg, p, r.name);
    var next := p + |Write(r.name)|;
    AtSplit(msg, next, RecordFixed(r), WriteRData(r.rdata));
    FixedFields(msg, next, r);
    RDataRoundTrip(msg, r.rtype, next + 10, r.rdata);
  }

  lemma RecordsNil(msg: seq<byte>, p: nat)
    ensures ReadRecords(msg, p, 0) == Ok(([], p))
  {
  }

  lemma RecordsCons(msg: seq<byte>, p: nat, r: Record, next: nat, rest: seq<Record>, end: nat)
    requires ReadRecord(msg, p) == Ok((r, next))
    requires ReadRecords(msg, next, |rest|) == Ok((rest, end))
    ensures ReadRecords(msg, p, |rest| + 1) == Ok(([r] + rest, end))
  {
  }

  lemma {:induction false} RecordsRoundTrip(msg: seq<byte>, p: nat, rs: seq<Record>)
    requires WellFormedRecords(rs) && At(msg, p, WriteRecords(rs)) && |msg| <= MAX_MESSAGE_SIZE
    ensures ReadRecords(msg, p, |rs|) == Ok((rs, p + |WriteRecords(rs)|))
    decreases |rs|
  {
    hide At, WriteRecord, ReadRecord, ReadRecords;
    if rs != [] {
      AtSplit(msg, p, WriteRecord(rs[0]), WriteRecords(rs[1..]));
      RecordRoundTrip(msg, p, rs[0]);
      var next := p + |WriteRecord(rs[0])|;
      RecordsRoundTrip(msg, next, rs[1..]);
      RecordsCons(msg, p, rs[0], next, rs[1..], p + |WriteRecords(rs)|);
      assert rs == [rs[0]] + rs[1..];
    } else {
      RecordsNil(msg, p);
    }
  }

  lemma {:induction false} QuestionsWellFormed(msg: seq<byte>, p: nat, n: nat)
    requires ReadQuestions(msg, p, n).Ok?
    ensures WellFormedQuestions(ReadQuestions(msg, p, n).value.0) && |ReadQuestions(msg, p, n).value.0| == n
    decreases n
  {
    if n > 0 {
      ReadNameValid(msg, p);
      QuestionsWellFormed(msg, ReadQuestion(msg, p).value.1, n - 1);
    }
  }

  lemma {:induction false} RecordsWellFormed(msg: seq<byte>, p: nat, n: nat)
    requires ReadRecords(msg, p, n).Ok?
    ensures WellFormedRecords(ReadRecords(msg, p, n).value.0) && |ReadRecords(msg, p, n).value.0| == n
    decreases n
  {
    if n > 0 {
      ReadNameValid(msg, p);
      var next := ReadName(msg, p).value.1;
      RDataFitsRead(msg, FromBe16(msg[next..next + 2]), next + 10, FromBe16(msg[next + 8..next + 10]));
      RecordsWellFormed(msg, ReadRecord(msg, p).value.1, n - 1);
    }
  }

  // -------------------------------------------------------------- messages

  function Counts(m: Message): (s: seq<byte>)
    requires |m.questions| < 0x1_0000 && |m.answers| < 0x1_0000
    requires |m.authority| < 0x1_0000 && |m.additional| < 0x1_0000
    ensures |s| == 8
  {
    Be16(|m.questions|) + Be16(|m.answers|) + Be16(|m.authority|) + Be16(|m.additional|)
  }

  function Sections(m: Message): seq<byte> {
    WriteQuestions(m.questions)
    + (WriteRecords(m.answers) + (WriteRecords(m.authority) + WriteRecords(m.additional)))
  }

  function Encode(m: Message): (r: Result<seq<byte>, WireError>)
    ensures r.Ok? ==> |r.value| <= MAX_MESSAGE_SIZE
  {
    if |m.questions| > 0xFFFF || |m.answers| > 0xFFFF || |m.authority| > 0xFFFF || |m.additional| > 0xFFFF
    then Err(TooLarge)
    else
      var out := Be16(m.header.id) + Be16(Flags(m.header)) + Counts(m) + Sections(m);
      if |out| > MAX_MESSAGE_SIZE then Err(TooLarge) else Ok(out)
  }

  function Decode(msg: seq<byte>): Result<Message, WireError> {
    if |msg| < 12 then Err(Truncated)
    else
      var header := FromFlags(FromBe16(msg[0..2]), FromBe16(msg[2..4]));
      var (questions, p) :- ReadQuestions(msg, 12, FromBe16(msg[4..6]));
      var (answers, p) :- ReadRecords(msg, p, FromBe16(msg[6..8]));
      var (authority, p) :- ReadRecords(msg, p, FromBe16(msg[8..10]));
      var (additional, p) :- ReadRecords(msg, p, FromBe16(msg[10..12]));
      Ok(Message(header, questions, answers, authority, additional))
  }

  lemma PrefixFields(out: seq<byte>, id: u16, flags: u16, a: u16, b: u16, c: u16, d: u16, rest: seq<byte>)
    requires out == Be16(id) + Be16(flags) + (Be16(a) + Be16(b) + Be16(c) + Be16(d)) + rest
    ensures |out| >= 12
    ensures FromBe16(out[0..2]) == id && FromBe16(out[2..4]) == flags
    ensures FromBe16(out[4..6]) == a && FromBe16(out[6..8]) == b
    ensures FromBe16(out[8..10]) == c && FromBe16(out[10..12]) == d
    ensures At(out, 12, rest)
  {
    assert out[0..2] == Be16(id);
    assert out[2..4] == Be16(flags);
    assert out[4..6] == Be16(a);
    assert out[6..8] == Be16(b);
    assert out[8..10] == Be16(c);
    assert out[10..12] == Be16(d);
    assert out[12..] == rest;
  }

  lemma SectionsRoundTrip(out: seq<byte>, m: Message) returns (p: nat, q: nat, r: nat, e: nat)
    requires WellFormed(m) && At(out, 12, Sections(m)) && |out| <= MAX_MESSAGE_SIZE
    ensures ReadQuestions(out, 12, |m.questions|) == Ok((m.questions, p))
    ensures ReadRecords(out, p, |m.answers|) == Ok((m.answers, q))
    ensures ReadRecords(out, q, |m.authority|) == Ok((m.authority, r))
    ensures ReadRecords(out, r, |m.additional|) == Ok((m.additional, e))
  {
    hide At, WriteQuestions, WriteRecords, ReadQuestions, ReadRecords;
    var w3 := WriteRecords(m.authority) + WriteRecords(m.additional);
    AtSplit(out, 12, WriteQuestions(m.questions), WriteRecords(m.answers) + w3);
    QuestionsRoundTrip(out, 12, m.questions);
    p := 12 + |WriteQuestions(m.questions)|;
    AtSplit(out, p, WriteRecords(m.answers), w3);
    RecordsRoundTrip(out, p, m.answers);
    q := p + |WriteRecords(m.answers)|;
    AtSplit(out, q, WriteRecords(m.authority), WriteRecords(m.additional));
    RecordsRoundTrip(out, q, m.authority);
    r := q + |WriteRecords(m.authority)|;
    RecordsRoundTrip(out, r, m.additional);
    e := r + |WriteRecords(m.additional)|;
  }

  /** A message that encodes decodes to itself, so no length or count lost a bit. */
  lemma RoundTrip(m: Message)
    requires WellFormed(m) && Encode(m).Ok?
    ensures Decode(Encode(m).value) == Ok(m)
  {
    var out := Encode(m).value;
    PrefixFields(out, m.header.id, Flags(m.header), |m.questions|, |m.answers|, |m.authority|,
                 |m.additional|, Sections(m));
    HeaderRoundTrip(m.header);
    var p, q, r, e := SectionsRoundTrip(out, m);
  }

  /** Whatever decodes is well formed. */
  lemma DecodeWellFormed(msg: seq<byte>)
    requires Decode(msg).Ok?
    ensures WellFormed(Decode(msg).value)
  {
    QuestionsWellFormed(msg, 12, FromBe16(msg[4..6]));
    var p := ReadQuestions(msg, 12, FromBe16(msg[4..6])).value.1;
    RecordsWellFormed(msg, p, FromBe16(msg[6..8]));
    p := ReadRecords(msg, p, FromBe16(msg[6..8])).value.1;
    RecordsWellFormed(msg, p, FromBe16(msg[8..10]));
    p := ReadRecords(msg, p, FromBe16(msg[8..10])).value.1;
    RecordsWellFormed(msg, p, FromBe16(msg[10..12]));
  }

  /** Decoding, re-encoding when it fits, and decoding again changes nothing. */
  lemma Recode(msg: seq<byte>)
    requires Decode(msg).Ok? && Encode(Decode(msg).value).Ok?
    ensures Decode(Encode(Decode(msg).value).value) == Decode(msg)
  {
    DecodeWellFormed(msg);
    RoundTrip(Decode(msg).value);
  }
}
