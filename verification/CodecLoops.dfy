/** The codec as it runs: buffers grown and patched in place, sections read by position. */
module CodecLoops {
  import opened Bytes
  import opened Results
  import opened Names
  import opened NameWire
  import opened Dns
  import opened Codec

  // ---------------------------------------------------------------- writing

  method PutStrings(ss: seq<seq<byte>>, out: seq<byte>) returns (buf: seq<byte>)
    ensures buf == out + WriteStrings(ss)
  {
    buf := out;
    for i := 0 to |ss|
      invariant buf + WriteStrings(ss[i..]) == out + WriteStrings(ss)
    {
      assert ss[i..][0] == ss[i] && ss[i..][1..] == ss[i + 1..];
      var n := if |ss[i]| < 255 then |ss[i]| else 255;
      buf := buf + [n];
      buf := buf + ss[i][..n];
    }
    assert ss[|ss|..] == [];
  }

  method PutNumbers(ns: seq<u32>, out: seq<byte>) returns (buf: seq<byte>)
    ensures buf == out + Numbers(ns)
  {
    hide Be32;
    buf := out;
    for i := 0 to |ns|
      invariant buf + Numbers(ns[i..]) == out + Numbers(ns)
    {
      assert ns[i..][0] == ns[i] && ns[i..][1..] == ns[i + 1..];
      buf := buf + Be32(ns[i]);
    }
    assert ns[|ns|..] == [];
  }

  function Numbers(ns: seq<u32>): seq<byte> {
    if ns == [] then [] else Be32(ns[0]) + Numbers(ns[1..])
  }

  lemma SoaAsNumbers(d: RData)
    requires d.RSoa?
    ensures Numbers([d.serial, d.refresh, d.retry, d.expire, d.minimum]) == SoaNumbers(d)
  {
    hide Be32;
    var a, b, c, e, f := d.serial, d.refresh, d.retry, d.expire, d.minimum;
    assert [a, b, c, e, f][1..] == [b, c, e, f];
    assert [b, c, e, f][1..] == [c, e, f];
    assert [c, e, f][1..] == [e, f];
    assert [e, f][1..] == [f];
    assert [f][1..] == [];
    assert Numbers([f]) == Be32(f);
    assert Numbers([e, f]) == Be32(e) + Be32(f);
    assert Numbers([c, e, f]) == Be32(c) + Numbers([e, f]);
    assert Numbers([b, c, e, f]) == Be32(b) + Numbers([c, e, f]);
  }

  method PutSoa(d: RData, out: seq<byte>) returns (buf: seq<byte>)
    requires d.RSoa?
    ensures buf == out + WriteRData(d)
  {
    hide Be32, Numbers, Write;
    buf := WriteName(d.mname, out);
    buf := WriteName(d.rname, buf);
    buf := PutNumbers([d.serial, d.refresh, d.retry, d.expire, d.minimum], buf);
    SoaAsNumbers(d);
    assert WriteRData(d) == Write(d.mname) + (Write(d.rname) + SoaNumbers(d));
    hide SoaNumbers, WriteRData;
  }

  method PutRData(rdata: RData, out: seq<byte>) returns (buf: seq<byte>)
    ensures buf == out + WriteRData(rdata)
  {
    hide Be16, Be32, Be128, Write, WriteStrings;
    match rdata
    case RA(a) => buf := out + Be32(a);
    case RAaaa(a) => buf := out + Be128(a);
    case RCname(n) => buf := WriteName(n, out);
    case RPtr(n) => buf := WriteName(n, out);
    case RNs(n) => buf := WriteName(n, out);
    case RSoa(_, _, _, _, _, _, _) => buf := PutSoa(rdata, out);
    case RMx(p, n) => buf := WriteName(n, out + Be16(p));
    case RSrv(p, w, o, n) => buf := WriteName(n, out + Be16(p) + Be16(w) + Be16(o));
    case RTxt(ss) => buf := PutStrings(ss, out);
    case ROpt(b) => buf := out + b;
    case RUnknown(b) => buf := out + b;
  }

  /** The length goes in as zeros and is patched once the data is written. */
  method PutRecord(r: Record, out: seq<byte>) returns (buf: seq<byte>)
    ensures buf == out + WriteRecord(r)
  {
    hide Be16, Be32, Write, WriteRData;
    buf := WriteName(r.name, out);
    buf := buf + Be16(r.rtype) + Be16(r.class_) + Be32(r.ttl);
    var at := |buf|;
    ghost var head := buf;
    buf := buf + [0, 0];
    buf := PutRData(r.rdata, buf);
    var len := Be16((|buf| - at - 2) % 0x1_0000);
    buf := buf[at := len[0]][at + 1 := len[1]];
    assert buf == head + len + WriteRData(r.rdata);
  }

  method PutRecords(rs: seq<Record>, out: seq<byte>) returns (buf: seq<byte>)
    ensures buf == out + WriteRecords(rs)
  {
    hide WriteRecord;
    buf := out;
    for i := 0 to |rs|
      invariant buf + WriteRecords(rs[i..]) == out + WriteRecords(rs)
    {
      assert rs[i..][0] == rs[i] && rs[i..][1..] == rs[i + 1..];
      buf := PutRecord(rs[i], buf);
    }
    assert rs[|rs|..] == [];
  }

  method PutQuestions(qs: seq<Question>, out: seq<byte>) returns (buf: seq<byte>)
    ensures buf == out + WriteQuestions(qs)
  {
    hide Be16, Write;
    buf := out;
    for i := 0 to |qs|
      invariant buf + WriteQuestions(qs[i..]) == out + WriteQuestions(qs)
    {
      assert qs[i..][0] == qs[i] && qs[i..][1..] == qs[i + 1..];
      buf := WriteName(qs[i].name, buf);
      buf := buf + Be16(qs[i].rtype) + Be16(qs[i].class_);
    }
    assert qs[|qs|..] == [];
  }

  method EncodeMessage(m: Message) returns (r: Result<seq<byte>, WireError>)
    ensures r == Encode(m)
  {
    hide Be16, Flags, WriteQuestions, WriteRecords;
    var out := Be16(m.header.id) + Be16(Flags(m.header));
    if |m.questions| > 0xFFFF || |m.answers| > 0xFFFF || |m.authority| > 0xFFFF || |m.additional| > 0xFFFF {
      return Err(TooLarge);
    }
    out := out + Counts(m);
    out := PutQuestions(m.questions, out);
    out := PutRecords(m.answers, out);
    out := PutRecords(m.authority, out);
    out := PutRecords(m.additional, out);
    assert out == Be16(m.header.id) + Be16(Flags(m.header)) + Counts(m) + Sections(m);
    if |out| > MAX_MESSAGE_SIZE { return Err(TooLarge); }
    return Ok(out);
  }

  // ---------------------------------------------------------------- reading

  /** What items already read make of reading the rest. */
  function Onto<T>(read: seq<T>, rest: Result<seq<T>, WireError>): Result<seq<T>, WireError> {
    match rest
    case Ok(ss) => Ok(read + ss)
    case Err(e) => Err(e)
  }

  lemma OntoNone<T>(rest: Result<seq<T>, WireError>)
    ensures Onto([], rest) == rest
  {
    if rest.Ok? { assert [] + rest.value == rest.value; }
  }

  lemma OntoOne<T>(read: seq<T>, x: T, rest: Result<seq<T>, WireError>)
    ensures Onto(read, Onto([x], rest)) == Onto(read + [x], rest)
  {
    if rest.Ok? { assert read + ([x] + rest.value) == read + [x] + rest.value; }
  }

  function OntoAt<T>(read: seq<T>, rest: Result<(seq<T>, nat), WireError>): Result<(seq<T>, nat), WireError> {
    match rest
    case Ok((xs, p)) => Ok((read + xs, p))
    case Err(e) => Err(e)
  }

  lemma OntoAtNone<T>(rest: Result<(seq<T>, nat), WireError>)
    ensures OntoAt([], rest) == rest
  {
    if rest.Ok? { assert [] + rest.value.0 == rest.value.0; }
  }

  lemma OntoAtOne<T>(read: seq<T>, x: T, rest: Result<(seq<T>, nat), WireError>)
    ensures OntoAt(read, OntoAt([x], rest)) == OntoAt(read + [x], rest)
  {
    if rest.Ok? { assert read + ([x] + rest.value.0) == read + [x] + rest.value.0; }
  }

  method GetStrings(data: seq<byte>) returns (r: Result<seq<seq<byte>>, WireError>)
    ensures r == ReadStrings(data)
  {
    var strings: seq<seq<byte>> := [];
    var p: nat := 0;
    assert data[0..] == data;
    OntoNone(ReadStrings(data));
    while p < |data|
      invariant p <= |data|
      invariant ReadStrings(data) == Onto(strings, ReadStrings(data[p..]))
    {
      var n := data[p];
      assert data[p..][0] == n;
      if p + 1 + n > |data| { return Err(BadRData); }
      var s := data[p + 1..p + 1 + n];
      assert data[p..][1..1 + n] == s && data[p..][1 + n..] == data[p + 1 + n..];
      assert ReadStrings(data[p..]) == Onto([s], ReadStrings(data[p + 1 + n..]));
      OntoOne(strings, s, ReadStrings(data[p + 1 + n..]));
      strings := strings + [s];
      p := p + 1 + n;
    }
    assert data[p..] == [] && strings + [] == strings;
    return Ok(strings);
  }

  /** A name inside record data, read by the loop against the whole message. */
  method GetName(msg: seq<byte>, pos: nat, end: nat) returns (r: Result<(Name, nat), WireError>)
    ensures r == NameAt(msg, pos, end)
  {
    hide ReadName;
    r := Read(msg, pos);
    if r.Ok? && r.value.1 > end { return Err(BadRData); }
  }

  /** A name that must fill record data to its end. */
  method GetLastName(msg: seq<byte>, pos: nat, end: nat) returns (r: Result<Name, WireError>)
    ensures r == LastName(msg, pos, end)
  {
    hide NameAt;
    var n := GetName(msg, pos, end);
    if n.Err? { return Err(n.error); }
    if n.value.1 != end { return Err(BadRData); }
    return Ok(n.value.0);
  }

  method GetSoa(msg: seq<byte>, start: nat, len: nat) returns (r: Result<RData, WireError>)
    requires start + len <= |msg|
    ensures r == ReadRData(msg, SOA, start, len)
  {
    hide NameAt, FromBe32;
    var end := start + len;
    var mname := GetName(msg, start, end);
    if mname.Err? { return Err(mname.error); }
    var rname := GetName(msg, mname.value.1, end);
    if rname.Err? { return Err(rname.error); }
    var p := rname.value.1;
    if p + 20 != end { return Err(BadRData); }
    var numbers: seq<u32> := [];
    for i := 0 to 5
      invariant |numbers| == i
      invariant forall j :: 0 <= j < i ==> numbers[j] == FromBe32(msg[p + 4 * j..p + 4 * j + 4])
    {
      numbers := numbers + [FromBe32(msg[p + 4 * i..p + 4 * i + 4])];
    }
    return Ok(RSoa(mname.value.0, rname.value.0, numbers[0], numbers[1], numbers[2], numbers[3], numbers[4]));
  }

  method GetRData(msg: seq<byte>, t: u16, start: nat, len: nat) returns (r: Result<RData, WireError>)
    ensures r == ReadRData(msg, t, start, len)
  {
    hide LastName, ReadStrings, FromBe16, FromBe32, FromBe128;
    if start + len > |msg| { return Err(Truncated); }
    var data, end := msg[start..start + len], start + len;
    if t == A {
      if len != 4 { return Err(BadRData); }
      return Ok(RA(FromBe32(data)));
    } else if t == AAAA {
      if len != 16 { return Err(BadRData); }
      return Ok(RAaaa(FromBe128(data)));
    } else if t == CNAME || t == PTR || t == NS {
      var n := GetLastName(msg, start, end);
      if n.Err? { return Err(n.error); }
      return Ok(if t == CNAME then RCname(n.value) else if t == PTR then RPtr(n.value) else RNs(n.value));
    } else if t == SOA {
      r := GetSoa(msg, start, len);
    } else if t == MX {
      if len < 3 { return Err(BadRData); }
      var n := GetLastName(msg, start + 2, end);
      if n.Err? { return Err(n.error); }
      return Ok(RMx(FromBe16(msg[start..start + 2]), n.value));
    } else if t == SRV {
      if len < 7 { return Err(BadRData); }
      var n := GetLastName(msg, start + 6, end);
      if n.Err? { return Err(n.error); }
      return Ok(RSrv(FromBe16(msg[start..start + 2]), FromBe16(msg[start + 2..start + 4]),
                     FromBe16(msg[start + 4..start + 6]), n.value));
    } else if t == TXT {
      var strings := GetStrings(data);
      if strings.Err? { return Err(strings.error); }
      return Ok(RTxt(strings.value));
    } else if t == OPT {
      return Ok(ROpt(data));
    } else {
      return Ok(RUnknown(data));
    }
  }

  method GetQuestions(msg: seq<byte>, at: nat, n: nat) returns (r: Result<(seq<Question>, nat), WireError>)
    ensures r == ReadQuestions(msg, at, n)
  {
    hide ReadName, FromBe16;
    var questions: seq<Question> := [];
    var p: nat := at;
    OntoAtNone(ReadQuestions(msg, at, n));
    for i := 0 to n
      invariant ReadQuestions(msg, at, n) == OntoAt(questions, ReadQuestions(msg, p, n - i))
    {
      var name := Read(msg, p);
      if name.Err? { return Err(name.error); }
      var next := name.value.1;
      if next + 4 > |msg| { return Err(Truncated); }
      var q := Question(name.value.0, FromBe16(msg[next..next + 2]), FromBe16(msg[next + 2..next + 4]));
      assert ReadQuestions(msg, p, n - i) == OntoAt([q], ReadQuestions(msg, next + 4, n - i - 1));
      OntoAtOne(questions, q, ReadQuestions(msg, next + 4, n - i - 1));
      questions := questions + [q];
      p := next + 4;
    }
    assert questions + [] == questions;
    return Ok((questions, p));
  }

  method GetRecord(msg: seq<byte>, p: nat) returns (r: Result<(Record, nat), WireError>)
    ensures r == ReadRecord(msg, p)
  {
    hide ReadName, FromBe16, FromBe32, ReadRData;
    var name := Read(msg, p);
    if name.Err? { return Err(name.error); }
    var next := name.value.1;
    if next + 10 > |msg| { return Err(Truncated); }
    var t := FromBe16(msg[next..next + 2]);
    var len := FromBe16(msg[next + 8..next + 10]);
    var rdata := GetRData(msg, t, next + 10, len);
    if rdata.Err? { return Err(rdata.error); }
    return Ok((Record(name.value.0, t, FromBe16(msg[next + 2..next + 4]), FromBe32(msg[next + 4..next + 8]),
                      rdata.value),
               next + 10 + len));
  }

  method GetRecords(msg: seq<byte>, at: nat, n: nat) returns (r: Result<(seq<Record>, nat), WireError>)
    ensures r == ReadRecords(msg, at, n)
  {
    hide ReadRecord;
    var section: seq<Record> := [];
    var p: nat := at;
    OntoAtNone(ReadRecords(msg, at, n));
    for i := 0 to n
      invariant ReadRecords(msg, at, n) == OntoAt(section, ReadRecords(msg, p, n - i))
    {
      var x := GetRecord(msg, p);
      if x.Err? { return Err(x.error); }
      assert ReadRecords(msg, p, n - i) == OntoAt([x.value.0], ReadRecords(msg, x.value.1, n - i - 1));
      OntoAtOne(section, x.value.0, ReadRecords(msg, x.value.1, n - i - 1));
      section := section + [x.value.0];
      p := x.value.1;
    }
    assert section + [] == section;
    return Ok((section, p));
  }

  method DecodeMessage(msg: seq<byte>) returns (r: Result<Message, WireError>)
    ensures r == Decode(msg)
  {
    hide FromBe16, FromFlags, ReadQuestions, ReadRecords;
    if |msg| < 12 { return Err(Truncated); }
    var header := FromFlags(FromBe16(msg[0..2]), FromBe16(msg[2..4]));
    var questions := GetQuestions(msg, 12, FromBe16(msg[4..6]));
    if questions.Err? { return Err(questions.error); }
    var p := questions.value.1;
    var answers := GetRecords(msg, p, FromBe16(msg[6..8]));
    if answers.Err? { return Err(answers.error); }
    var authority := GetRecords(msg, answers.value.1, FromBe16(msg[8..10]));
    if authority.Err? { return Err(authority.error); }
    var additional := GetRecords(msg, authority.value.1, FromBe16(msg[10..12]));
    if additional.Err? { return Err(additional.error); }
    return Ok(Message(header, questions.value.0, answers.value.0, authority.value.0, additional.value.0));
  }
}
