/** The message model: headers, questions, typed records, and what makes them well formed. */
module Dns {
  import opened Bytes
  import opened Results
  import opened Names

  const CLASSIC_UDP_SIZE: u16 := 512
  const EDNS_UDP_SIZE: u16 := 1232
  const MAX_MESSAGE_SIZE: nat := 65535

  const A: u16 := 1
  const NS: u16 := 2
  const CNAME: u16 := 5
  const SOA: u16 := 6
  const PTR: u16 := 12
  const MX: u16 := 15
  const TXT: u16 := 16
  const AAAA: u16 := 28
  const SRV: u16 := 33
  const OPT: u16 := 41
  const ANY: u16 := 255

  const IN: u16 := 1

  const NOERROR: byte := 0
  const FORMERR: byte := 1
  const SERVFAIL: byte := 2
  const NXDOMAIN: byte := 3
  const NOTIMP: byte := 4

  datatype IpAddr = V4(v4: u32) | V6(v6: u128)

  datatype Header = Header(
    id: u16, response: bool, opcode: byte, authoritative: bool, truncated: bool,
    recursionDesired: bool, recursionAvailable: bool, authenticData: bool,
    checkingDisabled: bool, rcode: byte)

  const DEFAULT_HEADER: Header := Header(0, false, 0, false, false, false, false, false, false, 0)

  datatype Question = Question(name: Name, rtype: u16, class_: u16)

  datatype RData =
    | RA(a: u32)
    | RAaaa(aaaa: u128)
    | RCname(cname: Name)
    | RPtr(ptr: Name)
    | RNs(ns: Name)
    | RSoa(mname: Name, rname: Name, serial: u32, refresh: u32, retry: u32, expire: u32, minimum: u32)
    | RMx(preference: u16, exchange: Name)
    | RSrv(priority: u16, weight: u16, port: u16, target: Name)
    | RTxt(strings: seq<seq<byte>>)
    | ROpt(options: seq<byte>)
    | RUnknown(raw: seq<byte>)

  datatype Record = Record(name: Name, rtype: u16, class_: u16, ttl: u32, rdata: RData)

  datatype Message = Message(
    header: Header, questions: seq<Question>, answers: seq<Record>,
    authority: seq<Record>, additional: seq<Record>)

  function TypeOf(rdata: RData): u16 {
    match rdata
    case RA(_) => A
    case RAaaa(_) => AAAA
    case RCname(_) => CNAME
    case RPtr(_) => PTR
    case RNs(_) => NS
    case RSoa(_, _, _, _, _, _, _) => SOA
    case RMx(_, _) => MX
    case RSrv(_, _, _, _) => SRV
    case RTxt(_) => TXT
    case ROpt(_) => OPT
    case RUnknown(_) => 0
  }

  function NewRecord(name: Name, ttl: u32, rdata: RData): Record {
    Record(name, TypeOf(rdata), IN, ttl, rdata)
  }

  function OptRecord(udpSize: u16): Record {
    Record([], OPT, udpSize, 0, ROpt([]))
  }

  // --------------------------------------------------------- well-formedness

  predicate Typed(t: u16) {
    t in {A, NS, CNAME, SOA, PTR, MX, TXT, AAAA, SRV, OPT}
  }

  /** Data of the shape its record type calls for. */
  predicate RDataFits(t: u16, rdata: RData) {
    match rdata
    case RUnknown(_) => !Typed(t)
    case RCname(n) => t == CNAME && ValidName(n)
    case RPtr(n) => t == PTR && ValidName(n)
    case RNs(n) => t == NS && ValidName(n)
    case RSoa(m, r, _, _, _, _, _) => t == SOA && ValidName(m) && ValidName(r)
    case RMx(_, n) => t == MX && ValidName(n)
    case RSrv(_, _, _, n) => t == SRV && ValidName(n)
    case RTxt(ss) => t == TXT && forall i :: 0 <= i < |ss| ==> |ss[i]| <= 255
    case RA(_) => t == A
    case RAaaa(_) => t == AAAA
    case ROpt(_) => t == OPT
  }

  predicate WellFormedRecord(r: Record) {
    ValidName(r.name) && RDataFits(r.rtype, r.rdata)
  }

  predicate WellFormedRecords(rs: seq<Record>) {
    forall i :: 0 <= i < |rs| ==> WellFormedRecord(rs[i])
  }

  predicate WellFormedQuestions(qs: seq<Question>) {
    forall i :: 0 <= i < |qs| ==> ValidName(qs[i].name)
  }

  predicate WellFormed(m: Message) {
    && m.header.opcode < 16 && m.header.rcode < 16
    && WellFormedQuestions(m.questions)
    && WellFormedRecords(m.answers) && WellFormedRecords(m.authority) && WellFormedRecords(m.additional)
  }

  // ------------------------------------------------------ message accessors

  function FirstOpt(rs: seq<Record>): (r: Option<Record>)
    ensures r.Some? ==> r.value in rs && r.value.rtype == OPT
  {
    if rs == [] then None
    else if rs[0].rtype == OPT then Some(rs[0])
    else FirstOpt(rs[1..])
  }

  function OptOf(m: Message): Option<Record> {
    FirstOpt(m.additional)
  }

  /** The peer's advertised UDP payload size, never below the classic 512. */
  function UdpSize(m: Message): (n: u16)
    ensures n >= CLASSIC_UDP_SIZE
  {
    match OptOf(m)
    case Some(o) => if o.class_ > CLASSIC_UDP_SIZE then o.class_ else CLASSIC_UDP_SIZE
    case None => CLASSIC_UDP_SIZE
  }

  /** The response code with the EDNS extension of section 6.1.3 of RFC 6891. */
  function Rcode(m: Message): nat {
    var ext := match OptOf(m) case Some(o) => o.ttl / 0x100_0000 case None => 0;
    ext * 16 + m.header.rcode
  }

  function SingleQuestion(m: Message): Option<Question> {
    if |m.questions| == 1 then Some(m.questions[0]) else None
  }

  function Query(id: u16, q: Question): Message {
    Message(DEFAULT_HEADER.(id := id, recursionDesired := true), [q], [], [], [OptRecord(EDNS_UDP_SIZE)])
  }

  function ReplyTo(q: Message): Message {
    Message(
      DEFAULT_HEADER.(
        id := q.header.id, response := true, opcode := q.header.opcode,
        recursionDesired := q.header.recursionDesired, recursionAvailable := true,
        checkingDisabled := q.header.checkingDisabled),
      q.questions, [], [], [])
  }
}
