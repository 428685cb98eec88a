/** The local DNS server: which datagrams are queries, and how answers are rendered. */
module Stub {
  import opened Bytes
  import opened Results
  import opened Names
  import opened NameWire
  import opened Dns
  import opened Codec
  import opened Aliases
  import opened Lookups
  import opened EngineSteps

  // ---------------------------------------------------------------- queries

  /** The reply to octets that do not decode: their id and a format error. */
  function FormErrFor(id: u16): Message {
    Message(DEFAULT_HEADER.(id := id, response := true, rcode := FORMERR), [], [], [], [])
  }

  /** The reply to a query of a kind not answered. */
  function Refusal(m: Message, code: byte): Message {
    var r := ReplyTo(m);
    r.(header := r.header.(rcode := code),
       additional := match OptOf(m)
         case Some(o) => [OptRecord(EDNS_UDP_SIZE).(class_ := o.class_)]
         case None => [])
  }

  function Encoded(m: Message): Option<seq<byte>> {
    var e := Encode(m);
    if e.Ok? then Some(e.value) else None
  }

  /** Decode a query, or produce the error reply it deserves, if any. */
  function ParseQuery(bytes: seq<byte>): Result<Message, Option<seq<byte>>> {
    match Decode(bytes)
    case Err(_) => Err(if |bytes| >= 12 then Encoded(FormErrFor(FromBe16(bytes[0..2]))) else None)
    case Ok(m) =>
      if m.header.response then Err(None)
      else if m.header.opcode != 0 then Err(Encoded(Refusal(m, NOTIMP)))
      else match SingleQuestion(m)
        case None => Err(Encoded(Refusal(m, FORMERR)))
        case Some(q) => if q.class_ != IN then Err(Encoded(Refusal(m, NOTIMP))) else Ok(m)
  }

  lemma RefusalWellFormed(m: Message, code: byte)
    requires WellFormed(m) && code < 16
    ensures WellFormed(Refusal(m, code))
  {
    hide WellFormedRecords, WellFormedQuestions;
    NoRecords();
    if OptOf(m).Some? { OptWellFormed(OptOf(m).value.class_); }
  }

  lemma NoRecords()
    ensures WellFormedRecords([]) && WellFormedQuestions([])
  {
  }

  lemma OptWellFormed(class_: u16)
    ensures WellFormedRecords([OptRecord(EDNS_UDP_SIZE).(class_ := class_)])
  {
  }

  lemma EncodedDecodes(m: Message)
    requires WellFormed(m) && Encoded(m).Some?
    ensures Decode(Encoded(m).value) == Ok(m)
  {
    hide WellFormed, Decode, Encode;
    RoundTrip(m);
  }

  lemma DecodedId(bytes: seq<byte>)
    requires Decode(bytes).Ok?
    ensures |bytes| >= 12 && Decode(bytes).value.header.id == FromBe16(bytes[0..2])
  {
    hide ReadQuestions, ReadRecords;
  }

  /** A datagram is a query exactly when it decodes to one standard question of class IN. */
  lemma QueriesAre(bytes: seq<byte>, m: Message)
    ensures ParseQuery(bytes) == Ok(m) <==>
              && Decode(bytes) == Ok(m) && !m.header.response && m.header.opcode == 0
              && |m.questions| == 1 && m.questions[0].class_ == IN
    ensures ParseQuery(bytes) == Ok(m) ==> WellFormed(m)
  {
    hide Decode, WellFormed, Encode, Refusal;
    if Decode(bytes).Ok? { DecodeWellFormed(bytes); }
  }

  /** Any error reply decodes, as a response with the query's own id and an error code. */
  lemma ErrorRepliesDecode(bytes: seq<byte>)
    requires ParseQuery(bytes).Err? && ParseQuery(bytes).error.Some?
    ensures |bytes| >= 12 && Decode(ParseQuery(bytes).error.value).Ok?
    ensures var m := Decode(ParseQuery(bytes).error.value).value;
            m.header.response && m.header.id == FromBe16(bytes[0..2]) && m.header.rcode in {FORMERR, NOTIMP}
  {
    hide Decode, WellFormedRecords, WellFormedQuestions, Encode, FromBe16, OptOf;
    if Decode(bytes).Ok? {
      var m := Decode(bytes).value;
      DecodeWellFormed(bytes);
      DecodedId(bytes);
      RefusalWellFormed(m, NOTIMP);
      RefusalWellFormed(m, FORMERR);
      if m.header.opcode == 0 && SingleQuestion(m).None? {
        EncodedDecodes(Refusal(m, FORMERR));
      } else {
        EncodedDecodes(Refusal(m, NOTIMP));
      }
    } else {
      NoRecords();
      EncodedDecodes(FormErrFor(FromBe16(bytes[0..2])));
    }
  }

  // ---------------------------------------------------------------- replies

  /** The alias record that explains an answer found at an expanded name. */
  function Expansion(query: Message, answer: Answer): seq<Record> {
    match SingleQuestion(query)
    case Some(q) =>
      if answer.resolvedName.Some? && !SameName(q.name, answer.resolvedName.value) then
        var ttl := if answer.records == [] then answer.negativeTtl else MinTtl(answer.records, 0xffff_ffff);
        [NewRecord(q.name, ttl, RCname(answer.resolvedName.value))]
      else []
    case None => []
  }

  function BuildReply(query: Message, answer: Answer): Message {
    var r := ReplyTo(query);
    var code := match answer.outcome
      case Found => NOERROR
      case NotFound => NXDOMAIN
      case Unavailable => SERVFAIL;
    r.(header := r.header.(rcode := code),
       answers := if answer.outcome == Found then Expansion(query, answer) + answer.records else [],
       additional := if OptOf(query).Some? then [OptRecord(EDNS_UDP_SIZE)] else [])
  }

  /** The reply without its answers, marked so the client asks again over TCP. */
  function Shortened(m: Message): Message {
    Message(m.header.(truncated := true), m.questions, [], [],
            match OptOf(m) case Some(o) => [o] case None => [])
  }

  function EncodeUdp(m: Message, limit: u16): Result<seq<byte>, WireError> {
    match Encode(m)
    case Err(e) => Err(e)
    case Ok(full) => if |full| <= limit then Ok(full) else Encode(Shortened(m))
  }

  lemma ReplyWellFormed(query: Message, answer: Answer)
    requires WellFormed(query) && GoodAnswer(answer)
    ensures WellFormed(BuildReply(query, answer))
  {
    hide RDataFits, ValidName, SameName, MinTtl, OptOf;
    NoRecords();
    OptWellFormed(EDNS_UDP_SIZE);
    ExpansionWellFormed(query, answer);
    var e := Expansion(query, answer);
    hide Expansion;
    forall i | 0 <= i < |e + answer.records| ensures WellFormedRecord((e + answer.records)[i]) {
      if i >= |e| { assert GoodRecord(answer.records[i - |e|]); }
    }
  }

  lemma ExpansionWellFormed(query: Message, answer: Answer)
    requires WellFormed(query) && GoodAnswer(answer)
    ensures WellFormedRecords(Expansion(query, answer))
  {
    hide ValidName, SameName, MinTtl;
  }

  lemma ReplyShape(query: Message, answer: Answer)
    ensures var r := BuildReply(query, answer);
            && r.questions == query.questions && r.header.id == query.header.id && r.header.response
            && r.additional == (if OptOf(query).Some? then [OptRecord(EDNS_UDP_SIZE)] else [])
            && Shortened(r) == Message(r.header.(truncated := true), r.questions, [], [], r.additional)
  {
    hide Expansion;
  }

  /** At most a header, one question and the bare OPT record: 12 + 259 + 11 octets. */
  lemma ShortenedSize(query: Message, answer: Answer)
    requires WellFormed(query) && |query.questions| == 1
    ensures var e := Encode(Shortened(BuildReply(query, answer)));
            e.Ok? && |e.value| <= 12 + 259 + 11
  {
    hide BuildReply, Shortened;
    ReplyShape(query, answer);
    var r := BuildReply(query, answer);
    var m := Shortened(r);
    var q := query.questions[0];
    WriteLen(q.name);
    assert m.questions == [q] && m.questions[1..] == [];
    assert WriteQuestions(m.questions) == WriteQuestion(q) + [];
    if OptOf(query).Some? {
      assert m.additional[1..] == [];
      assert WriteRecords(m.additional) == WriteRecord(OptRecord(EDNS_UDP_SIZE)) + [];
      assert |WriteRecord(OptRecord(EDNS_UDP_SIZE))| == 11;
    } else {
      assert m.additional == [];
    }
    assert |Sections(m)| <= |Write(q.name)| + 4 + 11;
  }

  lemma ShortenedWellFormed(query: Message, answer: Answer)
    requires WellFormed(query)
    ensures WellFormed(Shortened(BuildReply(query, answer)))
  {
    hide BuildReply, Shortened, WellFormedRecords, WellFormedQuestions;
    ReplyShape(query, answer);
    ReplyCode(query, answer);
    NoRecords();
    OptWellFormed(EDNS_UDP_SIZE);
  }

  lemma ReplyCode(query: Message, answer: Answer)
    requires WellFormed(query)
    ensures BuildReply(query, answer).header.opcode < 16 && BuildReply(query, answer).header.rcode < 16
  {
    hide Expansion, WellFormedRecords, WellFormedQuestions, OptOf;
  }

  // ------------------------------------------------- what a client is told

  /** `ttl` is the least lifetime of the records, or `none` when there are none. */
  predicate LeastTtl(ttl: u32, rs: seq<Record>, none: u32) {
    && (rs == [] ==> ttl == none)
    && (rs != [] ==> exists i :: 0 <= i < |rs| && rs[i].ttl == ttl)
    && (forall i :: 0 <= i < |rs| ==> ttl <= rs[i].ttl)
  }

  /** The alias that explains an answer at another name: from the name asked to the name answered. */
  predicate Explains(r: Record, name: Name, answer: Answer) {
    && r.name == name && r.rtype == CNAME && r.class_ == IN && answer.resolvedName.Some?
    && r.rdata == RCname(answer.resolvedName.value) && LeastTtl(r.ttl, answer.records, answer.negativeTtl)
  }

  /** The answer is at another name than the one asked. */
  predicate Elsewhere(name: Name, answer: Answer) {
    answer.resolvedName.Some? && !SameName(name, answer.resolvedName.value)
  }

  /** The answers a whole reply carries. */
  predicate AnswersAre(rs: seq<Record>, name: Name, answer: Answer) {
    && (answer.outcome != Found ==> rs == [])
    && (answer.outcome == Found && !Elsewhere(name, answer) ==> rs == answer.records)
    && (answer.outcome == Found && Elsewhere(name, answer) ==>
          |rs| == 1 + |answer.records| && Explains(rs[0], name, answer) && rs[1..] == answer.records)
  }

  /**
   * What the message tells the client that sent `query`. A failure to find out is never told as the
   * name's absence, whole or truncated.
   */
  predicate Tells(m: Message, query: Message, answer: Answer) {
    && m.header.id == query.header.id && m.header.response && m.header.opcode == query.header.opcode
    && m.header.recursionDesired == query.header.recursionDesired && m.header.recursionAvailable
    && m.header.checkingDisabled == query.header.checkingDisabled
    && !m.header.authoritative && !m.header.authenticData
    && m.questions == query.questions && |m.questions| == 1 && m.authority == []
    && (Rcode(m) == 0 <==> answer.outcome == Found)
    && (Rcode(m) == 3 <==> answer.outcome == NotFound)
    && (Rcode(m) == 2 <==> answer.outcome == Unavailable)
    && (OptOf(m).Some? <==> OptOf(query).Some?)
    && (m.header.truncated ==> m.answers == [])
    && (!m.header.truncated ==> AnswersAre(m.answers, m.questions[0].name, answer))
  }

  lemma {:induction false} LeastIs(rs: seq<Record>, none: u32)
    requires rs != []
    ensures LeastTtl(MinTtl(rs, 0xffff_ffff), rs, none)
  {
    var ttl := MinTtl(rs, 0xffff_ffff);
    if |rs| == 1 {
      assert rs[1..] == [] && MinTtl(rs[1..], 0xffff_ffff) == 0xffff_ffff;
      assert ttl == Min(rs[0].ttl, 0xffff_ffff) == rs[0].ttl;
    } else {
      LeastIs(rs[1..], none);
      var i :| 0 <= i < |rs[1..]| && rs[1..][i].ttl == MinTtl(rs[1..], 0xffff_ffff);
      assert rs[i + 1].ttl == rs[1..][i].ttl;
      assert ttl == rs[0].ttl || ttl == rs[i + 1].ttl;
    }
  }

  lemma ReplyAnswersAre(query: Message, answer: Answer)
    requires |query.questions| == 1
    ensures AnswersAre(BuildReply(query, answer).answers, query.questions[0].name, answer)
  {
    hide MinTtl, LeastTtl, SameName, OptOf;
    if answer.records != [] { LeastIs(answer.records, answer.negativeTtl); } else { LeastOfNone(answer.negativeTtl); }
    if Elsewhere(query.questions[0].name, answer) {
      var e := Expansion(query, answer);
      assert |e| == 1 && (e + answer.records)[1..] == answer.records;
    }
  }

  lemma LeastOfNone(none: u32)
    ensures LeastTtl(none, [], none)
  {
  }

  lemma OneOpt(m: Message)
    requires m.additional == [OptRecord(EDNS_UDP_SIZE)] || m.additional == []
    ensures OptOf(m).Some? <==> m.additional != []
    ensures Rcode(m) == m.header.rcode
  {
  }

  /** The reply and its shortened form tell the client the same, but for the answers. */
  lemma ReplyTells(query: Message, answer: Answer)
    requires |query.questions| == 1
    ensures Tells(BuildReply(query, answer), query, answer)
    ensures Tells(Shortened(BuildReply(query, answer)), query, answer)
  {
    ReplyAnswersAre(query, answer);
    ReplyShape(query, answer);
    var r := BuildReply(query, answer);
    OneOpt(r);
    OneOpt(Shortened(r));
    hide AnswersAre, Expansion, OptOf, Rcode;
  }

  /**
   * Any datagram sent in reply to a query fits the size the client advertised and decodes, and tells
   * the client what the answer is; it is truncated exactly when the whole reply does not fit.
   */
  lemma UdpReplies(bytes: seq<byte>, query: Message, answer: Answer)
    requires ParseQuery(bytes) == Ok(query) && GoodAnswer(answer)
    ensures var whole := Encode(BuildReply(query, answer));
            var sent := EncodeUdp(BuildReply(query, answer), UdpSize(query));
            && (sent.Ok? <==> whole.Ok?)
            && (sent.Ok? ==>
                  && |sent.value| <= UdpSize(query)
                  && Decode(sent.value).Ok?
                  && var m := Decode(sent.value).value;
                  && Tells(m, query, answer)
                  && (m.header.truncated <==> |whole.value| > UdpSize(query))
                  && (!m.header.truncated ==> sent == whole))
  {
    hide Decode, Encode, WellFormed, BuildReply, Shortened, GoodAnswer, OptOf, Tells;
    QueriesAre(bytes, query);
    hide ParseQuery;
    ReplyTells(query, answer);
    var r := BuildReply(query, answer);
    ReplyWellFormed(query, answer);
    ShortenedWellFormed(query, answer);
    ReplyShape(query, answer);
    ShortenedSize(query, answer);
    NotTruncated(query, answer);
    if Encode(r).Ok? {
      RoundTrip(r);
      RoundTrip(Shortened(r));
    }
  }

  lemma NotTruncated(query: Message, answer: Answer)
    ensures !BuildReply(query, answer).header.truncated
  {
    hide Expansion, OptOf;
  }

  /** A reply over TCP: its length in two octets, then the message. */
  function TcpFrame(message: seq<byte>): seq<byte> {
    Be16(|message| % 0x1_0000) + message
  }

  /** The length loses no bit, and what follows it tells the client the whole answer. */
  lemma TcpReplies(bytes: seq<byte>, query: Message, answer: Answer)
    requires ParseQuery(bytes) == Ok(query) && GoodAnswer(answer) && Encode(BuildReply(query, answer)).Ok?
    ensures var frame := TcpFrame(Encode(BuildReply(query, answer)).value);
            && |frame| >= 2 && FromBe16(frame[0..2]) == |frame| - 2
            && Decode(frame[2..]).Ok?
            && var m := Decode(frame[2..]).value;
            && Tells(m, query, answer) && !m.header.truncated
  {
    QueriesAre(bytes, query);
    hide Decode, Encode, WellFormed, BuildReply, GoodAnswer, ParseQuery, TcpFrame, FromBe16, Tells;
    ReplyTells(query, answer);
    NotTruncated(query, answer);
    ReplyWellFormed(query, answer);
    RoundTrip(BuildReply(query, answer));
    FrameReads(Encode(BuildReply(query, answer)).value);
  }

  lemma FrameReads(body: seq<byte>)
    requires |body| <= MAX_MESSAGE_SIZE
    ensures var frame := TcpFrame(body);
            |frame| == |body| + 2 && FromBe16(frame[0..2]) == |body| && frame[2..] == body
  {
    var frame := TcpFrame(body);
    assert frame[0..2] == Be16(|body|) && frame[2..] == body;
  }
}
