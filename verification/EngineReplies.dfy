/** Which replies the engine takes for its queries, in any state a run can reach. */
module EngineReplies {
  import opened Bytes
  import opened Results
  import opened Names
  import opened Dns
  import opened Codec
  import opened Caches
  import opened EngineModel
  import opened EngineRuns
  import opened EngineTheorems
  import opened Queries

  /** The payload of a send of the run reads as the query of its transaction. */
  lemma PayloadReads(entropy: seq<Option<Random>>, inputs: seq<Input>, n: nat)
    requires LegalRun(Start(entropy), inputs) && n < |Play(Initial(entropy), inputs).acts|
    requires var o := Play(Initial(entropy), inputs); o.acts[n].Send? && o.acts[n].tx in o.s.txs
    ensures var o := Play(Initial(entropy), inputs);
            var x := o.s.txs[o.acts[n].tx];
            Decode(o.acts[n].payload) == Ok(Query(x.dnsId, x.question))
  {
    hide Good, LegalRun, After, Play, Decode, ValidName, SameName;
    var w0 := Start(entropy);
    StartGood(entropy);
    RunGood(w0, inputs);
    assert w0.trace + Play(w0.s, inputs).acts == Play(w0.s, inputs).acts;
    var w := After(w0, inputs);
    SentAction(w, n);
    TxFor(w, w.trace[n].tx);
    QueryDecodes(w.s.txs[w.trace[n].tx].dnsId, w.s.txs[w.trace[n].tx].question);
  }

  /**
   * Whatever the run, while a query is in flight bytes are taken as its reply if and only if they
   * decode to a response with the id and exactly the question its payload carried; any other bytes
   * change nothing and ask for nothing.
   */
  lemma RepliesMatch(entropy: seq<Option<Random>>, inputs: seq<Input>, n: nat, bytes: seq<byte>, now: nat,
                     keys: seq<CacheKey>)
    requires LegalRun(Start(entropy), inputs) && n < |Play(Initial(entropy), inputs).acts|
    requires var o := Play(Initial(entropy), inputs); o.acts[n].Send? && o.acts[n].tx in o.s.txs
    ensures var o := Play(Initial(entropy), inputs);
            var sent, got := Decode(o.acts[n].payload), Decode(bytes);
            && sent.Ok? && |sent.value.questions| == 1
            && MatchingResponse(o.s, o.acts[n].tx, bytes)
               == (if got.Ok? && got.value.header.response && got.value.header.id == sent.value.header.id
                      && got.value.questions == sent.value.questions
                   then Some(got.value) else None)
            && (MatchingResponse(o.s, o.acts[n].tx, bytes).None? ==>
                  Received(o.s, o.acts[n].tx, bytes, now, keys) == Out(o.s, []))
  {
    hide LegalRun, Play, Decode, MatchingResponse, Received;
    PayloadReads(entropy, inputs, n);
    var o := Play(Initial(entropy), inputs);
    AcceptedMatches(o.s, o.acts[n].tx, bytes);
    if MatchingResponse(o.s, o.acts[n].tx, bytes).None? { NotReceived(o.s, o.acts[n].tx, bytes, now, keys); }
  }

  /**
   * Whatever the run, every encodable reply with the reply header and question made from a query's
   * payload is taken as its reply, whatever else it says.
   */
  lemma ReplyAccepted(entropy: seq<Option<Random>>, inputs: seq<Input>, n: nat, m: Message)
    requires LegalRun(Start(entropy), inputs) && n < |Play(Initial(entropy), inputs).acts|
    requires var o := Play(Initial(entropy), inputs); o.acts[n].Send? && o.acts[n].tx in o.s.txs
    requires WellFormed(m) && Encode(m).Ok?
    ensures var o := Play(Initial(entropy), inputs);
            var sent := Decode(o.acts[n].payload);
            && sent.Ok?
            && (m.header.id == ReplyTo(sent.value).header.id && m.header.response
                && m.questions == ReplyTo(sent.value).questions ==>
                  MatchingResponse(o.s, o.acts[n].tx, Encode(m).value) == Some(m))
  {
    hide LegalRun, Play, Decode, MatchingResponse, Encode, WellFormed;
    PayloadReads(entropy, inputs, n);
    RoundTrip(m);
    var o := Play(Initial(entropy), inputs);
    AcceptedMatches(o.s, o.acts[n].tx, Encode(m).value);
  }
}
