/** The query an upstream sees, and which replies answer it. */
module Queries {
  import opened Bytes
  import opened Results
  import opened Names
  import opened NameWire
  import opened Dns
  import opened Codec
  import opened EngineModel

  // ---------------------------------------------------------- case bits

  lemma {:induction false} RandomLabelSame(l: Label, r: Random, k: nat)
    ensures LowerLabel(RandomLabel(l, r, k)) == LowerLabel(l)
  {
    if l != [] {
      var k' := if Letter(l[0]) then k + 1 else k;
      RandomLabelSame(l[1..], r, k');
      var x := RandomLabel(l, r, k);
      assert x == [x[0]] + RandomLabel(l[1..], r, k');
      forall i | 0 <= i < |l| ensures LowerByte(x[i]) == LowerByte(l[i]) {
        if i > 0 {
          assert LowerLabel(x[1..])[i - 1] == LowerLabel(l[1..])[i - 1];
        }
      }
    }
  }

  /** Randomising the case of a name gives the same name. */
  lemma {:induction false} RandomCaseSame(n: Name, r: Random, k: nat)
    ensures SameName(RandomCase(n, r, k), n)
  {
    if n != [] {
      RandomLabelSame(n[0], r, k);
      RandomCaseSame(n[1..], r, k + Letters(n[0]));
      var x := RandomCase(n, r, k);
      forall i | 0 <= i < |n| ensures LowerLabel(x[i]) == LowerLabel(n[i]) {
        if i > 0 {
          assert Lower(x[1..])[i - 1] == Lower(n[1..])[i - 1];
        }
      }
    }
  }

  function NameLetters(n: Name): nat {
    if n == [] then 0 else Letters(n[0]) + NameLetters(n[1..])
  }

  lemma {:induction false} LettersBelowLength(n: Name)
    ensures NameLetters(n) + |n| < WireLen(n)
  {
    if n != [] { LettersBelowLength(n[1..]); }
  }

  method RandomiseLabel(l: Label, random: Random, k0: nat) returns (x: Label, k: nat)
    requires k0 + Letters(l) < MAX_NAME_LEN
    ensures x == RandomLabel(l, random, k0) && k == k0 + Letters(l)
  {
    hide BitOf, Letter, Flip;
    x, k := [], k0;
    for j := 0 to |l|
      invariant k + Letters(l[j..]) == k0 + Letters(l)
      invariant x + RandomLabel(l[j..], random, k) == RandomLabel(l, random, k0)
    {
      ghost var k1 := k;
      assert l[j..][0] == l[j] && l[j..][1..] == l[j + 1..];
      var b := l[j];
      if Letter(b) {
        if BitOf(random, k) { b := Flip(b); }
        k := k + 1;
      }
      assert RandomLabel(l[j..], random, k1) == [b] + RandomLabel(l[j + 1..], random, k);
      x := x + [b];
    }
    assert l[|l|..] == [];
  }

  /**
   * The randomiser as it runs, one bit a letter. The thirty-two case octets are
   * read without a bounds test: a valid name never has letters to exhaust them.
   */
  method RandomiseCase(n: Name, random: Random) returns (x: Name)
    requires ValidName(n)
    ensures x == RandomCase(n, random, 0)
  {
    hide RandomLabel, Letters;
    LettersBelowLength(n);
    x := [];
    var k: nat := 0;
    for i := 0 to |n|
      invariant k + NameLetters(n[i..]) < MAX_NAME_LEN
      invariant x + RandomCase(n[i..], random, k) == RandomCase(n, random, 0)
    {
      assert n[i..][0] == n[i] && n[i..][1..] == n[i + 1..];
      ghost var k0 := k;
      var piece;
      piece, k := RandomiseLabel(n[i], random, k);
      ghost var rest := RandomCase(n[i + 1..], random, k);
      assert RandomCase(n[i..], random, k0) == [piece] + rest;
      assert x + ([piece] + rest) == (x + [piece]) + rest;
      x := x + [piece];
    }
    assert n[|n|..] == [];
  }

  // ------------------------------------------------------------- queries

  lemma QuerySize(id: u16, q: Question)
    requires ValidName(q.name)
    ensures Encode(Query(id, q)).Ok? && WellFormed(Query(id, q))
  {
    var m := Query(id, q);
    WriteLen(q.name);
    assert m.questions[1..] == [] && m.additional[1..] == [];
    assert WriteQuestions(m.questions) == WriteQuestion(q) + [];
    assert WriteRecords(m.additional) == WriteRecord(OptRecord(EDNS_UDP_SIZE)) + [];
    assert |WriteRecord(OptRecord(EDNS_UDP_SIZE))| == 11;
    assert |Sections(m)| == |Write(q.name)| + 4 + 11;
  }

  /** A query for a valid name always encodes, and says what was asked. */
  lemma QueryDecodes(id: u16, q: Question)
    requires ValidName(q.name)
    ensures Decode(QueryBytes(id, q)) == Ok(Query(id, q))
  {
    QuerySize(id, q);
    RoundTrip(Query(id, q));
  }

  /** A reply is accepted only for a live transaction, with its id and its exact question. */
  lemma AcceptedMatches(s: State, tx: Txid, bytes: seq<byte>)
    ensures MatchingResponse(s, tx, bytes).Some? <==>
            && tx in s.txs && Decode(bytes).Ok?
            && var m := Decode(bytes).value;
               && m.header.id == s.txs[tx].dnsId && m.header.response
               && m.questions == [s.txs[tx].question]
    ensures MatchingResponse(s, tx, bytes).Some? ==> MatchingResponse(s, tx, bytes).value == Decode(bytes).value
  {
  }
}
