/** Answers, and folding a lookup's per-family answers into one list of addresses. */
module Lookups {
  import opened Bytes
  import opened Results
  import opened Sets
  import opened Names
  import opened Dns
  import opened Aliases

  datatype Outcome = Found | NotFound | Unavailable

  datatype Source = Local | Synthetic | Hosts | FromCache | FromDns

  datatype Answer = Answer(
    outcome: Outcome, records: seq<Record>, source: Source, server: Option<IpAddr>,
    interface_: Option<string>, rcode: nat, resolvedName: Option<Name>, negativeTtl: u32)

  const DEFAULT_ANSWER: Answer := Answer(Unavailable, [], Local, None, None, 0, None, 0)

  datatype Addresses = Addresses(
    outcome: Outcome, canonical: Name, addresses: seq<(IpAddr, u32)>, source: Source)

  /** One family's finished answer. */
  datatype Part = Part(rtype: u16, answer: Answer)

  function PartChased(name: Name, p: Part): (Name, seq<(IpAddr, u32)>) {
    var start := if p.answer.resolvedName.Some? then p.answer.resolvedName.value else name;
    Chased(p.answer.records, start, p.rtype)
  }

  /** Address-producing families rank first, then by record type: A before AAAA. */
  function Rank(name: Name, p: Part): nat {
    (if PartChased(name, p).1 == [] then 0x1_0000 else 0) + p.rtype
  }

  predicate Any(parts: seq<Part>, o: Outcome) {
    exists i :: 0 <= i < |parts| && parts[i].answer.outcome == o
  }

  /** The found part of least rank; the earlier one when two tie. */
  function Best(name: Name, parts: seq<Part>): Option<Part> {
    if parts == [] then None
    else
      var b := Best(name, parts[..|parts| - 1]);
      var x := parts[|parts| - 1];
      if x.answer.outcome == Found && (b.None? || Rank(name, x) < Rank(name, b.value)) then Some(x) else b
  }

  lemma {:induction false} BestIsLeast(name: Name, parts: seq<Part>)
    ensures var b := Best(name, parts);
            && (b.Some? ==> b.value in parts && b.value.answer.outcome == Found)
            && (forall i :: 0 <= i < |parts| && parts[i].answer.outcome == Found ==>
                  b.Some? && Rank(name, b.value) <= Rank(name, parts[i]))
  {
    hide Rank;
    if parts != [] { BestIsLeast(name, parts[..|parts| - 1]); }
  }

  function AllAddresses(name: Name, parts: seq<Part>): seq<(IpAddr, u32)> {
    if parts == [] then []
    else
      var x := parts[|parts| - 1];
      AllAddresses(name, parts[..|parts| - 1])
      + (if x.answer.outcome == Found then PartChased(name, x).1 else [])
  }

  function Combine(name: Name, parts: seq<Part>): Addresses {
    var b := Best(name, parts);
    Addresses(
      if Any(parts, Found) then Found else if Any(parts, Unavailable) then Unavailable else NotFound,
      if b.Some? then PartChased(name, b.value).0 else name,
      AllAddresses(name, parts),
      if b.Some? then b.value.answer.source else Local)
  }

  /** The fold as it runs over the answers in the order they arrived. */
  method CombineAnswers(name: Name, parts: seq<Part>) returns (out: Addresses)
    ensures out == Combine(name, parts)
  {
    hide Chased, Any;
    out := Addresses(Unavailable, name, [], Local);
    SomeNil(Found);
    SomeNil(Unavailable);
    var anyFound, anyUnavailable := false, false;
    var rank: Option<nat> := None;
    for i := 0 to |parts|
      invariant anyFound == Any(parts[..i], Found)
      invariant anyUnavailable == Any(parts[..i], Unavailable)
      invariant out.addresses == AllAddresses(name, parts[..i])
      invariant var b := Best(name, parts[..i]);
                && (b.None? ==> rank.None? && out.canonical == name && out.source == Local)
                && (b.Some? ==> rank == Some(Rank(name, b.value)) && out.source == b.value.answer.source
                                && out.canonical == PartChased(name, b.value).0)
    {
      var p := parts[i];
      assert parts[..i + 1][..i] == parts[..i] && parts[..i + 1][i] == p;
      SomeSnoc(parts[..i], p, Found);
      SomeSnoc(parts[..i], p, Unavailable);
      assert parts[..i + 1] == parts[..i] + [p];
      match p.answer.outcome
      case Found =>
        anyFound := true;
        var start := if p.answer.resolvedName.Some? then p.answer.resolvedName.value else name;
        var canonical, addrs := Chase(p.answer.records, start, p.rtype);
        var r := (if addrs == [] then 0x1_0000 else 0) + p.rtype;
        if rank.None? || r < rank.value {
          out := out.(canonical := canonical, source := p.answer.source);
          rank := Some(r);
        }
        out := out.(addresses := out.addresses + addrs);
      case Unavailable => anyUnavailable := true;
      case NotFound =>
    }
    assert parts[..|parts|] == parts;
    out := out.(outcome := if anyFound then Found else if anyUnavailable then Unavailable else NotFound);
  }

  lemma SomeNil(o: Outcome)
    ensures !Any([], o)
  {
  }

  lemma SomeSnoc(parts: seq<Part>, p: Part, o: Outcome)
    ensures Any(parts + [p], o) == (Any(parts, o) || p.answer.outcome == o)
  {
    var q := parts + [p];
    if p.answer.outcome == o { assert q[|parts|].answer.outcome == o; }
    if Any(parts, o) {
      var i :| 0 <= i < |parts| && parts[i].answer.outcome == o;
      assert q[i].answer.outcome == o;
    }
  }

  // ------------------------------------------- what a combined answer says

  /** What one family's answer adds: the addresses at the end of its aliases, if it was found. */
  function Contribution(name: Name, p: Part): seq<(IpAddr, u32)> {
    if p.answer.outcome == Found then PartChased(name, p).1 else []
  }

  function Contributions(name: Name, parts: seq<Part>): seq<seq<(IpAddr, u32)>> {
    seq(|parts|, i requires 0 <= i < |parts| => Contribution(name, parts[i]))
  }

  /** `i` is the found answer preferred: one with addresses over one without, then the lower type, then the earlier. */
  predicate Preferred(name: Name, parts: seq<Part>, i: nat) {
    && i < |parts| && parts[i].answer.outcome == Found
    && forall j :: 0 <= j < |parts| && parts[j].answer.outcome == Found ==>
         Rank(name, parts[i]) < Rank(name, parts[j]) || (Rank(name, parts[i]) == Rank(name, parts[j]) && i <= j)
  }

  /**
   * Found if any family was, else not known if any could not be, else absent; the addresses of every
   * family found, in the order of arrival; name and source of the preferred one.
   */
  ghost predicate Combines(d: Addresses, name: Name, parts: seq<Part>) {
    && (d.outcome == Found <==> exists i :: 0 <= i < |parts| && parts[i].answer.outcome == Found)
    && (d.outcome == NotFound <==> forall i :: 0 <= i < |parts| ==> parts[i].answer.outcome == NotFound)
    && d.addresses == Flatten(Contributions(name, parts))
    && (d.outcome != Found ==> d.canonical == name && d.source == Local)
    && (forall i: nat :: Preferred(name, parts, i) ==>
          d.canonical == PartChased(name, parts[i]).0 && d.source == parts[i].answer.source)
  }

  lemma {:induction false} AllFlatten(name: Name, parts: seq<Part>)
    ensures AllAddresses(name, parts) == Flatten(Contributions(name, parts))
  {
    hide PartChased;
    if parts != [] {
      var n := |parts| - 1;
      AllFlatten(name, parts[..n]);
      assert Contributions(name, parts) == Contributions(name, parts[..n]) + [Contribution(name, parts[n])];
      FlattenSnoc(Contributions(name, parts[..n]), Contribution(name, parts[n]));
    }
  }

  lemma {:induction false} BestPreferred(name: Name, parts: seq<Part>) returns (i: nat)
    ensures Best(name, parts).Some? ==> Preferred(name, parts, i) && parts[i] == Best(name, parts).value
    ensures Best(name, parts).None? ==> forall j :: 0 <= j < |parts| ==> parts[j].answer.outcome != Found
  {
    hide Rank;
    i := 0;
    if parts != [] {
      var n := |parts| - 1;
      i := BestPreferred(name, parts[..n]);
      if Best(name, parts) != Best(name, parts[..n]) {
        i := n;
      } else if Best(name, parts).Some? {
        assert parts[i] == parts[..n][i];
      }
      forall j | 0 <= j < n ensures parts[j] == parts[..n][j] {}
    }
  }

  lemma PreferredOnce(name: Name, parts: seq<Part>, i: nat, j: nat)
    requires Preferred(name, parts, i) && Preferred(name, parts, j)
    ensures i == j
  {
    hide Rank;
  }

  lemma CombineSays(name: Name, parts: seq<Part>)
    ensures Combines(Combine(name, parts), name, parts)
  {
    AllFlatten(name, parts);
    var b := BestPreferred(name, parts);
    forall i: nat | Preferred(name, parts, i) ensures Best(name, parts) == Some(parts[i]) {
      if Best(name, parts).Some? { PreferredOnce(name, parts, i, b); }
    }
    hide Best, AllAddresses, Contributions, Preferred, PartChased;
    if forall i :: 0 <= i < |parts| ==> parts[i].answer.outcome == NotFound {
      assert !Any(parts, Found) && !Any(parts, Unavailable);
    } else {
      var i :| 0 <= i < |parts| && parts[i].answer.outcome != NotFound;
      assert Any(parts, parts[i].answer.outcome);
    }
  }

  // ---------------------------------------------------- order independence

  predicate DistinctTypes(parts: seq<Part>) {
    forall i, j :: 0 <= i < j < |parts| ==> parts[i].rtype != parts[j].rtype
  }

  lemma Member(parts: seq<Part>, p: Part)
    ensures p in parts <==> p in multiset(parts)
  {
  }

  lemma SameSome(a: seq<Part>, b: seq<Part>, o: Outcome)
    requires multiset(a) == multiset(b) && Any(a, o)
    ensures Any(b, o)
  {
    var i :| 0 <= i < |a| && a[i].answer.outcome == o;
    Member(a, a[i]);
    Member(b, a[i]);
  }

  lemma SameBest(name: Name, a: seq<Part>, b: seq<Part>)
    requires multiset(a) == multiset(b) && DistinctTypes(a)
    ensures Best(name, a) == Best(name, b)
  {
    hide Best, PartChased;
    var x, y := Best(name, a), Best(name, b);
    BestIsLeast(name, a);
    BestIsLeast(name, b);
    if x.Some? {
      Member(a, x.value);
      Member(b, x.value);
    }
    if y.Some? {
      Member(b, y.value);
      Member(a, y.value);
    }
    if x.Some? && y.Some? {
      var i :| 0 <= i < |a| && a[i] == x.value;
      var j :| 0 <= j < |a| && a[j] == y.value;
      assert Rank(name, x.value) == Rank(name, y.value);
      assert a[i].rtype == a[j].rtype;
    }
  }

  function PartBag(name: Name, p: Part): multiset<(IpAddr, u32)> {
    if p.answer.outcome == Found then multiset(PartChased(name, p).1) else multiset{}
  }

  function Bag(name: Name, parts: seq<Part>): multiset<(IpAddr, u32)> {
    if parts == [] then multiset{} else Bag(name, parts[..|parts| - 1]) + PartBag(name, parts[|parts| - 1])
  }

  lemma {:induction false} BagOfAll(name: Name, parts: seq<Part>)
    ensures multiset(AllAddresses(name, parts)) == Bag(name, parts)
  {
    if parts != [] { BagOfAll(name, parts[..|parts| - 1]); }
  }

  lemma {:induction false} BagWithout(name: Name, parts: seq<Part>, k: nat)
    requires k < |parts|
    ensures Bag(name, parts) == Bag(name, parts[..k] + parts[k + 1..]) + PartBag(name, parts[k])
  {
    hide PartBag;
    var n := |parts| - 1;
    var rest := parts[..k] + parts[k + 1..];
    if k < n {
      BagWithout(name, parts[..n], k);
      assert parts[..n][..k] == parts[..k];
      assert rest[..n - 1] == parts[..n][..k] + parts[..n][k + 1..];
      assert rest[n - 1] == parts[n] && |rest| == n;
    } else {
      assert rest == parts[..n];
    }
  }

  lemma {:induction false} SameBag(name: Name, a: seq<Part>, b: seq<Part>)
    requires multiset(a) == multiset(b)
    ensures Bag(name, a) == Bag(name, b)
    decreases |a|
  {
    hide PartBag;
    assert |a| == |multiset(a)| && |b| == |multiset(b)|;
    if a != [] {
      var n := |a| - 1;
      var x := a[n];
      Member(a, x);
      Member(b, x);
      var k :| 0 <= k < |b| && b[k] == x;
      var rest := b[..k] + b[k + 1..];
      BagWithout(name, b, k);
      assert a == a[..n] + [x];
      assert b == b[..k] + [x] + b[k + 1..];
      assert multiset(a[..n]) == multiset(a) - multiset{x} == multiset(rest);
      SameBag(name, a[..n], rest);
    }
  }

  /**
   * Which family finishes first does not matter: any two arrival orders of the
   * same answers give the same outcome, canonical name and source, and the same
   * addresses with the same multiplicity.
   */
  lemma OrderIndependent(name: Name, a: seq<Part>, b: seq<Part>)
    requires multiset(a) == multiset(b) && DistinctTypes(a)
    ensures var x, y := Combine(name, a), Combine(name, b);
            && x.outcome == y.outcome && x.canonical == y.canonical && x.source == y.source
            && multiset(x.addresses) == multiset(y.addresses)
  {
    hide Best, AllAddresses, Bag, PartChased, Any;
    SameBest(name, a, b);
    SameBag(name, a, b);
    BagOfAll(name, a);
    BagOfAll(name, b);
    if Any(a, Found) { SameSome(a, b, Found); }
    if Any(b, Found) { SameSome(b, a, Found); }
    if Any(a, Unavailable) { SameSome(a, b, Unavailable); }
    if Any(b, Unavailable) { SameSome(b, a, Unavailable); }
  }
}
