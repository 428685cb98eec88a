/** What a server's reply says about the name asked for: its records, and for how long they hold. */
module ReplyLaws {
  import opened Bytes
  import opened Results
  import opened Sets
  import opened Names
  import opened Dns
  import opened Aliases
  import opened Lookups
  import opened Caches
  import Routing
  import opened EngineModel

  // ---------------------------------------------------------------- records

  /** The positions before `n` of the records kept. */
  function KeptBelow(rs: seq<Record>, path: seq<Name>, t: u16, n: nat): set<nat>
    requires path != [] && n <= |rs|
  {
    set j: nat | j < n && Kept(rs, path, t, j)
  }

  /** The record in the caller's case, its lifetime no longer than `cap`. */
  function Told(r: Record, n: Name, cap: nat): Record {
    r.(name := if SameName(r.name, n) then n else r.name, ttl := if r.ttl < cap then r.ttl else cap % 0x1_0000_0000)
  }

  /** The records are, in order, exactly the aliases followed and the records where they end. */
  predicate KeptRecords(out: seq<Record>, rs: seq<Record>, n: Name, t: u16, cap: nat) {
    var path := Path(rs, n, t, 16);
    && |out| == |KeptBelow(rs, path, t, |rs|)|
    && forall i :: 0 <= i < |rs| && Kept(rs, path, t, i) ==>
         |KeptBelow(rs, path, t, i)| < |out| && out[|KeptBelow(rs, path, t, i)|] == Told(rs[i], n, cap)
  }

  /** No lifetime on the wire exceeds this. */
  const UNCAPPED: nat := 0xffff_ffff

  lemma {:induction false} SelectSifted(rs: seq<Record>, keep: seq<bool>)
    requires |keep| == |rs|
    ensures Sifted(Select(rs, keep), keep, rs)
  {
    if rs == [] {
      SiftedNone<Record>();
    } else {
      SelectSifted(rs[1..], keep[1..]);
      SiftedCons(Select(rs[1..], keep[1..]), keep, rs);
    }
  }

  /** The records picked out of a reply, each retold. */
  predicate Retold(out: seq<Record>, relevant: seq<Record>, n: Name, cap: nat) {
    |out| == |relevant| && forall i :: 0 <= i < |out| ==> out[i] == Told(relevant[i], n, cap)
  }

  lemma RelevantKept(out: seq<Record>, rs: seq<Record>, n: Name, t: u16, cap: nat)
    requires Retold(out, Relevant(rs, n, t), n, cap)
    ensures KeptRecords(out, rs, n, t, cap)
  {
    var path := Path(rs, n, t, 16);
    var keep := Keeps(rs, path, t);
    SelectSifted(rs, keep);
    forall k | 0 <= k <= |rs| ensures Below(keep, k) == KeptBelow(rs, path, t, k) {}
    hide Kept, Keeps, Select, Path, Told, Below, KeptBelow;
  }

  lemma RecaseRetold(rs: seq<Record>, n: Name)
    ensures Retold(Recase(rs, n), rs, n, UNCAPPED)
  {
    hide SameName;
  }

  lemma {:induction false} AgedRetold(out: seq<Record>, aged: seq<Record>, relevant: seq<Record>, n: Name, left: nat)
    requires Retold(out, relevant, n, UNCAPPED) && |aged| == |out| && left < 0x1_0000_0000
    requires forall i :: 0 <= i < |out| ==> aged[i] == out[i].(ttl := if out[i].ttl < left then out[i].ttl else left)
    ensures Retold(aged, relevant, n, left)
  {
    hide SameName;
  }

  // --------------------------------------------------------------- lifetimes

  /** The record says for how long its zone's names may be held absent, and the name is in the zone. */
  predicate Encloses(r: Record, name: Name) {
    r.class_ == IN && r.rdata.RSoa? && EndsWith(name, r.name)
  }

  predicate FirstSoa(authority: seq<Record>, name: Name, i: nat) {
    i < |authority| && Encloses(authority[i], name) && forall j :: 0 <= j < i ==> !Encloses(authority[j], name)
  }

  /** Record `k` of the reply is an alias followed to the end. */
  predicate Followed(m: Message, n: Name, t: u16, k: nat) {
    k < |m.answers| && Kept(m.answers, Path(m.answers, n, t, 16), t, k) && m.answers[k].rtype == CNAME
  }

  /**
   * The lifetime of an absence: none without the zone's word for it; else the least of what the zone
   * says, five minutes, and the aliases that led there.
   */
  ghost predicate AbsentFor(ttl: u32, m: Message, n: Name, t: u16) {
    var name := EffectiveName(m.answers, n, t);
    && ((forall i :: 0 <= i < |m.authority| ==> !Encloses(m.authority[i], name)) ==> ttl == 0)
    && forall i: nat :: FirstSoa(m.authority, name, i) ==>
         var soa := m.authority[i];
         && ttl <= soa.rdata.minimum && ttl <= soa.ttl && ttl <= 300
         && (forall k: nat :: Followed(m, n, t, k) ==> ttl <= m.answers[k].ttl)
         && (|| ttl == soa.rdata.minimum || ttl == soa.ttl || ttl == 300
             || exists k: nat :: Followed(m, n, t, k) && ttl == m.answers[k].ttl)
  }

  /** Some record is kept. */
  predicate KeepsAny(m: Message, n: Name, t: u16) {
    exists i :: 0 <= i < |m.answers| && Kept(m.answers, Path(m.answers, n, t, 16), t, i)
  }

  /** The lifetime of what was found: the least of its records' own, and a day. */
  predicate FoundFor(ttl: u32, m: Message, n: Name, t: u16) {
    var path := Path(m.answers, n, t, 16);
    && ttl <= 86400
    && (forall i :: 0 <= i < |m.answers| && Kept(m.answers, path, t, i) ==> ttl <= m.answers[i].ttl)
    && (ttl == 86400 || exists i :: 0 <= i < |m.answers| && Kept(m.answers, path, t, i) && ttl == m.answers[i].ttl)
  }

  /** How long what the reply says may be held. */
  ghost predicate HeldFor(ttl: u32, m: Message, n: Name, t: u16) {
    if Rcode(m) != 3 && KeepsAny(m, n, t) then FoundFor(ttl, m, n, t) else AbsentFor(ttl, m, n, t)
  }

  lemma RelevantIs(rs: seq<Record>, n: Name, t: u16, r: Record)
    ensures r in Relevant(rs, n, t)
            <==> exists i :: 0 <= i < |rs| && Kept(rs, Path(rs, n, t, 16), t, i) && rs[i] == r
  {
    var path := Path(rs, n, t, 16);
    var keep := Keeps(rs, path, t);
    if r in Relevant(rs, n, t) {
      SelectFrom(rs, keep, r);
      var i :| 0 <= i < |rs| && keep[i] && rs[i] == r;
      assert Kept(rs, path, t, i);
    }
    hide Path, Kept;
    if i :| 0 <= i < |rs| && Kept(rs, path, t, i) && rs[i] == r { SelectHas(rs, keep, i); }
  }

  lemma {:induction false} LeastOf(rs: seq<Record>, d: u32)
    ensures MinTtl(rs, d) == d || exists r :: r in rs && r.ttl == MinTtl(rs, d)
  {
    if rs != [] {
      LeastOf(rs[1..], d);
      assert rs[0] in rs && forall r :: r in rs[1..] ==> r in rs;
    }
  }

  lemma LeastBelow(rs: seq<Record>, d: u32, r: Record)
    requires r in rs
    ensures MinTtl(rs, d) <= r.ttl
  {
    var i :| 0 <= i < |rs| && rs[i] == r;
    assert MinTtl(rs, d) <= rs[i].ttl;
  }

  lemma {:induction false} AliasesIn(rs: seq<Record>, r: Record)
    ensures r in AliasRecords(rs) <==> r in rs && r.rtype == CNAME
  {
    if rs != [] { AliasesIn(rs[1..], r); }
  }

  lemma FoundLife(m: Message, n: Name, t: u16)
    ensures FoundFor(MinTtl(Relevant(m.answers, n, t), 86400), m, n, t)
  {
    var rs, path := Relevant(m.answers, n, t), Path(m.answers, n, t, 16);
    var ttl := MinTtl(rs, 86400);
    LeastOf(rs, 86400);
    hide Relevant, Path, Kept, MinTtl;
    forall i | 0 <= i < |m.answers| && Kept(m.answers, path, t, i) ensures ttl <= m.answers[i].ttl {
      RelevantIs(m.answers, n, t, m.answers[i]);
      LeastBelow(rs, 86400, m.answers[i]);
    }
    if ttl != 86400 {
      var r :| r in rs && r.ttl == ttl;
      RelevantIs(m.answers, n, t, r);
    }
  }

  lemma {:induction false} SoaLife(authority: seq<Record>, name: Name)
    ensures (forall i :: 0 <= i < |authority| ==> !Encloses(authority[i], name)) ==> NegativeTtl(authority, name) == 0
    ensures forall i: nat :: FirstSoa(authority, name, i) ==>
              NegativeTtl(authority, name) == Min(Min(authority[i].rdata.minimum, authority[i].ttl), 300)
  {
    hide EndsWith, Min;
    if authority != [] {
      SoaLife(authority[1..], name);
      var rest := authority[1..];
      forall i | 0 <= i < |rest| ensures rest[i] == authority[i + 1] {}
      if !Encloses(authority[0], name) {
        assert NegativeTtl(authority, name) == NegativeTtl(rest, name);
        forall i: nat | FirstSoa(authority, name, i) ensures i > 0 && FirstSoa(rest, name, i - 1) {
          assert rest[i - 1] == authority[i];
        }
      } else {
        forall i: nat | FirstSoa(authority, name, i) ensures i == 0 {}
      }
    }
  }

  lemma AbsentLife(m: Message, n: Name, t: u16)
    ensures AbsentFor(Min(NegativeTtl(m.authority, EffectiveName(m.answers, n, t)),
                          MinTtl(AliasRecords(Relevant(m.answers, n, t)), 0xffff_ffff)), m, n, t)
  {
    var name, rs := EffectiveName(m.answers, n, t), Relevant(m.answers, n, t);
    var aliases := AliasRecords(rs);
    SoaLife(m.authority, name);
    LeastOf(aliases, 0xffff_ffff);
    var a, b := NegativeTtl(m.authority, name), MinTtl(aliases, 0xffff_ffff);
    hide EffectiveName, NegativeTtl, MinTtl, Relevant, AliasRecords, Encloses, Kept, Path;
    forall k: nat | Followed(m, n, t, k) ensures b <= m.answers[k].ttl {
      RelevantIs(m.answers, n, t, m.answers[k]);
      AliasesIn(rs, m.answers[k]);
      LeastBelow(aliases, 0xffff_ffff, m.answers[k]);
    }
    if b != 0xffff_ffff {
      var r :| r in aliases && r.ttl == b;
      AliasesIn(rs, r);
      RelevantIs(m.answers, n, t, r);
      var k :| 0 <= k < |m.answers| && Kept(m.answers, Path(m.answers, n, t, 16), t, k) && m.answers[k] == r;
      assert Followed(m, n, t, k) && m.answers[k].ttl == b;
    }
  }

  lemma AnyRelevant(m: Message, n: Name, t: u16)
    ensures Relevant(m.answers, n, t) != [] <==> KeepsAny(m, n, t)
  {
    hide Relevant, Path, Kept;
    var rs := Relevant(m.answers, n, t);
    if rs != [] {
      assert rs[0] in rs;
      RelevantIs(m.answers, n, t, rs[0]);
    }
    if i :| 0 <= i < |m.answers| && Kept(m.answers, Path(m.answers, n, t, 16), t, i) {
      RelevantIs(m.answers, n, t, m.answers[i]);
    }
  }

  /** The lifetime given to a reply is the one it says. */
  lemma ReplyHeldFor(m: Message, n: Name, t: u16)
    ensures HeldFor(ReplyTtl(m, n, t), m, n, t)
  {
    FoundLife(m, n, t);
    AbsentLife(m, n, t);
    AnyRelevant(m, n, t);
    hide FoundFor, AbsentFor, KeepsAny, Relevant, EffectiveName, NegativeTtl, AliasRecords, MinTtl, Rcode;
  }

  // ----------------------------------------------------------------- answers

  /** An answer whose content is what the reply says of the name, its records holding no longer than `cap`. */
  predicate Says(a: Answer, m: Message, n: Name, t: u16, cap: nat) {
    && a.rcode == Rcode(m)
    && (Rcode(m) == 3 ==> a.outcome == NotFound && a.records == [])
    && (Rcode(m) != 3 ==> a.outcome == Found && KeptRecords(a.records, m.answers, n, t, cap))
  }

  /** The answer a fresh reply gives. */
  ghost predicate FreshAnswer(a: Answer, m: Message, n: Name, t: u16, server: IpAddr, iface: Option<string>) {
    && Says(a, m, n, t, UNCAPPED)
    && a.source == FromDns && a.server == Some(server) && a.interface_ == iface && a.resolvedName == Some(n)
    && (a.records == [] ==> HeldFor(a.negativeTtl, m, n, t)) && (a.records != [] ==> a.negativeTtl == 0)
  }

  lemma ReplySays(cfg: Routing.Config, t: Task, server: IpAddr, m: Message)
    ensures FreshAnswer(ReplyAnswer(cfg, t, server, m), m, CurrentName(t), t.rtype, server,
                        Routing.InterfaceOf(cfg, ScopeName(t)))
  {
    var n, rtype := CurrentName(t), t.rtype;
    ReplyHeldFor(m, n, rtype);
    RecaseRetold(Relevant(m.answers, n, rtype), n);
    if Rcode(m) != 3 { RelevantKept(Recase(Relevant(m.answers, n, rtype), n), m.answers, n, rtype, UNCAPPED); }
    hide HeldFor, KeptRecords, Relevant, ReplyTtl, Rcode, Retold, Routing.InterfaceOf;
  }

  /** The answer a hit gives, `left` seconds before what was stored runs out. */
  predicate HitAnswer(a: Answer, m: Message, n: Name, c: Name, t: u16, server: IpAddr, iface: Option<string>,
                      left: nat) {
    && Says(a, m, n, t, left)
    && a.source == FromCache && a.server == Some(server) && a.interface_ == iface && a.resolvedName == Some(c)
    && a.negativeTtl == if a.records == [] then left else 0
  }

  /** The answer given at `now` by what a reply said at `at`, before the lifetime it gave runs out. */
  ghost predicate HitFor(a: Answer, m: Message, n: Name, c: Name, t: u16, server: IpAddr, iface: Option<string>,
                         at: nat, now: nat) {
    exists ttl: u32 ::
      && HeldFor(ttl, m, n, t) && now < at + ttl * SECOND
      && HitAnswer(a, m, n, c, t, server, iface, ((at + ttl * SECOND - now) / SECOND) % 0x1_0000_0000)
  }

  lemma HitSays(cfg: Routing.Config, m: Message, n: Name, c: Name, t: u16, server: IpAddr, scope: string, at: nat,
                now: nat, e: Entry)
    requires e == ReplyEntry(m, n, t, server, at) && e.expires > now
    ensures HitFor(CacheAnswer(cfg, Aged(e, now), scope, c, now), m, n, c, t, server, Routing.InterfaceOf(cfg, scope),
                   at, now)
  {
    var relevant, left := Relevant(m.answers, n, t), Remaining(e, now) % 0x1_0000_0000;
    ReplyHeldFor(m, n, t);
    var aged := Aged(e, now);
    RecaseRetold(relevant, n);
    hide HeldFor, KeptRecords, Relevant, ReplyTtl, Rcode, Retold, Routing.InterfaceOf, Recase;
    if Rcode(m) != 3 {
      AgedRetold(e.records, aged.records, relevant, n, left);
      RelevantKept(aged.records, m.answers, n, t, left);
    }
    assert HitAnswer(CacheAnswer(cfg, aged, scope, c, now), m, n, c, t, server, Routing.InterfaceOf(cfg, scope), left);
  }
}
