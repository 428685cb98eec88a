/** Answers given before any network: loopback, static names, the machine's own name, `.local`. */
module Synthetics {
  import opened Bytes
  import opened Results
  import opened Sets
  import opened Names
  import opened Dns
  import opened ReverseNames
  import opened Routing
  import opened Lookups

  // The names localhost and local.
  const LOCALHOST: Name := [[108, 111, 99, 97, 108, 104, 111, 115, 116]]
  const LOCAL: Name := [[108, 111, 99, 97, 108]]

  const LOOPBACK: seq<IpAddr> := [V4(0x7f00_0001), V6(1)]

  predicate IsLoopback(a: IpAddr) {
    match a
    case V4(x) => x / 0x100_0000 == 127
    case V6(x) => x == 1
  }

  function ScopeAddresses(addrs: seq<(IpAddr, byte)>): seq<IpAddr> {
    if addrs == [] then []
    else (if IsLoopback(addrs[0].0) then [] else [addrs[0].0]) + ScopeAddresses(addrs[1..])
  }

  function ScopesAddresses(scopes: seq<Scope>): seq<IpAddr> {
    if scopes == [] then []
    else
      (if scopes[0].level.Addressed? || scopes[0].level.Routed? then ScopeAddresses(scopes[0].addresses) else [])
      + ScopesAddresses(scopes[1..])
  }

  /** Consecutive repeats removed. */
  function Dedup(s: seq<IpAddr>): seq<IpAddr> {
    if |s| < 2 then s
    else if s[0] == s[1] then Dedup(s[1..])
    else [s[0]] + Dedup(s[1..])
  }

  function OwnAddresses(cfg: Config): seq<IpAddr> {
    Dedup(ScopesAddresses(cfg.scopes))
  }

  function FindHost(hosts: seq<Host>, name: Name): Option<Host> {
    if hosts == [] then None
    else if SameName(hosts[0].name, name) then Some(hosts[0])
    else FindHost(hosts[1..], name)
  }

  function AddressRecords(name: Name, rtype: u16, addrs: seq<IpAddr>): seq<Record> {
    if addrs == [] then []
    else
      var rest := AddressRecords(name, rtype, addrs[1..]);
      match addrs[0]
      case V4(a) => if rtype == A || rtype == ANY then [NewRecord(name, 0, RA(a))] + rest else rest
      case V6(a) => if rtype == AAAA || rtype == ANY then [NewRecord(name, 0, RAaaa(a))] + rest else rest
  }

  function FoundAt(name: Name, records: seq<Record>, source: Source): Answer {
    DEFAULT_ANSWER.(outcome := Found, records := records, source := source, resolvedName := Some(name))
  }

  // ------------------------------------------- the name of a static address

  /** Lexicographic order of octet strings. */
  predicate Less(a: seq<byte>, b: seq<byte>) {
    b != [] && (a == [] || a[0] < b[0] || (a[0] == b[0] && Less(a[1..], b[1..])))
  }

  lemma {:induction false} LessTotal(a: seq<byte>, b: seq<byte>)
    requires !Less(a, b) && !Less(b, a)
    ensures a == b
  {
    if a != [] && b != [] {
      LessTotal(a[1..], b[1..]);
      assert a == [a[0]] + a[1..] && b == [b[0]] + b[1..];
    }
  }

  lemma {:induction false} LessTransitive(a: seq<byte>, b: seq<byte>, c: seq<byte>)
    requires Less(a, b) && Less(b, c)
    ensures Less(a, c)
  {
    if a != [] && a[0] == b[0] && b[0] == c[0] { LessTransitive(a[1..], b[1..], c[1..]); }
  }

  function SortKey(h: Host): seq<byte> {
    Show(Lower(h.name))
  }

  /** The host of least printed name among those holding `addr`. */
  function PtrHost(hosts: seq<Host>, addr: IpAddr): (r: Option<Host>) {
    if hosts == [] then None
    else
      var r := PtrHost(hosts[..|hosts| - 1], addr);
      var h := hosts[|hosts| - 1];
      if addr in h.addresses && (r.None? || Less(SortKey(h), SortKey(r.value))) then Some(h) else r
  }

  lemma {:induction false} PtrHostIsLeast(hosts: seq<Host>, addr: IpAddr)
    ensures var r := PtrHost(hosts, addr);
            && (r.Some? ==> r.value in hosts && addr in r.value.addresses)
            && (forall h :: h in hosts && addr in h.addresses ==> r.Some? && !Less(SortKey(h), SortKey(r.value)))
  {
    hide SortKey, Less;
    if hosts != [] {
      var n := |hosts| - 1;
      PtrHostIsLeast(hosts[..n], addr);
      var q, r := PtrHost(hosts[..n], addr), PtrHost(hosts, addr);
      forall h | h in hosts && addr in h.addresses ensures r.Some? && !Less(SortKey(h), SortKey(r.value)) {
        assert h in hosts[..n] || h == hosts[n];
        if r != q && h != hosts[n] && Less(SortKey(h), SortKey(hosts[n])) {
          LessTransitive(SortKey(h), SortKey(hosts[n]), SortKey(q.value));
        }
        if h == hosts[n] && r != q { LessIrreflexive(SortKey(h)); }
      }
    }
  }

  lemma {:induction false} LessIrreflexive(a: seq<byte>)
    ensures !Less(a, a)
  {
    if a != [] { LessIrreflexive(a[1..]); }
  }

  /** The name given for a static address does not depend on the order its table is walked in. */
  lemma PtrOrderIndependent(a: seq<Host>, b: seq<Host>, addr: IpAddr)
    requires multiset(a) == multiset(b) && DistinctHosts(a)
    ensures PtrHost(a, addr) == PtrHost(b, addr)
  {
    hide SortKey, Less, SameName;
    PtrHostIsLeast(a, addr);
    PtrHostIsLeast(b, addr);
    var x, y := PtrHost(a, addr), PtrHost(b, addr);
    assert forall h :: h in a <==> h in multiset(a);
    assert forall h :: h in b <==> h in multiset(b);
    if x.Some? && y.Some? {
      LessTotal(SortKey(x.value), SortKey(y.value));
      var i :| 0 <= i < |a| && a[i] == x.value;
      var j :| 0 <= j < |a| && a[j] == y.value;
      SameKey(x.value, y.value);
      assert i == j;
    }
  }

  lemma SameKey(x: Host, y: Host)
    requires ValidName(x.name) && ValidName(y.name) && SortKey(x) == SortKey(y)
    ensures SameName(x.name, y.name) && SameName(y.name, x.name)
  {
    ShowLowerInjective(x.name, y.name);
  }

  // --------------------------------------------------------------- answers

  function Synthesise(cfg: Config, name: Name, rtype: u16): (r: Option<Answer>) {
    if EndsWith(name, LOCALHOST) then
      Some(FoundAt(name, AddressRecords(name, rtype, LOOPBACK), Synthetic))
    else if FindHost(cfg.hosts, name).Some? then
      Some(FoundAt(name, AddressRecords(name, rtype, FindHost(cfg.hosts, name).value.addresses), Hosts))
    else if cfg.hostname.Some? && SameName(cfg.hostname.value, name) then
      var own := OwnAddresses(cfg);
      Some(FoundAt(name, AddressRecords(name, rtype, if own == [] then LOOPBACK else own), Synthetic))
    else if EndsWith(name, LOCAL) then
      Some(DEFAULT_ANSWER.(outcome := NotFound, source := Synthetic))
    else match ReverseAddress(name)
      case None => None
      case Some(addr) =>
        if rtype != PTR && rtype != ANY then None
        else if IsLoopback(addr) then
          Some(FoundAt(name, [NewRecord(name, 0, RPtr(LOCALHOST))], Synthetic))
        else if PtrHost(cfg.hosts, addr).Some? then
          Some(FoundAt(name, [NewRecord(name, 0, RPtr(PtrHost(cfg.hosts, addr).value.name))], Hosts))
        else if cfg.hostname.Some? && addr in OwnAddresses(cfg) then
          Some(FoundAt(name, [NewRecord(name, 0, RPtr(cfg.hostname.value))], Synthetic))
        else None
  }

  lemma {:induction false} FindHostSpec(hosts: seq<Host>, name: Name)
    ensures var r := FindHost(hosts, name);
            && (r.Some? ==> r.value in hosts && SameName(r.value.name, name))
            && (r.None? ==> forall h :: h in hosts ==> !SameName(h.name, name))
  {
    hide SameName;
    if hosts != [] { FindHostSpec(hosts[1..], name); }
  }

  lemma FindOrderIndependent(a: seq<Host>, b: seq<Host>, name: Name)
    requires multiset(a) == multiset(b) && DistinctHosts(a)
    ensures FindHost(a, name) == FindHost(b, name)
  {
    FindHostSpec(a, name);
    FindHostSpec(b, name);
    var x, y := FindHost(a, name), FindHost(b, name);
    assert forall h :: h in a <==> h in multiset(a);
    assert forall h :: h in b <==> h in multiset(b);
    if x.Some? && y.Some? {
      var i :| 0 <= i < |a| && a[i] == x.value;
      var j :| 0 <= j < |a| && a[j] == y.value;
      assert i == j;
    }
  }

  /** No local answer depends on the order the table of static names is walked in. */
  lemma SynthesiseOrderIndependent(cfg: Config, hosts: seq<Host>, name: Name, rtype: u16)
    requires multiset(cfg.hosts) == multiset(hosts) && DistinctHosts(cfg.hosts)
    ensures Synthesise(cfg, name, rtype) == Synthesise(cfg.(hosts := hosts), name, rtype)
  {
    hide EndsWith, SameName, PtrHost, FindHost, ReverseAddress;
    FindOrderIndependent(cfg.hosts, hosts, name);
    var addr := ReverseAddress(name);
    if addr.Some? { PtrOrderIndependent(cfg.hosts, hosts, addr.value); }
  }

  // --------------------------------------------- what local answers say

  /** A question of the type asks for addresses of this family. */
  predicate Wants(a: IpAddr, rtype: u16) {
    rtype == ANY || rtype == if a.V4? then A else AAAA
  }

  function RecordOf(name: Name, a: IpAddr): Record {
    match a
    case V4(x) => Record(name, A, IN, 0, RA(x))
    case V6(x) => Record(name, AAAA, IN, 0, RAaaa(x))
  }

  /** The positions before `n` of addresses the question wants. */
  function WantedBelow(addrs: seq<IpAddr>, rtype: u16, n: nat): set<nat>
    requires n <= |addrs|
  {
    set j: nat | j < n && Wants(addrs[j], rtype)
  }

  /** One record, at the name and with no lifetime, for each address wanted, in the order of the addresses. */
  predicate Lists(records: seq<Record>, name: Name, rtype: u16, addrs: seq<IpAddr>) {
    && |records| == |WantedBelow(addrs, rtype, |addrs|)|
    && forall i :: 0 <= i < |addrs| && Wants(addrs[i], rtype) ==>
         && |WantedBelow(addrs, rtype, i)| < |records|
         && records[|WantedBelow(addrs, rtype, i)|] == RecordOf(name, addrs[i])
  }

  function Wanted(addrs: seq<IpAddr>, rtype: u16): seq<bool> {
    seq(|addrs|, i requires 0 <= i < |addrs| => Wants(addrs[i], rtype))
  }

  function RecordsOf(name: Name, addrs: seq<IpAddr>): seq<Record> {
    seq(|addrs|, i requires 0 <= i < |addrs| => RecordOf(name, addrs[i]))
  }

  lemma {:induction false} AddressesSifted(name: Name, rtype: u16, addrs: seq<IpAddr>)
    ensures Sifted(AddressRecords(name, rtype, addrs), Wanted(addrs, rtype), RecordsOf(name, addrs))
  {
    if addrs == [] {
      SiftedNone<Record>();
    } else {
      AddressesSifted(name, rtype, addrs[1..]);
      var keep, all := Wanted(addrs, rtype), RecordsOf(name, addrs);
      assert keep[1..] == Wanted(addrs[1..], rtype) && all[1..] == RecordsOf(name, addrs[1..]);
      SiftedCons(AddressRecords(name, rtype, addrs[1..]), keep, all);
    }
  }

  lemma AddressesListed(name: Name, rtype: u16, addrs: seq<IpAddr>)
    ensures Lists(AddressRecords(name, rtype, addrs), name, rtype, addrs)
  {
    AddressesSifted(name, rtype, addrs);
    var keep := Wanted(addrs, rtype);
    forall n | 0 <= n <= |addrs| ensures Below(keep, n) == WantedBelow(addrs, rtype, n) {}
    hide AddressRecords, Below, WantedBelow;
  }

  // The machine's own addresses.

  /** The place holds an address the machine answers for: of a scope with addresses, and not loopback. */
  predicate IsOwn(scopes: seq<Scope>, p: (nat, nat)) {
    && p.0 < |scopes| && (scopes[p.0].level.Addressed? || scopes[p.0].level.Routed?)
    && p.1 < |scopes[p.0].addresses| && !IsLoopback(scopes[p.0].addresses[p.1].0)
  }

  predicate Before(p: (nat, nat), q: (nat, nat)) {
    p.0 < q.0 || (p.0 == q.0 && p.1 < q.1)
  }

  /** Those places, all of them, scope by scope and each in its order. */
  ghost predicate OwnPlaces(places: seq<(nat, nat)>, scopes: seq<Scope>) {
    && (forall i :: 0 <= i < |places| ==> IsOwn(scopes, places[i]))
    && (forall i, j :: 0 <= i < j < |places| ==> Before(places[i], places[j]))
    && (forall p :: IsOwn(scopes, p) ==> p in places)
  }

  function AddressesAt(scopes: seq<Scope>, places: seq<(nat, nat)>): seq<IpAddr>
    requires forall i :: 0 <= i < |places| ==> IsOwn(scopes, places[i])
  {
    seq(|places|, i requires 0 <= i < |places| && IsOwn(scopes, places[i]) =>
          scopes[places[i].0].addresses[places[i].1].0)
  }

  /** Marks the last of each run of equal addresses. */
  function RunEnds(s: seq<IpAddr>): seq<bool> {
    seq(|s|, i requires 0 <= i < |s| => i + 1 == |s| || s[i] != s[i + 1])
  }

  /** The machine's own addresses: those places' addresses, each run of equal ones once. */
  ghost predicate OwnList(own: seq<IpAddr>, scopes: seq<Scope>, places: seq<(nat, nat)>) {
    && OwnPlaces(places, scopes)
    && Sifted(own, RunEnds(AddressesAt(scopes, places)), AddressesAt(scopes, places))
  }

  lemma {:induction false} DedupSifted(s: seq<IpAddr>)
    ensures Sifted(Dedup(s), RunEnds(s), s)
  {
    if s == [] {
      SiftedNone<IpAddr>();
    } else {
      DedupSifted(s[1..]);
      assert RunEnds(s)[1..] == RunEnds(s[1..]);
      SiftedCons(Dedup(s[1..]), RunEnds(s), s);
      if |s| == 1 {
        assert s[1..] == [] && [s[0]] + [] == s;
      } else if s[0] == s[1] {
        assert [] + Dedup(s[1..]) == Dedup(s[1..]);
      }
    }
  }

  /** `js` are the places of a scope's own addresses, `out` the addresses there. */
  predicate Chosen(js: seq<nat>, out: seq<IpAddr>, addrs: seq<(IpAddr, byte)>) {
    && |js| == |out|
    && (forall i :: 0 <= i < |js| ==> js[i] < |addrs| && !IsLoopback(addrs[js[i]].0) && out[i] == addrs[js[i]].0)
    && (forall i, k :: 0 <= i < k < |js| ==> js[i] < js[k])
    && (forall j: nat :: j < |addrs| && !IsLoopback(addrs[j].0) ==> j in js)
  }

  function Shifted(js: seq<nat>): (up: seq<nat>)
    ensures |up| == |js| && forall i :: 0 <= i < |js| ==> up[i] == js[i] + 1
  {
    seq(|js|, i requires 0 <= i < |js| => js[i] + 1)
  }

  lemma ShiftedHas(js: seq<nat>, j: nat)
    requires j > 0 && j - 1 in js
    ensures j in Shifted(js)
  {
    var i :| 0 <= i < |js| && js[i] == j - 1;
    assert Shifted(js)[i] == j;
  }

  lemma ChosenSkip(js: seq<nat>, out: seq<IpAddr>, addrs: seq<(IpAddr, byte)>)
    requires addrs != [] && Chosen(js, out, addrs[1..]) && IsLoopback(addrs[0].0)
    ensures Chosen(Shifted(js), out, addrs)
  {
    hide IsLoopback;
    forall j: nat | j < |addrs| && !IsLoopback(addrs[j].0) ensures j in Shifted(js) {
      assert addrs[1..][j - 1] == addrs[j];
      ShiftedHas(js, j);
    }
  }

  lemma ChosenTake(js: seq<nat>, out: seq<IpAddr>, addrs: seq<(IpAddr, byte)>)
    requires addrs != [] && Chosen(js, out, addrs[1..]) && !IsLoopback(addrs[0].0)
    ensures Chosen([0] + Shifted(js), [addrs[0].0] + out, addrs)
  {
    TakeValues(js, out, addrs);
    TakeOrder(js);
    TakeAll(js, addrs);
    hide IsLoopback, Shifted;
  }

  lemma TakeValues(js: seq<nat>, out: seq<IpAddr>, addrs: seq<(IpAddr, byte)>)
    requires addrs != [] && !IsLoopback(addrs[0].0) && |js| == |out|
    requires forall i :: 0 <= i < |js| ==> js[i] < |addrs[1..]| && !IsLoopback(addrs[1..][js[i]].0)
                                           && out[i] == addrs[1..][js[i]].0
    ensures var js', out' := [0] + Shifted(js), [addrs[0].0] + out;
            forall i :: 0 <= i < |js'| ==>
              js'[i] < |addrs| && !IsLoopback(addrs[js'[i]].0) && out'[i] == addrs[js'[i]].0
  {
    hide IsLoopback, Shifted;
    var js' := [0] + Shifted(js);
    forall i | 1 <= i < |js'| ensures js'[i] == js[i - 1] + 1 && addrs[1..][js[i - 1]] == addrs[js'[i]] {}
  }

  lemma TakeOrder(js: seq<nat>)
    requires forall i, k :: 0 <= i < k < |js| ==> js[i] < js[k]
    ensures var js' := [0] + Shifted(js); forall i, k :: 0 <= i < k < |js'| ==> js'[i] < js'[k]
  {
    hide Shifted;
    var js' := [0] + Shifted(js);
    forall i, k | 0 <= i < k < |js'| ensures js'[i] < js'[k] {
      assert js'[k] == js[k - 1] + 1;
      if i > 0 { assert js'[i] == js[i - 1] + 1; }
    }
  }

  lemma TakeAll(js: seq<nat>, addrs: seq<(IpAddr, byte)>)
    requires addrs != [] && forall j: nat :: j < |addrs[1..]| && !IsLoopback(addrs[1..][j].0) ==> j in js
    ensures forall j: nat :: j < |addrs| && !IsLoopback(addrs[j].0) ==> j in [0] + Shifted(js)
  {
    hide IsLoopback, Shifted;
    forall j: nat | j < |addrs| && !IsLoopback(addrs[j].0) ensures j in [0] + Shifted(js) {
      if j > 0 {
        assert addrs[1..][j - 1] == addrs[j];
        ShiftedHas(js, j);
      }
    }
  }

  lemma ChosenNone()
    ensures Chosen([], [], [])
  {
  }

  lemma {:induction false} ScopePlaces(addrs: seq<(IpAddr, byte)>) returns (js: seq<nat>)
    ensures Chosen(js, ScopeAddresses(addrs), addrs)
  {
    hide IsLoopback, Chosen;
    if addrs == [] {
      ChosenNone();
      js := [];
    } else {
      var rest := ScopePlaces(addrs[1..]);
      var out := ScopeAddresses(addrs[1..]);
      if IsLoopback(addrs[0].0) {
        ChosenSkip(rest, out, addrs);
        js := Shifted(rest);
        assert ScopeAddresses(addrs) == [] + out == out;
      } else {
        ChosenTake(rest, out, addrs);
        js := [0] + Shifted(rest);
        assert ScopeAddresses(addrs) == [addrs[0].0] + out;
      }
    }
  }

  lemma {:induction false} PlacesOf(scopes: seq<Scope>) returns (places: seq<(nat, nat)>)
    ensures OwnPlaces(places, scopes) && AddressesAt(scopes, places) == ScopesAddresses(scopes)
  {
    hide IsLoopback, Joined, ScopeAddresses, Chosen;
    if scopes == [] {
      places := [];
    } else {
      var rest := PlacesOf(scopes[1..]);
      hide OwnPlaces, AddressesAt;
      if scopes[0].level.Addressed? || scopes[0].level.Routed? {
        var js := ScopePlaces(scopes[0].addresses);
        FirstPlaces(scopes, js);
        places := Joined(js, rest);
        PlacesJoined(scopes, js, rest);
        AddressesJoined(scopes, js, rest, ScopeAddresses(scopes[0].addresses));
      } else {
        NoFirstPlaces(scopes);
        places := Joined([], rest);
        PlacesJoined(scopes, [], rest);
        AddressesJoined(scopes, [], rest, []);
      }
    }
  }

  lemma FirstPlaces(scopes: seq<Scope>, js: seq<nat>)
    requires scopes != [] && (scopes[0].level.Addressed? || scopes[0].level.Routed?)
    requires Chosen(js, ScopeAddresses(scopes[0].addresses), scopes[0].addresses)
    ensures forall i, k :: 0 <= i < k < |js| ==> js[i] < js[k]
    ensures forall j: nat :: j in js <==> IsOwn(scopes, (0, j))
    ensures |js| == |ScopeAddresses(scopes[0].addresses)|
    ensures forall i :: 0 <= i < |js| ==> js[i] < |scopes[0].addresses|
                                          && ScopeAddresses(scopes[0].addresses)[i] == scopes[0].addresses[js[i]].0
  {
    hide IsLoopback, ScopeAddresses;
  }

  lemma NoFirstPlaces(scopes: seq<Scope>)
    requires scopes != [] && !scopes[0].level.Addressed? && !scopes[0].level.Routed?
    ensures forall j: nat :: !IsOwn(scopes, (0, j))
  {
  }

  lemma AddressesJoined(scopes: seq<Scope>, js: seq<nat>, rest: seq<(nat, nat)>, first: seq<IpAddr>)
    requires scopes != [] && |js| == |first|
    requires forall i :: 0 <= i < |js| ==> js[i] < |scopes[0].addresses| && first[i] == scopes[0].addresses[js[i]].0
    requires forall i :: 0 <= i < |rest| ==> IsOwn(scopes[1..], rest[i])
    requires forall i :: 0 <= i < |Joined(js, rest)| ==> IsOwn(scopes, Joined(js, rest)[i])
    ensures AddressesAt(scopes, Joined(js, rest)) == first + AddressesAt(scopes[1..], rest)
  {
    var out, later := AddressesAt(scopes, Joined(js, rest)), AddressesAt(scopes[1..], rest);
    assert |out| == |first + later|;
    forall i | 0 <= i < |out| ensures out[i] == (first + later)[i] {
      if i < |js| {
        assert Joined(js, rest)[i] == (0, js[i]);
      } else {
        var p := rest[i - |js|];
        assert Joined(js, rest)[i] == (p.0 + 1, p.1);
        assert IsOwn(scopes[1..], p) && scopes[1..][p.0] == scopes[p.0 + 1];
      }
    }
  }

  /** Places of the first scope, and then of the others. */
  function Joined(js: seq<nat>, rest: seq<(nat, nat)>): (places: seq<(nat, nat)>)
    ensures |places| == |js| + |rest|
    ensures forall i :: 0 <= i < |js| ==> places[i] == (0, js[i])
    ensures forall i :: 0 <= i < |rest| ==> places[|js| + i] == (rest[i].0 + 1, rest[i].1)
  {
    seq(|js|, i requires 0 <= i < |js| => (0, js[i]))
    + seq(|rest|, i requires 0 <= i < |rest| => (rest[i].0 + 1, rest[i].1))
  }

  lemma PlacesJoined(scopes: seq<Scope>, js: seq<nat>, rest: seq<(nat, nat)>)
    requires scopes != [] && OwnPlaces(rest, scopes[1..])
    requires forall i, k :: 0 <= i < k < |js| ==> js[i] < js[k]
    requires forall j: nat :: j in js <==> IsOwn(scopes, (0, j))
    ensures OwnPlaces(Joined(js, rest), scopes)
  {
    hide Joined, IsOwn;
    var places := Joined(js, rest);
    forall i | 0 <= i < |places| ensures IsOwn(scopes, places[i]) {
      if i < |js| {
        assert js[i] in js;
      } else {
        assert places[|js| + (i - |js|)] == (rest[i - |js|].0 + 1, rest[i - |js|].1);
        OwnLater(scopes, rest[i - |js|]);
      }
    }
    JoinedOrder(js, rest);
    forall p | IsOwn(scopes, p) ensures p in places { JoinedHas(scopes, js, rest, p); }
    hide Before;
  }

  lemma OwnLater(scopes: seq<Scope>, p: (nat, nat))
    requires scopes != []
    ensures IsOwn(scopes[1..], p) <==> IsOwn(scopes, (p.0 + 1, p.1))
  {
  }

  lemma JoinedOrder(js: seq<nat>, rest: seq<(nat, nat)>)
    requires forall i, k :: 0 <= i < k < |js| ==> js[i] < js[k]
    requires forall i, j :: 0 <= i < j < |rest| ==> Before(rest[i], rest[j])
    ensures var places := Joined(js, rest); forall i, j :: 0 <= i < j < |places| ==> Before(places[i], places[j])
  {
    hide Joined;
    var places := Joined(js, rest);
    forall i, j | 0 <= i < j < |places| ensures Before(places[i], places[j]) {
      if j >= |js| { assert places[|js| + (j - |js|)] == (rest[j - |js|].0 + 1, rest[j - |js|].1); }
      if i >= |js| {
        assert places[|js| + (i - |js|)] == (rest[i - |js|].0 + 1, rest[i - |js|].1);
        assert Before(rest[i - |js|], rest[j - |js|]);
      }
    }
  }

  lemma JoinedHas(scopes: seq<Scope>, js: seq<nat>, rest: seq<(nat, nat)>, p: (nat, nat))
    requires scopes != [] && IsOwn(scopes, p)
    requires forall q :: IsOwn(scopes[1..], q) ==> q in rest
    requires forall j: nat :: IsOwn(scopes, (0, j)) ==> j in js
    ensures p in Joined(js, rest)
  {
    hide Joined, IsOwn;
    if p.0 == 0 {
      assert p == (0, p.1);
      var i :| 0 <= i < |js| && js[i] == p.1;
      assert Joined(js, rest)[i] == p;
    } else {
      var q := (p.0 - 1, p.1);
      OwnLater(scopes, q);
      assert p == (q.0 + 1, q.1);
      var i :| 0 <= i < |rest| && rest[i] == q;
      assert Joined(js, rest)[|js| + i] == p;
    }
  }

  /** The answer is the machine's own: found, at the name asked, from no server. */
  predicate IsLocal(r: Option<Answer>, name: Name, source: Source) {
    && r.Some?
    && r.value == Answer(Found, r.value.records, source, None, None, 0, Some(name), 0)
  }

  /** The answer is the one pointer. */
  predicate PointsTo(r: Option<Answer>, name: Name, target: Name, source: Source) {
    IsLocal(r, name, source) && r.value.records == [Record(name, PTR, IN, 0, RPtr(target))]
  }

  /** `i` is the host the table lists under the name. */
  predicate ListedAt(hosts: seq<Host>, name: Name, i: nat) {
    i < |hosts| && SameName(hosts[i].name, name) && forall j :: 0 <= j < i ==> !SameName(hosts[j].name, name)
  }

  predicate Listed(hosts: seq<Host>, name: Name) {
    exists h :: h in hosts && SameName(h.name, name)
  }

  predicate Held(hosts: seq<Host>, addr: IpAddr) {
    exists h :: h in hosts && addr in h.addresses
  }

  /** The host of least printed name, case aside, among those with the address. */
  predicate LeastNamed(hosts: seq<Host>, addr: IpAddr, h: Host) {
    && h in hosts && addr in h.addresses
    && forall x :: x in hosts && addr in x.addresses ==> !Less(Show(Lower(x.name)), Show(Lower(h.name)))
  }

  predicate OwnName(cfg: Config, name: Name) {
    cfg.hostname.Some? && SameName(cfg.hostname.value, name)
  }

  /** Neither loopback, nor listed, nor the machine's own name, nor `.local`. */
  predicate NotLocal(cfg: Config, name: Name) {
    !EndsWith(name, LOCALHOST) && !Listed(cfg.hosts, name) && !OwnName(cfg, name) && !EndsWith(name, LOCAL)
  }

  lemma {:induction false} FindAt(hosts: seq<Host>, name: Name, i: nat)
    requires ListedAt(hosts, name, i)
    ensures FindHost(hosts, name) == Some(hosts[i])
  {
    hide SameName;
    if i > 0 {
      forall j | 0 <= j < i - 1 ensures !SameName(hosts[1..][j].name, name) { assert hosts[1..][j] == hosts[j + 1]; }
      FindAt(hosts[1..], name, i - 1);
    }
  }

  /** A name under localhost has the loopback addresses. */
  lemma LoopbackAnswered(cfg: Config, name: Name, rtype: u16)
    requires EndsWith(name, LOCALHOST)
    ensures var r := Synthesise(cfg, name, rtype);
            IsLocal(r, name, Synthetic) && Lists(r.value.records, name, rtype, [V4(0x7f00_0001), V6(1)])
  {
    hide AddressRecords, Lists, FindHost, PtrHost, SameName, EndsWith, ReverseAddress, OwnAddresses;
    AddressesListed(name, rtype, LOOPBACK);
  }

  /** Any other name the table lists has the addresses listed. */
  lemma HostAnswered(cfg: Config, name: Name, rtype: u16, i: nat)
    requires !EndsWith(name, LOCALHOST) && ListedAt(cfg.hosts, name, i)
    ensures var r := Synthesise(cfg, name, rtype);
            IsLocal(r, name, Hosts) && Lists(r.value.records, name, rtype, cfg.hosts[i].addresses)
  {
    FindAt(cfg.hosts, name, i);
    hide AddressRecords, Lists, FindHost, PtrHost, SameName, EndsWith, ReverseAddress, OwnAddresses, ListedAt;
    AddressesListed(name, rtype, cfg.hosts[i].addresses);
  }

  /** The machine's own name, when the table does not list it, has its own addresses, or loopback when it has none. */
  lemma OwnNameAnswered(cfg: Config, name: Name, rtype: u16) returns (places: seq<(nat, nat)>, own: seq<IpAddr>)
    requires !EndsWith(name, LOCALHOST) && !Listed(cfg.hosts, name) && OwnName(cfg, name)
    ensures OwnList(own, cfg.scopes, places)
    ensures var r := Synthesise(cfg, name, rtype);
            && IsLocal(r, name, Synthetic)
            && Lists(r.value.records, name, rtype, if own == [] then [V4(0x7f00_0001), V6(1)] else own)
  {
    places, own := OwnIs(cfg);
    FindHostSpec(cfg.hosts, name);
    hide OwnList, AddressRecords, Lists, FindHost, PtrHost, SameName, EndsWith, ReverseAddress, OwnAddresses;
    AddressesListed(name, rtype, LOOPBACK);
    AddressesListed(name, rtype, own);
  }

  lemma OwnIs(cfg: Config) returns (places: seq<(nat, nat)>, own: seq<IpAddr>)
    ensures OwnList(own, cfg.scopes, places) && own == OwnAddresses(cfg)
  {
    places := PlacesOf(cfg.scopes);
    own := OwnAddresses(cfg);
    DedupSifted(ScopesAddresses(cfg.scopes));
    hide Sifted, Dedup, ScopesAddresses, RunEnds;
  }

  /**
   * The rest: `.local` is never found; the pointer of a loopback address is localhost, of a listed
   * address its least-named host, of an own address the hostname; anything else is for the network.
   */
  lemma OthersAnswered(cfg: Config, name: Name, rtype: u16) returns (places: seq<(nat, nat)>, own: seq<IpAddr>)
    ensures OwnList(own, cfg.scopes, places)
    ensures var r, addr := Synthesise(cfg, name, rtype), ReverseAddress(name);
            var asks := addr.Some? && (rtype == PTR || rtype == ANY);
            && (!EndsWith(name, LOCALHOST) && !Listed(cfg.hosts, name) && !OwnName(cfg, name)
                && EndsWith(name, LOCAL) ==>
                  r == Some(Answer(NotFound, [], Synthetic, None, None, 0, None, 0)))
            && (NotLocal(cfg, name) ==>
                  && (!asks ==> r.None?)
                  && (asks && IsLoopback(addr.value) ==> PointsTo(r, name, LOCALHOST, Synthetic))
                  && (asks && !IsLoopback(addr.value) && Held(cfg.hosts, addr.value) ==>
                        exists h :: LeastNamed(cfg.hosts, addr.value, h) && PointsTo(r, name, h.name, Hosts))
                  && (asks && !IsLoopback(addr.value) && !Held(cfg.hosts, addr.value) ==>
                        if cfg.hostname.Some? && addr.value in own then PointsTo(r, name, cfg.hostname.value, Synthetic)
                        else r.None?))
  {
    places, own := OwnIs(cfg);
    FindHostSpec(cfg.hosts, name);
    var addr := ReverseAddress(name);
    hide OwnList, OwnAddresses, AddressRecords, FindHost, PtrHost, SameName, EndsWith, ReverseAddress, Less, IsLoopback;
    if addr.Some? {
      PtrHostIsLeast(cfg.hosts, addr.value);
      var h := PtrHost(cfg.hosts, addr.value);
      assert h.Some? ==> LeastNamed(cfg.hosts, addr.value, h.value);
    }
  }
}
