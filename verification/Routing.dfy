/** Scopes, and the one scope a name goes to. */
module Routing {
  import opened Bytes
  import opened Results
  import opened Names
  import opened Dns
  import opened ReverseNames

  datatype Level = Absent | Link | Addressed | Routed

  datatype Scope = Scope(
    id: string, interface_: string, servers: seq<IpAddr>, domains: seq<Name>,
    addresses: seq<(IpAddr, byte)>, defaultRoute: bool, exclusive: bool, metric: u32, level: Level)

  /** A static name and the addresses given for it. */
  datatype Host = Host(name: Name, addresses: seq<IpAddr>)

  /** Everything the engine is told about the machine; hosts in the order their table is walked. */
  datatype Config = Config(
    scopes: seq<Scope>, fallbackServers: seq<IpAddr>, fallbackDomains: seq<Name>,
    hostname: Option<Name>, hosts: seq<Host>)

  const FALLBACK_SCOPE: string := "fallback"

  // ---------------------------------------------------------------- subnets

  function Pow2(n: nat): (p: nat)
    ensures p > 0
  {
    if n == 0 then 1 else 2 * Pow2(n - 1)
  }

  /** `a` with its low `bits` bits cleared. */
  function Masked(a: nat, bits: nat): int {
    a - a % Pow2(bits)
  }

  predicate SameSubnet(a: IpAddr, prefix: byte, b: IpAddr) {
    match (a, b)
    case (V4(x), V4(y)) =>
      var bits := if prefix < 32 then 32 - prefix else 0;
      Masked(x, bits) == Masked(y, bits)
    case (V6(x), V6(y)) =>
      var bits := if prefix < 128 then 128 - prefix else 0;
      Masked(x, bits) == Masked(y, bits)
    case _ => false
  }

  predicate Contains(s: Scope, addr: IpAddr) {
    exists i :: 0 <= i < |s.addresses| && SameSubnet(s.addresses[i].0, s.addresses[i].1, addr)
  }

  // ---------------------------------------------------------------- choices

  predicate Up(s: Scope) {
    !s.level.Absent?
  }

  predicate Exclusive(s: Scope) {
    Up(s) && s.exclusive && (s.level.Addressed? || s.level.Routed?)
  }

  /** `i` comes first among the scopes that qualify: lowest metric, then snapshot order. */
  ghost predicate IsLowest(scopes: seq<Scope>, p: Scope -> bool, i: nat) {
    && i < |scopes| && p(scopes[i])
    && (forall j :: 0 <= j < |scopes| && p(scopes[j]) ==>
          scopes[i].metric < scopes[j].metric || (scopes[i].metric == scopes[j].metric && i <= j))
  }

  function Lowest(scopes: seq<Scope>, p: Scope -> bool): (r: Option<nat>)
    ensures r.Some? ==> IsLowest(scopes, p, r.value)
    ensures r.None? ==> forall j :: 0 <= j < |scopes| ==> !p(scopes[j])
  {
    if scopes == [] then None
    else
      var n := |scopes| - 1;
      var r := Lowest(scopes[..n], p);
      assert r.Some? ==> IsLowest(scopes[..n], p, r.value);
      if p(scopes[n]) && (r.None? || scopes[n].metric < scopes[r.value].metric) then Some(n) else r
  }

  /** Labels of the longest of `domains` that `name` ends with, plus one; 0 when none matches. */
  function MatchLen(domains: seq<Name>, name: Name): (len: nat)
    ensures forall i :: 0 <= i < |domains| && EndsWith(name, domains[i]) ==> |domains[i]| < len
    ensures len > 0 ==> exists i :: 0 <= i < |domains| && EndsWith(name, domains[i]) && |domains[i]| + 1 == len
  {
    if domains == [] then 0
    else
      var n := |domains| - 1;
      var len := MatchLen(domains[..n], name);
      assert len > 0 ==> exists i :: 0 <= i < n && EndsWith(name, domains[..n][i]) && |domains[..n][i]| + 1 == len;
      if EndsWith(name, domains[n]) && |domains[n]| >= len then |domains[n]| + 1 else len
  }

  /** `i` wins by search domain: longest match, then lowest metric, then snapshot order. */
  ghost predicate IsLongest(scopes: seq<Scope>, name: Name, i: nat) {
    && i < |scopes| && Up(scopes[i]) && MatchLen(scopes[i].domains, name) > 0
    && (forall j :: 0 <= j < |scopes| && Up(scopes[j]) ==>
          || MatchLen(scopes[j].domains, name) < MatchLen(scopes[i].domains, name)
          || (&& MatchLen(scopes[j].domains, name) == MatchLen(scopes[i].domains, name)
              && (scopes[i].metric < scopes[j].metric || (scopes[i].metric == scopes[j].metric && i <= j))))
  }

  /** Whether a scope matching `len` displaces the best so far. */
  predicate Displaces(len: nat, metric: u32, best: nat, bestMetric: u32) {
    len > best || (len == best && metric < bestMetric)
  }

  function Longest(scopes: seq<Scope>, name: Name): (r: Option<nat>)
    ensures r.Some? ==> r.value < |scopes|
  {
    if scopes == [] then None
    else
      var n := |scopes| - 1;
      var r := Longest(scopes[..n], name);
      var len := MatchLen(scopes[n].domains, name);
      if Up(scopes[n]) && len > 0
         && (r.None? || Displaces(len, scopes[n].metric, MatchLen(scopes[r.value].domains, name),
                                   scopes[r.value].metric))
      then Some(n) else r
  }

  lemma {:induction false} LongestWins(scopes: seq<Scope>, name: Name)
    ensures var r := Longest(scopes, name);
            && (r.Some? ==> IsLongest(scopes, name, r.value))
            && (r.None? ==> forall j :: 0 <= j < |scopes| && Up(scopes[j]) ==> MatchLen(scopes[j].domains, name) == 0)
  {
    hide MatchLen;
    if scopes != [] {
      var n := |scopes| - 1;
      LongestWins(scopes[..n], name);
      LongestMore(scopes, name, Longest(scopes[..n], name));
    }
  }

  /** One more scope: it wins, or the winner so far still does. */
  lemma LongestMore(scopes: seq<Scope>, name: Name, r: Option<nat>)
    requires scopes != [] && (r.Some? ==> IsLongest(scopes[..|scopes| - 1], name, r.value))
    requires r.None? ==>
               forall j :: 0 <= j < |scopes| - 1 && Up(scopes[j]) ==> MatchLen(scopes[j].domains, name) == 0
    ensures var n := |scopes| - 1;
            var len := MatchLen(scopes[n].domains, name);
            if Up(scopes[n]) && len > 0
               && (r.None? || Displaces(len, scopes[n].metric, MatchLen(scopes[r.value].domains, name),
                                        scopes[r.value].metric))
            then IsLongest(scopes, name, n)
            else if r.Some? then IsLongest(scopes, name, r.value)
            else forall j :: 0 <= j < |scopes| && Up(scopes[j]) ==> MatchLen(scopes[j].domains, name) == 0
  {
    hide MatchLen, Up;
    var n := |scopes| - 1;
    assert forall j :: 0 <= j < n ==> scopes[..n][j] == scopes[j];
  }

  /** The scope a name goes to, if any: the six steps in order. */
  function Route(cfg: Config, name: Name): Option<string> {
    var scopes := cfg.scopes;
    var exclusive := Lowest(scopes, Exclusive);
    if exclusive.Some? then Some(scopes[exclusive.value].id)
    else
      var longest := Longest(scopes, name);
      if longest.Some? then Some(scopes[longest.value].id)
      else
        var addr := ReverseAddress(name);
        var subnet := Lowest(scopes, s => InSubnet(s, addr));
        if subnet.Some? then Some(scopes[subnet.value].id)
        else
          var claimant := Lowest(scopes, Claims);
          if claimant.Some? then Some(scopes[claimant.value].id)
          else
            var any := Lowest(scopes, Serves);
            if any.Some? then Some(scopes[any.value].id)
            else if cfg.fallbackServers != [] then Some(FALLBACK_SCOPE)
            else None
  }

  lemma {:induction false} MatchIgnoresCase(domains: seq<Name>, a: Name, b: Name)
    requires SameName(a, b)
    ensures MatchLen(domains, a) == MatchLen(domains, b)
  {
    hide SameName, EndsWith;
    if domains != [] {
      MatchIgnoresCase(domains[..|domains| - 1], a, b);
      EndsWithIgnoresCase(a, b, domains[|domains| - 1]);
    }
  }

  lemma {:induction false} LongestIgnoresCase(scopes: seq<Scope>, a: Name, b: Name)
    requires SameName(a, b)
    ensures Longest(scopes, a) == Longest(scopes, b)
  {
    hide SameName, MatchLen;
    if scopes != [] {
      LongestIgnoresCase(scopes[..|scopes| - 1], a, b);
      MatchIgnoresCase(scopes[|scopes| - 1].domains, a, b);
      var r := Longest(scopes[..|scopes| - 1], a);
      if r.Some? { MatchIgnoresCase(scopes[r.value].domains, a, b); }
    }
  }

  /** Randomising the case of a query's name does not change where it is routed. */
  lemma RouteIgnoresCase(cfg: Config, a: Name, b: Name)
    requires SameName(a, b)
    ensures Route(cfg, a) == Route(cfg, b)
  {
    hide SameName, Longest, Lowest, ReverseAddress;
    LongestIgnoresCase(cfg.scopes, a, b);
    ReverseIgnoresCase(a, b);
  }

  predicate InSubnet(s: Scope, addr: Option<IpAddr>) {
    Up(s) && addr.Some? && Contains(s, addr.value)
  }

  predicate Claims(s: Scope) {
    Up(s) && s.defaultRoute
  }

  predicate Serves(s: Scope) {
    Up(s) && s.servers != []
  }

  /** The choice is the one the priority order names, and each step runs only when the earlier ones have no taker. */
  ghost predicate Priority(cfg: Config, name: Name, r: Option<string>) {
    var scopes := cfg.scopes;
    var addr := ReverseAddress(name);
    if exists i :: 0 <= i < |scopes| && Exclusive(scopes[i]) then
      exists i: nat :: IsLowest(scopes, Exclusive, i) && r == Some(scopes[i].id)
    else if exists i, d :: 0 <= i < |scopes| && Up(scopes[i]) && 0 <= d < |scopes[i].domains|
                           && EndsWith(name, scopes[i].domains[d]) then
      exists i: nat :: IsLongest(scopes, name, i) && r == Some(scopes[i].id)
    else if exists i :: 0 <= i < |scopes| && InSubnet(scopes[i], addr) then
      exists i: nat :: IsLowest(scopes, s => InSubnet(s, addr), i) && r == Some(scopes[i].id)
    else if exists i :: 0 <= i < |scopes| && Claims(scopes[i]) then
      exists i: nat :: IsLowest(scopes, Claims, i) && r == Some(scopes[i].id)
    else if exists i :: 0 <= i < |scopes| && Serves(scopes[i]) then
      exists i: nat :: IsLowest(scopes, Serves, i) && r == Some(scopes[i].id)
    else r == if cfg.fallbackServers != [] then Some(FALLBACK_SCOPE) else None
  }

  lemma RouteHasPriority(cfg: Config, name: Name)
    ensures Priority(cfg, name, Route(cfg, name))
  {
    hide MatchLen, EndsWith, Contains, ReverseAddress;
    LongestWins(cfg.scopes, name);
  }

  /** Longest match so far over the first `k` domains of scope `n`, after the scopes before it. */
  function Scanned(scopes: seq<Scope>, name: Name, n: nat, k: nat): Option<nat>
    requires n < |scopes| && k <= |scopes[n].domains|
  {
    var r := Longest(scopes[..n], name);
    var len := MatchLen(scopes[n].domains[..k], name);
    if len > 0
       && (r.None? || Displaces(len, scopes[n].metric, MatchLen(scopes[r.value].domains, name), scopes[r.value].metric))
    then Some(n) else r
  }

  /** The best key kept by the loop: label count plus one, and metric. */
  predicate BestKey(scopes: seq<Scope>, name: Name, n: nat, k: nat, best: Option<(nat, u32, nat)>)
    requires n < |scopes| && k <= |scopes[n].domains|
  {
    match Scanned(scopes, name, n, k)
    case None => best.None?
    case Some(i) =>
      && best.Some? && best.value.2 == i && i <= n && best.value.1 == scopes[i].metric
      && best.value.0 + 1 == MatchLen(if i == n then scopes[n].domains[..k] else scopes[i].domains, name)
  }

  lemma MatchStep(domains: seq<Name>, name: Name, k: nat)
    requires k < |domains|
    ensures var len, d := MatchLen(domains[..k], name), domains[k];
            MatchLen(domains[..k + 1], name) == if EndsWith(name, d) && |d| >= len then |d| + 1 else len
  {
    assert domains[..k + 1][..k] == domains[..k];
  }

  lemma ScanStep(scopes: seq<Scope>, name: Name, n: nat, k: nat, best: Option<(nat, u32, nat)>)
    requires n < |scopes| && k < |scopes[n].domains| && BestKey(scopes, name, n, k, best)
    ensures var d, m := scopes[n].domains[k], scopes[n].metric;
            BestKey(scopes, name, n, k + 1,
              if EndsWith(name, d) && (best.None? || |d| > best.value.0 || (|d| == best.value.0 && m < best.value.1))
              then Some((|d|, m, n)) else best)
  {
    hide EndsWith, MatchLen, Longest;
    MatchStep(scopes[n].domains, name, k);
  }

  /** The loop's key for the best of the scopes seen so far. */
  predicate BestOf(scopes: seq<Scope>, name: Name, r: Option<nat>, best: Option<(nat, u32, nat)>)
    requires r.Some? ==> r.value < |scopes|
  {
    match r
    case None => best.None?
    case Some(i) =>
      && best.Some? && best.value.2 == i && best.value.1 == scopes[i].metric
      && best.value.0 + 1 == MatchLen(scopes[i].domains, name)
  }

  lemma ScanStart(scopes: seq<Scope>, name: Name, n: nat, best: Option<(nat, u32, nat)>)
    requires n < |scopes| && BestOf(scopes, name, Longest(scopes[..n], name), best)
    ensures BestKey(scopes, name, n, 0, best)
  {
    assert scopes[n].domains[..0] == [];
  }

  lemma ScanScope(scopes: seq<Scope>, name: Name, n: nat, best: Option<(nat, u32, nat)>)
    requires n < |scopes| && Up(scopes[n]) && BestKey(scopes, name, n, |scopes[n].domains|, best)
    ensures BestOf(scopes, name, Longest(scopes[..n + 1], name), best)
  {
    hide MatchLen;
    assert scopes[n].domains[..|scopes[n].domains|] == scopes[n].domains;
    assert scopes[..n + 1][..n] == scopes[..n];
    var r := Longest(scopes[..n], name);
    assert r.Some? ==> scopes[..n + 1][r.value] == scopes[r.value];
  }

  lemma NoScopes(scopes: seq<Scope>, name: Name)
    requires scopes == []
    ensures Longest(scopes, name) == None
  {
  }

  lemma SkipScope(scopes: seq<Scope>, name: Name, n: nat)
    requires n < |scopes| && !Up(scopes[n])
    ensures Longest(scopes[..n + 1], name) == Longest(scopes[..n], name)
  {
    assert scopes[..n + 1][..n] == scopes[..n];
  }

  /** The domain step as it runs: every domain of every scope that is up. */
  method LongestDomain(scopes: seq<Scope>, name: Name) returns (r: Option<nat>)
    ensures r == Longest(scopes, name)
  {
    hide BestKey, Longest, EndsWith;
    var best: Option<(nat, u32, nat)> := None;
    NoScopes(scopes[..0], name);
    for n := 0 to |scopes|
      invariant BestOf(scopes, name, Longest(scopes[..n], name), best)
    {
      if Up(scopes[n]) {
        ScanStart(scopes, name, n, best);
        for k := 0 to |scopes[n].domains|
          invariant BestKey(scopes, name, n, k, best)
        {
          var d, m := scopes[n].domains[k], scopes[n].metric;
          ScanStep(scopes, name, n, k, best);
          if EndsWith(name, d) && (best.None? || |d| > best.value.0 || (|d| == best.value.0 && m < best.value.1)) {
            best := Some((|d|, m, n));
          }
        }
        ScanScope(scopes, name, n, best);
      } else {
        SkipScope(scopes, name, n);
      }
    }
    assert scopes[..|scopes|] == scopes;
    r := if best.Some? then Some(best.value.2) else None;
  }

  method LowestMetric(scopes: seq<Scope>, p: Scope -> bool) returns (r: Option<nat>)
    ensures r == Lowest(scopes, p)
  {
    r := None;
    for n := 0 to |scopes|
      invariant r == Lowest(scopes[..n], p)
    {
      assert scopes[..n + 1][..n] == scopes[..n];
      if p(scopes[n]) && (r.None? || scopes[n].metric < scopes[r.value].metric) { r := Some(n); }
    }
    assert scopes[..|scopes|] == scopes;
  }

  method RouteName(cfg: Config, name: Name) returns (r: Option<string>)
    ensures r == Route(cfg, name)
  {
    hide Lowest, Longest;
    var x := LowestMetric(cfg.scopes, Exclusive);
    if x.Some? { return Some(cfg.scopes[x.value].id); }
    x := LongestDomain(cfg.scopes, name);
    if x.Some? { return Some(cfg.scopes[x.value].id); }
    var addr := ReverseAddress(name);
    x := LowestMetric(cfg.scopes, s => InSubnet(s, addr));
    if x.Some? { return Some(cfg.scopes[x.value].id); }
    x := LowestMetric(cfg.scopes, Claims);
    if x.Some? { return Some(cfg.scopes[x.value].id); }
    x := LowestMetric(cfg.scopes, Serves);
    if x.Some? { return Some(cfg.scopes[x.value].id); }
    return if cfg.fallbackServers != [] then Some(FALLBACK_SCOPE) else None;
  }

  // ------------------------------------------------------------- candidates

  predicate Before(scopes: seq<Scope>, i: nat, j: nat)
    requires i < |scopes| && j < |scopes|
  {
    scopes[i].metric < scopes[j].metric || (scopes[i].metric == scopes[j].metric && i < j)
  }

  ghost predicate IsOrder(scopes: seq<Scope>, n: nat, order: seq<nat>)
    requires n <= |scopes|
  {
    && (forall a :: 0 <= a < |order| ==> order[a] < n && Up(scopes[order[a]]))
    && (forall i :: 0 <= i < n && Up(scopes[i]) ==> i in order)
    && (forall a, b :: 0 <= a < b < |order| ==> Before(scopes, order[a], order[b]))
  }

  /** `n` placed after every index whose scope has no greater metric. */
  function Place(scopes: seq<Scope>, order: seq<nat>, n: nat): seq<nat>
    requires n < |scopes| && forall a :: 0 <= a < |order| ==> order[a] < |scopes|
  {
    if order != [] && scopes[order[|order| - 1]].metric > scopes[n].metric
    then Place(scopes, order[..|order| - 1], n) + [order[|order| - 1]]
    else order + [n]
  }

  lemma {:induction false} PlaceOrders(scopes: seq<Scope>, order: seq<nat>, n: nat)
    requires n < |scopes| && forall a :: 0 <= a < |order| ==> order[a] < n
    requires forall a, b :: 0 <= a < b < |order| ==> Before(scopes, order[a], order[b])
    ensures var r := Place(scopes, order, n);
            && (forall i :: i in r <==> i == n || i in order)
            && (forall a :: 0 <= a < |r| ==> r[a] <= n && (r[a] == n || r[a] in order))
            && (forall a, b :: 0 <= a < b < |r| ==> Before(scopes, r[a], r[b]))
  {
    if order != [] {
      var m := |order| - 1;
      if scopes[order[m]].metric > scopes[n].metric {
        PlaceOrders(scopes, order[..m], n);
        var r := Place(scopes, order[..m], n);
        forall i | i in order ensures i in order[..m] || i == order[m] {}
        forall a | 0 <= a < |r| ensures Before(scopes, r[a], order[m]) {
          assert r[a] in r;
          if r[a] != n { var b :| 0 <= b < m && order[b] == r[a]; }
        }
      } else {
        forall a | 0 <= a < m ensures Before(scopes, order[a], order[m]) {}
      }
    }
  }

  /** The scopes that are up, by metric and then snapshot order. */
  function UpOrder(scopes: seq<Scope>, n: nat): (order: seq<nat>)
    requires n <= |scopes|
    ensures IsOrder(scopes, n, order)
  {
    if n == 0 then []
    else
      var order := UpOrder(scopes, n - 1);
      if Up(scopes[n - 1]) then
        PlaceOrders(scopes, order, n - 1);
        Place(scopes, order, n - 1)
      else order
  }

  function DomainsOf(scopes: seq<Scope>, order: seq<nat>): seq<Name>
    requires forall a :: 0 <= a < |order| ==> order[a] < |scopes|
  {
    if order == [] then []
    else
      scopes[order[0]].domains + DomainsOf(scopes, order[1..])
  }

  /** The search domains that apply, in the order they are tried. */
  function SearchDomains(cfg: Config): seq<Name> {
    var x := Lowest(cfg.scopes, Exclusive);
    if x.Some? then cfg.scopes[x.value].domains
    else DomainsOf(cfg.scopes, UpOrder(cfg.scopes, |cfg.scopes|)) + cfg.fallbackDomains
  }

  predicate Holds(out: seq<Name>, n: Name) {
    exists i :: 0 <= i < |out| && SameName(out[i], n)
  }

  /** `name` joined to each domain it fits, without repeats. */
  function Expand(name: Name, domains: seq<Name>): seq<Name> {
    if domains == [] then []
    else
      var n := |domains| - 1;
      var out := Expand(name, domains[..n]);
      var full := Join(name, domains[n]);
      if full.Ok? && !Holds(out, full.value) then out + [full.value] else out
  }

  /** The names to try: a single label is expanded and never tried bare. */
  function Candidates(cfg: Config, name: Name): seq<Name> {
    if |name| != 1 then [name] else Expand(name, SearchDomains(cfg))
  }

  method CandidateNames(cfg: Config, name: Name) returns (out: seq<Name>)
    ensures out == Candidates(cfg, name)
  {
    if |name| != 1 { return [name]; }
    var domains := SearchDomains(cfg);
    out := [];
    for i := 0 to |domains|
      invariant out == Expand(name, domains[..i])
    {
      assert domains[..i + 1][..i] == domains[..i];
      var full := Join(name, domains[i]);
      if full.Ok? && !Holds(out, full.value) { out := out + [full.value]; }
    }
    assert domains[..|domains|] == domains;
  }

  /** Expansion tries each fitting domain once, and nothing else. */
  lemma {:induction false} ExpandSpec(name: Name, domains: seq<Name>)
    ensures var out := Expand(name, domains);
            && (forall c :: c in out ==> ValidName(c) && exists d :: d in domains && c == name + d)
            && (forall d :: d in domains && ValidName(name + d) ==> Holds(out, name + d))
            && (forall i, j :: 0 <= i < j < |out| ==> !SameName(out[i], out[j]))
            && |out| <= |domains|
  {
    hide SameName, ValidName;
    if domains != [] {
      var n := |domains| - 1;
      ExpandSpec(name, domains[..n]);
      var out, all := Expand(name, domains[..n]), Expand(name, domains);
      forall d | d in domains && ValidName(name + d) ensures Holds(all, name + d) {
        if d == domains[n] && !Holds(out, name + d) {
          SameNameRefl(name + d);
          assert all[|out|] == name + d;
        } else {
          assert d in domains[..n] || d == domains[n];
          var i :| 0 <= i < |out| && SameName(out[i], name + d);
          assert all[i] == out[i];
        }
      }
      forall c | c in all ensures ValidName(c) && exists d :: d in domains && c == name + d {
        if c in out {
          var d :| d in domains[..n] && c == name + d;
          assert d in domains;
        } else {
          assert domains[n] in domains;
        }
      }
      forall i, j | 0 <= i < j < |all| ensures !SameName(all[i], all[j]) {
        if j == |out| { assert all[j] == name + domains[n] && all[i] == out[i]; }
      }
    }
  }

  lemma SameNameRefl(n: Name)
    ensures SameName(n, n)
  {
  }

  // ---------------------------------------------------------------- servers

  /** The servers configured for a scope, whatever their health. */
  function Configured(cfg: Config, scope: string): seq<IpAddr> {
    if scope == FALLBACK_SCOPE then cfg.fallbackServers
    else
      var i := ScopeIndex(cfg.scopes, scope);
      if i < |cfg.scopes| then cfg.scopes[i].servers else []
  }

  /** The first scope with this id. */
  function ScopeIndex(scopes: seq<Scope>, id: string): (i: nat)
    ensures i <= |scopes|
    ensures i < |scopes| ==> scopes[i].id == id
    ensures forall j :: 0 <= j < i ==> scopes[j].id != id
  {
    if scopes == [] || scopes[0].id == id then 0
    else
      var i := ScopeIndex(scopes[1..], id);
      assert forall j :: 0 < j < 1 + i ==> scopes[j] == scopes[1..][j - 1];
      1 + i
  }

  function InterfaceOf(cfg: Config, scope: string): Option<string> {
    var i := ScopeIndex(cfg.scopes, scope);
    if i < |cfg.scopes| then Some(cfg.scopes[i].interface_) else None
  }

  type ServerKey = (IpAddr, string)
  type Demotions = map<ServerKey, nat>

  /** A link-local address denotes a different server on every interface. */
  function ServerKeyOf(server: IpAddr, scope: string): ServerKey {
    (server, if server.V6? && server.v6 / Pow2(118) == 0x3fa then scope else "")
  }

  predicate IsDemoted(demoted: Demotions, server: IpAddr, scope: string, now: nat) {
    var key := ServerKeyOf(server, scope);
    key in demoted && demoted[key] > now
  }

  function Pick(servers: seq<IpAddr>, demoted: Demotions, scope: string, now: nat, sick: bool): seq<IpAddr> {
    if servers == [] then []
    else
      (if IsDemoted(demoted, servers[0], scope, now) == sick then [servers[0]] else [])
      + Pick(servers[1..], demoted, scope, now, sick)
  }

  /** The servers to try: healthy ones first, configured order within each group. */
  function ServersOf(cfg: Config, demoted: Demotions, scope: string, now: nat): seq<IpAddr> {
    var servers := Configured(cfg, scope);
    Pick(servers, demoted, scope, now, false) + Pick(servers, demoted, scope, now, true)
  }

  lemma {:induction false} PickSplits(servers: seq<IpAddr>, demoted: Demotions, scope: string, now: nat)
    ensures multiset(Pick(servers, demoted, scope, now, false) + Pick(servers, demoted, scope, now, true))
            == multiset(servers)
  {
    if servers != [] {
      hide IsDemoted;
      PickSplits(servers[1..], demoted, scope, now);
      assert servers == [servers[0]] + servers[1..];
    }
  }

  lemma {:induction false} PickAgain(servers: seq<IpAddr>, demoted: Demotions, scope: string, now: nat, sick: bool)
    ensures forall x :: x in Pick(servers, demoted, scope, now, sick) ==> IsDemoted(demoted, x, scope, now) == sick
    ensures Pick(Pick(servers, demoted, scope, now, sick), demoted, scope, now, sick)
            == Pick(servers, demoted, scope, now, sick)
    ensures Pick(Pick(servers, demoted, scope, now, sick), demoted, scope, now, !sick) == []
  {
    hide IsDemoted;
    if servers != [] {
      PickAgain(servers[1..], demoted, scope, now, sick);
      var rest, all := Pick(servers[1..], demoted, scope, now, sick), Pick(servers, demoted, scope, now, sick);
      if IsDemoted(demoted, servers[0], scope, now) == sick {
        assert all == [servers[0]] + rest && all[1..] == rest;
        assert Pick(all, demoted, scope, now, !sick) == [] + Pick(rest, demoted, scope, now, !sick);
      } else {
        assert all == rest;
      }
    }
  }

  lemma {:induction false} PickOver(a: seq<IpAddr>, b: seq<IpAddr>, demoted: Demotions, scope: string, now: nat,
                                    sick: bool)
    ensures Pick(a + b, demoted, scope, now, sick)
            == Pick(a, demoted, scope, now, sick) + Pick(b, demoted, scope, now, sick)
    decreases |a|
  {
    hide IsDemoted;
    if a == [] {
      assert a + b == b;
    } else {
      assert (a + b)[1..] == a[1..] + b;
      PickOver(a[1..], b, demoted, scope, now, sick);
    }
  }

  /** The healthy come first, and each group keeps the order it was configured in. */
  lemma HealthyFirst(cfg: Config, demoted: Demotions, scope: string, now: nat, sick: bool)
    ensures var out := ServersOf(cfg, demoted, scope, now);
            && (forall i, j :: 0 <= i < j < |out| && IsDemoted(demoted, out[i], scope, now) ==>
                  IsDemoted(demoted, out[j], scope, now))
            && Pick(out, demoted, scope, now, sick) == Pick(Configured(cfg, scope), demoted, scope, now, sick)
  {
    hide IsDemoted, Configured;
    var servers := Configured(cfg, scope);
    PickAgain(servers, demoted, scope, now, false);
    PickAgain(servers, demoted, scope, now, true);
    var a, b := Pick(servers, demoted, scope, now, false), Pick(servers, demoted, scope, now, true);
    PickOver(a, b, demoted, scope, now, sick);
    forall i, j | 0 <= i < j < |a + b| && IsDemoted(demoted, (a + b)[i], scope, now)
      ensures IsDemoted(demoted, (a + b)[j], scope, now)
    {
      assert (a + b)[i] in if i < |a| then a else b;
      assert (a + b)[j] in b;
    }
  }

  /** Demotion reorders a scope's servers and neither adds nor drops one. */
  lemma ServersArePermuted(cfg: Config, demoted: Demotions, scope: string, now: nat)
    ensures multiset(ServersOf(cfg, demoted, scope, now)) == multiset(Configured(cfg, scope))
    ensures forall x :: x in ServersOf(cfg, demoted, scope, now) <==> x in Configured(cfg, scope)
  {
    PickSplits(Configured(cfg, scope), demoted, scope, now);
    forall x ensures x in ServersOf(cfg, demoted, scope, now) <==> x in Configured(cfg, scope) {
      assert x in ServersOf(cfg, demoted, scope, now) <==> x in multiset(ServersOf(cfg, demoted, scope, now));
      assert x in Configured(cfg, scope) <==> x in multiset(Configured(cfg, scope));
    }
  }

  // --------------------------------------------------------- configurations

  /** What the daemon hands over: distinct scope ids, none the fallback's, no root domains, valid names. */
  predicate ValidConfig(cfg: Config) {
    && (forall i, j :: 0 <= i < j < |cfg.scopes| ==> cfg.scopes[i].id != cfg.scopes[j].id)
    && (forall i :: 0 <= i < |cfg.scopes| ==> cfg.scopes[i].id != FALLBACK_SCOPE)
    && (forall i, d :: 0 <= i < |cfg.scopes| && 0 <= d < |cfg.scopes[i].domains| ==> cfg.scopes[i].domains[d] != [])
    && (forall d :: 0 <= d < |cfg.fallbackDomains| ==> cfg.fallbackDomains[d] != [])
    && DistinctHosts(cfg.hosts)
    && (cfg.hostname.Some? ==> ValidName(cfg.hostname.value))
  }

  /** A table has one entry a name, and names are valid. */
  predicate DistinctHosts(hosts: seq<Host>) {
    && (forall i :: 0 <= i < |hosts| ==> ValidName(hosts[i].name))
    && (forall i, j :: 0 <= i < j < |hosts| ==> !SameName(hosts[i].name, hosts[j].name))
  }

  lemma {:induction false} DomainsFrom(scopes: seq<Scope>, order: seq<nat>, d: Name)
    requires forall a :: 0 <= a < |order| ==> order[a] < |scopes|
    requires d in DomainsOf(scopes, order)
    ensures exists i, k :: 0 <= i < |scopes| && 0 <= k < |scopes[i].domains| && scopes[i].domains[k] == d
  {
    if d !in scopes[order[0]].domains { DomainsFrom(scopes, order[1..], d); }
  }

  /** A single label is tried bare exactly when the root is among the search domains. */
  lemma BareLabelIff(cfg: Config, name: Name)
    requires |name| == 1 && ValidName(name)
    ensures (exists c :: c in Candidates(cfg, name) && |c| == 1) <==> [] in SearchDomains(cfg)
  {
    var domains, out := SearchDomains(cfg), Candidates(cfg, name);
    hide SearchDomains, Expand;
    ExpandSpec(name, domains);
    if c :| c in out && |c| == 1 {
      var d :| d in domains && c == name + d;
      assert d == [];
    }
    if [] in domains {
      assert name + [] == name;
      var i :| 0 <= i < |out| && SameName(out[i], name);
      SameNameShape(out[i], name);
      assert out[i] in out;
    }
  }

  /** The input at which a bare label would be tried: one fallback search domain, the root. */
  lemma BareUnderRoot()
    ensures var cfg := Config([], [], [[]], None, []); Candidates(cfg, [[97]]) == [[[97]]]
  {
    var cfg, name: Name := Config([], [], [[]], None, []), [[97]];
    assert SearchDomains(cfg) == [[]] by { assert UpOrder(cfg.scopes, 0) == []; }
    assert Join(name, []) == Ok(name) by { assert name + [] == name && WireLen(name) == 3; }
    var domains: seq<Name> := [[]];
    assert domains[..0] == [] && Expand(name, domains[..0]) == [];
  }

  /** Nothing is ever asked as a bare single label. */
  lemma NoBareLabel(cfg: Config, name: Name, c: Name)
    requires ValidConfig(cfg) && c in Candidates(cfg, name)
    ensures |c| != 1
    ensures ValidName(name) ==> ValidName(c)
  {
    if |name| == 1 {
      ExpandSpec(name, SearchDomains(cfg));
      var d :| d in SearchDomains(cfg) && c == name + d;
      var x := Lowest(cfg.scopes, Exclusive);
      if x.None? && d !in cfg.fallbackDomains {
        DomainsFrom(cfg.scopes, UpOrder(cfg.scopes, |cfg.scopes|), d);
      }
    }
  }
}
