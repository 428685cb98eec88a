/** Which records of a reply belong to its question, and the addresses at the end of its aliases. */
module Aliases {
  import opened Bytes
  import opened Results
  import opened Names
  import opened Dns

  const MAX_ALIASES: nat := 16

  predicate Owns(r: Record, n: Name) {
    r.class_ == IN && SameName(r.name, n)
  }

  /** `r` is of the asked type at `n`. */
  predicate Answers(r: Record, n: Name, t: u16) {
    Owns(r, n) && (r.rtype == t || t == ANY)
  }

  predicate Terminal(rs: seq<Record>, n: Name, t: u16) {
    exists i :: 0 <= i < |rs| && Answers(rs[i], n, t)
  }

  predicate AliasOf(r: Record, n: Name) {
    Owns(r, n) && r.rdata.RCname?
  }

  /** The index of the first alias at `n`, or `|rs|`. */
  function FirstAlias(rs: seq<Record>, n: Name): (i: nat)
    ensures i <= |rs|
    ensures i < |rs| ==> AliasOf(rs[i], n)
    ensures forall j :: 0 <= j < i ==> !AliasOf(rs[j], n)
  {
    if rs == [] then 0
    else if AliasOf(rs[0], n) then 0
    else
      var i := FirstAlias(rs[1..], n);
      assert forall j :: 0 < j < 1 + i ==> rs[j] == rs[1..][j - 1];
      1 + i
  }

  /** The alias path from `n`: names followed until an answer, a dead end, or `k` aliases. */
  function Path(rs: seq<Record>, n: Name, t: u16, k: nat): (path: seq<Name>)
    ensures 1 <= |path| <= k + 1 && path[0] == n
    decreases k
  {
    var i := FirstAlias(rs, n);
    if k == 0 || Terminal(rs, n, t) || i == |rs| then [n]
    else [n] + Path(rs, rs[i].rdata.cname, t, k - 1)
  }

  function Last(path: seq<Name>): Name
    requires path != []
  {
    path[|path| - 1]
  }

  /** What being a path means, position by position. */
  predicate IsPath(rs: seq<Record>, path: seq<Name>, t: u16, k: nat) {
    && 1 <= |path| <= k + 1
    && (forall j :: 0 <= j < |path| - 1 ==>
          && !Terminal(rs, path[j], t) && FirstAlias(rs, path[j]) < |rs|
          && path[j + 1] == rs[FirstAlias(rs, path[j])].rdata.cname)
    && (|path| == k + 1 || Terminal(rs, Last(path), t) || FirstAlias(rs, Last(path)) == |rs|)
  }

  lemma {:induction false} PathSteps(rs: seq<Record>, n: Name, t: u16, k: nat)
    ensures IsPath(rs, Path(rs, n, t, k), t, k)
    decreases k
  {
    var i := FirstAlias(rs, n);
    if k == 0 || Terminal(rs, n, t) || i == |rs| {
    } else {
      var rest := Path(rs, rs[i].rdata.cname, t, k - 1);
      PathSteps(rs, rs[i].rdata.cname, t, k - 1);
      var path := [n] + rest;
      forall j | 0 <= j < |path| - 1
        ensures && !Terminal(rs, path[j], t) && FirstAlias(rs, path[j]) < |rs|
                && path[j + 1] == rs[FirstAlias(rs, path[j])].rdata.cname
      {
        if j > 0 { assert path[j] == rest[j - 1] && path[j + 1] == rest[j]; }
      }
      assert Last(path) == Last(rest);
    }
  }

  /** Names equal up to case have the same aliases and answers. */
  lemma SameNameSame(rs: seq<Record>, a: Name, b: Name, t: u16)
    requires SameName(a, b)
    ensures FirstAlias(rs, a) == FirstAlias(rs, b)
    ensures Terminal(rs, a, t) == Terminal(rs, b, t)
  {
    assert forall r: Record :: AliasOf(r, a) == AliasOf(r, b);
    assert forall r: Record :: Answers(r, a, t) == Answers(r, b, t);
    var i, j := FirstAlias(rs, a), FirstAlias(rs, b);
    assert i < |rs| ==> AliasOf(rs[i], b);
    assert j < |rs| ==> AliasOf(rs[j], a);
  }

  // ------------------------------------------------------- relevant records

  predicate OnPath(rs: seq<Record>, path: seq<Name>, d: nat, i: nat)
    requires d <= |path|
  {
    exists j :: 0 <= j < d && FirstAlias(rs, path[j]) == i
  }

  /** A record is kept for being an alias followed on the path, or an answer at its end. */
  predicate Kept(rs: seq<Record>, path: seq<Name>, t: u16, i: nat)
    requires path != [] && i < |rs|
  {
    OnPath(rs, path, |path| - 1, i) || Answers(rs[i], Last(path), t)
  }

  /** The records marked, in order. */
  function Select(rs: seq<Record>, keep: seq<bool>): seq<Record>
    requires |keep| == |rs|
  {
    if rs == [] then []
    else (if keep[0] then [rs[0]] else []) + Select(rs[1..], keep[1..])
  }

  predicate Marks(rs: seq<Record>, path: seq<Name>, t: u16, keep: seq<bool>)
    requires path != [] && |keep| == |rs|
  {
    forall i :: 0 <= i < |rs| ==> keep[i] == Kept(rs, path, t, i)
  }

  function Keeps(rs: seq<Record>, path: seq<Name>, t: u16): (keep: seq<bool>)
    requires path != []
    ensures |keep| == |rs| && Marks(rs, path, t, keep)
  {
    seq(|rs|, i requires 0 <= i < |rs| => Kept(rs, path, t, i))
  }

  /** The relevant records: a subsequence of the reply's, exactly the kept ones. */
  function Relevant(rs: seq<Record>, n: Name, t: u16): seq<Record> {
    var path := Path(rs, n, t, MAX_ALIASES);
    Select(rs, Keeps(rs, path, t))
  }

  predicate Distinct(path: seq<Name>) {
    forall i, j :: 0 <= i < j < |path| ==> !SameName(path[i], path[j])
  }

  /** How far down the path the first repeated name is, or the path's end. */
  function FirstRepeat(path: seq<Name>, d: nat): (e: nat)
    requires d < |path|
    ensures d <= e < |path|
    decreases |path| - d
  {
    if d + 1 == |path| || (exists j :: 0 <= j < d && SameName(path[j], path[d])) then d
    else FirstRepeat(path, d + 1)
  }

  /** The name the walk ends at: the path's end, or the first name it meets again. */
  function EffectiveName(rs: seq<Record>, n: Name, t: u16): Name {
    var path := Path(rs, n, t, MAX_ALIASES);
    path[FirstRepeat(path, 0)]
  }

  lemma {:induction false} NoRepeat(path: seq<Name>, d: nat)
    requires d < |path| && Distinct(path)
    ensures FirstRepeat(path, d) == |path| - 1
    decreases |path| - d
  {
    if d + 1 < |path| { NoRepeat(path, d + 1); }
  }

  /** Once a name repeats, every later name of the path is one already seen. */
  lemma {:induction false} Cycle(rs: seq<Record>, path: seq<Name>, t: u16, d: nat, i: nat, k: nat) returns (j: nat)
    requires IsPath(rs, path, t, MAX_ALIASES)
    requires i < d <= k < |path| && SameName(path[i], path[d])
    ensures j < d && SameName(path[j], path[k])
    decreases k
  {
    if k == d {
      j := i;
    } else {
      j := Cycle(rs, path, t, d, i, k - 1);
      SameNameSame(rs, path[j], path[k - 1], t);
      assert path[k] == path[k - 1 + 1];
      assert path[j + 1] == path[k];
      j := j + 1;
      if j == d { j := i; }
    }
  }

  /** So the marks made before the first repeat are all the marks. */
  lemma CycleMarks(rs: seq<Record>, path: seq<Name>, t: u16, d: nat, i: nat)
    requires IsPath(rs, path, t, MAX_ALIASES)
    requires i < d < |path| && SameName(path[i], path[d])
    requires !Terminal(rs, path[d], t)
    ensures forall x :: 0 <= x < |rs| ==> OnPath(rs, path, d, x) == Kept(rs, path, t, x)
  {
    forall x | 0 <= x < |rs| && Kept(rs, path, t, x) ensures OnPath(rs, path, d, x) {
      var last := Cycle(rs, path, t, d, i, |path| - 1);
      SameNameSame(rs, path[last], Last(path), t);
      var k :| 0 <= k < |path| - 1 && FirstAlias(rs, path[k]) == x;
      if k >= d {
        var j := Cycle(rs, path, t, d, i, k);
        SameNameSame(rs, path[j], path[k], t);
        assert FirstAlias(rs, path[j]) == x;
      }
    }
    forall x | 0 <= x < |rs| && OnPath(rs, path, d, x) ensures Kept(rs, path, t, x) {
      var k :| 0 <= k < d && FirstAlias(rs, path[k]) == x;
    }
  }

  method MarkAnswers(rs: seq<Record>, name: Name, t: u16, keep0: seq<bool>) returns (keep: seq<bool>, terminal: bool)
    requires |keep0| == |rs|
    ensures |keep| == |rs| && terminal == Terminal(rs, name, t)
    ensures Marked(rs, name, t, keep0, keep)
  {
    keep, terminal := keep0, false;
    for i := 0 to |rs|
      invariant |keep| == |rs|
      invariant forall j :: 0 <= j < i ==> keep[j] == (keep0[j] || Answers(rs[j], name, t))
      invariant forall j :: i <= j < |rs| ==> keep[j] == keep0[j]
      invariant terminal == exists j :: 0 <= j < i && Answers(rs[j], name, t)
    {
      if rs[i].class_ == IN && SameName(rs[i].name, name) && (rs[i].rtype == t || t == ANY) {
        keep := keep[i := true];
        terminal := true;
      }
    }
  }

  predicate Seen(seen: seq<Name>, name: Name) {
    exists j :: 0 <= j < |seen| && SameName(seen[j], name)
  }

  /** The marks after `d` aliases of the path. */
  predicate Walked(rs: seq<Record>, path: seq<Name>, d: nat, keep: seq<bool>) {
    && d < |path| && |keep| == |rs|
    && (forall i :: 0 <= i < |rs| ==> keep[i] == OnPath(rs, path, d, i))
  }

  predicate Marked(rs: seq<Record>, name: Name, t: u16, keep: seq<bool>, marked: seq<bool>)
    requires |keep| == |rs|
  {
    |marked| == |rs| && forall i :: 0 <= i < |rs| ==> marked[i] == (keep[i] || Answers(rs[i], name, t))
  }

  lemma WalkEnds(rs: seq<Record>, path: seq<Name>, t: u16, d: nat, keep: seq<bool>, marked: seq<bool>)
    requires IsPath(rs, path, t, MAX_ALIASES) && Walked(rs, path, d, keep)
    requires Marked(rs, path[d], t, keep, marked)
    requires || Terminal(rs, path[d], t) || d == MAX_ALIASES || Seen(path[..d], path[d])
             || FirstAlias(rs, path[d]) == |rs|
    ensures marked == Keeps(rs, path, t)
    ensures FirstRepeat(path, d) == d
  {
    hide Answers, SameName, OnPath;
    if d + 1 < |path| {
      var i :| 0 <= i < |path[..d]| && SameName(path[..d][i], path[d]);
      assert path[..d][i] == path[i];
      CycleMarks(rs, path, t, d, i);
      forall x | 0 <= x < |rs| ensures marked[x] == Kept(rs, path, t, x) {
        assert !Answers(rs[x], path[d], t);
      }
    } else {
      assert Last(path) == path[d];
      forall x | 0 <= x < |rs| ensures marked[x] == Kept(rs, path, t, x) {}
    }
    assert Marks(rs, path, t, marked);
  }

  lemma WalkGoesOn(rs: seq<Record>, path: seq<Name>, t: u16, d: nat, keep: seq<bool>, marked: seq<bool>)
    requires IsPath(rs, path, t, MAX_ALIASES) && Walked(rs, path, d, keep)
    requires Marked(rs, path[d], t, keep, marked)
    requires !Terminal(rs, path[d], t) && d < MAX_ALIASES && !Seen(path[..d], path[d])
    requires FirstAlias(rs, path[d]) < |rs|
    ensures Walked(rs, path, d + 1, marked[FirstAlias(rs, path[d]) := true])
    ensures path[d + 1] == rs[FirstAlias(rs, path[d])].rdata.cname
    ensures FirstRepeat(path, d) == FirstRepeat(path, d + 1)
  {
    var next := marked[FirstAlias(rs, path[d]) := true];
    forall i | 0 <= i < |rs| ensures next[i] == OnPath(rs, path, d + 1, i) {
      if OnPath(rs, path, d + 1, i) {
        var j :| 0 <= j < d + 1 && FirstAlias(rs, path[j]) == i;
        assert j < d ==> OnPath(rs, path, d, i);
      }
    }
    assert forall j :: 0 <= j < d ==> path[..d][j] == path[j];
  }

  /** The walk as it runs, with its marks, its current name and the names seen. */
  method RelevantRecords(rs: seq<Record>, candidate: Name, t: u16) returns (kept: seq<Record>, name: Name)
    ensures kept == Relevant(rs, candidate, t)
    ensures name == EffectiveName(rs, candidate, t)
  {
    hide Walked, IsPath, FirstRepeat, Seen, Terminal, Path, OnPath;
    ghost var path := Path(rs, candidate, t, MAX_ALIASES);
    PathSteps(rs, candidate, t, MAX_ALIASES);
    var keep := seq(|rs|, _ => false);
    name := candidate;
    var seen: seq<Name> := [];
    var depth := 0;
    WalkStarts(rs, path, keep);
    while true
      invariant 0 <= depth <= MAX_ALIASES && depth < |path| && |keep| == |rs|
      invariant name == path[depth] && seen == path[..depth]
      invariant FirstRepeat(path, 0) == FirstRepeat(path, depth)
      invariant Walked(rs, path, depth, keep)
      decreases MAX_ALIASES - depth
    {
      var marked, terminal := MarkAnswers(rs, name, t, keep);
      if terminal || depth == MAX_ALIASES || Seen(seen, name) {
        WalkEnds(rs, path, t, depth, keep, marked);
        keep := marked;
        break;
      }
      seen := seen + [name];
      var index := FirstAlias(rs, name);
      if index == |rs| {
        WalkEnds(rs, path, t, depth, keep, marked);
        keep := marked;
        break;
      }
      WalkGoesOn(rs, path, t, depth, keep, marked);
      WalkedBounds(rs, path, depth + 1, marked[index := true]);
      keep := marked[index := true];
      name := rs[index].rdata.cname;
      depth := depth + 1;
    }
    kept := Select(rs, keep);
  }

  lemma WalkStarts(rs: seq<Record>, path: seq<Name>, keep: seq<bool>)
    requires path != [] && |keep| == |rs| && forall i :: 0 <= i < |rs| ==> !keep[i]
    ensures Walked(rs, path, 0, keep)
  {
  }

  lemma WalkedBounds(rs: seq<Record>, path: seq<Name>, d: nat, keep: seq<bool>)
    requires Walked(rs, path, d, keep)
    ensures d < |path| && |keep| == |rs|
  {
  }

  /** Every relevant record is one of the reply's, of class IN. */
  lemma {:induction false} SelectFrom(rs: seq<Record>, keep: seq<bool>, r: Record)
    requires |keep| == |rs| && r in Select(rs, keep)
    ensures exists i :: 0 <= i < |rs| && keep[i] && rs[i] == r
  {
    if keep[0] && rs[0] == r {
    } else {
      SelectFrom(rs[1..], keep[1..], r);
      var i :| 0 <= i < |rs[1..]| && keep[1..][i] && rs[1..][i] == r;
      assert keep[i + 1] && rs[i + 1] == r;
    }
  }

  lemma RelevantAreIn(rs: seq<Record>, n: Name, t: u16, r: Record)
    requires r in Relevant(rs, n, t)
    ensures r in rs && r.class_ == IN
  {
    var path := Path(rs, n, t, MAX_ALIASES);
    SelectFrom(rs, Keeps(rs, path, t), r);
    var i :| 0 <= i < |rs| && Keeps(rs, path, t)[i] && rs[i] == r;
    assert Kept(rs, path, t, i);
  }

  // ------------------------------------------------------------- the chase

  /** The first record at `name`, in any class. */
  function FirstAt(rs: seq<Record>, name: Name): (i: nat)
    ensures i <= |rs|
    ensures i < |rs| ==> SameName(rs[i].name, name)
    ensures forall j :: 0 <= j < i ==> !SameName(rs[j].name, name)
  {
    if rs == [] then 0
    else if SameName(rs[0].name, name) then 0
    else
      var i := FirstAt(rs[1..], name);
      assert forall j :: 0 < j < 1 + i ==> rs[j] == rs[1..][j - 1];
      1 + i
  }

  predicate HasType(rs: seq<Record>, name: Name, t: u16) {
    exists i :: 0 <= i < |rs| && SameName(rs[i].name, name) && rs[i].rtype == t
  }

  /** Where the chase goes from `name`, if anywhere. */
  function NextName(rs: seq<Record>, name: Name, t: u16): Option<Name> {
    var i := FirstAt(rs, name);
    if i < |rs| && rs[i].rdata.RCname? && !HasType(rs, name, t) then Some(rs[i].rdata.cname) else None
  }

  /** The addresses of family `t` at `name`, in order. */
  function AddressesAt(rs: seq<Record>, name: Name, t: u16): seq<(IpAddr, u32)> {
    if rs == [] then []
    else
      var rest := AddressesAt(rs[1..], name, t);
      if !SameName(rs[0].name, name) then rest
      else match rs[0].rdata
        case RA(a) => if t == A then [(V4(a), rs[0].ttl)] + rest else rest
        case RAaaa(a) => if t == AAAA then [(V6(a), rs[0].ttl)] + rest else rest
        case _ => rest
  }

  method Chase(rs: seq<Record>, start: Name, t: u16) returns (name: Name, addrs: seq<(IpAddr, u32)>)
    ensures (name, addrs) == Chased(rs, start, t)
  {
    name := start;
    for k := 0 to MAX_ALIASES
      invariant ChaseEnd(rs, start, t, MAX_ALIASES) == ChaseEnd(rs, name, t, MAX_ALIASES - k)
    {
      var next := NextName(rs, name, t);
      if next.None? { break; }
      name := next.value;
    }
    addrs := AddressesAt(rs, name, t);
  }

  function ChaseEnd(rs: seq<Record>, name: Name, t: u16, k: nat): Name
    decreases k
  {
    if k == 0 || NextName(rs, name, t).None? then name
    else ChaseEnd(rs, NextName(rs, name, t).value, t, k - 1)
  }

  function Chased(rs: seq<Record>, start: Name, t: u16): (Name, seq<(IpAddr, u32)>) {
    var name := ChaseEnd(rs, start, t, MAX_ALIASES);
    (name, AddressesAt(rs, name, t))
  }

  // ------------------------------------------------ agreement of the two

  /** The records with the caller's case for the name asked. */
  function Recase(rs: seq<Record>, n: Name): (r: seq<Record>)
    ensures |r| == |rs|
  {
    seq(|rs|, i requires 0 <= i < |rs| => if SameName(rs[i].name, n) then rs[i].(name := n) else rs[i])
  }

  lemma {:induction false} RecaseAddresses(rs: seq<Record>, n: Name, name: Name, t: u16)
    ensures AddressesAt(Recase(rs, n), name, t) == AddressesAt(rs, name, t)
  {
    if rs != [] {
      assert Recase(rs, n)[1..] == Recase(rs[1..], n);
      RecaseAddresses(rs[1..], n, name, t);
    }
  }

  lemma RecaseNext(rs: seq<Record>, n: Name, name: Name, t: u16)
    ensures NextName(Recase(rs, n), name, t) == NextName(rs, name, t)
  {
    var r := Recase(rs, n);
    assert forall i :: 0 <= i < |rs| ==> SameName(r[i].name, name) == SameName(rs[i].name, name);
    var i, j := FirstAt(r, name), FirstAt(rs, name);
    assert i < |rs| ==> SameName(rs[i].name, name);
    assert j < |rs| ==> SameName(r[j].name, name);
    assert HasType(rs, name, t) ==> HasType(r, name, t) by {
      if HasType(rs, name, t) {
        var x :| 0 <= x < |rs| && SameName(rs[x].name, name) && rs[x].rtype == t;
        assert SameName(r[x].name, name) && r[x].rtype == t;
      }
    }
  }

  lemma {:induction false} RecaseChase(rs: seq<Record>, n: Name, name: Name, t: u16, k: nat)
    ensures ChaseEnd(Recase(rs, n), name, t, k) == ChaseEnd(rs, name, t, k)
    decreases k
  {
    RecaseNext(rs, n, name, t);
    if k > 0 && NextName(rs, name, t).Some? {
      RecaseChase(rs, n, NextName(rs, name, t).value, t, k - 1);
    }
  }

  /** The reply's own addresses of family `t` at `name`, class IN, in order. */
  function AddressesIn(rs: seq<Record>, name: Name, t: u16): seq<(IpAddr, u32)> {
    if rs == [] then []
    else
      var rest := AddressesIn(rs[1..], name, t);
      if !Answers(rs[0], name, t) then rest
      else match rs[0].rdata
        case RA(a) => [(V4(a), rs[0].ttl)] + rest
        case RAaaa(a) => [(V6(a), rs[0].ttl)] + rest
        case _ => rest
  }

  lemma {:induction false} SelectAddresses(rs: seq<Record>, keep: seq<bool>, name: Name, t: u16)
    requires t == A || t == AAAA
    requires |keep| == |rs| && WellFormedRecords(rs)
    requires forall i :: 0 <= i < |rs| ==>
      (keep[i] && SameName(rs[i].name, name) && rs[i].rtype == t <==> Answers(rs[i], name, t))
    ensures AddressesAt(Select(rs, keep), name, t) == AddressesIn(rs, name, t)
  {
    if rs != [] {
      var tail := Select(rs[1..], keep[1..]);
      SelectAddresses(rs[1..], keep[1..], name, t);
      if keep[0] {
        assert ([rs[0]] + tail)[1..] == tail;
      } else {
        assert Select(rs, keep) == tail;
      }
      assert WellFormedRecord(rs[0]);
    }
  }

  lemma {:induction false} SelectHas(rs: seq<Record>, keep: seq<bool>, i: nat)
    requires |keep| == |rs| && i < |rs| && keep[i]
    ensures rs[i] in Select(rs, keep)
  {
    if i > 0 {
      SelectHas(rs[1..], keep[1..], i - 1);
      assert rs[1..][i - 1] == rs[i];
    }
  }

  /** A kept record at a name the path goes through is its alias there and nothing else. */
  lemma KeptAt(rs: seq<Record>, path: seq<Name>, t: u16, k: nat, i: nat)
    requires IsPath(rs, path, t, MAX_ALIASES) && k < |path| && i < |rs|
    requires Kept(rs, path, t, i) && SameName(rs[i].name, path[k])
    ensures k < |path| - 1 ==> i == FirstAlias(rs, path[k])
    ensures Terminal(rs, path[k], t) ==> Answers(rs[i], path[k], t)
    ensures !Terminal(rs, path[k], t) ==> i == FirstAlias(rs, path[k])
  {
    if OnPath(rs, path, |path| - 1, i) {
      var j :| 0 <= j < |path| - 1 && FirstAlias(rs, path[j]) == i;
      assert SameName(path[j], path[k]);
      SameNameSame(rs, path[j], path[k], t);
    } else {
      assert SameName(Last(path), path[k]);
      SameNameSame(rs, Last(path), path[k], t);
    }
  }

  lemma ChaseFollows(rs: seq<Record>, path: seq<Name>, t: u16, k: nat)
    requires t == A || t == AAAA
    requires WellFormedRecords(rs) && IsPath(rs, path, t, MAX_ALIASES) && k < |path| - 1
    ensures NextName(Select(rs, Keeps(rs, path, t)), path[k], t) == Some(path[k + 1])
  {
    var keep := Keeps(rs, path, t);
    var f := Select(rs, keep);
    var i := FirstAlias(rs, path[k]);
    assert OnPath(rs, path, |path| - 1, i);
    assert Kept(rs, path, t, i);
    SelectHas(rs, keep, i);
    var x :| 0 <= x < |f| && f[x] == rs[i];
    forall y | 0 <= y < |f| && SameName(f[y].name, path[k]) ensures f[y] == rs[i] {
      SelectFrom(rs, keep, f[y]);
      var j :| 0 <= j < |rs| && keep[j] && rs[j] == f[y];
      KeptAt(rs, path, t, k, j);
    }
    assert WellFormedRecord(rs[i]);
    assert FirstAt(f, path[k]) <= x;
  }

  lemma ChaseStops(rs: seq<Record>, path: seq<Name>, t: u16)
    requires t == A || t == AAAA
    requires WellFormedRecords(rs) && IsPath(rs, path, t, MAX_ALIASES) && |path| <= MAX_ALIASES
    ensures NextName(Select(rs, Keeps(rs, path, t)), Last(path), t) == None
  {
    var keep := Keeps(rs, path, t);
    var f := Select(rs, keep);
    var y := FirstAt(f, Last(path));
    if y < |f| {
      SelectFrom(rs, keep, f[y]);
      var j :| 0 <= j < |rs| && keep[j] && rs[j] == f[y];
      KeptAt(rs, path, t, |path| - 1, j);
      assert WellFormedRecord(rs[j]);
    }
  }

  lemma {:induction false} ChaseToEnd(rs: seq<Record>, path: seq<Name>, t: u16, k: nat)
    requires t == A || t == AAAA
    requires WellFormedRecords(rs) && IsPath(rs, path, t, MAX_ALIASES) && k < |path|
    ensures ChaseEnd(Select(rs, Keeps(rs, path, t)), path[k], t, MAX_ALIASES - k) == Last(path)
    decreases |path| - k
  {
    if k < |path| - 1 {
      ChaseFollows(rs, path, t, k);
      ChaseToEnd(rs, path, t, k + 1);
    } else if k < MAX_ALIASES {
      ChaseStops(rs, path, t);
    }
  }

  /** An address question's path that repeats a name ends at no answer. */
  lemma RepeatNotTerminal(rs: seq<Record>, path: seq<Name>, t: u16)
    requires IsPath(rs, path, t, MAX_ALIASES) && !Distinct(path)
    ensures !Terminal(rs, Last(path), t)
  {
    var i, d :| 0 <= i < d < |path| && SameName(path[i], path[d]);
    var j := Cycle(rs, path, t, d, i, |path| - 1);
    SameNameSame(rs, path[j], Last(path), t);
  }

  lemma KeptAddresses(rs: seq<Record>, path: seq<Name>, t: u16)
    requires t == A || t == AAAA
    requires WellFormedRecords(rs) && IsPath(rs, path, t, MAX_ALIASES)
    ensures AddressesAt(Select(rs, Keeps(rs, path, t)), Last(path), t) == AddressesIn(rs, Last(path), t)
  {
    var keep := Keeps(rs, path, t);
    forall i | 0 <= i < |rs|
      ensures keep[i] && SameName(rs[i].name, Last(path)) && rs[i].rtype == t <==> Answers(rs[i], Last(path), t)
    {
      assert WellFormedRecord(rs[i]);
      if keep[i] && SameName(rs[i].name, Last(path)) && rs[i].rtype == t {
        KeptAt(rs, path, t, |path| - 1, i);
      }
    }
    SelectAddresses(rs, keep, Last(path), t);
  }

  lemma {:induction false} NoAddresses(rs: seq<Record>, name: Name, t: u16)
    requires !Terminal(rs, name, t)
    ensures AddressesIn(rs, name, t) == []
  {
    if rs != [] {
      assert forall i :: 0 <= i < |rs| - 1 ==> rs[1..][i] == rs[i + 1];
      NoAddresses(rs[1..], name, t);
    }
  }

  /**
   * The filter and the chase agree. Over the filtered records, in the caller's
   * case, the chase ends at the end of the reply's alias path and collects
   * exactly the reply's own addresses there. When no name repeats, that end is
   * the filter's effective name; when one does, neither finds an address.
   */
  lemma ChaseAgrees(rs: seq<Record>, n: Name, t: u16)
    requires t == A || t == AAAA
    requires WellFormedRecords(rs)
    ensures var path := Path(rs, n, t, MAX_ALIASES);
            && Chased(Recase(Relevant(rs, n, t), n), n, t) == (Last(path), AddressesIn(rs, Last(path), t))
            && (Distinct(path) ==> EffectiveName(rs, n, t) == Last(path))
            && (!Distinct(path) ==> AddressesIn(rs, Last(path), t) == [])
  {
    var path := Path(rs, n, t, MAX_ALIASES);
    var f := Relevant(rs, n, t);
    PathSteps(rs, n, t, MAX_ALIASES);
    RecaseChase(f, n, n, t, MAX_ALIASES);
    ChaseToEnd(rs, path, t, 0);
    RecaseAddresses(f, n, Last(path), t);
    KeptAddresses(rs, path, t);
    if Distinct(path) {
      NoRepeat(path, 0);
    } else {
      RepeatNotTerminal(rs, path, t);
      NoAddresses(rs, Last(path), t);
    }
  }

  // ------------------------------------------------------- negative answers

  const MAX_NEGATIVE_TTL: u32 := 300

  /** The TTL rule of section 5 of RFC 2308, from the first SOA enclosing `name`. */
  function NegativeTtl(authority: seq<Record>, name: Name): (ttl: u32)
    ensures ttl <= MAX_NEGATIVE_TTL
    ensures ttl > 0 ==> exists i :: 0 <= i < |authority| && authority[i].rdata.RSoa?
                                    && EndsWith(name, authority[i].name) && authority[i].class_ == IN
                                    && ttl <= authority[i].ttl && ttl <= authority[i].rdata.minimum
  {
    if authority == [] then 0
    else if authority[0].class_ == IN && EndsWith(name, authority[0].name) && authority[0].rdata.RSoa? then
      Min(Min(authority[0].rdata.minimum, authority[0].ttl), MAX_NEGATIVE_TTL)
    else
      var ttl := NegativeTtl(authority[1..], name);
      assert forall i :: 0 <= i < |authority| - 1 ==> authority[1..][i] == authority[i + 1];
      ttl
  }

  function Min(a: u32, b: u32): u32 {
    if a < b then a else b
  }

  /** The least TTL of the records, or `d` when there are none. */
  function MinTtl(rs: seq<Record>, d: u32): (ttl: u32)
    ensures ttl <= d
    ensures forall i :: 0 <= i < |rs| ==> ttl <= rs[i].ttl
  {
    if rs == [] then d else Min(rs[0].ttl, MinTtl(rs[1..], d))
  }
}
