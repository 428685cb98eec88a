/** The answer cache, keyed by name, type and the scope that answered. */
module Caches {
  import opened Bytes
  import opened Results
  import opened Sets
  import opened Names
  import opened Dns
  import opened Lookups

  /** Instants are counted in nanoseconds. */
  const SECOND: nat := 1_000_000_000

  const MAX_ENTRIES: nat := 8192

  datatype CacheKey = CacheKey(name: Name, rtype: u16, scope: string)

  function KeyOf(name: Name, rtype: u16, scope: string): CacheKey {
    CacheKey(Lower(name), rtype, scope)
  }

  datatype Entry = Entry(
    outcome: Outcome, records: seq<Record>, rcode: nat, server: IpAddr, expires: nat)

  type Entries = map<CacheKey, Entry>

  // ------------------------------------------------------------ operations

  /** Whole seconds an entry has left. */
  function Remaining(e: Entry, now: nat): nat
    requires e.expires > now
  {
    (e.expires - now) / SECOND
  }

  /** The entry as a hit reports it: no record outlives the entry. */
  function Aged(e: Entry, now: nat): Entry
    requires e.expires > now
  {
    var left := Remaining(e, now) % 0x1_0000_0000;
    e.(records := seq(|e.records|, i requires 0 <= i < |e.records| =>
         e.records[i].(ttl := if e.records[i].ttl < left then e.records[i].ttl else left)))
  }

  /** A lookup: what is left in the table, and the hit if there is one. */
  function Got(m: Entries, key: CacheKey, now: nat): (r: (Entries, Option<Entry>)) {
    if key !in m then (m, None)
    else if m[key].expires <= now then (m - {key}, None)
    else (m, Some(Aged(m[key], now)))
  }

  function Unexpired(m: Entries, now: nat): (l: Entries) {
    map k | k in m && m[k].expires > now :: m[k]
  }

  /** `order` walks exactly the keys of the table, as a hash table's iterator would. */
  ghost predicate Walks(order: seq<CacheKey>, m: Entries) {
    forall k :: k in order <==> k in m
  }

  /** The first key of least expiry met on the walk. */
  function Victim(m: Entries, order: seq<CacheKey>): (v: Option<CacheKey>)
    ensures v.Some? ==> v.value in m
    ensures forall k :: k in order && k in m ==> v.Some? && m[v.value].expires <= m[k].expires
  {
    if order == [] then None
    else
      var v := Victim(m, order[..|order| - 1]);
      var k := order[|order| - 1];
      assert forall x :: x in order ==> x in order[..|order| - 1] || x == k;
      if k in m && (v.None? || m[k].expires < m[v.value].expires) then Some(k) else v
  }

  function Inserted(m: Entries, key: CacheKey, e: Entry, now: nat, order: seq<CacheKey>): Entries {
    if |m| >= MAX_ENTRIES && key !in m then
      var live := Unexpired(m, now);
      var v := Victim(live, order);
      (if |live| >= MAX_ENTRIES && v.Some? then live - {v.value} else live)[key := e]
    else m[key := e]
  }

  function Flushed(m: Entries, scope: string): Entries {
    map k | k in m && k.scope != scope :: m[k]
  }

  /** The cache object the daemon holds. */
  class Cache {
    var entries: Entries

    constructor ()
      ensures entries == map[]
    {
      entries := map[];
    }

    method Get(key: CacheKey, now: nat) returns (r: Option<Entry>)
      modifies this
      ensures (entries, r) == Got(old(entries), key, now)
    {
      if key !in entries { return None; }
      var e := entries[key];
      if e.expires <= now {
        entries := entries - {key};
        return None;
      }
      var remaining := (e.expires - now) / SECOND % 0x1_0000_0000;
      var records := e.records;
      for i := 0 to |records|
        invariant |records| == |e.records| && unchanged(this)
        invariant forall j :: 0 <= j < i ==> records[j] == Aged(e, now).records[j]
        invariant forall j :: i <= j < |records| ==> records[j] == e.records[j]
      {
        if remaining < records[i].ttl {
          records := records[i := records[i].(ttl := remaining)];
        }
      }
      assert records == Aged(e, now).records;
      return Some(e.(records := records));
    }

    /** `order` is the order in which the table happens to be walked. */
    method Insert(key: CacheKey, entry: Entry, now: nat, order: seq<CacheKey>)
      modifies this
      ensures entries == Inserted(old(entries), key, entry, now, order)
    {
      if |entries| >= MAX_ENTRIES && key !in entries {
        entries := map k | k in entries && entries[k].expires > now :: entries[k];
        if |entries| >= MAX_ENTRIES {
          var victim: Option<CacheKey> := None;
          for i := 0 to |order|
            invariant entries == Unexpired(old(entries), now)
            invariant victim == Victim(entries, order[..i])
          {
            assert order[..i + 1][..i] == order[..i];
            if order[i] in entries && (victim.None? || entries[order[i]].expires < entries[victim.value].expires) {
              victim := Some(order[i]);
            }
          }
          assert order[..|order|] == order;
          if victim.Some? { entries := entries - {victim.value}; }
        }
      }
      entries := entries[key := entry];
    }

    method FlushScope(scope: string)
      modifies this
      ensures entries == Flushed(old(entries), scope)
    {
      entries := map k | k in entries && k.scope != scope :: entries[k];
    }

    method Clear()
      modifies this
      ensures entries == map[]
    {
      entries := map[];
    }
  }

  // ------------------------------------------ eviction, and an ideal cache

  lemma LiveSize(m: Entries, now: nat)
    ensures |Unexpired(m, now)| <= |m|
    ensures |Unexpired(m, now)| == |m| ==> Unexpired(m, now) == m
  {
    var l := Unexpired(m, now);
    assert l.Keys <= m.Keys;
    SubsetSize(l.Keys, m.Keys);
  }

  lemma VictimSome(m: Entries, order: seq<CacheKey>)
    requires m != map[] && forall k :: k in m ==> k in order
    ensures Victim(m, order).Some?
  {
    var k :| k in m;
  }

  /** The table never outgrows its ceiling. */
  lemma InsertedSize(m: Entries, key: CacheKey, e: Entry, now: nat, order: seq<CacheKey>)
    requires |m| <= MAX_ENTRIES && Walks(order, m)
    ensures |Inserted(m, key, e, now, order)| <= MAX_ENTRIES
  {
    if |m| >= MAX_ENTRIES && key !in m {
      var live := Unexpired(m, now);
      LiveSize(m, now);
      if |live| >= MAX_ENTRIES {
        VictimSome(live, order);
        var v := Victim(live, order).value;
        assert (live - {v}).Keys == live.Keys - {v};
        assert |(live - {v}).Keys| == |live| - 1;
      }
    } else if key !in m {
      assert m[key := e].Keys == m.Keys + {key};
    } else {
      assert m[key := e].Keys == m.Keys;
    }
  }

  /**
   * A live entry other than the one stored is lost exactly when every entry is
   * live, the table is full and the key is new; then it alone is lost, and none
   * expires sooner.
   */
  lemma LiveLossOnlyWhenFull(m: Entries, key: CacheKey, e: Entry, now: nat, order: seq<CacheKey>, k: CacheKey)
    requires |m| <= MAX_ENTRIES && Walks(order, m)
    requires k in m && k != key && m[k].expires > now
    ensures k !in Inserted(m, key, e, now, order) <==>
            && |m| == MAX_ENTRIES && key !in m
            && (forall x :: x in m ==> m[x].expires > now)
            && Victim(m, order) == Some(k)
    ensures k !in Inserted(m, key, e, now, order) ==>
            && Inserted(m, key, e, now, order) == (m - {k})[key := e]
            && forall x :: x in m ==> m[k].expires <= m[x].expires
    ensures k in Inserted(m, key, e, now, order) ==> Inserted(m, key, e, now, order)[k] == m[k]
  {
    LiveSize(m, now);
    if forall x :: x in m ==> m[x].expires > now {
      assert Unexpired(m, now) == m;
    }
  }

  datatype Op =
    | OpGet(key: CacheKey, now: nat)
    | OpInsert(key: CacheKey, entry: Entry, now: nat, order: seq<CacheKey>)
    | OpFlush(scope: string)
    | OpClear

  function Apply(m: Entries, op: Op): Entries {
    match op
    case OpGet(key, now) => Got(m, key, now).0
    case OpInsert(key, e, now, order) => Inserted(m, key, e, now, order)
    case OpFlush(scope) => Flushed(m, scope)
    case OpClear => map[]
  }

  /** The ideal cache: unbounded, forgetting only what is flushed or overwritten. */
  function ApplyIdeal(m: Entries, op: Op): Entries {
    match op
    case OpGet(_, _) => m
    case OpInsert(key, e, _, _) => m[key := e]
    case OpFlush(scope) => map k | k in m && k.scope != scope :: m[k]
    case OpClear => map[]
  }

  /** A run of operations, each walking the table it finds. */
  ghost predicate IsRun(m: Entries, ops: seq<Op>)
    decreases |ops|
  {
    ops == [] || ((ops[0].OpInsert? ==> Walks(ops[0].order, m)) && IsRun(Apply(m, ops[0]), ops[1..]))
  }

  function Run(m: Entries, ops: seq<Op>): Entries
    decreases |ops|
  {
    if ops == [] then m else Run(Apply(m, ops[0]), ops[1..])
  }

  function RunIdeal(m: Entries, ops: seq<Op>): Entries
    decreases |ops|
  {
    if ops == [] then m else RunIdeal(ApplyIdeal(m, ops[0]), ops[1..])
  }

  predicate Within(m: Entries, ideal: Entries) {
    |m| <= MAX_ENTRIES && forall k :: k in m ==> k in ideal && m[k] == ideal[k]
  }

  lemma ApplyWithin(m: Entries, ideal: Entries, op: Op)
    requires Within(m, ideal) && (op.OpInsert? ==> Walks(op.order, m))
    ensures Within(Apply(m, op), ApplyIdeal(ideal, op))
  {
    match op
    case OpGet(key, now) => SubsetSize(Apply(m, op).Keys, m.Keys);
    case OpInsert(key, e, now, order) => InsertedSize(m, key, e, now, order);
    case OpFlush(scope) => SubsetSize(Apply(m, op).Keys, m.Keys);
    case OpClear =>
  }

  lemma {:induction false} RunWithin(m: Entries, ideal: Entries, ops: seq<Op>)
    requires Within(m, ideal) && IsRun(m, ops)
    ensures Within(Run(m, ops), RunIdeal(ideal, ops))
    decreases |ops|
  {
    if ops != [] {
      ApplyWithin(m, ideal, ops[0]);
      RunWithin(Apply(m, ops[0]), ApplyIdeal(ideal, ops[0]), ops[1..]);
    }
  }

  /**
   * After any run from empty, a lookup returns nothing or the last insert under
   * the key not flushed since, still unexpired and aged; the size stays bounded.
   */
  lemma AgreesWithIdeal(ops: seq<Op>, key: CacheKey, now: nat)
    requires IsRun(map[], ops)
    ensures var m, ideal := Run(map[], ops), RunIdeal(map[], ops);
            && |m| <= MAX_ENTRIES
            && var hit := Got(m, key, now).1;
               hit.Some? ==> key in ideal && ideal[key].expires > now && hit.value == Aged(ideal[key], now)
  {
    RunWithin(map[], map[], ops);
  }

  /** A record's TTL in a hit, and what is left of the entry. */
  lemma AgedTtls(e: Entry, now: nat, i: nat)
    requires now < e.expires && i < |e.records|
    ensures Aged(e, now).records[i] == e.records[i].(ttl := Aged(e, now).records[i].ttl)
    ensures Aged(e, now).records[i].ttl * SECOND <= e.expires - now
  {
    assert Remaining(e, now) * SECOND <= e.expires - now;
    assert Remaining(e, now) % 0x1_0000_0000 <= Remaining(e, now);
  }
}
