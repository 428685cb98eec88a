/** Sizes of sets and maps, and sequences picked out of others by a mask. */
module Sets {
  lemma SubsetSize<T>(a: set<T>, b: set<T>)
    requires a <= b
    ensures |a| <= |b| && (|a| == |b| ==> a == b)
  {
    var d := b - a;
    assert b == a + d && a !! d;
    assert |b| == |a| + |d|;
  }

  lemma MapMore<K, V>(m: map<K, V>, k: K, v: V)
    requires k !in m
    ensures |m[k := v]| == |m| + 1
  {
    assert m[k := v].Keys == m.Keys + {k};
  }

  // ------------------------------------------------------------------ masks

  /** The positions before `n` that the mask keeps. */
  function Below(keep: seq<bool>, n: nat): set<nat>
    requires n <= |keep|
  {
    set j: nat | j < n && keep[j]
  }

  /** `out` is what the mask keeps of `all`, in order: each kept position goes where the count before it says. */
  ghost predicate Sifted<T>(out: seq<T>, keep: seq<bool>, all: seq<T>)
    requires |keep| == |all|
  {
    && |out| == |Below(keep, |keep|)|
    && forall i :: 0 <= i < |keep| && keep[i] ==> |Below(keep, i)| < |out| && out[|Below(keep, i)|] == all[i]
  }

  lemma BelowMore(keep: seq<bool>, n: nat)
    requires n < |keep|
    ensures |Below(keep, n + 1)| == |Below(keep, n)| + if keep[n] then 1 else 0
  {
    assert Below(keep, n + 1) == Below(keep, n) + if keep[n] then {n} else {};
  }

  lemma {:induction false} BelowShift(keep: seq<bool>, n: nat)
    requires n < |keep|
    ensures |Below(keep, n + 1)| == |Below(keep[1..], n)| + if keep[0] then 1 else 0
  {
    BelowMore(keep, n);
    if n == 0 {
      assert Below(keep, 0) == {} && Below(keep[1..], 0) == {};
    } else {
      BelowShift(keep, n - 1);
      BelowMore(keep[1..], n - 1);
    }
  }

  /** A first position kept or passed over, before what the rest of the mask keeps. */
  lemma SiftedCons<T>(rest: seq<T>, keep: seq<bool>, all: seq<T>)
    requires keep != [] && |keep| == |all| && Sifted(rest, keep[1..], all[1..])
    ensures Sifted((if keep[0] then [all[0]] else []) + rest, keep, all)
  {
    var out := (if keep[0] then [all[0]] else []) + rest;
    BelowShift(keep, |keep| - 1);
    forall i | 0 <= i < |keep| && keep[i] ensures |Below(keep, i)| < |out| && out[|Below(keep, i)|] == all[i] {
      if i == 0 {
        assert Below(keep, 0) == {};
      } else {
        BelowShift(keep, i - 1);
        assert keep[1..][i - 1] && all[1..][i - 1] == all[i];
      }
    }
  }

  lemma SiftedNone<T>()
    ensures Sifted<T>([], [], [])
  {
    assert Below([], 0) == {};
  }

  /** The sequences one after another. */
  function Flatten<T>(s: seq<seq<T>>): seq<T> {
    if s == [] then [] else s[0] + Flatten(s[1..])
  }

  lemma {:induction false} FlattenSnoc<T>(s: seq<seq<T>>, x: seq<T>)
    ensures Flatten(s + [x]) == Flatten(s) + x
  {
    if s == [] {
      assert s + [x] == [x] && [x][1..] == [] && x + Flatten<T>([]) == x;
    } else {
      assert (s + [x])[0] == s[0] && (s + [x])[1..] == s[1..] + [x];
      FlattenSnoc(s[1..], x);
    }
  }
}
