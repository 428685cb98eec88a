/** Domain names: labels kept as they arrived, compared without regard to ASCII case. */
module Names {
  import opened Bytes
  import opened Results

  const MAX_NAME_LEN: nat := 255
  const MAX_LABEL_LEN: nat := 63

  const DOT: byte := 46
  const BACKSLASH: byte := 92

  type Label = seq<byte>
  type Name = seq<Label>

  datatype NameError = BadName | NameTooLong

  predicate ValidLabel(l: Label) {
    1 <= |l| <= MAX_LABEL_LEN
  }

  /** Octets on the wire, uncompressed, root label included. */
  function WireLen(n: Name): (len: nat)
    ensures len >= 1
  {
    if n == [] then 1 else |n[0]| + 1 + WireLen(n[1..])
  }

  /** What every constructor of a name checks. */
  predicate ValidName(n: Name) {
    (forall i :: 0 <= i < |n| ==> ValidLabel(n[i])) && WireLen(n) <= MAX_NAME_LEN
  }

  // ------------------------------------------------------------------ case

  function LowerByte(b: byte): byte {
    if 65 <= b <= 90 then b + 32 else b
  }

  function LowerLabel(l: Label): (r: Label)
    ensures |r| == |l|
  {
    seq(|l|, i requires 0 <= i < |l| => LowerByte(l[i]))
  }

  function Lower(n: Name): (r: Name)
    ensures |r| == |n|
  {
    seq(|n|, i requires 0 <= i < |n| => LowerLabel(n[i]))
  }

  /** Equality of names: RFC 4343, ASCII case is not significant. */
  predicate SameName(a: Name, b: Name) {
    Lower(a) == Lower(b)
  }

  /** Names of the same shape have the same wire length. */
  lemma {:induction false} SameShape(a: Name, b: Name)
    requires |a| == |b|
    requires forall i :: 0 <= i < |a| ==> |a[i]| == |b[i]|
    ensures WireLen(a) == WireLen(b)
    ensures ValidName(a) <==> ValidName(b)
  {
    if a != [] {
      SameShape(a[1..], b[1..]);
      assert ValidName(a) ==> ValidName(b) by {
        if ValidName(a) {
          forall i | 0 <= i < |b| ensures ValidLabel(b[i]) { assert ValidLabel(a[i]); }
        }
      }
      assert ValidName(b) ==> ValidName(a) by {
        if ValidName(b) {
          forall i | 0 <= i < |a| ensures ValidLabel(a[i]) { assert ValidLabel(b[i]); }
        }
      }
    }
  }

  lemma SameNameShape(a: Name, b: Name)
    requires SameName(a, b)
    ensures |a| == |b| && WireLen(a) == WireLen(b)
    ensures ValidName(a) <==> ValidName(b)
  {
    forall i | 0 <= i < |a| ensures |a[i]| == |b[i]| {
      assert |Lower(a)[i]| == |a[i]| && |Lower(b)[i]| == |b[i]|;
    }
    SameShape(a, b);
  }

  /** `n` is `suffix`, or ends with it at a label boundary. */
  predicate EndsWith(n: Name, suffix: Name) {
    |suffix| <= |n| && SameName(n[|n| - |suffix|..], suffix)
  }

  lemma LowerAt(a: Name, b: Name, i: nat)
    requires SameName(a, b) && i < |a|
    ensures |a| == |b| && LowerLabel(a[i]) == LowerLabel(b[i])
  {
    assert |Lower(a)| == |a| && |Lower(b)| == |b|;
    assert Lower(a)[i] == LowerLabel(a[i]) && Lower(b)[i] == LowerLabel(b[i]);
  }

  lemma SameNameSlice(a: Name, b: Name, i: nat, j: nat)
    requires SameName(a, b) && i <= j <= |a|
    ensures |a| == |b| && SameName(a[i..j], b[i..j])
  {
    assert |Lower(a)| == |a| && |Lower(b)| == |b|;
    forall k | 0 <= k < j - i ensures Lower(a[i..j])[k] == Lower(b[i..j])[k] {
      assert Lower(a)[i + k] == Lower(b)[i + k];
    }
    assert Lower(a[i..j]) == Lower(b[i..j]);
  }

  /** Suffixes are matched without regard to case. */
  lemma EndsWithIgnoresCase(a: Name, b: Name, suffix: Name)
    requires SameName(a, b)
    ensures EndsWith(a, suffix) == EndsWith(b, suffix)
  {
    assert |Lower(a)| == |a| && |Lower(b)| == |b|;
    if |suffix| <= |a| {
      SameNameSlice(a, b, |a| - |suffix|, |a|);
      assert a[|a| - |suffix|..|a|] == a[|a| - |suffix|..] && b[|a| - |suffix|..|a|] == b[|a| - |suffix|..];
    }
  }

  function FromLabels(labels: Name): (r: Result<Name, NameError>)
    ensures r.Ok? <==> ValidName(labels)
    ensures r.Ok? ==> r.value == labels
  {
    if exists i :: 0 <= i < |labels| && !ValidLabel(labels[i]) then Err(BadName)
    else if WireLen(labels) > MAX_NAME_LEN then Err(NameTooLong)
    else Ok(labels)
  }

  function Join(n: Name, suffix: Name): Result<Name, NameError> {
    FromLabels(n + suffix)
  }

  // ---------------------------------------------------------- presentation

  /** The pieces of `s` between dots: always at least one. */
  function SplitDots(s: seq<byte>): (r: seq<seq<byte>>)
    ensures |r| > 0
  {
    if s == [] then [[]]
    else
      var rest := SplitDots(s[1..]);
      if s[0] == DOT then [[]] + rest else [[s[0]] + rest[0]] + rest[1..]
  }

  function StripDot(s: seq<byte>): seq<byte> {
    if s != [] && s[|s| - 1] == DOT then s[..|s| - 1] else s
  }

  /** Presentation form without escapes: `www.example.com` or `www.example.com.`. */
  function Parse(s: seq<byte>): (r: Result<Name, NameError>)
    ensures r.Ok? ==> ValidName(r.value)
  {
    var t := StripDot(s);
    if t == [] then Ok([]) else FromLabels(SplitDots(t))
  }

  lemma ParsedValid(text: seq<byte>)
    requires Parse(text).Ok?
    ensures ValidName(Parse(text).value)
  {
  }

  /** The labels joined by dots. */
  function Dotted(n: Name): seq<byte> {
    if n == [] then [] else if |n| == 1 then n[0] else n[0] + [DOT] + Dotted(n[1..])
  }

  predicate DotFree(n: Name) {
    forall i :: 0 <= i < |n| ==> DOT !in n[i]
  }

  lemma {:induction false} SplitLabel(l: Label, rest: seq<byte>)
    requires DOT !in l
    ensures SplitDots(l + [DOT] + rest) == [l] + SplitDots(rest)
  {
    var s := l + [DOT] + rest;
    if l == [] {
      assert s[1..] == rest;
    } else {
      assert s[1..] == l[1..] + [DOT] + rest;
      SplitLabel(l[1..], rest);
      assert s[0] == l[0] && l[0] in l;
      assert [l[0]] + l[1..] == l;
    }
  }

  lemma {:induction false} SplitLast(l: Label)
    requires DOT !in l
    ensures SplitDots(l) == [l]
  {
    if l != [] {
      SplitLast(l[1..]);
      assert l[0] in l;
      assert [l[0]] + l[1..] == l;
    }
  }

  lemma {:induction false} SplitDotted(n: Name)
    requires n != [] && DotFree(n)
    ensures SplitDots(Dotted(n)) == n
  {
    if |n| == 1 {
      SplitLast(n[0]);
    } else {
      SplitLabel(n[0], Dotted(n[1..]));
      SplitDotted(n[1..]);
    }
  }

  lemma {:induction false} DottedEnd(n: Name)
    requires n != [] && DotFree(n)
    requires forall i :: 0 <= i < |n| ==> n[i] != []
    ensures Dotted(n) != [] && Dotted(n)[|Dotted(n)| - 1] != DOT
  {
    if |n| > 1 {
      DottedEnd(n[1..]);
    } else {
      assert n[0][|n[0]| - 1] in n[0];
    }
  }

  /** Parsing undoes dotting, with or without the trailing dot. */
  lemma ParseDotted(n: Name)
    requires ValidName(n) && DotFree(n)
    ensures Parse(Dotted(n)) == Ok(n)
    ensures Parse(Dotted(n) + [DOT]) == Ok(n)
  {
    if n != [] {
      forall i | 0 <= i < |n| ensures n[i] != [] { assert ValidLabel(n[i]); }
      DottedEnd(n);
      SplitDotted(n);
      assert (Dotted(n) + [DOT])[..|Dotted(n)|] == Dotted(n);
    }
  }

  /** One octet in the escaped presentation form. */
  function ShowByte(b: byte): (s: seq<byte>)
    ensures s != [] && s[0] != DOT
  {
    if b == DOT || b == BACKSLASH then [BACKSLASH, b]
    else if 0x21 <= b <= 0x7e then [b]
    else [BACKSLASH, 48 + b / 100, 48 + b / 10 % 10, 48 + b % 10]
  }

  function ShowLabel(l: Label): seq<byte> {
    if l == [] then [] else ShowByte(l[0]) + ShowLabel(l[1..])
  }

  function ShowLabels(n: Name): seq<byte>
    requires n != []
  {
    if |n| == 1 then ShowLabel(n[0]) else ShowLabel(n[0]) + [DOT] + ShowLabels(n[1..])
  }

  /** The escaped presentation form; the root is a single dot. */
  function Show(n: Name): seq<byte> {
    if n == [] then [DOT] else ShowLabels(n)
  }

  /** `l` in front of the first label of `n`. */
  function Merge(l: Label, n: Name): Name
    requires n != []
  {
    [l + n[0]] + n[1..]
  }

  function Decimal(a: byte, b: byte, c: byte): byte {
    ((a as int - 48) * 100 + (b as int - 48) * 10 + (c as int - 48)) % 0x100
  }

  /** Reads the escaped form back, for any octet string. */
  function Unshow(s: seq<byte>): (n: Name)
    ensures n != []
  {
    if s == [] then [[]]
    else if s[0] == DOT then [[]] + Unshow(s[1..])
    else if s[0] == BACKSLASH && |s| >= 2 && (s[1] == DOT || s[1] == BACKSLASH) then
      Merge([s[1]], Unshow(s[2..]))
    else if s[0] == BACKSLASH && |s| >= 4 then
      Merge([Decimal(s[1], s[2], s[3])], Unshow(s[4..]))
    else Merge([s[0]], Unshow(s[1..]))
  }

  lemma UnshowByte(b: byte, rest: seq<byte>)
    ensures Unshow(ShowByte(b) + rest) == Merge([b], Unshow(rest))
  {
    hide Unshow, Merge, Decimal;
    if b == DOT || b == BACKSLASH {
      UnshowEscaped(b, rest);
    } else if 0x21 <= b <= 0x7e {
      UnshowPlain(b, rest);
    } else {
      DecimalDigits(b);
      UnshowDecimal(48 + b / 100, 48 + b / 10 % 10, 48 + b % 10, rest);
    }
  }

  lemma DecimalDigits(b: byte)
    ensures Decimal(48 + b / 100, 48 + b / 10 % 10, 48 + b % 10) == b
  {
    var h, t, u := b / 100, b / 10 % 10, b % 10;
    assert b / 10 / 10 == h && b / 10 == h * 10 + t && b == b / 10 * 10 + u;
  }

  lemma UnshowEscaped(b: byte, rest: seq<byte>)
    requires b == DOT || b == BACKSLASH
    ensures Unshow([BACKSLASH, b] + rest) == Merge([b], Unshow(rest))
  {
    var s := [BACKSLASH, b] + rest;
    assert s[0] == BACKSLASH && s[1] == b && s[2..] == rest;
    hide Merge;
  }

  lemma UnshowPlain(b: byte, rest: seq<byte>)
    requires b != DOT && b != BACKSLASH
    ensures Unshow([b] + rest) == Merge([b], Unshow(rest))
  {
    var s := [b] + rest;
    assert s[0] == b && s[1..] == rest;
    hide Merge;
  }

  lemma UnshowDecimal(x: byte, y: byte, z: byte, rest: seq<byte>)
    requires x != DOT && x != BACKSLASH
    ensures Unshow([BACKSLASH, x, y, z] + rest) == Merge([Decimal(x, y, z)], Unshow(rest))
  {
    var s := [BACKSLASH, x, y, z] + rest;
    assert s[0] == BACKSLASH && s[1] == x && s[2] == y && s[3] == z && s[4..] == rest;
    hide Merge, Decimal;
  }

  lemma MergeMerge(a: Label, b: Label, n: Name)
    requires n != []
    ensures Merge(a, Merge(b, n)) == Merge(a + b, n)
  {
    assert a + (b + n[0]) == (a + b) + n[0];
  }

  lemma {:induction false} UnshowLabel(l: Label, rest: seq<byte>)
    ensures Unshow(ShowLabel(l) + rest) == Merge(l, Unshow(rest))
  {
    if l == [] {
      assert ShowLabel(l) + rest == rest;
      assert l + Unshow(rest)[0] == Unshow(rest)[0];
    } else {
      var tail := ShowLabel(l[1..]) + rest;
      assert ShowLabel(l) + rest == ShowByte(l[0]) + tail;
      UnshowByte(l[0], tail);
      UnshowLabel(l[1..], rest);
      MergeMerge([l[0]], l[1..], Unshow(rest));
      assert [l[0]] + l[1..] == l;
    }
  }

  lemma {:induction false} UnshowLabels(n: Name)
    requires n != []
    ensures Unshow(ShowLabels(n)) == n
  {
    if |n| == 1 {
      UnshowLabel(n[0], []);
      assert ShowLabel(n[0]) + [] == ShowLabel(n[0]);
      assert n[0] + [] == n[0];
    } else {
      UnshowLabels(n[1..]);
      var rest := [DOT] + ShowLabels(n[1..]);
      assert rest[1..] == ShowLabels(n[1..]);
      UnshowLabel(n[0], rest);
      assert ShowLabels(n) == ShowLabel(n[0]) + rest;
      assert n[0] + [] == n[0];
      assert [n[0]] + n[1..] == n;
    }
  }

  lemma ShowNotRoot(n: Name)
    requires ValidName(n) && n != []
    ensures Show(n) != [DOT]
  {
    assert ValidLabel(n[0]);
    assert Show(n)[0] == ShowByte(n[0][0])[0];
  }

  /** The escaped printer is injective on valid names. */
  lemma ShowInjective(a: Name, b: Name)
    requires ValidName(a) && ValidName(b)
    requires Show(a) == Show(b)
    ensures a == b
  {
    if a != [] { ShowNotRoot(a); }
    if b != [] { ShowNotRoot(b); }
    if a != [] && b != [] {
      UnshowLabels(a);
      UnshowLabels(b);
    }
  }

  lemma LowerValid(n: Name)
    ensures ValidName(Lower(n)) <==> ValidName(n)
  {
    SameShape(n, Lower(n));
  }

  /** The lowercase printer tells apart exactly the names that differ by more than case. */
  lemma ShowLowerInjective(a: Name, b: Name)
    requires ValidName(a) && ValidName(b)
    ensures Show(Lower(a)) == Show(Lower(b)) <==> SameName(a, b)
  {
    LowerValid(a);
    LowerValid(b);
    if Show(Lower(a)) == Show(Lower(b)) { ShowInjective(Lower(a), Lower(b)); }
  }
}
