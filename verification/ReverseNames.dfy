/** Reverse-mapping names and the addresses they denote. */
module ReverseNames {
  import opened Bytes
  import opened Results
  import opened Names
  import opened Dns

  // The zones in-addr.arpa and ip6.arpa.
  const IN_ADDR: Name := [[105, 110, 45, 97, 100, 100, 114], [97, 114, 112, 97]]
  const IP6: Name := [[105, 112, 54], [97, 114, 112, 97]]

  // ------------------------------------------------------------------ octets

  function DecimalText(o: byte): (s: seq<byte>)
    ensures 1 <= |s| <= 3 && forall j :: 0 <= j < |s| ==> Plain(s[j])
  {
    if o < 10 then [48 + o]
    else if o < 100 then [48 + o / 10, 48 + o % 10]
    else [48 + o / 100, 48 + o / 10 % 10, 48 + o % 10]
  }

  /** Decimal digits, most significant first, refusing a value above 255. */
  function ParseDigits(l: seq<byte>, acc: byte): Option<byte> {
    if l == [] then Some(acc)
    else if !(48 <= l[0] <= 57) then None
    else
      var v := acc as int * 10 + (l[0] as int - 48);
      if v > 255 then None else ParseDigits(l[1..], v)
  }

  /** An octet in decimal: one optional plus sign, then at least one digit. */
  function ParseOctet(l: seq<byte>): Option<byte> {
    var digits := if |l| > 1 && l[0] == 43 then l[1..] else l;
    if digits == [] then None else ParseDigits(digits, 0)
  }

  lemma OctetRoundTrip(o: byte)
    ensures ParseOctet(DecimalText(o)) == Some(o)
  {
    var s := DecimalText(o);
    if o < 10 {
      assert s[1..] == [];
      assert ParseDigits(s[1..], o) == Some(o);
    } else if o < 100 {
      assert s[1..] == [48 + o % 10] && s[1..][1..] == [];
      assert ParseDigits(s[1..], o / 10) == Some(o);
    } else {
      assert s[1..] == [48 + o / 10 % 10, 48 + o % 10];
      assert s[1..][1..] == [48 + o % 10] && s[1..][1..][1..] == [];
      assert ParseDigits(s[1..][1..], o / 10) == Some(o);
      assert ParseDigits(s[1..], o / 100) == Some(o);
    }
  }

  // ----------------------------------------------------------------- nibbles

  function HexDigit(x: nat): byte
    requires x < 16
  {
    if x < 10 then 48 + x else 87 + x
  }

  function ParseHex(b: byte): Option<nat> {
    if 48 <= b <= 57 then Some(b as int - 48)
    else if 97 <= b <= 102 then Some(b as int - 87)
    else if 65 <= b <= 70 then Some(b as int - 55)
    else None
  }

  /** The `k` low nibbles of `x`, least significant first, one label each. */
  function Nibbles(x: nat, k: nat): (n: Name)
    ensures |n| == k
    ensures forall i :: 0 <= i < |n| ==> |n[i]| == 1 && Plain(n[i][0])
  {
    if k == 0 then [] else [[HexDigit(x % 16)]] + Nibbles(x / 16, k - 1)
  }

  /** The number one-digit labels denote, least significant first. */
  function FromNibbles(n: Name): Option<nat> {
    if n == [] then Some(0)
    else if |n[0]| != 1 || ParseHex(n[0][0]).None? then None
    else match FromNibbles(n[1..])
      case None => None
      case Some(v) => Some(ParseHex(n[0][0]).value + 16 * v)
  }

  function Pow16(k: nat): nat {
    if k == 0 then 1 else 16 * Pow16(k - 1)
  }

  lemma {:induction false} NibblesRoundTrip(x: nat, k: nat)
    requires x < Pow16(k)
    ensures FromNibbles(Nibbles(x, k)) == Some(x)
  {
    if k > 0 {
      NibblesRoundTrip(x / 16, k - 1);
      assert Nibbles(x, k)[1..] == Nibbles(x / 16, k - 1);
    }
  }

  lemma {:induction false} FromNibblesBound(n: Name)
    ensures FromNibbles(n).Some? ==> FromNibbles(n).value < Pow16(|n|)
  {
    if n != [] { FromNibblesBound(n[1..]); }
  }

  lemma Pow16Is128()
    ensures Pow16(32) == 0x1_0000_0000_0000_0000_0000_0000_0000_0000
  {
    assert Pow16(8) == 0x1_0000_0000;
    Pow16Sum(8, 8);
    Pow16Sum(16, 16);
  }

  lemma {:induction false} Pow16Sum(a: nat, b: nat)
    ensures Pow16(a + b) == Pow16(a) * Pow16(b)
  {
    if a > 0 {
      Pow16Sum(a - 1, b);
      assert Pow16(a + b) == 16 * (Pow16(a - 1) * Pow16(b)) == Pow16(a) * Pow16(b);
    }
  }

  // ------------------------------------------------------------------- names

  /** The four octets reversed under `in-addr.arpa`, or 32 nibbles under `ip6.arpa`. */
  function ReverseName(addr: IpAddr): (n: Name) {
    match addr
    case V4(a) =>
      [DecimalText(a % 0x100), DecimalText(a / 0x100 % 0x100),
       DecimalText(a / 0x1_0000 % 0x100), DecimalText(a / 0x100_0000)] + IN_ADDR
    case V6(a) => Nibbles(a, 32) + IP6
  }

  /** The address a name denotes, if it is a reverse-mapping name. */
  function ReverseAddress(n: Name): Option<IpAddr> {
    if |n| == 6 && EndsWith(n, IN_ADDR) then
      match (ParseOctet(n[0]), ParseOctet(n[1]), ParseOctet(n[2]), ParseOctet(n[3]))
      case (Some(d), Some(c), Some(b), Some(a)) =>
        Some(V4(((a as int * 0x100 + b as int) * 0x100 + c as int) * 0x100 + d as int))
      case _ => None
    else if |n| == 34 && EndsWith(n, IP6) then
      FromNibblesBound(n[..32]);
      Pow16Is128();
      match FromNibbles(n[..32])
      case Some(v) => Some(V6(v))
      case None => None
    else None
  }

  lemma SuffixEndsWith(n: Name, suffix: Name)
    ensures EndsWith(n + suffix, suffix)
  {
    assert (n + suffix)[|n|..] == suffix;
  }

  lemma OctetsOf(a: u32)
    ensures ((a / 0x100_0000 * 0x100 + a / 0x1_0000 % 0x100) * 0x100 + a / 0x100 % 0x100) * 0x100 + a % 0x100 == a
  {
    assert a / 0x1_0000 == a / 0x100 / 0x100 && a / 0x100_0000 == a / 0x1_0000 / 0x100;
  }

  lemma ReverseV4RoundTrip(a: u32)
    ensures ReverseAddress(ReverseName(V4(a))) == Some(V4(a))
  {
    hide EndsWith, ParseOctet, DecimalText;
    var n := ReverseName(V4(a));
    SuffixEndsWith(n[..4], IN_ADDR);
    assert n == n[..4] + IN_ADDR;
    OctetRoundTrip(a % 0x100);
    OctetRoundTrip(a / 0x100 % 0x100);
    OctetRoundTrip(a / 0x1_0000 % 0x100);
    OctetRoundTrip(a / 0x100_0000);
    OctetsOf(a);
  }

  lemma ReverseV6RoundTrip(a: u128)
    ensures ReverseAddress(ReverseName(V6(a))) == Some(V6(a))
  {
    hide EndsWith, Nibbles, FromNibbles, Pow16;
    var n := ReverseName(V6(a));
    SuffixEndsWith(Nibbles(a, 32), IP6);
    assert n[..32] == Nibbles(a, 32);
    Pow16Is128();
    NibblesRoundTrip(a, 32);
  }

  /** A reverse name denotes the address it was made from. */
  lemma ReverseRoundTrip(addr: IpAddr)
    ensures ReverseAddress(ReverseName(addr)) == Some(addr)
  {
    match addr
    case V4(a) => ReverseV4RoundTrip(a);
    case V6(a) => ReverseV6RoundTrip(a);
  }

  // ------------------------------------------------------- without case

  lemma LowerRest(a: Label, b: Label)
    requires LowerLabel(a) == LowerLabel(b) && a != []
    ensures |a| == |b| && LowerByte(a[0]) == LowerByte(b[0]) && LowerLabel(a[1..]) == LowerLabel(b[1..])
  {
    assert |LowerLabel(a)| == |a| && |LowerLabel(b)| == |b|;
    assert LowerLabel(a)[0] == LowerByte(a[0]) && LowerLabel(b)[0] == LowerByte(b[0]);
    assert LowerLabel(a[1..]) == LowerLabel(a)[1..] && LowerLabel(b[1..]) == LowerLabel(b)[1..];
  }

  lemma {:induction false} DigitsIgnoreCase(a: Label, b: Label, acc: byte)
    requires LowerLabel(a) == LowerLabel(b)
    ensures ParseDigits(a, acc) == ParseDigits(b, acc)
    decreases |a|
  {
    assert |LowerLabel(a)| == |a| && |LowerLabel(b)| == |b|;
    if a != [] {
      LowerRest(a, b);
      if 48 <= a[0] <= 57 && acc as int * 10 + (a[0] as int - 48) <= 255 {
        DigitsIgnoreCase(a[1..], b[1..], acc as int * 10 + (a[0] as int - 48));
      }
    }
  }

  lemma OctetIgnoresCase(a: Label, b: Label)
    requires LowerLabel(a) == LowerLabel(b)
    ensures ParseOctet(a) == ParseOctet(b)
  {
    hide ParseDigits;
    assert |LowerLabel(a)| == |a| && |LowerLabel(b)| == |b|;
    if a != [] { LowerRest(a, b); }
    if |a| > 1 && a[0] == 43 {
      DigitsIgnoreCase(a[1..], b[1..], 0);
    } else {
      DigitsIgnoreCase(a, b, 0);
    }
  }

  lemma {:induction false} NibblesIgnoreCase(a: Name, b: Name)
    requires SameName(a, b)
    ensures FromNibbles(a) == FromNibbles(b)
    decreases |a|
  {
    assert |Lower(a)| == |a| && |Lower(b)| == |b|;
    if a != [] {
      LowerAt(a, b, 0);
      assert |LowerLabel(a[0])| == |a[0]| && |LowerLabel(b[0])| == |b[0]|;
      if |a[0]| == 1 { LowerRest(a[0], b[0]); }
      SameNameSlice(a, b, 1, |a|);
      assert a[1..|a|] == a[1..] && b[1..|a|] == b[1..];
      NibblesIgnoreCase(a[1..], b[1..]);
    }
  }

  /** The address a name denotes does not depend on the case it is written in. */
  lemma ReverseIgnoresCase(a: Name, b: Name)
    requires SameName(a, b)
    ensures ReverseAddress(a) == ReverseAddress(b)
  {
    hide ParseOctet, FromNibbles, EndsWith, Pow16;
    assert |Lower(a)| == |a| && |Lower(b)| == |b|;
    EndsWithIgnoresCase(a, b, IN_ADDR);
    EndsWithIgnoresCase(a, b, IP6);
    if |a| == 6 {
      forall i | 0 <= i < 4 ensures ParseOctet(a[i]) == ParseOctet(b[i]) {
        LowerAt(a, b, i);
        OctetIgnoresCase(a[i], b[i]);
      }
    } else if |a| == 34 {
      SameNameSlice(a, b, 0, 32);
      NibblesIgnoreCase(a[..32], b[..32]);
    }
  }

  // --------------------------------------------- through presentation form

  /** An octet the printer leaves as it is. */
  predicate Plain(b: byte) {
    0x21 <= b <= 0x7e && b != DOT && b != BACKSLASH
  }

  predicate PlainName(n: Name) {
    forall i, j :: 0 <= i < |n| && 0 <= j < |n[i]| ==> Plain(n[i][j])
  }

  lemma {:induction false} ShowPlainLabel(l: Label)
    requires forall j :: 0 <= j < |l| ==> Plain(l[j])
    ensures ShowLabel(l) == l && DOT !in l
  {
    if l != [] { ShowPlainLabel(l[1..]); }
  }

  lemma {:induction false} ShowPlain(n: Name)
    requires n != [] && PlainName(n)
    ensures Show(n) == Dotted(n) && DotFree(n)
  {
    ShowPlainLabel(n[0]);
    if |n| > 1 {
      forall i, j | 0 <= i < |n[1..]| && 0 <= j < |n[1..][i]| ensures Plain(n[1..][i][j]) {
        assert n[1..][i] == n[i + 1];
      }
      ShowPlain(n[1..]);
      forall i | 0 <= i < |n| ensures DOT !in n[i] {
        if i > 0 { assert n[i] == n[1..][i - 1]; }
      }
    }
  }

  /** A name of plain octets survives printing and parsing. */
  lemma ParseShown(n: Name)
    requires n != [] && ValidName(n) && PlainName(n)
    ensures Parse(Show(n)) == Ok(n)
  {
    ShowPlain(n);
    ParseDotted(n);
  }

  lemma {:induction false} WireLenAtMost(n: Name, k: nat)
    requires forall i :: 0 <= i < |n| ==> |n[i]| <= k
    ensures WireLen(n) <= |n| * (k + 1) + 1
  {
    if n != [] {
      WireLenAtMost(n[1..], k);
      assert |n| * (k + 1) == (|n| - 1) * (k + 1) + (k + 1);
    }
  }

  /** Plain labels of at most `k` octets. */
  predicate Tame(n: Name, k: nat) {
    forall i :: 0 <= i < |n| ==> 1 <= |n[i]| <= k && forall j :: 0 <= j < |n[i]| ==> Plain(n[i][j])
  }

  lemma TameConcat(a: Name, b: Name, k: nat)
    requires Tame(a, k) && Tame(b, k)
    ensures Tame(a + b, k)
  {
  }

  lemma TameParses(n: Name, k: nat)
    requires n != [] && Tame(n, k) && k <= 63 && |n| * (k + 1) < MAX_NAME_LEN
    ensures ValidName(n) && Parse(Show(n)) == Ok(n)
  {
    WireLenAtMost(n, k);
    ParseShown(n);
  }

  lemma ZonesTame()
    ensures Tame(IN_ADDR, 7) && Tame(IP6, 4)
  {
  }

  lemma V4Tame(a: u32)
    ensures Tame(ReverseName(V4(a)), 7)
  {
    hide DecimalText, Plain;
    var n: Name := [DecimalText(a % 0x100), DecimalText(a / 0x100 % 0x100),
                    DecimalText(a / 0x1_0000 % 0x100), DecimalText(a / 0x100_0000)];
    ZonesTame();
    TameConcat(n, IN_ADDR, 7);
  }

  lemma V6Tame(a: u128)
    ensures Tame(ReverseName(V6(a)), 4)
  {
    hide Nibbles, Plain;
    ZonesTame();
    TameConcat(Nibbles(a, 32), IP6, 4);
  }

  /** A reverse name is valid and is parsed back from its printed form. */
  lemma ReverseNameParses(addr: IpAddr)
    ensures ValidName(ReverseName(addr)) && |ReverseName(addr)| >= 2
    ensures Parse(Show(ReverseName(addr))) == Ok(ReverseName(addr))
  {
    hide Tame, Parse, Show, ValidName;
    match addr
    case V4(a) =>
      V4Tame(a);
      TameParses(ReverseName(addr), 7);
    case V6(a) =>
      V6Tame(a);
      TameParses(ReverseName(addr), 4);
  }
}
