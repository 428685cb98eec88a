/** The writer and the reader as objects: one grows its buffer, the other moves through its own. */
module MsgPackIo {
  import opened Bytes
  import opened Results
  import opened MsgPack

  class Writer {
    var buf: seq<byte>

    constructor ()
      ensures buf == []
    {
      buf := [];
    }

    method WriteBool(v: bool)
      modifies this
      ensures buf == old(buf) + PackBool(v)
    {
      buf := buf + [if v then 0xc3 else 0xc2];
    }

    method WriteUint(v: u64)
      modifies this
      ensures buf == old(buf) + PackUint(v)
    {
      hide Be;
      if v < 0x80 {
        buf := buf + [v];
      } else if v <= 0xff {
        buf := buf + [0xcc, v];
      } else if v <= 0xffff {
        buf := buf + [0xcd];
        buf := buf + Be(2, v);
      } else if v <= 0xffff_ffff {
        buf := buf + [0xce];
        buf := buf + Be(4, v);
      } else {
        buf := buf + [0xcf];
        buf := buf + Be(8, v);
      }
    }

    method WriteInt(v: i64)
      modifies this
      ensures buf == old(buf) + PackInt(v)
    {
      hide Be;
      if v >= 0 {
        WriteUint(v);
      } else if v >= -32 {
        buf := buf + [v + 0x100];
      } else if v >= -0x80 {
        buf := buf + [0xd0, v + 0x100];
      } else if v >= -0x8000 {
        buf := buf + [0xd1];
        buf := buf + Be(2, v + 0x1_0000);
      } else if v >= -0x8000_0000 {
        buf := buf + [0xd2];
        buf := buf + Be(4, v + 0x1_0000_0000);
      } else {
        buf := buf + [0xd3];
        buf := buf + Be(8, v + 0x1_0000_0000_0000_0000);
      }
    }

    method WriteStr(s: seq<byte>)
      modifies this
      ensures buf == old(buf) + PackStr(s)
    {
      hide Be;
      var n := |s|;
      if n < 32 {
        buf := buf + [0xa0 + n];
      } else if n <= 0xff {
        buf := buf + [0xd9, n];
      } else if n <= 0xffff {
        buf := buf + [0xda];
        buf := buf + Be(2, n);
      } else {
        buf := buf + [0xdb];
        buf := buf + Be(4, n);
      }
      buf := buf + s;
    }

    method WriteBin(s: seq<byte>)
      modifies this
      ensures buf == old(buf) + PackBin(s)
    {
      hide Be;
      var n := |s|;
      if n <= 0xff {
        buf := buf + [0xc4, n];
      } else if n <= 0xffff {
        buf := buf + [0xc5];
        buf := buf + Be(2, n);
      } else {
        buf := buf + [0xc6];
        buf := buf + Be(4, n);
      }
      buf := buf + s;
    }

    method WriteArray(n: u32)
      modifies this
      ensures buf == old(buf) + ArrayHead(n)
    {
      hide Be;
      if n < 16 {
        buf := buf + [0x90 + n];
      } else if n <= 0xffff {
        buf := buf + [0xdc];
        buf := buf + Be(2, n);
      } else {
        buf := buf + [0xdd];
        buf := buf + Be(4, n);
      }
    }

    method WriteMap(n: u32)
      modifies this
      ensures buf == old(buf) + MapHead(n)
    {
      hide Be;
      if n < 16 {
        buf := buf + [0x80 + n];
      } else if n <= 0xffff {
        buf := buf + [0xde];
        buf := buf + Be(2, n);
      } else {
        buf := buf + [0xdf];
        buf := buf + Be(4, n);
      }
    }
  }

  /** The object returned what reading from the old position gives, and on success moved to its end. */
  predicate Agrees<T(==)>(r: Result<T, Fault>, spec: Read<T>, pos: nat) {
    match r
    case Ok(v) => spec == Ok((v, pos))
    case Err(e) => spec == Err(e)
  }

  class Reader {
    const buf: seq<byte>
    var pos: nat
    var depth: nat

    predicate Valid()
      reads this
    {
      pos <= |buf| && depth <= MAX_DEPTH
    }

    constructor (bytes: seq<byte>)
      ensures Valid() && buf == bytes && pos == 0 && depth == 0
    {
      buf, pos, depth := bytes, 0, 0;
    }

    method TakeBytes(n: nat) returns (r: Result<seq<byte>, Fault>)
      requires Valid()
      modifies this`pos
      ensures Valid() && pos >= old(pos) && Agrees(r, Take(buf, old(pos), n), pos)
    {
      if pos + n > |buf| { return Err(Truncated); }
      var s := buf[pos..pos + n];
      pos := pos + n;
      return Ok(s);
    }

    method Byte() returns (r: Result<byte, Fault>)
      requires Valid()
      modifies this`pos
      ensures Valid() && pos >= old(pos)
      ensures if old(pos) < |buf| then r == Ok(buf[old(pos)]) && pos == old(pos) + 1 else r == Err(Truncated)
    {
      if pos >= |buf| { return Err(Truncated); }
      var b := buf[pos];
      pos := pos + 1;
      return Ok(b);
    }

    /** A big-endian number, octet by octet. */
    method BeU(n: nat) returns (r: Result<nat, Fault>)
      requires Valid()
      modifies this`pos
      ensures Valid() && pos >= old(pos) && Agrees(r, Num(buf, old(pos), n), pos)
    {
      var s := TakeBytes(n);
      if s.Err? { return Err(s.error); }
      var acc: nat := 0;
      for i := 0 to |s.value|
        invariant acc == UnBe(s.value[..i])
      {
        assert s.value[..i + 1][..i] == s.value[..i];
        acc := acc * 0x100 + s.value[i];
      }
      assert s.value[..|s.value|] == s.value;
      return Ok(acc);
    }

    method ReadBool() returns (r: Result<bool, Fault>)
      requires Valid()
      modifies this`pos
      ensures Valid() && pos >= old(pos) && Agrees(r, MsgPack.ReadBool(buf, old(pos)), pos)
    {
      var b := Byte();
      if b.Err? { return Err(b.error); }
      if b.value == 0xc2 { return Ok(false); }
      if b.value == 0xc3 { return Ok(true); }
      return Err(Type);
    }

    method ReadInt() returns (r: Result<int, Fault>)
      requires Valid()
      modifies this`pos
      ensures Valid() && pos >= old(pos) && Agrees(r, MsgPack.ReadInt(buf, old(pos)), pos)
    {
      hide UnBe, Pow256;
      var t := Byte();
      if t.Err? { return Err(t.error); }
      var b := t.value;
      if b <= 0x7f { return Ok(b); }
      if b >= 0xe0 { return Ok(b as int - 0x100); }
      if 0xcc <= b <= 0xcf {
        var w := if b == 0xcc then 1 else if b == 0xcd then 2 else if b == 0xce then 4 else 8;
        var v := BeU(w);
        if v.Err? { return Err(v.error); }
        if b == 0xcf && v.value >= 0x8000_0000_0000_0000 { return Err(Type); }
        return Ok(v.value);
      }
      if 0xd0 <= b <= 0xd3 {
        var w := if b == 0xd0 then 1 else if b == 0xd1 then 2 else if b == 0xd2 then 4 else 8;
        var v := BeU(w);
        if v.Err? { return Err(v.error); }
        return Ok(Signed(v.value, w));
      }
      return Err(Type);
    }

    method ReadUint() returns (r: Result<nat, Fault>)
      requires Valid()
      modifies this`pos
      ensures Valid() && pos >= old(pos) && Agrees(r, MsgPack.ReadUint(buf, old(pos)), pos)
    {
      hide MsgPack.ReadInt;
      var v := ReadInt();
      if v.Err? { return Err(v.error); }
      if v.value < 0 { return Err(Type); }
      return Ok(v.value);
    }

    method ReadStr() returns (r: Result<seq<byte>, Fault>)
      requires Valid()
      modifies this`pos
      ensures Valid() && pos >= old(pos) && Agrees(r, MsgPack.ReadStr(buf, old(pos)), pos)
    {
      hide UnBe, ValidUtf8;
      var t := Byte();
      if t.Err? { return Err(t.error); }
      var b := t.value;
      var n: nat;
      if 0xa0 <= b <= 0xbf {
        n := b - 0xa0;
      } else if 0xd9 <= b <= 0xdb {
        var v := BeU(if b == 0xd9 then 1 else if b == 0xda then 2 else 4);
        if v.Err? { return Err(v.error); }
        n := v.value;
      } else {
        return Err(Type);
      }
      var s := TakeBytes(n);
      if s.Err? { return Err(s.error); }
      if !ValidUtf8(s.value) { return Err(Utf8); }
      return Ok(s.value);
    }

    method ReadBin() returns (r: Result<seq<byte>, Fault>)
      requires Valid()
      modifies this`pos
      ensures Valid() && pos >= old(pos) && Agrees(r, MsgPack.ReadBin(buf, old(pos)), pos)
    {
      hide UnBe;
      var t := Byte();
      if t.Err? { return Err(t.error); }
      var b := t.value;
      if !(0xc4 <= b <= 0xc6) { return Err(Type); }
      var n := BeU(if b == 0xc4 then 1 else if b == 0xc5 then 2 else 4);
      if n.Err? { return Err(n.error); }
      r := TakeBytes(n.value);
    }

    method ReadArray() returns (r: Result<nat, Fault>)
      requires Valid()
      modifies this`pos
      ensures Valid() && pos >= old(pos) && Agrees(r, MsgPack.ReadArray(buf, old(pos)), pos)
      ensures r.Ok? ==> pos > old(pos)
    {
      hide UnBe;
      var t := Byte();
      if t.Err? { return Err(t.error); }
      var b := t.value;
      var n: nat;
      if 0x90 <= b <= 0x9f {
        n := b - 0x90;
      } else if b == 0xdc || b == 0xdd {
        var v := BeU(if b == 0xdc then 2 else 4);
        if v.Err? { return Err(v.error); }
        n := v.value;
      } else {
        return Err(Type);
      }
      if n > |buf| - pos { return Err(Truncated); }
      return Ok(n);
    }

    method ReadMap() returns (r: Result<nat, Fault>)
      requires Valid()
      modifies this`pos
      ensures Valid() && pos >= old(pos) && Agrees(r, MsgPack.ReadMap(buf, old(pos)), pos)
      ensures r.Ok? ==> pos > old(pos)
    {
      hide UnBe;
      var t := Byte();
      if t.Err? { return Err(t.error); }
      var b := t.value;
      var n: nat;
      if 0x80 <= b <= 0x8f {
        n := b - 0x80;
      } else if b == 0xde || b == 0xdf {
        var v := BeU(if b == 0xde then 2 else 4);
        if v.Err? { return Err(v.error); }
        n := v.value;
      } else {
        return Err(Type);
      }
      if n * 2 > |buf| - pos { return Err(Truncated); }
      return Ok(n);
    }

    /** One value of no interest: past it on success, at the depth it was found. */
    method Skip() returns (r: Result<(), Fault>)
      requires Valid()
      modifies this
      ensures r.Ok? ==> Valid() && pos > old(pos) && depth == old(depth)
                        && MsgPack.Skip(buf, old(pos), old(depth)) == Ok(pos)
      ensures r.Err? ==> MsgPack.Skip(buf, old(pos), old(depth)) == Err(r.error)
      decreases |buf| - pos, 0
    {
      hide MsgPack.ReadArray, MsgPack.ReadMap, SkipLeaf;
      if pos >= |buf| { return Err(Truncated); }
      var b := buf[pos];
      if IsArray(b) {
        var n := ReadArray();
        if n.Err? { return Err(n.error); }
        r := Nested(n.value);
      } else if IsMap(b) {
        var n := ReadMap();
        if n.Err? { return Err(n.error); }
        r := Nested(2 * n.value);
      } else {
        r := SkipScalar();
      }
    }

    /** The items of a container: its values, or its keys and values in turn. */
    method Nested(n: nat) returns (r: Result<(), Fault>)
      requires Valid()
      modifies this
      ensures r.Ok? ==> Valid() && pos >= old(pos) && depth == old(depth)
      ensures r.Ok? ==> old(depth) < MAX_DEPTH && SkipAll(buf, old(pos), n, old(depth) + 1) == Ok(pos)
      ensures r.Err? ==>
                if old(depth) + 1 > MAX_DEPTH then r.error == Depth
                else SkipAll(buf, old(pos), n, old(depth) + 1) == Err(r.error)
      decreases |buf| - pos, 1
    {
      hide MsgPack.Skip;
      depth := depth + 1;
      if depth > MAX_DEPTH { return Err(Depth); }
      for i := 0 to n
        invariant Valid() && pos >= old(pos) && depth == old(depth) + 1
        invariant SkipAll(buf, pos, n - i, depth) == SkipAll(buf, old(pos), n, depth)
      {
        var one := Skip();
        if one.Err? { return Err(one.error); }
      }
      depth := depth - 1;
      return Ok(());
    }

    method SkipScalar() returns (r: Result<(), Fault>)
      requires Valid() && pos < |buf|
      modifies this`pos
      ensures Valid()
      ensures r.Ok? ==> pos > old(pos) && SkipLeaf(buf, old(pos)) == Ok(pos)
      ensures r.Err? ==> SkipLeaf(buf, old(pos)) == Err(r.error)
    {
      hide UnBe, MsgPack.ReadStr, MsgPack.ReadBin;
      var b := buf[pos];
      if IsTiny(b) {
        pos := pos + 1;
        return Ok(());
      }
      if IsFixed(b) {
        var t := Byte();
        var s := TakeBytes(FixedLength(b));
        if s.Err? { return Err(s.error); }
        return Ok(());
      }
      if IsExt(b) {
        var t := Byte();
        var n := BeU(ExtWidth(b));
        if n.Err? { return Err(n.error); }
        t := Byte();
        if t.Err? { return Err(t.error); }
        var s := TakeBytes(n.value);
        if s.Err? { return Err(s.error); }
        return Ok(());
      }
      if IsStr(b) {
        LeafSize(buf, pos);
        var s := ReadStr();
        if s.Err? { return Err(s.error); }
        return Ok(());
      }
      if IsBin(b) {
        LeafSize(buf, pos);
        var s := ReadBin();
        if s.Err? { return Err(s.error); }
        return Ok(());
      }
      return Err(Unsupported);
    }
  }

  lemma LeafSize(buf: seq<byte>, pos: nat)
    requires pos < |buf|
    ensures SkipLeaf(buf, pos).Ok? ==> SkipLeaf(buf, pos).value > pos
  {
  }
}
