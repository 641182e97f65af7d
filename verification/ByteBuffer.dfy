/** The bit and byte codec of CenterServer/ByteBuffer.h.  Writes of bit fields, integers,
    strings and packed 64-bit numbers may be mixed; a byte-wise write first flushes the
    bits still pending, and a byte-wise read drops the bits left over. */
module ByteBuffer {
  import opened Tiles

  type byte = x: nat | x < 256

  // ------------------------------------------------------------------ bits of a number

  function BitAt(v: nat, i: nat): bool {
    if i == 0 then v % 2 == 1 else BitAt(v / 2, i - 1)
  }

  /** `v | (1 << i)` */
  function SetBit(v: nat, i: nat): nat {
    if i == 0 then (if v % 2 == 1 then v else v + 1) else 2 * SetBit(v / 2, i - 1) + v % 2
  }

  /** `v & ~(1 << i)` */
  function ClearBit(v: nat, i: nat): nat {
    if i == 0 then (if v % 2 == 1 then v - 1 else v) else 2 * ClearBit(v / 2, i - 1) + v % 2
  }

  function Pow2(n: nat): nat {
    if n == 0 then 1 else 2 * Pow2(n - 1)
  }

  lemma {:induction false} BitOfSet(v: nat, i: nat, j: nat)
    ensures BitAt(SetBit(v, i), j) == (i == j || BitAt(v, j))
  {
    if i > 0 {
      assert SetBit(v, i) / 2 == SetBit(v / 2, i - 1) && SetBit(v, i) % 2 == v % 2;
      if j > 0 {
        BitOfSet(v / 2, i - 1, j - 1);
      }
    } else if j > 0 {
      assert SetBit(v, 0) / 2 == v / 2;
    }
  }

  lemma {:induction false} BitOfClear(v: nat, i: nat, j: nat)
    ensures BitAt(ClearBit(v, i), j) == (i != j && BitAt(v, j))
  {
    if i > 0 {
      assert ClearBit(v, i) / 2 == ClearBit(v / 2, i - 1) && ClearBit(v, i) % 2 == v % 2;
      if j > 0 {
        BitOfClear(v / 2, i - 1, j - 1);
      }
    } else if j > 0 {
      assert ClearBit(v, 0) / 2 == v / 2;
    }
  }

  lemma {:induction false} SetBitBound(v: nat, i: nat, n: nat)
    requires i < n && v < Pow2(n)
    ensures SetBit(v, i) < Pow2(n)
  {
    if i > 0 {
      SetBitBound(v / 2, i - 1, n - 1);
    }
  }

  lemma {:induction false} ClearBitBound(v: nat, i: nat)
    ensures ClearBit(v, i) <= v
  {
    if i > 0 {
      ClearBitBound(v / 2, i - 1);
    }
  }

  /** Numbers below `2^n` with equal low bits are equal. */
  lemma {:induction false} BitsDetermine(a: nat, b: nat, n: nat)
    requires a < Pow2(n) && b < Pow2(n) && forall i :: 0 <= i < n ==> BitAt(a, i) == BitAt(b, i)
    ensures a == b
  {
    if n > 0 {
      forall i: nat | i < n - 1 ensures BitAt(a / 2, i) == BitAt(b / 2, i) {
        assert BitAt(a, i + 1) == BitAt(b, i + 1);
      }
      BitsDetermine(a / 2, b / 2, n - 1);
      assert BitAt(a, 0) == BitAt(b, 0);
    }
  }

  lemma {:induction false} ZeroBits(i: nat)
    ensures !BitAt(0, i)
  {
    if i > 0 {
      ZeroBits(i - 1);
    }
  }

  // --------------------------------------------------------------- bit sequences

  /** The bits of a byte, the highest first. */
  function BitsOf(b: byte): (r: seq<bool>)
    ensures |r| == 8 && forall i :: 0 <= i < 8 ==> r[i] == BitAt(b, 7 - i)
  {
    seq(8, i requires 0 <= i < 8 => BitAt(b, 7 - i))
  }

  /** The lowest `n` bits of a number, the highest first. */
  function FieldBits(v: nat, n: nat): (r: seq<bool>)
    ensures |r| == n && forall i :: 0 <= i < n ==> r[i] == BitAt(v, n - 1 - i)
  {
    seq(n, i requires 0 <= i < n => BitAt(v, n - 1 - i))
  }

  /** The number written by a bit sequence, the highest bit first. */
  function NumberOf(bits: seq<bool>): nat {
    if bits == [] then 0 else 2 * NumberOf(bits[..|bits| - 1]) + if bits[|bits| - 1] then 1 else 0
  }

  lemma {:induction false} NumberBits(bits: seq<bool>)
    ensures NumberOf(bits) < Pow2(|bits|)
    ensures forall i :: 0 <= i < |bits| ==> BitAt(NumberOf(bits), i) == bits[|bits| - 1 - i]
  {
    if bits != [] {
      var n := |bits| - 1;
      NumberBits(bits[..n]);
      var v, w := NumberOf(bits), NumberOf(bits[..n]);
      assert v == 2 * w + if bits[n] then 1 else 0;
      hide NumberOf;
      assert v / 2 == w;
      forall i: nat | i < |bits| ensures BitAt(v, i) == bits[n - i] {
        if i > 0 {
          assert BitAt(w, i - 1) == bits[..n][n - i];
        }
      }
    }
  }

  /** A number below `2^n` is rebuilt from its `n` bits. */
  lemma FieldNumber(v: nat, n: nat)
    requires v < Pow2(n)
    ensures NumberOf(FieldBits(v, n)) == v
  {
    var bits := FieldBits(v, n);
    NumberBits(bits);
    forall i: nat | i < n ensures BitAt(NumberOf(bits), i) == BitAt(v, i) {
      assert bits[n - 1 - i] == BitAt(v, i);
    }
    BitsDetermine(NumberOf(bits), v, n);
  }

  lemma NumberInjective(a: seq<bool>, b: seq<bool>)
    requires |a| == |b| && NumberOf(a) == NumberOf(b)
    ensures a == b
  {
    NumberBits(a);
    NumberBits(b);
    forall i | 0 <= i < |a| ensures a[i] == b[i] {
      assert BitAt(NumberOf(a), |a| - 1 - i) == a[i];
      assert BitAt(NumberOf(b), |a| - 1 - i) == b[i];
    }
  }

  function Zeros(n: nat): (r: seq<bool>)
    ensures |r| == n && forall i :: 0 <= i < n ==> !r[i]
  {
    seq(n, i => false)
  }

  /** A byte that starts with the given bits; the rest are zero. */
  function PackByte(bits: seq<bool>): (b: byte)
    requires |bits| <= 8
    ensures BitsOf(b) == bits + Zeros(8 - |bits|)
  {
    var all := bits + Zeros(8 - |bits|);
    NumberBits(all);
    assert Pow2(8) == 256;
    assert forall i :: 0 <= i < 8 ==> BitsOf(NumberOf(all))[i] == all[i];
    NumberOf(all)
  }

  lemma ByteOfBits(a: byte, b: byte)
    requires BitsOf(a) == BitsOf(b)
    ensures a == b
  {
    assert Pow2(8) == 256;
    forall i: nat | i < 8 ensures BitAt(a, i) == BitAt(b, i) {
      assert BitsOf(a)[7 - i] == BitsOf(b)[7 - i];
    }
    BitsDetermine(a, b, 8);
  }

  // ------------------------------------------------------------ what is written, and how

  /** One write: a bit field, a fixed-width integer, a zero-terminated string, a packed number. */
  datatype Item = Bits(value: nat, count: nat) | Int(value: nat, width: nat) | Str(chars: seq<byte>) | Packed(value: nat)

  /** What the writer demands of its callers: fields of at most 32 bits (the reader builds a
      32-bit value), integers that fit their width, strings without zeros, 64-bit numbers. */
  predicate Writable(item: Item) {
    match item
    case Bits(v, n) => n <= 32
    case Int(v, w) => w > 0 && v < Pow256(w)
    case Str(s) => 0 !in s
    case Packed(v) => v < Pow256(8)
  }

  function Pow256(n: nat): nat {
    if n == 0 then 1 else 256 * Pow256(n - 1)
  }

  /** Little-endian bytes of a number. */
  function IntBytes(v: nat, width: nat): (r: seq<byte>)
    ensures |r| == width
  {
    if width == 0 then [] else [v % 256] + IntBytes(v / 256, width - 1)
  }

  function IntOf(bytes: seq<byte>): nat {
    if bytes == [] then 0 else bytes[0] + 256 * IntOf(bytes[1..])
  }

  lemma {:induction false} IntRoundTrip(v: nat, width: nat)
    requires v < Pow256(width)
    ensures IntOf(IntBytes(v, width)) == v
  {
    if width > 0 {
      IntRoundTrip(v / 256, width - 1);
      assert IntBytes(v, width)[1..] == IntBytes(v / 256, width - 1);
    }
  }

  /** The mask of the non-zero bytes of a number, byte `i` at bit `i`. */
  function MaskOf(bytes: seq<byte>): nat {
    if bytes == [] then 0 else 2 * MaskOf(bytes[1..]) + if bytes[0] != 0 then 1 else 0
  }

  function NonZero(bytes: seq<byte>): seq<byte> {
    if bytes == [] then [] else (if bytes[0] != 0 then [bytes[0]] else []) + NonZero(bytes[1..])
  }

  lemma {:induction false} MaskBound(bytes: seq<byte>)
    ensures MaskOf(bytes) < Pow2(|bytes|)
  {
    if bytes != [] {
      MaskBound(bytes[1..]);
    }
  }

  function Mask(v: nat): byte {
    MaskBound(IntBytes(v, 8));
    assert Pow2(8) == 256;
    MaskOf(IntBytes(v, 8))
  }

  function PackedBytes(v: nat): seq<byte> {
    NonZero(IntBytes(v, 8))
  }

  // ------------------------------------------------------------------------ the writer

  /** The bytes stored so far and the bits that do not fill a byte yet. */
  datatype Buf = Buf(bytes: seq<byte>, pending: seq<bool>)

  predicate Ok(b: Buf) {
    |b.pending| < 8
  }

  function PutBit(b: Buf, bit: bool): (r: Buf)
    requires Ok(b)
    ensures Ok(r)
  {
    if |b.pending| == 7 then Buf(b.bytes + [PackByte(b.pending + [bit])], [])
    else Buf(b.bytes, b.pending + [bit])
  }

  function PutBits(b: Buf, bits: seq<bool>): (r: Buf)
    requires Ok(b)
    ensures Ok(r)
  {
    if bits == [] then b else PutBit(PutBits(b, bits[..|bits| - 1]), bits[|bits| - 1])
  }

  function Flush(b: Buf): (r: Buf)
    requires Ok(b)
    ensures Ok(r) && r.pending == []
  {
    if b.pending == [] then b else Buf(b.bytes + [PackByte(b.pending)], [])
  }

  function Append(b: Buf, bytes: seq<byte>): (r: Buf)
    requires Ok(b)
    ensures Ok(r) && r.pending == []
  {
    Buf(Flush(b).bytes + bytes, [])
  }

  /** `AppendPackedUInt64`: the position of the mask is taken before the pending bits are flushed. */
  function PutPacked(b: Buf, v: nat): (r: Buf)
    requires Ok(b)
    ensures Ok(r) && r.pending == []
  {
    var appended := Append(Append(b, [0]), PackedBytes(v));
    Buf(appended.bytes[|b.bytes| := Mask(v)], [])
  }

  function Put(b: Buf, item: Item): (r: Buf)
    requires Ok(b)
    ensures Ok(r)
  {
    match item
    case Bits(v, n) => PutBits(b, FieldBits(v, n))
    case Int(v, w) => Append(b, IntBytes(v, w))
    case Str(s) => Append(b, s + [0])
    case Packed(v) => PutPacked(b, v)
  }

  function PutAll(b: Buf, items: seq<Item>): (r: Buf)
    requires Ok(b)
    ensures Ok(r)
    decreases |items|
  {
    if items == [] then b else PutAll(Put(b, items[0]), items[1..])
  }

  const EMPTY: Buf := Buf([], [])

  /** The packet: everything written, flushed at the end. */
  function Encode(items: seq<Item>): seq<byte> {
    Flush(PutAll(EMPTY, items)).bytes
  }

  // ------------------------------------------------------------------------ the reader

  /** The next byte to read and the bits left over from the last one. */
  datatype Reader = Reader(pos: nat, left: seq<bool>)

  /** A read gives a value and the next state; `None` is the position exception. */
  function TakeBit(data: seq<byte>, r: Reader): Option<(bool, Reader)> {
    if r.left != [] then Some((r.left[0], Reader(r.pos, r.left[1..])))
    else if r.pos < |data| then Some((BitsOf(data[r.pos])[0], Reader(r.pos + 1, BitsOf(data[r.pos])[1..])))
    else None
  }

  function TakeBits(data: seq<byte>, r: Reader, n: nat): Option<(seq<bool>, Reader)> {
    if n == 0 then Some(([], r))
    else
      match TakeBits(data, r, n - 1)
      case None => None
      case Some((bits, r1)) =>
        match TakeBit(data, r1)
        case None => None
        case Some((bit, r2)) => Some((bits + [bit], r2))
  }

  function TakeBytes(data: seq<byte>, r: Reader, n: nat): Option<(seq<byte>, Reader)> {
    if r.pos + n <= |data| then Some((data[r.pos..r.pos + n], Reader(r.pos + n, []))) else None
  }

  /** The string from `pos` up to a zero byte or the end of the data, and where reading goes on. */
  function TakeStr(data: seq<byte>, pos: nat): (r: (seq<byte>, nat))
    decreases |data| - pos
  {
    if pos >= |data| then ([], pos)
    else if data[pos] == 0 then ([], pos + 1)
    else var rest := TakeStr(data, pos + 1); ([data[pos]] + rest.0, rest.1)
  }

  /** The bytes of a packed number from byte `i` on, zero where the mask has no bit. */
  function TakePacked(data: seq<byte>, pos: nat, mask: byte, i: nat): Option<(seq<byte>, nat)>
    requires i <= 8
    decreases 8 - i
  {
    if i == 8 then Some(([], pos))
    else if BitAt(mask, i) && pos >= |data| then None
    else
      match TakePacked(data, if BitAt(mask, i) then pos + 1 else pos, mask, i + 1)
      case None => None
      case Some((bytes, end)) => Some(([if BitAt(mask, i) then data[pos] else 0] + bytes, end))
  }

  /** Reads what `item` wrote: its kind and sizes are known, its value is not used. */
  function Take(data: seq<byte>, r: Reader, item: Item): Option<(Item, Reader)> {
    match item
    case Bits(_, n) =>
      (match TakeBits(data, r, n)
       case None => None
       case Some((bits, r1)) => Some((Bits(NumberOf(bits), n), r1)))
    case Int(_, w) =>
      (match TakeBytes(data, r, w)
       case None => None
       case Some((bytes, r1)) => Some((Int(IntOf(bytes), w), r1)))
    case Str(_) =>
      var s := TakeStr(data, r.pos);
      Some((Str(s.0), Reader(s.1, if r.pos < |data| then [] else r.left)))
    case Packed(_) =>
      if r.pos >= |data| then None
      else
        (match TakePacked(data, r.pos + 1, data[r.pos], 0)
         case None => None
         case Some((bytes, end)) => Some((Packed(IntOf(bytes)), Reader(end, []))))
  }

  /** The value a read is expected to return: a bit field keeps its low bits. */
  function Expected(item: Item): Item {
    match item
    case Bits(v, n) => Bits(NumberOf(FieldBits(v, n)), n)
    case _ => item
  }

  /** The matching script of reads returns every value, with no position exception. */
  ghost predicate ReadsBack(data: seq<byte>, r: Reader, items: seq<Item>)
    decreases |items|
  {
    items == []
    || (match Take(data, r, items[0])
        case None => false
        case Some((item, r1)) => item == Expected(items[0]) && ReadsBack(data, r1, items[1..]))
  }

  // ----------------------------------------------------- when reading follows writing

  /** The data holds what `b` wrote, its pending bits included. */
  predicate Extends(data: seq<byte>, b: Buf)
    requires Ok(b)
  {
    && b.bytes <= data
    && (b.pending != [] ==> |b.bytes| < |data| && b.pending <= BitsOf(data[|b.bytes|]))
  }

  /** The reader stands where the writer stood. */
  predicate Sync(data: seq<byte>, r: Reader, b: Buf)
    requires Ok(b)
  {
    if b.pending == [] then r == Reader(|b.bytes|, [])
    else r.pos == |b.bytes| + 1 && |b.bytes| < |data| && r.left == BitsOf(data[|b.bytes|])[|b.pending|..]
  }

  /** The number of bytes, a started one included. */
  function Len(b: Buf): nat
    requires Ok(b)
  {
    |b.bytes| + if b.pending == [] then 0 else 1
  }

  lemma TakeBitStep(data: seq<byte>, r: Reader, b: Buf)
    requires Ok(b) && Extends(data, b) && Sync(data, r, b) && |b.bytes| < |data|
    ensures TakeBit(data, r).Some?
    ensures var x, r1 := TakeBit(data, r).value.0, TakeBit(data, r).value.1;
            Extends(data, PutBit(b, x)) && Sync(data, r1, PutBit(b, x))
            && forall y :: Extends(data, PutBit(b, y)) ==> y == x
  {
    var n, bits := |b.pending|, BitsOf(data[|b.bytes|]);
    var x := bits[n];
    assert TakeBit(data, r) == Some((x, Reader(|b.bytes| + 1, bits[n + 1..])));
    assert b.pending + [x] == bits[..n + 1];
    if n == 7 {
      PackBits(bits, data[|b.bytes|]);
      assert bits[..8] == bits;
    }
    hide PackByte, BitsOf;
    forall y | Extends(data, PutBit(b, y)) ensures y == x {
      LastBit(data, b, y);
    }
  }

  lemma LastBit(data: seq<byte>, b: Buf, y: bool)
    requires Ok(b) && Extends(data, PutBit(b, y))
    ensures |b.bytes| < |data| && BitsOf(data[|b.bytes|])[|b.pending|] == y
  {
    if |b.pending| == 7 {
      assert PutBit(b, y).bytes[|b.bytes|] == data[|b.bytes|];
      assert (b.pending + [y] + Zeros(0))[7] == y;
    } else {
      assert (b.pending + [y])[|b.pending|] == y;
    }
  }

  lemma PackBits(bits: seq<bool>, b: byte)
    requires bits == BitsOf(b)
    ensures PackByte(bits) == b
  {
    assert bits + Zeros(0) == bits;
    ByteOfBits(PackByte(bits), b);
  }

  lemma {:induction false} LenOfBits(b: Buf, xs: seq<bool>, ys: seq<bool>)
    requires Ok(b) && |xs| == |ys|
    ensures Len(PutBits(b, xs)) == Len(PutBits(b, ys))
    ensures |PutBits(b, xs).pending| == |PutBits(b, ys).pending| && |PutBits(b, xs).bytes| == |PutBits(b, ys).bytes|
    ensures |b.bytes| <= |PutBits(b, xs).bytes| && Len(b) <= Len(PutBits(b, xs))
    decreases |xs|
  {
    if xs != [] {
      LenOfBits(b, xs[..|xs| - 1], ys[..|xs| - 1]);
    }
  }

  /** Reading `n` bits returns the only bits whose writing the data could extend. */
  lemma {:induction false} TakeBitsStep(data: seq<byte>, r: Reader, b: Buf, n: nat, f: seq<bool>)
    requires Ok(b) && Extends(data, b) && Sync(data, r, b)
    requires |f| == n && Len(PutBits(b, f)) <= |data|
    ensures TakeBits(data, r, n).Some?
    ensures var bits, r1 := TakeBits(data, r, n).value.0, TakeBits(data, r, n).value.1;
            |bits| == n && Extends(data, PutBits(b, bits)) && Sync(data, r1, PutBits(b, bits))
            && (Extends(data, PutBits(b, f)) ==> bits == f)
  {
    if n > 0 {
      var f0 := f[..n - 1];
      assert f == f0 + [f[n - 1]];
      TakeBitsStep(data, r, b, n - 1, f0);
      var bits, r1 := TakeBits(data, r, n - 1).value.0, TakeBits(data, r, n - 1).value.1;
      LenOfBits(b, bits, f0);
      var b1 := PutBits(b, bits);
      TakeBitStep(data, r1, b1);
      var x := TakeBit(data, r1).value.0;
      if Extends(data, PutBits(b, f)) {
        UnputBit(data, PutBits(b, f0), f[n - 1]);
      }
    }
  }

  /** Data that extends a written bit extends what was there before. */
  lemma UnputBit(data: seq<byte>, b: Buf, x: bool)
    requires Ok(b) && Extends(data, PutBit(b, x))
    ensures Extends(data, b)
  {
    if |b.pending| == 7 {
      assert PutBit(b, x).bytes[|b.bytes|] == data[|b.bytes|];
      assert b.pending + [x] + Zeros(0) == BitsOf(data[|b.bytes|]);
    }
  }

  // ----------------------------------------------------------- byte-wise items

  /** What a packed number is meant to put: the mask, then the non-zero bytes. */
  function PutMeant(b: Buf, item: Item): (r: Buf)
    requires Ok(b)
    ensures Ok(r)
  {
    match item
    case Packed(v) => Append(b, [Mask(v)] + PackedBytes(v))
    case _ => Put(b, item)
  }

  /** Whether a write puts what it is meant to: a packed number needs no bits pending, or
      nothing but zero bits and the number zero. */
  predicate Safe(b: Buf, item: Item) {
    item.Packed? ==> b.pending == [] || (item.value == 0 && forall i :: 0 <= i < |b.pending| ==> !b.pending[i])
  }

  /** Every packed number of the script is written safely. */
  predicate SafeAll(b: Buf, items: seq<Item>)
    requires Ok(b)
    decreases |items|
  {
    items == [] || (Safe(b, items[0]) && SafeAll(Put(b, items[0]), items[1..]))
  }

  lemma ZeroPacked()
    ensures Mask(0) == 0 && PackedBytes(0) == []
  {
    ZeroInt(8);
  }

  lemma {:induction false} ZeroInt(n: nat)
    ensures MaskOf(IntBytes(0, n)) == 0 && NonZero(IntBytes(0, n)) == []
  {
    if n > 0 {
      ZeroInt(n - 1);
      assert IntBytes(0, n)[1..] == IntBytes(0, n - 1);
    }
  }

  lemma SafePut(b: Buf, item: Item)
    requires Ok(b) && Safe(b, item)
    ensures Put(b, item) == PutMeant(b, item)
  {
    if item.Packed? {
      var v := item.value;
      hide Mask, PackedBytes;
      if b.pending == [] {
        assert (b.bytes + [0] + PackedBytes(v))[|b.bytes| := Mask(v)] == b.bytes + ([Mask(v)] + PackedBytes(v));
      } else {
        ZeroPacked();
        ZeroByte(b.pending);
        assert (b.bytes + [PackByte(b.pending)] + [0] + [])[|b.bytes| := 0] == b.bytes + [PackByte(b.pending)] + ([0] + []);
      }
    }
  }

  lemma ZeroByte(bits: seq<bool>)
    requires |bits| <= 8 && forall i :: 0 <= i < |bits| ==> !bits[i]
    ensures PackByte(bits) == 0
  {
    forall i: nat | i < 8 ensures !BitsOf(0)[i] {
      ZeroBits(7 - i);
    }
    assert BitsOf(PackByte(bits)) == BitsOf(0);
    ByteOfBits(PackByte(bits), 0);
  }

  /** After a byte-wise write the written bytes are where the reader looks for them. */
  lemma AppendStep(data: seq<byte>, r: Reader, b: Buf, bytes: seq<byte>)
    requires Ok(b) && Sync(data, r, b) && Extends(data, Append(b, bytes))
    ensures r.pos + |bytes| <= |data| && data[r.pos..r.pos + |bytes|] == bytes
    ensures Sync(data, Reader(r.pos + |bytes|, []), Append(b, bytes))
    ensures Extends(data, b)
  {
    var f := Flush(b).bytes;
    assert r.pos == |f|;
    assert f + bytes <= data;
    if b.pending != [] {
      assert data[|b.bytes|] == f[|b.bytes|] == PackByte(b.pending);
    }
  }

  lemma {:induction false} TakeStrStep(data: seq<byte>, pos: nat, s: seq<byte>)
    requires 0 !in s && pos + |s| + 1 <= |data| && data[pos..pos + |s| + 1] == s + [0]
    ensures TakeStr(data, pos) == (s, pos + |s| + 1)
    decreases |s|
  {
    var part := data[pos..pos + |s| + 1];
    assert data[pos] == part[0];
    if s != [] {
      assert part[0] == s[0];
      assert data[pos + 1..pos + 1 + |s[1..]| + 1] == part[1..] == s[1..] + [0];
      TakeStrStep(data, pos + 1, s[1..]);
      assert s == [s[0]] + s[1..];
    }
  }

  lemma {:induction false} MaskBit(bytes: seq<byte>, i: nat)
    requires i < |bytes|
    ensures BitAt(MaskOf(bytes), i) == (bytes[i] != 0)
  {
    var m := MaskOf(bytes[1..]);
    assert MaskOf(bytes) == 2 * m + if bytes[0] != 0 then 1 else 0;
    if i > 0 {
      MaskBit(bytes[1..], i - 1);
      assert MaskOf(bytes) / 2 == m;
    }
  }

  lemma {:induction false} TakePackedStep(data: seq<byte>, pos: nat, bytes: seq<byte>, mask: byte, i: nat)
    requires |bytes| == 8 && mask == MaskOf(bytes) && i <= 8
    requires pos + |NonZero(bytes[i..])| <= |data|
    requires data[pos..pos + |NonZero(bytes[i..])|] == NonZero(bytes[i..])
    ensures TakePacked(data, pos, mask, i) == Some((bytes[i..], pos + |NonZero(bytes[i..])|))
    decreases 8 - i
  {
    if i < 8 {
      MaskBit(bytes, i);
      var rest := NonZero(bytes[i..]);
      assert bytes[i..] == [bytes[i]] + bytes[i + 1..];
      assert bytes[i..][1..] == bytes[i + 1..] && bytes[i..][0] == bytes[i];
      var next := if bytes[i] != 0 then pos + 1 else pos;
      if bytes[i] != 0 {
        assert data[pos] == data[pos..pos + |rest|][0] == bytes[i];
        assert data[next..next + |NonZero(bytes[i + 1..])|] == data[pos..pos + |rest|][1..];
      }
      TakePackedStep(data, next, bytes, mask, i + 1);
    }
  }

  lemma {:induction false} TakePackedZero(data: seq<byte>, pos: nat, i: nat)
    requires i <= 8
    ensures TakePacked(data, pos, 0, i).Some? && IntOf(TakePacked(data, pos, 0, i).value.0) == 0
    decreases 8 - i
  {
    if i < 8 {
      ZeroBits(i);
      TakePackedZero(data, pos, i + 1);
      var bytes := TakePacked(data, pos, 0, i).value.0;
      assert bytes[1..] == TakePacked(data, pos, 0, i + 1).value.0;
    }
  }

  /** A read in step with a well-placed write returns its value and stays in step. */
  lemma TakeStep(data: seq<byte>, r: Reader, b: Buf, item: Item)
    requires Ok(b) && Writable(item) && Sync(data, r, b) && Extends(data, b)
    requires Extends(data, PutMeant(b, item)) && Len(PutMeant(b, item)) <= |data|
    ensures Take(data, r, item).Some?
    ensures Take(data, r, item).value.0 == Expected(item)
    ensures Sync(data, Take(data, r, item).value.1, PutMeant(b, item))
  {
    hide TakeBits, PutBits, IntBytes, PackedBytes, Mask, Flush, TakeStr, Pow256, Extends;
    match item
    case Bits(v, n) =>
      TakeBitsStep(data, r, b, n, FieldBits(v, n));
    case Int(v, w) =>
      AppendStep(data, r, b, IntBytes(v, w));
      IntRoundTrip(v, w);
    case Str(s) =>
      AppendStep(data, r, b, s + [0]);
      TakeStrStep(data, r.pos, s);
    case Packed(v) =>
      TakePackedItem(data, r, b, v);
  }

  lemma TakePackedItem(data: seq<byte>, r: Reader, b: Buf, v: nat)
    requires Ok(b) && v < Pow256(8) && Sync(data, r, b)
    requires Extends(data, Append(b, [Mask(v)] + PackedBytes(v)))
    ensures Take(data, r, Packed(v)).Some?
    ensures Take(data, r, Packed(v)).value.0 == Packed(v)
    ensures Sync(data, Take(data, r, Packed(v)).value.1, Append(b, [Mask(v)] + PackedBytes(v)))
  {
    hide IntBytes, NonZero, MaskOf, TakePacked, IntOf, Append, Flush, PackedBytes, Mask, Pow256, Extends, Sync;
    AppendStep(data, r, b, [Mask(v)] + PackedBytes(v));
    HeadOfPart(data, r.pos, Mask(v), PackedBytes(v));
    PackedAt(data, r.pos + 1, v);
    IntRoundTrip(v, 8);
  }

  lemma PackedAt(data: seq<byte>, pos: nat, v: nat)
    requires pos + |PackedBytes(v)| <= |data| && data[pos..pos + |PackedBytes(v)|] == PackedBytes(v)
    ensures TakePacked(data, pos, Mask(v), 0) == Some((IntBytes(v, 8), pos + |PackedBytes(v)|))
  {
    hide IntBytes, NonZero, MaskOf, TakePacked;
    var bytes := IntBytes(v, 8);
    assert bytes[0..] == bytes;
    TakePackedStep(data, pos, bytes, Mask(v), 0);
  }

  lemma HeadOfPart(data: seq<byte>, pos: nat, head: byte, tail: seq<byte>)
    requires pos + 1 + |tail| <= |data| && data[pos..pos + |[head] + tail|] == [head] + tail
    ensures data[pos] == head && data[pos + 1..pos + 1 + |tail|] == tail
  {
    var part := data[pos..pos + |[head] + tail|];
    assert data[pos] == part[0];
    assert data[pos + 1..pos + 1 + |tail|] == part[1..];
  }

  // --------------------------------------------------------------- the round trip

  /** A write leaves the stored bytes alone and never shortens the buffer. */
  lemma PutGrows(b: Buf, item: Item)
    requires Ok(b)
    ensures b.bytes <= Put(b, item).bytes && Len(b) <= Len(Put(b, item))
  {
    match item
    case Bits(v, n) =>
      BitsGrow(b, FieldBits(v, n));
    case _ =>
  }

  lemma {:induction false} BitsGrow(b: Buf, bits: seq<bool>)
    requires Ok(b)
    ensures b.bytes <= PutBits(b, bits).bytes && Len(b) <= Len(PutBits(b, bits))
    decreases |bits|
  {
    if bits != [] {
      BitsGrow(b, bits[..|bits| - 1]);
    }
  }

  lemma {:induction false} PutAllGrows(b: Buf, items: seq<Item>)
    requires Ok(b)
    ensures b.bytes <= PutAll(b, items).bytes && Len(b) <= Len(PutAll(b, items))
    decreases |items|
  {
    if items != [] {
      PutGrows(b, items[0]);
      PutAllGrows(Put(b, items[0]), items[1..]);
    }
  }

  /** One read after one write: in step, it returns the right value exactly when the data holds the write. */
  lemma ReadAfterPut(data: seq<byte>, r: Reader, b: Buf, items: seq<Item>)
    requires Ok(b) && items != [] && Writable(items[0])
    requires Sync(data, r, b) && Extends(data, b) && data == Flush(PutAll(b, items)).bytes
    requires Safe(b, items[0])
    requires items[0].Bits? ==> Take(data, r, items[0]).Some? && Take(data, r, items[0]).value.0 == Expected(items[0])
    ensures Take(data, r, items[0]).Some? && Take(data, r, items[0]).value.0 == Expected(items[0])
    ensures Extends(data, Put(b, items[0])) && Sync(data, Take(data, r, items[0]).value.1, Put(b, items[0]))
  {
    var item, b1 := items[0], Put(b, items[0]);
    PutAllGrows(b1, items[1..]);
    assert Len(b1) <= |data|;
    SafePut(b, item);
    match item {
      case Bits(v, n) =>
        var f := FieldBits(v, n);
        TakeBitsStep(data, r, b, n, f);
        NumberInjective(TakeBits(data, r, n).value.0, f);
      case _ =>
        assert b1.pending == [];
        TakeStep(data, r, b, item);
    }
  }

  /** A misplaced packed number is read as zero, or the bits before it are read as zeros. */
  lemma MisplacedPacked(data: seq<byte>, r: Reader, b: Buf, items: seq<Item>)
    requires Ok(b) && items != [] && items[0].Packed? && !Safe(b, items[0])
    requires Sync(data, r, b) && Extends(data, b) && data == Flush(PutAll(b, items)).bytes
    ensures Take(data, r, items[0]).None? || Take(data, r, items[0]).value.0 != items[0]
  {
    hide IntBytes, NonZero, MaskOf, PackedBytes, Mask;
    var v, b1 := items[0].value, Put(b, items[0]);
    PutAllGrows(b1, items[1..]);
    assert b1.bytes <= data;
    assert b1.bytes[|b.bytes|] == Mask(v) && b1.bytes[|b.bytes| + 1] == 0;
    TakePackedZero(data, r.pos + 1, 0);
    if v == 0 {
      ZeroPacked();
      forall i | 0 <= i < |b.pending| ensures !b.pending[i] {
        ZeroBits(7 - i);
        assert b.pending[i] == BitsOf(0)[i];
      }
    }
  }

  lemma FlushExtends(b: Buf)
    requires Ok(b)
    ensures Extends(Flush(b).bytes, b)
  {
  }

  lemma {:induction false} UnputBits(data: seq<byte>, b: Buf, bits: seq<bool>)
    requires Ok(b) && Extends(data, PutBits(b, bits))
    ensures Extends(data, b)
    decreases |bits|
  {
    if bits != [] {
      UnputBit(data, PutBits(b, bits[..|bits| - 1]), bits[|bits| - 1]);
      UnputBits(data, b, bits[..|bits| - 1]);
    }
  }

  lemma Unput(data: seq<byte>, b: Buf, item: Item)
    requires Ok(b) && Extends(data, PutMeant(b, item))
    ensures Extends(data, b)
  {
    match item
    case Bits(v, n) => UnputBits(data, b, FieldBits(v, n));
    case Int(v, w) =>
    case Str(s) =>
    case Packed(v) =>
  }

  lemma {:induction false} SafeExtends(data: seq<byte>, b: Buf, items: seq<Item>)
    requires Ok(b) && SafeAll(b, items) && Extends(data, PutAll(b, items))
    ensures Extends(data, b)
    decreases |items|
  {
    if items != [] {
      SafeExtends(data, Put(b, items[0]), items[1..]);
      SafePut(b, items[0]);
      Unput(data, b, items[0]);
    }
  }

  lemma {:induction false} ReadsBackIff(data: seq<byte>, r: Reader, b: Buf, items: seq<Item>)
    requires Ok(b) && forall i :: 0 <= i < |items| ==> Writable(items[i])
    requires Sync(data, r, b) && Extends(data, b) && data == Flush(PutAll(b, items)).bytes
    ensures ReadsBack(data, r, items) <==> SafeAll(b, items)
    decreases |items|
  {
    if items != [] {
      hide Put, Take, Writable, Expected, Extends, Sync, Flush;
      var item, b1 := items[0], Put(b, items[0]);
      if !Safe(b, item) {
        MisplacedPacked(data, r, b, items);
      } else {
        if SafeAll(b, items) {
          FlushExtends(PutAll(b, items));
          SafeExtends(data, b1, items[1..]);
          SafePut(b, item);
          PutAllGrows(b1, items[1..]);
          TakeStep(data, r, b, item);
        }
        if item.Bits? ==> Take(data, r, item).Some? && Take(data, r, item).value.0 == Expected(item) {
          ReadAfterPut(data, r, b, items);
          ReadsBackIff(data, Take(data, r, item).value.1, b1, items[1..]);
        }
      }
    }
  }

  /** The packet of a script is read back by the matching script of reads, every value right and
      without a position exception, exactly when no packed number follows pending bits (other
      than zero after zero bits). */
  lemma RoundTrip(items: seq<Item>)
    requires forall i :: 0 <= i < |items| ==> Writable(items[i])
    ensures ReadsBack(Encode(items), Reader(0, []), items) <==> SafeAll(EMPTY, items)
  {
    ReadsBackIff(Encode(items), Reader(0, []), EMPTY, items);
  }

  /** The failing family is not empty: one bit, then the number 1. */
  lemma PackedAfterBitIsLost()
    ensures !ReadsBack(Encode([Bits(1, 1), Packed(1)]), Reader(0, []), [Bits(1, 1), Packed(1)])
  {
    var items := [Bits(1, 1), Packed(1)];
    assert items[1..] == [Packed(1)];
    var f := FieldBits(1, 1);
    assert f == [true] && f[..0] == [];
    assert PutBits(EMPTY, f) == Buf([], [true]);
    RoundTrip(items);
  }

  // -------------------------------------------------------------------- the buffer itself

  lemma {:induction false} AppendInt(bytes: seq<byte>, b: byte)
    ensures IntOf(bytes + [b]) == IntOf(bytes) + b * Pow256(|bytes|)
  {
    if bytes == [] {
      assert [b][1..] == [];
    } else {
      assert (bytes + [b])[1..] == bytes[1..] + [b];
      AppendInt(bytes[1..], b);
      var p := Pow256(|bytes| - 1);
      assert 256 * (b * p) == b * (256 * p);
    }
  }

  /** The bits of the stored bytes, numbered from the front. */
  function StoredBit(storage: seq<byte>, k: nat): bool
    requires k < 8 * |storage|
  {
    BitAt(storage[k / 8], 7 - k % 8)
  }

  // ----------------------------------------------------------------- the format, place by place

  /** Bit `i` is the binary digit of weight 2 to the `i`. */
  lemma {:induction false} BitIsDigit(v: nat, i: nat) returns (high: nat, low: nat)
    ensures low < Pow2(i) && v == (2 * high + if BitAt(v, i) then 1 else 0) * Pow2(i) + low
  {
    if i == 0 {
      high, low := v / 2, 0;
    } else {
      var l;
      high, l := BitIsDigit(v / 2, i - 1);
      low := 2 * l + v % 2;
      var d := 2 * high + if BitAt(v / 2, i - 1) then 1 else 0;
      Scaled(d, 2, Pow2(i - 1));
      hide BitAt;
    }
  }

  /** Byte `i` of a number is its digit of weight 256 to the `i`: the lowest byte goes first. */
  lemma {:induction false} ByteIsDigit(v: nat, width: nat, i: nat) returns (high: nat, low: nat)
    requires i < width
    ensures low < Pow256(i) && v == (256 * high + IntBytes(v, width)[i]) * Pow256(i) + low
  {
    if i == 0 {
      high, low := v / 256, 0;
    } else {
      var l;
      high, l := ByteIsDigit(v / 256, width - 1, i - 1);
      low := 256 * l + v % 256;
      Scaled(256 * high + IntBytes(v, width)[i], 256, Pow256(i - 1));
    }
  }

  lemma Scaled(d: nat, base: nat, weight: nat)
    ensures d * (base * weight) == base * (d * weight)
  {
  }

  /** How many of the first `i` bytes are not zero. */
  function Rank(bytes: seq<byte>, i: nat): nat
    requires i <= |bytes|
  {
    if i == 0 then 0 else Rank(bytes, i - 1) + if bytes[i - 1] != 0 then 1 else 0
  }

  lemma {:induction false} NonZeroPlace(bytes: seq<byte>, i: nat)
    requires i <= |bytes|
    ensures |NonZero(bytes)| == Rank(bytes, |bytes|) >= Rank(bytes, i)
    ensures i < |bytes| && bytes[i] != 0 ==>
              Rank(bytes, i) < |NonZero(bytes)| && NonZero(bytes)[Rank(bytes, i)] == bytes[i]
  {
    hide Rank;
    RankNone(bytes);
    if bytes != [] {
      var rest := bytes[1..];
      RankTail(bytes, |bytes| - 1);
      if i == 0 {
        NonZeroPlace(rest, 0);
      } else {
        RankTail(bytes, i - 1);
        NonZeroPlace(rest, i - 1);
      }
    }
  }

  lemma RankNone(bytes: seq<byte>)
    ensures Rank(bytes, 0) == 0
  {
  }

  lemma {:induction false} RankTail(bytes: seq<byte>, k: nat)
    requires k < |bytes|
    ensures Rank(bytes, k + 1) == Rank(bytes[1..], k) + if bytes[0] != 0 then 1 else 0
  {
    if k > 0 {
      RankTail(bytes, k - 1);
    }
  }

  /** A packed number: bit `i` of the mask is set exactly when byte `i` of the number is not zero, and the bytes
      behind the mask are those, in the order of their places. */
  lemma PackedForm(v: nat, i: nat)
    requires i < 8
    ensures var bytes, packed := IntBytes(v, 8), PackedBytes(v);
            && BitAt(Mask(v), i) == (bytes[i] != 0) && |packed| == Rank(bytes, 8)
            && (bytes[i] != 0 ==> Rank(bytes, i) < |packed| && packed[Rank(bytes, i)] == bytes[i])
  {
    MaskBit(IntBytes(v, 8), i);
    NonZeroPlace(IntBytes(v, 8), i);
  }

  /** All bits written so far: those of the stored bytes, and the pending ones. */
  function BitCount(b: Buf): nat {
    8 * |b.bytes| + |b.pending|
  }

  function WrittenBit(b: Buf, k: nat): bool
    requires k < BitCount(b)
  {
    if k < 8 * |b.bytes| then StoredBit(b.bytes, k) else b.pending[k - 8 * |b.bytes|]
  }

  /** A bit goes behind those written, which stay as they are. */
  lemma BitWritten(b: Buf, bit: bool, k: nat)
    requires Ok(b) && k <= BitCount(b)
    ensures BitCount(PutBit(b, bit)) == BitCount(b) + 1
    ensures WrittenBit(PutBit(b, bit), k) == if k < BitCount(b) then WrittenBit(b, k) else bit
  {
    if |b.pending| == 7 {
      var bits := b.pending + [bit];
      var x := PackByte(bits);
      assert bits + Zeros(0) == bits;
      var c := PutBit(b, bit);
      assert c.bytes == b.bytes + [x];
      if k >= 8 * |b.bytes| {
        assert k / 8 == |b.bytes| && k % 8 == k - 8 * |b.bytes|;
        assert BitsOf(x)[k % 8] == BitAt(x, 7 - k % 8);
      }
    }
  }

  /** Bit fields are laid end to end, each with its highest bit first, from the highest bit of each byte down. */
  lemma {:induction false} FieldWritten(b: Buf, v: nat, n: nat, k: nat, m: nat)
    requires Ok(b) && m <= n && k < BitCount(b) + m
    ensures BitCount(PutBits(b, FieldBits(v, n)[..m])) == BitCount(b) + m
    ensures WrittenBit(PutBits(b, FieldBits(v, n)[..m]), k)
            == if k < BitCount(b) then WrittenBit(b, k) else BitAt(v, n - 1 - (k - BitCount(b)))
  {
    var f := FieldBits(v, n);
    hide PutBit, BitAt, WrittenBit;
    if m > 0 {
      assert f[..m][..m - 1] == f[..m - 1];
      var c := PutBits(b, f[..m - 1]);
      assert PutBits(b, f[..m]) == PutBit(c, f[m - 1]);
      FieldCount(b, f, m - 1);
      BitWritten(c, f[m - 1], k);
      if k < BitCount(b) + m - 1 {
        FieldWritten(b, v, n, k, m - 1);
      }
    }
  }

  lemma {:induction false} FieldCount(b: Buf, f: seq<bool>, m: nat)
    requires Ok(b) && m <= |f|
    ensures BitCount(PutBits(b, f[..m])) == BitCount(b) + m
  {
    hide PutBit;
    if m > 0 {
      assert f[..m][..m - 1] == f[..m - 1];
      FieldCount(b, f, m - 1);
      BitWritten(PutBits(b, f[..m - 1]), f[m - 1], 0);
    }
  }

  /** A flush stores the pending bits, highest first, and fills up the byte with zeros. */
  lemma FlushedBits(b: Buf, k: nat)
    requires Ok(b) && k < 8 * |Flush(b).bytes|
    ensures BitCount(b) <= 8 * |Flush(b).bytes| < BitCount(b) + 8
    ensures StoredBit(Flush(b).bytes, k) <==> k < BitCount(b) && WrittenBit(b, k)
  {
    if b.pending != [] && k >= 8 * |b.bytes| {
      var x := PackByte(b.pending);
      assert k / 8 == |b.bytes| && k % 8 == k - 8 * |b.bytes|;
      assert BitsOf(x)[k % 8] == BitAt(x, 7 - k % 8);
    }
  }

  /** A packet of one item: a string and its zero; a number, lowest byte first; the mask and its bytes. */
  lemma PacketOf(item: Item)
    ensures item.Str? ==> Encode([item]) == item.chars + [0]
    ensures item.Int? ==> Encode([item]) == IntBytes(item.value, item.width)
    ensures item.Packed? ==> Encode([item]) == [Mask(item.value)] + PackedBytes(item.value)
  {
    hide IntBytes, Mask, PackedBytes, PutBits;
    assert [item][1..] == [];
    assert PutAll(EMPTY, [item]) == Put(EMPTY, item);
    assert forall x: seq<byte> :: [] + x == x;
  }

  /** A string is read up to the first zero, which is passed over, or to the end of the packet. */
  lemma {:induction false} StrTaken(data: seq<byte>, pos: nat)
    requires pos <= |data|
    ensures var (s, next) := TakeStr(data, pos); var stop := pos + |s|;
            && stop <= |data| && s == data[pos..stop] && 0 !in s
            && next == (if stop < |data| then stop + 1 else stop) && (stop < |data| ==> data[stop] == 0)
    decreases |data| - pos
  {
    if pos < |data| && data[pos] != 0 {
      StrTaken(data, pos + 1);
    }
  }

  class ByteBuffer {
    var rpos: nat
    var wpos: nat
    var bitpos: nat
    var curbitval: byte
    var storage: seq<byte>

    constructor ()
      ensures Writing() && Written() == EMPTY && ReadState() == Reader(0, [])
    {
      rpos, wpos, bitpos, curbitval, storage := 0, 0, 8, 0, [];
      new;
      ZeroByteBits();
    }

    // ------------------------------------------------------------------------ writing

    /** The buffer is being written at its end; unused bits of the current byte are zero. */
    ghost predicate Writing()
      reads this
    {
      wpos == |storage| && 1 <= bitpos <= 8 && forall i :: 0 <= i < bitpos ==> !BitAt(curbitval, i)
    }

    ghost function Written(): (b: Buf)
      requires Writing()
      reads this
      ensures Ok(b)
    {
      Buf(storage, BitsOf(curbitval)[..8 - bitpos])
    }

    method FlushBits()
      requires wpos == |storage| && bitpos <= 8
      modifies this
      ensures wpos == |storage| && bitpos == 8 && rpos == old(rpos)
      ensures if old(bitpos) == 8 then storage == old(storage) && curbitval == old(curbitval)
              else storage == old(storage) + [old(curbitval)] && curbitval == 0
      decreases if bitpos == 8 then 0 else 1, 0
    {
      if bitpos == 8 {
        return;
      }
      bitpos := 8;
      AppendBytes([curbitval]);
      curbitval := 0;
    }

    method AppendBytes(src: seq<byte>)
      requires wpos == |storage| && bitpos <= 8
      modifies this
      ensures wpos == |storage| && bitpos == 8 && rpos == old(rpos)
      ensures if old(bitpos) == 8 then storage == old(storage) + src && curbitval == old(curbitval)
              else storage == old(storage) + [old(curbitval)] + src && curbitval == 0
      decreases if bitpos == 8 then 0 else 1, 1
    {
      FlushBits();
      storage := storage[..wpos] + src + storage[wpos..];
      wpos := wpos + |src|;
    }

    /** What a byte-wise append means for the written bits. */
    method AppendSource(src: seq<byte>)
      requires Writing()
      modifies this
      ensures Writing() && Written() == Append(old(Written()), src) && rpos == old(rpos)
    {
      PendingByte(curbitval, bitpos);
      ZeroByteBits();
      AppendBytes(src);
    }

    method WriteBit(bit: bool)
      requires Writing()
      modifies this
      ensures Writing() && Written() == PutBit(old(Written()), bit) && rpos == old(rpos)
    {
      ghost var cur0, n := curbitval, bitpos - 1;
      bitpos := bitpos - 1;
      assert Pow2(8) == 256;
      if bit {
        SetBitBound(curbitval, bitpos, 8);
        curbitval := SetBit(curbitval, bitpos);
      }
      forall i: nat ensures BitAt(curbitval, i) == (BitAt(cur0, i) || (bit && i == n)) {
        BitOfSet(cur0, n, i);
      }
      assert BitsOf(curbitval)[..8 - n] == BitsOf(cur0)[..7 - n] + [bit];
      if bitpos == 0 {
        bitpos := 8;
        PackBits(BitsOf(curbitval), curbitval);
        assert BitsOf(curbitval)[..8] == BitsOf(curbitval);
        AppendBytes([curbitval]);
        curbitval := 0;
        ZeroByteBits();
      }
    }

    /** `WriteBits`: the field's bits, the highest first. */
    method WriteBits(value: nat, bits: nat)
      requires Writing()
      modifies this
      ensures Writing() && Written() == Put(old(Written()), Bits(value, bits)) && rpos == old(rpos)
    {
      ghost var f, b := FieldBits(value, bits), Written();
      var i := bits;
      while i > 0
        invariant 0 <= i <= bits
        invariant Writing() && Written() == PutBits(b, f[..bits - i]) && rpos == old(rpos)
      {
        i := i - 1;
        assert f[..bits - i] == f[..bits - i - 1] + [BitAt(value, i)];
        WriteBit(BitAt(value, i));
      }
      assert f[..bits] == f;
    }

    /** `operator<<` of an integer. */
    method WriteInt(value: nat, width: nat)
      requires Writing()
      modifies this
      ensures Writing() && Written() == Put(old(Written()), Int(value, width)) && rpos == old(rpos)
    {
      AppendSource(IntBytes(value, width));
    }

    /** `operator<<` of a string: the characters, if any, then the zero. */
    method WriteStr(chars: seq<byte>)
      requires Writing()
      modifies this
      ensures Writing() && Written() == Put(old(Written()), Str(chars)) && rpos == old(rpos)
    {
      ghost var b := Written();
      if |chars| > 0 {
        AppendSource(chars);
      }
      AppendSource([0]);
      assert chars == [] ==> chars + [0] == [0];
      assert Flush(b).bytes + chars + [0] == Flush(b).bytes + (chars + [0]);
    }

    /** Mask and non-zero bytes of a 64-bit number, byte by byte from the lowest. */
    static method PackUInt64(value: nat) returns (mask: byte, result: seq<byte>)
      requires value < Pow256(8)
      ensures mask == Mask(value) && result == PackedBytes(value)
    {
      hide IntBytes, NonZero, MaskOf, BitAt, SetBit, Pow256, PackedBytes;
      var v: nat, i: nat, m: nat := value, 0, 0;
      result := [];
      PackStart(value);
      while v != 0
        invariant Packing(value, v, i, m, result)
        decreases v
      {
        PackStep(value, v, i, m, result);
        if v % 256 != 0 {
          m := SetBit(m, i);
          result := result + [v % 256];
        }
        v := v / 256;
        i := i + 1;
      }
      PackEnd(value, i, m, result);
      mask := m;
    }

    method AppendPackedUInt64(value: nat)
      requires Writing() && value < Pow256(8)
      modifies this
      ensures Writing() && Written() == Put(old(Written()), Packed(value)) && rpos == old(rpos)
    {
      var pos := wpos;
      AppendSource([0]);
      var mask, packed := PackUInt64(value);
      if |packed| > 0 {
        AppendSource(packed);
      }
      storage := storage[pos := mask];
    }

    /** `PutBits`: overwrites bits of bytes already stored. */
    method OverwriteBits(pos: nat, value: nat, bitCount: nat)
      requires pos + bitCount <= 8 * |storage| && bitCount > 0
      modifies this`storage
      ensures |storage| == |old(storage)|
      ensures forall k :: 0 <= k < 8 * |storage| ==>
                StoredBit(storage, k) == if pos <= k < pos + bitCount then FieldBits(value, bitCount)[k - pos]
                                         else StoredBit(old(storage), k)
    {
      ghost var f := FieldBits(value, bitCount);
      assert Pow2(8) == 256;
      for i := 0 to bitCount
        invariant |storage| == |old(storage)|
        invariant forall k :: 0 <= k < 8 * |storage| ==>
                    StoredBit(storage, k) == if pos <= k < pos + i then f[k - pos] else StoredBit(old(storage), k)
      {
        var wp, bit := (pos + i) / 8, (pos + i) % 8;
        ghost var before := storage;
        if BitAt(value, bitCount - i - 1) {
          SetBitBound(storage[wp], 7 - bit, 8);
          storage := storage[wp := SetBit(storage[wp], 7 - bit)];
        } else {
          ClearBitBound(storage[wp], 7 - bit);
          storage := storage[wp := ClearBit(storage[wp], 7 - bit)];
        }
        OneBitPut(before, storage, pos + i, f[i]);
      }
    }

    // ------------------------------------------------------------------------ reading

    ghost function ReadState(): Reader
      reads this
    {
      Reader(rpos, if bitpos > 7 then [] else BitsOf(curbitval)[bitpos + 1..])
    }

    method ResetBitPos()
      modifies this`bitpos, this`curbitval
      ensures ReadState() == Reader(rpos, [])
      ensures bitpos > 7 && (bitpos == 8 || bitpos == old(bitpos))
    {
      if bitpos > 7 {
        return;
      }
      bitpos, curbitval := 8, 0;
    }

    /** `read<T>`: the value, unless the position exception is raised. */
    method ReadBytes(width: nat) returns (r: Option<seq<byte>>)
      modifies this
      ensures storage == old(storage)
      ensures match TakeBytes(storage, old(ReadState()), width)
              case None => r.None?
              case Some((bytes, next)) => r == Some(bytes) && ReadState() == next
      ensures bitpos > 7 && (bitpos == 8 || bitpos == old(bitpos))
    {
      ResetBitPos();
      if rpos + width > |storage| {
        return None;
      }
      r := Some(storage[rpos..rpos + width]);
      rpos := rpos + width;
    }

    method ReadBit() returns (r: Option<bool>)
      requires bitpos <= 8
      modifies this
      ensures storage == old(storage) && bitpos <= 9
      ensures match TakeBit(storage, old(ReadState()))
              case None => r.None?
              case Some((bit, next)) => r == Some(bit) && ReadState() == next && bitpos <= 7
    {
      hide BitAt;
      bitpos := bitpos + 1;
      if bitpos > 7 {
        var b := ReadBytes(1);
        if b.None? {
          return None;
        }
        assert old(storage)[old(rpos)..old(rpos) + 1][0] == old(storage)[old(rpos)];
        curbitval, bitpos := b.value[0], 0;
        assert ReadState().left == BitsOf(curbitval)[1..];
      }
      r := Some(BitAt(curbitval, 7 - bitpos));
    }

    /** `ReadBits`: the number built up from the highest bit down. */
    method ReadBits(bits: nat) returns (r: Option<nat>)
      requires bitpos <= 8
      modifies this
      ensures storage == old(storage)
      ensures match Take(storage, old(ReadState()), Bits(0, bits))
              case None => r.None?
              case Some((item, next)) => r == Some(item.value) && ReadState() == next && bitpos <= 8
    {
      hide BitAt, SetBit, BitsOf, NumberOf;
      ghost var r0, got := ReadState(), [];
      var value: nat, i: nat := 0, bits;
      BitsReadStart(bits);
      while i > 0
        invariant i <= bits && bitpos <= 8 && storage == old(storage)
        invariant TakeBits(storage, r0, bits - i) == Some((got, ReadState()))
        invariant BitsRead(value, got, bits, i)
      {
        i := i - 1;
        var bit := ReadBit();
        if bit.None? {
          TakeBitsFails(storage, r0, bits - i, bits);
          return None;
        }
        BitsReadStep(value, got, bits, i, bit.value);
        value := if bit.value then SetBit(value, i) else value;
        got := got + [bit.value];
      }
      BitsReadEnd(value, got, bits);
      r := Some(value);
    }

    method ReadInt(width: nat) returns (r: Option<nat>)
      modifies this
      ensures storage == old(storage)
      ensures match Take(storage, old(ReadState()), Int(0, width))
              case None => r.None?
              case Some((item, next)) => r == Some(item.value) && ReadState() == next
      ensures bitpos > 7 && (bitpos == 8 || bitpos == old(bitpos))
    {
      var bytes := ReadBytes(width);
      r := if bytes.Some? then Some(IntOf(bytes.value)) else None;
    }

    /** `operator>>` of a string: up to a zero byte or the end of the packet. */
    method ReadStr() returns (s: seq<byte>)
      modifies this
      ensures storage == old(storage)
      ensures Take(storage, old(ReadState()), Str([])) == Some((Str(s), ReadState()))
      ensures ReadState().left == if old(rpos) < |storage| then [] else old(ReadState()).left
      ensures bitpos == 8 || bitpos == old(bitpos)
    {
      s := [];
      ghost var r0 := ReadState();
      assert [] + TakeStr(storage, rpos).0 == TakeStr(storage, rpos).0;
      while rpos < |storage|
        invariant storage == old(storage) && (bitpos == 8 || bitpos == old(bitpos))
        invariant TakeStr(storage, r0.pos) == (s + TakeStr(storage, rpos).0, TakeStr(storage, rpos).1)
        invariant ReadState() == if rpos == r0.pos then r0 else Reader(rpos, [])
        invariant rpos >= r0.pos
        decreases |storage| - rpos
      {
        var c := ReadBytes(1);
        assert c.value[0] == storage[rpos - 1];
        if c.value[0] == 0 {
          break;
        }
        assert s + ([c.value[0]] + TakeStr(storage, rpos).0) == s + [c.value[0]] + TakeStr(storage, rpos).0;
        s := s + [c.value[0]];
      }
      assert s + [] == s;
    }

    /** `ReadPackedUInt64`: byte `i` is read when bit `i` of the mask is set. */
    method ReadPackedUInt64() returns (r: Option<nat>)
      modifies this
      ensures storage == old(storage)
      ensures match Take(storage, old(ReadState()), Packed(0))
              case None => r.None?
              case Some((item, next)) => r == Some(item.value) && ReadState() == next
      ensures bitpos > 7 && (bitpos == 8 || bitpos == old(bitpos))
    {
      var m := ReadBytes(1);
      if m.None? {
        return None;
      }
      assert m.value[0] == storage[rpos - 1];
      r := ReadMasked(m.value[0]);
    }

    /** `ReadPackedUInt64` with the mask given: byte `i` is read when bit `i` of the mask is set. */
    method ReadMasked(mask: byte) returns (r: Option<nat>)
      requires ReadState() == Reader(rpos, [])
      modifies this
      ensures storage == old(storage) && (bitpos == 8 || bitpos == old(bitpos))
      ensures match TakePacked(storage, old(rpos), mask, 0)
              case None => r.None?
              case Some((bytes, end)) => r == Some(IntOf(bytes)) && ReadState() == Reader(end, [])
    {
      hide BitAt, Joined, BitsOf, IntOf, TakePacked, Pow256;
      ghost var start, got: seq<byte> := rpos, [];
      var value: nat := 0;
      PackedReadStart(storage, start, mask);
      for i := 0 to 8
        invariant storage == old(storage) && ReadState() == Reader(rpos, []) && (bitpos == 8 || bitpos == old(bitpos))
        invariant PackedRead(storage, start, mask, got, rpos, i, value)
      {
        ghost var at0, value0 := rpos, value;
        var b: byte := 0;
        if BitAt(mask, i) {
          var next := ReadBytes(1);
          if next.None? {
            PackedCut(storage, start, mask, got, at0, i, value);
            return None;
          }
          b := next.value[0];
          value := value + b * Pow256(i);
        }
        PackedReadStep(storage, start, mask, got, at0, i, value0, b);
        got := got + [b];
      }
      PackedReadEnd(storage, start, mask, got, rpos, value);
      r := Some(value);
    }
  }

  // ------------------------------------------------------------------- a packet, there and back

  /** Writes one item of a script. */
  method WriteItem(buffer: ByteBuffer, item: Item)
    requires buffer.Writing() && Writable(item)
    modifies buffer
    ensures buffer.Writing() && buffer.Written() == Put(old(buffer.Written()), item) && buffer.rpos == old(buffer.rpos)
  {
    match item
    case Bits(v, n) => buffer.WriteBits(v, n);
    case Int(v, w) => buffer.WriteInt(v, w);
    case Str(s) => buffer.WriteStr(s);
    case Packed(v) => buffer.AppendPackedUInt64(v);
  }

  /** Reads an item of the same shape; `None` is the position exception. */
  method ReadItem(buffer: ByteBuffer, item: Item) returns (r: Option<Item>)
    requires buffer.bitpos <= 8
    modifies buffer
    ensures buffer.storage == old(buffer.storage)
    ensures match Take(buffer.storage, old(buffer.ReadState()), item)
            case None => r.None?
            case Some((got, next)) => r == Some(got) && buffer.ReadState() == next && buffer.bitpos <= 8
  {
    hide TakeBits, TakePacked, TakeStr, NumberOf, IntOf, BitsOf;
    match item {
      case Bits(_, n) =>
        var v := buffer.ReadBits(n);
        r := if v.Some? then Some(Bits(v.value, n)) else None;
      case Int(_, w) =>
        var v := buffer.ReadInt(w);
        r := if v.Some? then Some(Int(v.value, w)) else None;
      case Str(_) =>
        var s := buffer.ReadStr();
        r := Some(Str(s));
      case Packed(_) =>
        var v := buffer.ReadPackedUInt64();
        r := if v.Some? then Some(Packed(v.value)) else None;
    }
  }

  /** A packet is written, flushed and read again, item by item: the same values come back, and the position
      exception is not raised, exactly when no packed number is misplaced. */
  method Transfer(items: seq<Item>) returns (same: bool)
    requires forall item <- items :: Writable(item)
    ensures same <==> SafeAll(EMPTY, items)
  {
    hide Put, SafeAll, ReadsBack, PutAll, Writable;
    var buffer := WriteAll(items);
    var data := buffer.storage;
    RoundTrip(items);
    var i := 0;
    assert items[0..] == items;
    while i < |items|
      invariant i <= |items| && buffer.storage == data && buffer.bitpos <= 8
      invariant ReadsBack(data, Reader(0, []), items) <==> ReadsBack(data, buffer.ReadState(), items[i..])
    {
      ReadsBackStep(data, buffer.ReadState(), items[i..]);
      assert items[i..][0] == items[i] && items[i..][1..] == items[i + 1..];
      var got := ReadItem(buffer, items[i]);
      if got != Some(Expected(items[i])) {
        return false;
      }
      i := i + 1;
    }
    ReadsBackEnd(data, buffer.ReadState());
    assert items[|items|..] == [];
    return true;
  }

  /** The writing half: the whole script, and the flush. */
  method WriteAll(items: seq<Item>) returns (buffer: ByteBuffer)
    requires forall item <- items :: Writable(item)
    ensures fresh(buffer) && buffer.storage == Encode(items) && buffer.ReadState() == Reader(0, []) && buffer.bitpos <= 8
  {
    hide Put, PutAll, Writable;
    buffer := new ByteBuffer();
    var i := 0;
    assert items[0..] == items;
    while i < |items|
      invariant i <= |items| && fresh(buffer) && buffer.Writing() && buffer.rpos == 0
      invariant PutAll(buffer.Written(), items[i..]) == PutAll(EMPTY, items)
    {
      PutAllStep(buffer.Written(), items[i..]);
      assert items[i..][0] == items[i] && items[i..][1..] == items[i + 1..] && items[i] in items;
      WriteItem(buffer, items[i]);
      i := i + 1;
    }
    PutAllEnd(buffer.Written());
    assert items[|items|..] == [];
    PendingByte(buffer.curbitval, buffer.bitpos);
    buffer.FlushBits();
  }

  lemma PutAllStep(b: Buf, items: seq<Item>)
    requires Ok(b) && items != []
    ensures PutAll(b, items) == PutAll(Put(b, items[0]), items[1..])
  {
  }

  lemma PutAllEnd(b: Buf)
    requires Ok(b)
    ensures PutAll(b, []) == b
  {
  }

  lemma ReadsBackStep(data: seq<byte>, r: Reader, items: seq<Item>)
    requires items != []
    ensures ReadsBack(data, r, items) <==>
              match Take(data, r, items[0])
              case None => false
              case Some((item, r1)) => item == Expected(items[0]) && ReadsBack(data, r1, items[1..])
  {
  }

  lemma ReadsBackEnd(data: seq<byte>, r: Reader)
    ensures ReadsBack(data, r, [])
  {
  }

  /** `PackUInt64` after `i` bytes: `v` is what is left of `value`, `m` and `result` are the mask and the bytes so far. */
  ghost predicate Packing(value: nat, v: nat, i: nat, m: nat, result: seq<byte>) {
    var bytes := IntBytes(value, 8);
    i <= 8 && v < Pow256(8 - i) && bytes[i..] == IntBytes(v, 8 - i) && m < 256 &&
    (forall j :: 0 <= j < 8 ==> BitAt(m, j) == (j < i && bytes[j] != 0)) &&
    result + NonZero(bytes[i..]) == PackedBytes(value)
  }

  lemma PackStart(value: nat)
    requires value < Pow256(8)
    ensures Packing(value, value, 0, 0, [])
  {
    forall j: nat ensures !BitAt(0, j) {
      ZeroBits(j);
    }
    var bytes := IntBytes(value, 8);
    assert bytes[0..] == bytes;
    assert [] + NonZero(bytes) == NonZero(bytes);
  }

  lemma PackStep(value: nat, v: nat, i: nat, m: nat, result: seq<byte>)
    requires v != 0 && Packing(value, v, i, m, result)
    ensures Packing(value, v / 256, i + 1, if v % 256 != 0 then SetBit(m, i) else m,
                    if v % 256 != 0 then result + [v % 256] else result)
  {
    var bytes := IntBytes(value, 8);
    var rest := bytes[i..];
    assert i < 8 && rest[0] == v % 256 == bytes[i] && rest[1..] == bytes[i + 1..];
    hide IntBytes, BitAt, SetBit, NonZero, PackedBytes;
    assert Pow2(8) == 256;
    SetBitBound(m, i, 8);
    forall j: nat | j < 8 ensures BitAt(SetBit(m, i), j) == (i == j || BitAt(m, j)) {
      BitOfSet(m, i, j);
    }
  }

  lemma PackEnd(value: nat, i: nat, m: nat, result: seq<byte>)
    requires value < Pow256(8) && Packing(value, 0, i, m, result)
    ensures m == Mask(value) && result == PackedBytes(value)
  {
    var bytes := IntBytes(value, 8);
    ZeroInt(8 - i);
    MaskBound(bytes);
    ZeroIntBytes(8 - i);
    assert Pow2(8) == 256;
    forall j: nat | j < 8 ensures BitAt(m, j) == BitAt(Mask(value), j) {
      MaskBit(bytes, j);
      assert j >= i ==> bytes[i..][j - i] == bytes[j];
    }
    BitsDetermine(m, Mask(value), 8);
    assert result + [] == result;
  }

  /** The top bits of `value` down to bit `i` are the ones read; the others are still zero. */
  ghost predicate BitsRead(value: nat, got: seq<bool>, bits: nat, i: nat)
    requires i <= bits
  {
    value < Pow2(bits) && |got| == bits - i &&
    forall j :: 0 <= j < bits ==> BitAt(value, j) == (j >= i && got[bits - 1 - j])
  }

  lemma BitsReadStart(bits: nat)
    ensures BitsRead(0, [], bits, bits)
  {
    NumberBits(FieldBits(0, bits));
    forall j: nat ensures !BitAt(0, j) {
      ZeroBits(j);
    }
  }

  lemma BitsReadStep(value: nat, got: seq<bool>, bits: nat, i: nat, bit: bool)
    requires i < bits && BitsRead(value, got, bits, i + 1)
    ensures BitsRead(if bit then SetBit(value, i) else value, got + [bit], bits, i)
  {
    SetBitBound(value, i, bits);
    var v, g := if bit then SetBit(value, i) else value, got + [bit];
    forall j | 0 <= j < bits ensures BitAt(v, j) == (j >= i && g[bits - 1 - j]) {
      BitOfSet(value, i, j);
    }
  }

  lemma BitsReadEnd(value: nat, got: seq<bool>, bits: nat)
    requires BitsRead(value, got, bits, 0)
    ensures value == NumberOf(got)
  {
    NumberBits(got);
    BitsDetermine(value, NumberOf(got), bits);
  }

  /** The bytes `got` of a packed number whose non-zero bytes start at `start` have been read. */
  ghost predicate PackedRead(data: seq<byte>, start: nat, mask: byte, got: seq<byte>, pos: nat, i: nat, value: nat) {
    i <= 8 && |got| == i && value == IntOf(got) &&
    TakePacked(data, start, mask, 0) == Joined(got, TakePacked(data, pos, mask, i))
  }

  lemma PackedReadStart(data: seq<byte>, start: nat, mask: byte)
    ensures PackedRead(data, start, mask, [], start, 0, 0)
  {
    JoinedNothing(TakePacked(data, start, mask, 0));
  }

  lemma PackedReadStep(data: seq<byte>, start: nat, mask: byte, got: seq<byte>, pos: nat, i: nat, value: nat, b: byte)
    requires i < 8 && PackedRead(data, start, mask, got, pos, i, value)
    requires if BitAt(mask, i) then pos < |data| && b == data[pos] else b == 0
    ensures PackedRead(data, start, mask, got + [b], if BitAt(mask, i) then pos + 1 else pos, i + 1,
                       value + b * Pow256(i))
  {
    var after := if BitAt(mask, i) then pos + 1 else pos;
    AppendInt(got, b);
    JoinedSnoc(got, b, TakePacked(data, after, mask, i + 1));
    assert TakePacked(data, pos, mask, i) == Joined([b], TakePacked(data, after, mask, i + 1));
  }

  lemma PackedCut(data: seq<byte>, start: nat, mask: byte, got: seq<byte>, pos: nat, i: nat, value: nat)
    requires i < 8 && PackedRead(data, start, mask, got, pos, i, value)
    requires BitAt(mask, i) && pos >= |data|
    ensures TakePacked(data, start, mask, 0).None?
  {
  }

  lemma PackedReadEnd(data: seq<byte>, start: nat, mask: byte, got: seq<byte>, pos: nat, value: nat)
    requires PackedRead(data, start, mask, got, pos, 8, value)
    ensures TakePacked(data, start, mask, 0) == Some((got, pos)) && value == IntOf(got)
  {
    assert got + [] == got;
  }

  /** What was read of a packed number, followed by the rest. */
  function Joined(got: seq<byte>, rest: Option<(seq<byte>, nat)>): Option<(seq<byte>, nat)> {
    match rest
    case None => None
    case Some((bytes, end)) => Some((got + bytes, end))
  }

  lemma JoinedNothing(rest: Option<(seq<byte>, nat)>)
    ensures Joined([], rest) == rest
  {
    if rest.Some? {
      assert [] + rest.value.0 == rest.value.0;
    }
  }

  lemma JoinedSnoc(got: seq<byte>, b: byte, rest: Option<(seq<byte>, nat)>)
    ensures Joined(got, Joined([b], rest)) == Joined(got + [b], rest)
  {
    if rest.Some? {
      assert got + ([b] + rest.value.0) == got + [b] + rest.value.0;
    }
  }

  lemma {:induction false} TakeBitsFails(data: seq<byte>, r: Reader, n: nat, m: nat)
    requires TakeBits(data, r, n).None? && n <= m
    ensures TakeBits(data, r, m).None?
    decreases m - n
  {
    if n < m {
      TakeBitsFails(data, r, n, m - 1);
    }
  }

  lemma OneBitPut(before: seq<byte>, after: seq<byte>, p: nat, x: bool)
    requires p < 8 * |before|
    requires var b, i := before[p / 8], 7 - p % 8; var c := if x then SetBit(b, i) else ClearBit(b, i);
             c < 256 && after == before[p / 8 := c]
    ensures |after| == |before|
    ensures forall k :: 0 <= k < 8 * |before| ==> StoredBit(after, k) == if k == p then x else StoredBit(before, k)
  {
    forall k | 0 <= k < 8 * |before|
      ensures StoredBit(after, k) == if k == p then x else StoredBit(before, k)
    {
      if k / 8 == p / 8 {
        BitOfSet(before[p / 8], 7 - p % 8, 7 - k % 8);
        BitOfClear(before[p / 8], 7 - p % 8, 7 - k % 8);
      }
    }
  }

  lemma ZeroByteBits()
    ensures forall i :: 0 <= i ==> !BitAt(0, i)
    ensures BitsOf(0)[..0] == []
  {
    forall i: nat ensures !BitAt(0, i) {
      ZeroBits(i);
    }
  }

  lemma {:induction false} ZeroIntBytes(n: nat)
    ensures forall i :: 0 <= i < n ==> IntBytes(0, n)[i] == 0
  {
    if n > 0 {
      ZeroIntBytes(n - 1);
    }
  }

  /** The current byte is what flushing its pending bits stores. */
  lemma PendingByte(cur: byte, bitpos: nat)
    requires 1 <= bitpos <= 8 && forall i :: 0 <= i < bitpos ==> !BitAt(cur, i)
    ensures PackByte(BitsOf(cur)[..8 - bitpos]) == cur
  {
    var bits := BitsOf(cur);
    assert bits[..8 - bitpos] + Zeros(bitpos) == bits;
    ByteOfBits(PackByte(bits[..8 - bitpos]), cur);
  }
}
