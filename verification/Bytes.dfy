/** Byte buffers: little-endian fields, where a field sits in a buffer, and writing one in place. */
module Bytes {
  import opened Wrappers

  newtype Byte = x: int | 0 <= x < 256

  const MAX16 := 0xffff
  const MAX32 := 0xffffffff

  datatype RangeError = RangeError

  // What a buffer write returns instead of throwing; `:-` passes the error on.
  datatype Outcome = Written | OutOfRange {
    predicate IsFailure() { OutOfRange? }

    function PropagateFailure<T>(): Result<T, RangeError>
      requires IsFailure()
    {
      Err(RangeError)
    }
  }

  // The low sixteen bits, low byte first.
  function Le16(n: nat): (s: seq<Byte>)
    ensures |s| == 2
  {
    [(n % 256) as Byte, (n / 256 % 256) as Byte]
  }

  function Le32(n: nat): (s: seq<Byte>)
    ensures |s| == 4
  {
    Le16(n % 0x10000) + Le16(n / 0x10000)
  }

  function U16(b: seq<Byte>, off: nat): nat
    requires off + 2 <= |b|
  {
    b[off] as int + 256 * b[off + 1] as int
  }

  function U32(b: seq<Byte>, off: nat): nat
    requires off + 4 <= |b|
  {
    U16(b, off) + 0x10000 * U16(b, off + 2)
  }

  // s stands in b from offset off.
  predicate At(b: seq<Byte>, off: nat, s: seq<Byte>) {
    off + |s| <= |b| && b[off..off + |s|] == s
  }

  lemma AtSplit(b: seq<Byte>, off: nat, s: seq<Byte>, t: seq<Byte>)
    requires At(b, off, s + t)
    ensures At(b, off, s) && At(b, off + |s|, t)
  {
    assert b[off..off + |s|] == (s + t)[..|s|] == s;
    assert b[off + |s|..off + |s| + |t|] == (s + t)[|s|..] == t;
  }

  lemma AtLeft(a: seq<Byte>, t: seq<Byte>, off: nat, s: seq<Byte>)
    requires At(a, off, s)
    ensures At(a + t, off, s)
  {
    assert (a + t)[off..off + |s|] == a[off..off + |s|];
  }

  lemma AtRight(a: seq<Byte>, t: seq<Byte>, off: nat, s: seq<Byte>)
    requires At(t, off, s)
    ensures At(a + t, |a| + off, s)
  {
    assert (a + t)[|a| + off..|a| + off + |s|] == t[off..off + |s|];
  }

  lemma AtEnd(a: seq<Byte>, t: seq<Byte>)
    ensures At(a + t, |a|, t)
  {
  }

  lemma Le16Bytes(n: nat)
    requires n <= MAX16
    ensures Le16(n)[0] as int + 256 * Le16(n)[1] as int == n
  {
  }

  // Two buffers agree from an offset on.
  predicate SameFrom(b: seq<Byte>, c: seq<Byte>, off: nat) {
    |b| == |c| && forall j :: off <= j < |b| ==> b[j] == c[j]
  }

  // The part of a buffer that has been written.
  function Filled(buf: array<Byte>, n: nat): (s: seq<Byte>)
    requires n <= buf.Length
    reads buf
    ensures |s| == n
  {
    buf[..n]
  }

  lemma NothingFilled(buf: array<Byte>)
    ensures Filled(buf, 0) == []
  {
  }

  lemma AllFilled(buf: array<Byte>)
    ensures Filled(buf, buf.Length) == buf[..]
  {
  }

  lemma FirstField(s: seq<Byte>)
    ensures [] + s == s
  {
  }

  /** Writes a field whose value fits: earlier bytes are followed by the field, later ones keep their values. */
  method Put16(buf: array<Byte>, value: nat, offset: nat)
    requires offset + 2 <= buf.Length && value <= MAX16
    modifies buf
    ensures Filled(buf, offset + 2) == old(Filled(buf, offset)) + Le16(value)
    ensures SameFrom(buf[..], old(buf[..]), offset + 2)
  {
    buf[offset] := (value % 256) as Byte;
    buf[offset + 1] := (value / 256) as Byte;
    assert buf[..offset] == old(buf[..offset]);
  }

  method Put32(buf: array<Byte>, value: nat, offset: nat)
    requires offset + 4 <= buf.Length && value <= MAX32
    modifies buf
    ensures Filled(buf, offset + 4) == old(Filled(buf, offset)) + Le32(value)
    ensures SameFrom(buf[..], old(buf[..]), offset + 4)
  {
    buf[offset] := (value % 256) as Byte;
    buf[offset + 1] := (value / 0x100 % 256) as Byte;
    buf[offset + 2] := (value / 0x10000 % 256) as Byte;
    buf[offset + 3] := (value / 0x1000000) as Byte;
    assert buf[..offset] == old(buf[..offset]);
    FourBytes(value);
  }

  /** Writes any value, or fails and changes nothing (Buffer.writeUInt16LE and writeUInt32LE). */
  method Write16(buf: array<Byte>, value: nat, offset: nat) returns (w: Outcome)
    requires offset + 2 <= buf.Length
    modifies buf
    ensures w.IsFailure() <==> value > MAX16
    ensures w.IsFailure() ==> buf[..] == old(buf[..])
    ensures !w.IsFailure() ==> Filled(buf, offset + 2) == old(Filled(buf, offset)) + Le16(value)
    ensures SameFrom(buf[..], old(buf[..]), offset + 2)
  {
    if value > MAX16 { return OutOfRange; }
    Put16(buf, value, offset);
    return Written;
  }

  method Write32(buf: array<Byte>, value: nat, offset: nat) returns (w: Outcome)
    requires offset + 4 <= buf.Length
    modifies buf
    ensures w.IsFailure() <==> value > MAX32
    ensures w.IsFailure() ==> buf[..] == old(buf[..])
    ensures !w.IsFailure() ==> Filled(buf, offset + 4) == old(Filled(buf, offset)) + Le32(value)
    ensures SameFrom(buf[..], old(buf[..]), offset + 4)
  {
    if value > MAX32 { return OutOfRange; }
    Put32(buf, value, offset);
    return Written;
  }

  lemma FourBytes(n: nat)
    requires n <= MAX32
    ensures Le32(n) == [(n % 256) as Byte, (n / 0x100 % 256) as Byte, (n / 0x10000 % 256) as Byte,
                        (n / 0x1000000) as Byte]
  {
    LowHalf(n);
    HighHalf(n / 0x10000);
    Quotients(n);
  }

  lemma LowHalf(n: nat)
    ensures n % 0x10000 % 256 == n % 256
    ensures n % 0x10000 / 256 % 256 == n / 0x100 % 256
  {
    var q, r := n / 0x10000, n % 0x10000;
    var h, l := r / 256, r % 256;
    assert n == 256 * (256 * q + h) + l;
    assert n / 256 == 256 * q + h;
  }

  lemma HighHalf(h: nat)
    requires h <= MAX16
    ensures h / 256 % 256 == h / 256
  {
  }

  lemma Quotients(n: nat)
    ensures n / 0x10000 / 256 == n / 0x1000000
  {
  }

  // Copies a whole buffer into another (Buffer.copy).
  method CopyInto(src: seq<Byte>, buf: array<Byte>, offset: nat)
    requires offset + |src| <= buf.Length
    modifies buf
    ensures Filled(buf, offset + |src|) == old(Filled(buf, offset)) + src
    ensures SameFrom(buf[..], old(buf[..]), offset + |src|)
  {
    forall i | 0 <= i < |src| {
      buf[offset + i] := src[i];
    }
    assert buf[..offset] == old(buf[..offset]);
    assert buf[offset..offset + |src|] == src;
  }

  // Buffer.concat.
  function Concat(parts: seq<seq<Byte>>): seq<Byte> {
    if parts == [] then [] else Concat(parts[..|parts| - 1]) + parts[|parts| - 1]
  }

  lemma ConcatPush(parts: seq<seq<Byte>>, p: seq<Byte>)
    ensures Concat(parts + [p]) == Concat(parts) + p
  {
    assert (parts + [p])[..|parts|] == parts;
  }
}
