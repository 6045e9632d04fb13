/** The positioned byte buffer the channel requests are written into
    (ses.writepayload): a fixed-size array, a cursor pos and a length len.
    A write stores its bytes at pos, advances pos and raises len to pos if
    it went past it; buf_setpos only moves pos, and never past len. */
module Buffers {
  import opened SshWire

  function Max(a: nat, b: nat): nat {
    if a < b then b else a
  }

  /** The contents c after writing b at position p: the bytes at
      p .. p+|b|-1 are replaced, and c grows if the write runs past its end. */
  function WriteInto(c: seq<byte>, p: nat, b: seq<byte>): (r: seq<byte>)
    requires p <= |c|
    ensures |r| == Max(|c|, p + |b|)
    ensures p == |c| ==> r == c + b
  {
    var r := seq(Max(|c|, p + |b|), k requires 0 <= k < Max(|c|, p + |b|) =>
      if p <= k < p + |b| then b[k - p] else c[k]);
    assert p == |c| ==> r == c + b;
    r
  }

  lemma WriteIntoAt(c: seq<byte>, p: nat, b: seq<byte>, k: nat)
    requires p <= |c| && k < Max(|c|, p + |b|)
    ensures WriteInto(c, p, b)[k] == if p <= k < p + |b| then b[k - p] else c[k]
  {
  }

  /** The first n bytes of a write read back from where it was put. */
  lemma WriteIntoPrefix(c: seq<byte>, p: nat, b: seq<byte>, n: nat)
    requires p <= |c| && n <= |b|
    ensures WriteInto(c, p, b)[p..p + n] == b[..n]
  {
  }

  /** Two adjacent writes, the second at q just past the first, are one
      write of both. */
  lemma WriteIntoThen(c: seq<byte>, p: nat, a: seq<byte>, q: nat, b: seq<byte>)
    requires p <= |c| && q == p + |a|
    ensures WriteInto(WriteInto(c, p, a), q, b) == WriteInto(c, p, a + b)
  {
  }

  /** Writing over the start of an earlier write replaces that start only. */
  lemma WriteIntoPatch(c: seq<byte>, p: nat, a: seq<byte>, x: seq<byte>)
    requires p <= |c| && |x| <= |a|
    ensures WriteInto(WriteInto(c, p, a), p, x) == WriteInto(c, p, x + a[|x|..])
  {
  }

  class Buffer {
    const data: array<byte>
    var pos: nat
    var len: nat
    /** The bytes written so far, data[..len]. */
    ghost var contents: seq<byte>

    ghost predicate Valid()
      reads this, data
    {
      pos <= len <= data.Length < 0x1_0000_0000 && |contents| == len &&
      forall k {:trigger data[k]} | 0 <= k < len :: data[k] == contents[k]
    }

    /** buf_new: an empty buffer of the given size. */
    constructor (size: nat)
      requires size < 0x1_0000_0000
      ensures Valid() && fresh(data) && data.Length == size
      ensures pos == 0 && len == 0
    {
      data := new byte[size];
      pos, len := 0, 0;
      contents := [];
    }

    /** buf_putbytes: store b at pos and advance past it. */
    method PutBytes(b: seq<byte>)
      requires Valid() && pos + |b| <= data.Length
      modifies this`pos, this`len, this`contents, data
      ensures Valid()
      ensures contents == WriteInto(old(contents), old(pos), b)
      ensures pos == old(pos) + |b| && len == Max(old(len), pos)
    {
      ghost var before := data[..];
      var i := 0;
      while i < |b|
        invariant 0 <= i <= |b|
        invariant pos == old(pos) && len == old(len) && contents == old(contents)
        invariant forall k | 0 <= k < data.Length ::
          data[k] == if pos <= k < pos + i then b[k - pos] else before[k]
      {
        data[pos + i] := b[i];
        i := i + 1;
      }
      pos := pos + |b|;
      if pos > len {
        len := pos;
      }
      contents := WriteInto(contents, old(pos), b);
      forall k | 0 <= k < len ensures data[k] == contents[k] {
        WriteIntoAt(old(contents), old(pos), b, k);
      }
    }

    /** buf_putbyte. */
    method PutByte(x: byte)
      requires Valid() && pos + 1 <= data.Length
      modifies this`pos, this`len, this`contents, data
      ensures Valid()
      ensures contents == WriteInto(old(contents), old(pos), [x])
      ensures pos == old(pos) + 1 && len == Max(old(len), pos)
    {
      PutBytes([x]);
    }

    /** buf_putint: four big-endian bytes. */
    method PutInt(n: uint32)
      requires Valid() && pos + 4 <= data.Length
      modifies this`pos, this`len, this`contents, data
      ensures Valid()
      ensures contents == WriteInto(old(contents), old(pos), EncodeUint32(n))
      ensures pos == old(pos) + 4 && len == Max(old(len), pos)
    {
      PutBytes(EncodeUint32(n));
    }

    /** buf_putstring: a uint32 length, then the bytes. */
    method PutString(s: seq<byte>)
      requires Valid() && pos + 4 + |s| <= data.Length
      modifies this`pos, this`len, this`contents, data
      ensures Valid()
      ensures contents == WriteInto(old(contents), old(pos), EncodeString(s))
      ensures pos == old(pos) + 4 + |s| && len == Max(old(len), pos)
    {
      PutInt(|s|);
      PutBytes(s);
      WriteIntoThen(old(contents), old(pos), EncodeUint32(|s|), old(pos) + 4, s);
    }

    /** buf_setpos: move the cursor within the written bytes. */
    method SetPos(p: nat)
      requires Valid() && p <= len
      modifies this`pos
      ensures Valid() && pos == p
    {
      pos := p;
    }

    /** Empty the buffer, as the transport does once it has taken a payload. */
    method Clear()
      requires Valid()
      modifies this`pos, this`len, this`contents
      ensures Valid() && pos == 0 && len == 0 && contents == []
    {
      pos, len := 0, 0;
      contents := [];
    }
  }
}
