/** SSH wire encodings used by the channel requests: bytes, big-endian
    uint32 and length-prefixed strings (section 5 of RFC 4251). */
module SshWire {

  datatype Option<+T> = None | Some(value: T)

  type byte = x: int | 0 <= x < 0x100
  type uint32 = x: int | 0 <= x < 0x1_0000_0000

  /** The value of four big-endian bytes. */
  function DecodeUint32(b: seq<byte>): (n: uint32)
    requires |b| == 4
  {
    b[0] as int * 0x100_0000 + b[1] as int * 0x1_0000 + b[2] as int * 0x100 + b[3] as int
  }

  /** What buf_putint writes: n as four big-endian bytes, most significant
      first. */
  function EncodeUint32(n: uint32): (r: seq<byte>)
    ensures |r| == 4
  {
    [n / 0x100_0000, (n / 0x1_0000) % 0x100, (n / 0x100) % 0x100, n % 0x100]
  }

  /** The four bytes read back as the number written. */
  lemma DecodeEncodeUint32(n: uint32)
    ensures DecodeUint32(EncodeUint32(n)) == n
  {
    DivModSplit(n);
  }

  /** The digit decomposition behind EncodeUint32's round trip. */
  lemma DivModSplit(n: uint32)
    ensures n == (n / 0x100_0000) * 0x100_0000 + ((n / 0x1_0000) % 0x100) * 0x1_0000
                 + ((n / 0x100) % 0x100) * 0x100 + n % 0x100
  {
    var a := n / 0x100;
    var b := a / 0x100;
    var c := b / 0x100;
    assert n == a * 0x100 + n % 0x100;
    assert a == b * 0x100 + a % 0x100;
    assert b == c * 0x100 + b % 0x100;
    assert b == n / 0x1_0000;
    assert c == n / 0x100_0000;
  }

  /** The four bytes of an encoding are the digits of their value. */
  lemma EncodeDecodeUint32(b: seq<byte>)
    requires |b| == 4
    ensures EncodeUint32(DecodeUint32(b)) == b
  {
    var b0, b1, b2, b3: int := b[0], b[1], b[2], b[3];
    var n := DecodeUint32(b);
    var hi2 := b0 * 0x100 + b1;
    var hi1 := hi2 * 0x100 + b2;
    DivModUnique(hi1, b3, 0x100);
    DivModUnique(hi2, b2 * 0x100 + b3, 0x1_0000);
    DivModUnique(b0, b1 * 0x1_0000 + b2 * 0x100 + b3, 0x100_0000);
    DivModUnique(b0, b1, 0x100);
    DivModUnique(hi2, b2, 0x100);
  }

  /** Euclidean division recovers quotient and remainder. */
  lemma DivModUnique(hi: int, lo: int, k: int)
    requires 0 <= lo < k
    ensures (hi * k + lo) / k == hi && (hi * k + lo) % k == lo
  {
    var n := hi * k + lo;
    var q, r := n / k, n % k;
    assert q * k + r == n;
    assert (q - hi) * k == lo - r;
    if q > hi {
      MulAtLeast(q - hi, k);
    } else if q < hi {
      MulAtLeast(hi - q, k);
    }
  }

  lemma MulAtLeast(a: int, k: int)
    requires a >= 1 && k >= 0
    ensures a * k >= k
  {
  }

  /** Reads a uint32 off the front of s, giving the rest. */
  function ReadUint32(s: seq<byte>): (r: Option<(uint32, seq<byte>)>)
    ensures r.None? <==> |s| < 4
    ensures r.Some? ==> EncodeUint32(r.value.0) + r.value.1 == s
  {
    if |s| < 4 then None
    else
      EncodeDecodeUint32(s[..4]);
      assert s == s[..4] + s[4..];
      Some((DecodeUint32(s[..4]), s[4..]))
  }

  lemma ReadEncodedUint32(n: uint32, rest: seq<byte>)
    ensures ReadUint32(EncodeUint32(n) + rest) == Some((n, rest))
  {
    var s := EncodeUint32(n) + rest;
    assert s[..4] == EncodeUint32(n);
    assert s[4..] == rest;
    DecodeEncodeUint32(n);
  }

  /** What buf_putstring writes: a uint32 length followed by the bytes. */
  function EncodeString(s: seq<byte>): (r: seq<byte>)
    requires |s| < 0x1_0000_0000
    ensures |r| == 4 + |s|
  {
    EncodeUint32(|s|) + s
  }

  /** Reads a length-prefixed string off the front of s, giving the rest. */
  function ReadString(s: seq<byte>): (r: Option<(seq<byte>, seq<byte>)>)
    ensures r.Some? ==> |r.value.0| < 0x1_0000_0000
    ensures r.Some? ==> EncodeString(r.value.0) + r.value.1 == s
  {
    match ReadUint32(s)
    case None => None
    case Some((n, rest)) =>
      if n <= |rest| then
        assert rest == rest[..n] + rest[n..];
        Some((rest[..n], rest[n..]))
      else None
  }

  lemma {:induction false} ReadEncodedString(x: seq<byte>, rest: seq<byte>)
    requires |x| < 0x1_0000_0000
    ensures ReadString(EncodeString(x) + rest) == Some((x, rest))
  {
    assert EncodeString(x) + rest == EncodeUint32(|x|) + (x + rest);
    ReadEncodedUint32(|x|, x + rest);
    assert (x + rest)[..|x|] == x;
    assert (x + rest)[|x|..] == rest;
  }
}
