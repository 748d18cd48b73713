/** Big-endian numbers in a byte string (backend/voice.py 307-319). */
module Bytes {
  type Byte = x: int | 0 <= x < 256

  /** The result of reading something that may be malformed. */
  datatype Parsed<T> = Fine(value: T) | Malformed

  /** 256 to the n. */
  function Base(n: nat): (p: nat)
    ensures p >= 1
  {
    if n == 0 then 1 else 256 * Base(n - 1)
  }

  /** The number n bytes are, most significant first. */
  function BigAt(b: seq<Byte>, start: nat, n: nat): nat
    requires start + n <= |b|
  {
    if n == 0 then 0 else BigAt(b, start, n - 1) * 256 + b[start + n - 1]
  }

  function Big(b: seq<Byte>): nat {
    BigAt(b, 0, |b|)
  }

  /** The last n bytes of a number, most significant first. */
  function ToBytes(value: nat, n: nat): (b: seq<Byte>)
    ensures |b| == n
  {
    if n == 0 then [] else ToBytes(value / 256, n - 1) + [value % 256]
  }

  lemma {:induction false} BigOfBytes(b: seq<Byte>, start: nat, value: nat, n: nat)
    requires value < Base(n) && start + n <= |b| && b[start..start + n] == ToBytes(value, n)
    ensures BigAt(b, start, n) == value
  {
    if n > 0 {
      var part := b[start..start + n];
      assert b[start..start + n - 1] == part[..n - 1] == ToBytes(value / 256, n - 1);
      assert b[start + n - 1] == part[n - 1] == value % 256;
      BigOfBytes(b, start, value / 256, n - 1);
    }
  }

  lemma {:induction false} BytesOfBig(b: seq<Byte>, start: nat, n: nat)
    requires start + n <= |b|
    ensures BigAt(b, start, n) < Base(n)
    ensures ToBytes(BigAt(b, start, n), n) == b[start..start + n]
  {
    if n > 0 {
      BytesOfBig(b, start, n - 1);
      assert b[start..start + n] == b[start..start + n - 1] + [b[start + n - 1]];
    }
  }

  /** The same bytes are the same number. */
  lemma {:induction false} SameBytes(b: seq<Byte>, start: nat, c: seq<Byte>, from: nat, n: nat)
    requires start + n <= |b| && from + n <= |c| && b[start..start + n] == c[from..from + n]
    ensures BigAt(b, start, n) == BigAt(c, from, n)
  {
    if n > 0 {
      assert b[start..start + n - 1] == b[start..start + n][..n - 1];
      assert c[from..from + n - 1] == c[from..from + n][..n - 1];
      assert b[start + n - 1] == b[start..start + n][n - 1];
      SameBytes(b, start, c, from, n - 1);
    }
  }

  lemma TopDigit(value: nat, first: nat, p: nat)
    requires first * p <= value / 256 < (first + 1) * p
    ensures first * (256 * p) <= value < (first + 1) * (256 * p)
  {
    var low, high := first * p, (first + 1) * p;
    assert first * (256 * p) == 256 * low && (first + 1) * (256 * p) == 256 * high;
    assert 256 * low <= value < 256 * high;
  }

  /** The first byte is the number's top digit. */
  lemma {:induction false} FirstByte(value: nat, n: nat, first: nat)
    requires n > 0 && value < Base(n) && first == ToBytes(value, n)[0]
    ensures first * Base(n - 1) <= value < (first + 1) * Base(n - 1)
  {
    if n > 1 {
      FirstByte(value / 256, n - 1, first);
      TopDigit(value, first, Base(n - 2));
    }
  }

  /** An n-byte number at `start`. */
  function U(b: seq<Byte>, start: int, n: nat): Parsed<nat> {
    if start < 0 || start + n > |b| then Malformed else Fine(BigAt(b, start, n))
  }

  /** At `pos` these bytes stand. */
  predicate Holds(b: seq<Byte>, pos: int, part: seq<Byte>) {
    0 <= pos && pos + |part| <= |b| && b[pos..pos + |part|] == part
  }

  /** What stands at the start and at the rest of a stretch. */
  lemma HoldsBoth(b: seq<Byte>, pos: int, first: seq<Byte>, second: seq<Byte>)
    requires Holds(b, pos, first + second)
    ensures Holds(b, pos, first) && Holds(b, pos + |first|, second)
  {
    var middle, end := pos + |first|, pos + |first + second|;
    assert b[pos..middle] == b[pos..end][..|first|];
    assert b[middle..end] == b[pos..end][|first|..];
  }

  lemma Joined(b: seq<Byte>, pos: int, first: seq<Byte>, second: seq<Byte>)
    requires Holds(b, pos, first) && Holds(b, pos + |first|, second)
    ensures Holds(b, pos, first + second)
  {
    var middle, end := pos + |first|, pos + |first + second|;
    assert b[pos..end] == b[pos..middle] + b[middle..end];
  }
}
