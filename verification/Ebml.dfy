/** EBML (sections 4 to 6 of RFC 8794) as a WebM recording's length is read from it (backend/voice.py 395-465).
The specification is an encoder; the reader is shown to be its inverse. */
module Ebml {
  import opened Basics
  import opened Bytes

  const EBML: nat := 0x1A45DFA3
  const SEGMENT: nat := 0x18538067
  const INFO: nat := 0x1549A966
  const TIMECODE_SCALE: nat := 0x2AD7B1
  const DURATION: nat := 0x4489

  // --- variable-length numbers ---

  /** The bit a number of this many bytes sets above its value: 2 to the 7 * length. */
  function Marker(length: nat): (p: nat)
    ensures p >= 1
  {
    if length == 0 then 1 else 128 * Marker(length - 1)
  }

  /** The marker's bit within the first byte: 0x80 shifted right by length - 1. */
  function MarkerBit(length: nat): (bit: nat)
    requires 1 <= length <= 8
    ensures bit >= 1
    decreases 8 - length
  {
    if length == 8 then 1 else 2 * MarkerBit(length + 1)
  }

  /** Whether a byte has that bit: shifted left by length - 1, it has its top bit. */
  predicate Sets(first: nat, length: nat)
    requires 1 <= length <= 8
    decreases length
  {
    if length == 1 then first >= 0x80
    else Sets(2 * (if first >= 0x80 then first - 0x80 else first), length - 1)
  }

  /** Section 4.2 of RFC 8794: the marker, then the value in what is left of `length` bytes. */
  function EncodeVInt(value: nat, length: nat): seq<Byte> {
    ToBytes(Marker(length) + value, length)
  }

  datatype VInt = VInt(value: nat, length: nat, allOnes: bool)

  /** The length the first byte gives: that of its highest bit, if at most `max`. */
  function LengthOf(first: Byte, max: nat, from: nat): (length: nat)
    requires 1 <= from <= max + 1 <= 9
    ensures from <= length <= max + 1
    decreases max - from + 1
  {
    if from <= max && first < MarkerBit(from) then LengthOf(first, max, from + 1) else from
  }

  /** Masking with marker - 1, as repeated subtraction. */
  function LowBits(whole: nat, marker: nat): nat
    requires marker > 0
  {
    if whole < marker then whole else LowBits(whole - marker, marker)
  }

  /** The bytes' value without the marker, or with it. */
  function Number(whole: nat, length: nat, marker: nat, keepMarker: bool): VInt
    requires marker > 0
  {
    var data := LowBits(whole, marker);
    VInt(if keepMarker then whole else data, length, data == marker - 1)
  }

  /** What `_vint` returns. */
  function ReadVInt(b: seq<Byte>, pos: int, max: nat, keepMarker: bool): Parsed<VInt>
    requires 1 <= max <= 8
  {
    var first := U(b, pos, 1);
    if first.Malformed? then Malformed
    else
      var length := LengthOf(b[pos], max, 1);
      var whole := U(b, pos, length);
      if length > max || whole.Malformed? then Malformed
      else Fine(Number(whole.value, length, Marker(length), keepMarker))
  }

  /** `_vint`. */
  method ReadVIntAt(b: seq<Byte>, pos: int, max: nat, keepMarker: bool) returns (r: Parsed<VInt>)
    requires 1 <= max <= 8
    ensures r == ReadVInt(b, pos, max, keepMarker)
  {
    var first := U(b, pos, 1);
    if first.Malformed? {
      return Malformed;
    }
    BytesOfBig(b, pos, 1);
    assert first.value == b[pos];
    var length := 1;
    TopBit();
    while length <= max && !Sets(first.value, length)
      invariant 1 <= length <= max + 1
      invariant length <= max ==> b[pos] < 2 * MarkerBit(length)
      invariant LengthOf(b[pos], max, 1) == LengthOf(b[pos], max, length)
      decreases max - length
    {
      TopBitIsSet(first.value, length);
      length := length + 1;
    }
    if length > max {
      return Malformed;
    }
    TopBitIsSet(first.value, length);
    var whole := U(b, pos, length);
    if whole.Malformed? {
      return Malformed;
    }
    r := Fine(Number(whole.value, length, Marker(length), keepMarker));
  }

  lemma {:induction false} MarkerIs(length: nat)
    requires 1 <= length <= 8
    ensures Marker(length) == MarkerBit(length) * Base(length - 1)
    ensures 2 * Marker(length) <= Base(length)
  {
    if length > 1 {
      MarkerIs(length - 1);
      Shift(MarkerBit(length), Base(length - 2));
    } else {
      TopBit();
    }
  }

  lemma Shift(bit: int, p: int)
    ensures 128 * ((2 * bit) * p) == bit * (256 * p)
  {
  }

  lemma Smaller(a: int, b: int, p: int)
    requires p > 0 && a * p < b * p
    ensures a < b
  {
  }

  /** The length is that of the highest set bit: the first byte lies between that bit and twice it. */
  lemma {:induction false} LengthIs(first: Byte, max: nat, from: nat)
    requires 1 <= from <= max <= 8 && first < 2 * MarkerBit(from)
    ensures var l := LengthOf(first, max, from);
      from <= l && (if l <= max then MarkerBit(l) <= first < 2 * MarkerBit(l) else first < MarkerBit(max))
    decreases max - from
  {
    if first < MarkerBit(from) && from < max {
      LengthIs(first, max, from + 1);
    }
  }

  lemma {:induction false} TopBitIsSet(first: nat, length: nat)
    requires 1 <= length <= 8 && first < 2 * MarkerBit(length)
    ensures Sets(first, length) <==> first >= MarkerBit(length)
    decreases length
  {
    TopBit();
    if length > 1 {
      BitsShrink(1, length - 1);
      TopBitIsSet(2 * first, length - 1);
    }
  }

  lemma TopBit()
    ensures MarkerBit(1) == 0x80
  {
    assert MarkerBit(5) == 8 && MarkerBit(3) == 32;
  }

  lemma {:induction false} BitsShrink(length: nat, max: nat)
    requires 1 <= length <= max <= 8
    ensures MarkerBit(max) <= MarkerBit(length)
    ensures length < max ==> 2 * MarkerBit(max) <= MarkerBit(length)
    decreases max - length
  {
    if length < max {
      BitsShrink(length + 1, max);
    }
  }

  /** Two bits each with the first byte between it and twice it are the same bit. */
  lemma OneHighestBit(first: Byte, l: nat, k: nat)
    requires 1 <= l <= 8 && 1 <= k <= 8
    requires MarkerBit(l) <= first < 2 * MarkerBit(l) && MarkerBit(k) <= first < 2 * MarkerBit(k)
    ensures l == k
  {
    if l < k {
      BitsShrink(l, k);
    } else if k < l {
      BitsShrink(k, l);
    }
  }

  lemma Between(bit: nat, first: nat, whole: nat, p: nat)
    requires p > 0 && bit * p <= whole < 2 * (bit * p) && first * p <= whole < (first + 1) * p
    ensures bit <= first < 2 * bit
  {
    Smaller(bit, first + 1, p);
    assert 2 * (bit * p) == (2 * bit) * p;
    Smaller(first, 2 * bit, p);
  }

  lemma EncodedFirstByte(value: nat, length: nat)
    requires 1 <= length <= 8 && value < Marker(length)
    ensures Marker(length) + value < Base(length)
    ensures MarkerBit(length) <= EncodeVInt(value, length)[0] < 2 * MarkerBit(length)
  {
    MarkerIs(length);
    var first := EncodeVInt(value, length)[0];
    FirstByte(Marker(length) + value, length, first);
    Between(MarkerBit(length), first, Marker(length) + value, Base(length - 1));
  }

  /** A number at `pos`, decided by the first byte and the bytes' value. */
  lemma VIntIs(b: seq<Byte>, pos: int, max: nat, keepMarker: bool, length: nat, whole: nat, v: VInt)
    requires 1 <= length <= max <= 8 && 0 <= pos < |b| && v == Number(whole, length, Marker(length), keepMarker)
    requires MarkerBit(length) <= b[pos] < 2 * MarkerBit(length)
    requires U(b, pos, length) == Fine(whole)
    ensures ReadVInt(b, pos, max, keepMarker) == Fine(v)
  {
    LengthFromFirst(b[pos], max, length);
  }

  lemma LengthFromFirst(first: Byte, max: nat, length: nat)
    requires 1 <= length <= max <= 8 && MarkerBit(length) <= first < 2 * MarkerBit(length)
    ensures LengthOf(first, max, 1) == length
  {
    TopBit();
    LengthIs(first, max, 1);
    var l := LengthOf(first, max, 1);
    if l <= max {
      OneHighestBit(first, l, length);
    } else {
      BitsShrink(length, max);
    }
  }

  lemma NumberIs(value: nat, length: nat, marker: nat, keepMarker: bool)
    requires value < marker
    ensures Number(marker + value, length, marker, keepMarker)
         == VInt(if keepMarker then marker + value else value, length, value == marker - 1)
  {
    assert LowBits(marker + value, marker) == LowBits(value, marker);
  }

  lemma EncodingAt(b: seq<Byte>, pos: int, value: nat, length: nat, whole: nat)
    requires 1 <= length <= 8 && value < Marker(length) && whole == Marker(length) + value
    requires Holds(b, pos, EncodeVInt(value, length))
    ensures pos < |b| && MarkerBit(length) <= b[pos] < 2 * MarkerBit(length)
    ensures U(b, pos, length) == Fine(whole)
  {
    EncodedFirstByte(value, length);
    assert b[pos] == b[pos..pos + length][0];
    BigOfBytes(b, pos, whole, length);
  }

  /** Sections 4.1 to 4.3 of RFC 8794: the encoding of any value of any width is read back, with its width and
  whether it is all ones, whatever surrounds it. */
  lemma VIntRoundTrip(b: seq<Byte>, pos: int, max: nat, keepMarker: bool, value: nat, length: nat) returns (v: VInt)
    requires 1 <= length <= max <= 8 && value < Marker(length) && Holds(b, pos, EncodeVInt(value, length))
    ensures v == VInt(if keepMarker then Marker(length) + value else value, length, value == Marker(length) - 1)
    ensures ReadVInt(b, pos, max, keepMarker) == Fine(v)
  {
    v := NumberAt(b, pos, value, length, Marker(length) + value, keepMarker);
    VIntIs(b, pos, max, keepMarker, length, Marker(length) + value, v);
  }

  lemma NumberAt(b: seq<Byte>, pos: int, value: nat, length: nat, whole: nat, keepMarker: bool) returns (v: VInt)
    requires 1 <= length <= 8 && value < Marker(length) && whole == Marker(length) + value
    requires Holds(b, pos, EncodeVInt(value, length))
    ensures pos < |b| && MarkerBit(length) <= b[pos] < 2 * MarkerBit(length) && U(b, pos, length) == Fine(whole)
    ensures v == VInt(if keepMarker then whole else value, length, value == Marker(length) - 1)
    ensures v == Number(whole, length, Marker(length), keepMarker)
  {
    EncodingAt(b, pos, value, length, whole);
    NumberIs(value, length, Marker(length), keepMarker);
    v := VInt(if keepMarker then whole else value, length, value == Marker(length) - 1);
  }

  /** And nothing else is read: the bytes are the encoding of what came back. */
  lemma OnlyEncodingsAreRead(b: seq<Byte>, pos: int, max: nat, keepMarker: bool, n: VInt) returns (value: nat)
    requires 1 <= max <= 8 && ReadVInt(b, pos, max, keepMarker) == Fine(n)
    ensures 1 <= n.length <= max && value < Marker(n.length)
    ensures Holds(b, pos, EncodeVInt(value, n.length))
    ensures n == VInt(if keepMarker then Marker(n.length) + value else value, n.length,
                      value == Marker(n.length) - 1)
  {
    var whole := NumberRead(b, pos, max, keepMarker, n);
    value := WholeIsEncoding(b, pos, keepMarker, n, whole, Marker(n.length));
  }

  lemma WholeIsEncoding(b: seq<Byte>, pos: int, keepMarker: bool, n: VInt, whole: nat, marker: nat)
    returns (value: nat)
    requires 0 <= pos && 1 <= n.length <= 8 && pos + n.length <= |b| && whole == BigAt(b, pos, n.length)
    requires MarkerBit(n.length) <= b[pos] < 2 * MarkerBit(n.length) && marker == Marker(n.length)
    requires n == Number(whole, n.length, marker, keepMarker)
    ensures value < marker && Holds(b, pos, EncodeVInt(value, n.length))
    ensures n == VInt(if keepMarker then marker + value else value, n.length, value == marker - 1)
  {
    value := BytesAreEncoding(b, pos, n.length, whole);
    NumberIs(value, n.length, marker, keepMarker);
  }

  lemma NumberRead(b: seq<Byte>, pos: int, max: nat, keepMarker: bool, n: VInt) returns (whole: nat)
    requires 1 <= max <= 8 && ReadVInt(b, pos, max, keepMarker) == Fine(n)
    ensures 0 <= pos < |b| && 1 <= n.length <= max && pos + n.length <= |b| && whole == BigAt(b, pos, n.length)
    ensures MarkerBit(n.length) <= b[pos] < 2 * MarkerBit(n.length)
    ensures n == Number(whole, n.length, Marker(n.length), keepMarker)
  {
    TopBit();
    LengthIs(b[pos], max, 1);
    whole := BigAt(b, pos, n.length);
  }

  lemma BytesAreEncoding(b: seq<Byte>, pos: int, length: nat, whole: nat) returns (value: nat)
    requires 0 <= pos && 1 <= length <= 8 && pos + length <= |b| && whole == BigAt(b, pos, length)
    requires MarkerBit(length) <= b[pos] < 2 * MarkerBit(length)
    ensures value < Marker(length) && whole == Marker(length) + value && Holds(b, pos, EncodeVInt(value, length))
  {
    var part := b[pos..pos + length];
    BytesOfBig(b, pos, length);
    FirstByte(whole, length, b[pos]);
    value := WholeIs(whole, b[pos], length);
  }

  lemma WholeIs(whole: nat, first: Byte, length: nat) returns (value: nat)
    requires 1 <= length <= 8 && MarkerBit(length) <= first < 2 * MarkerBit(length)
    requires first * Base(length - 1) <= whole < (first + 1) * Base(length - 1)
    ensures whole == Marker(length) + value && value < Marker(length)
  {
    MarkerIs(length);
    MarkerBounds(MarkerBit(length), first, whole, Base(length - 1));
    value := whole - Marker(length);
  }

  lemma MarkerBounds(bit: nat, first: nat, whole: nat, p: nat)
    requires p > 0 && bit <= first < 2 * bit && first * p <= whole < (first + 1) * p
    ensures bit * p <= whole < 2 * (bit * p)
  {
    Multiply(bit, first, p);
    Multiply(first + 1, 2 * bit, p);
    assert 2 * (bit * p) == (2 * bit) * p;
  }

  lemma Multiply(a: int, b: int, p: int)
    requires p > 0 && a <= b
    ensures a * p <= b * p
  {
  }

  /** A number cut short is refused. */
  lemma TruncationIsSeen(value: nat, length: nat, kept: nat, max: nat, before: seq<Byte>, keepMarker: bool)
    requires 1 <= length <= max <= 8 && value < Marker(length) && kept < length
    ensures ReadVInt(before + EncodeVInt(value, length)[..kept], |before|, max, keepMarker).Malformed?
  {
    var b := before + EncodeVInt(value, length)[..kept];
    if kept > 0 {
      EncodedFirstByte(value, length);
      assert b[|before|] == EncodeVInt(value, length)[0];
      LengthFromFirst(b[|before|], max, length);
    }
  }

  // --- elements ---

  /** What `_element` returns: an id, and where the body starts and ends (None for an unknown size). */
  datatype Element = Element(id: nat, body: int, end: Option<int>)

  /** How the two numbers of an element's header are read at a position. */
  datatype Numbers = Numbers(ident: int -> Parsed<VInt>, size: int -> Parsed<VInt>)

  function NumbersOf(b: seq<Byte>): Numbers {
    Numbers(pos => ReadVInt(b, pos, 4, true), pos => ReadVInt(b, pos, 8, false))
  }

  /** `_element`. */
  function ReadElement(n: Numbers, pos: int, end: int): Parsed<Element> {
    var ident := n.ident(pos);
    if ident.Malformed? then Malformed
    else
      var size := n.size(pos + ident.value.length);
      if size.Malformed? then Malformed
      else
        var body := pos + ident.value.length + size.value.length;
        if size.value.allOnes then Fine(Element(ident.value.value, body, None))
        else if body + size.value.value > end then Malformed
        else Fine(Element(ident.value.value, body, Some(body + size.value.value)))
  }

  /** The id, marker included, whose encoding stands at `pos`. */
  predicate IsIdent(b: seq<Byte>, pos: int, v: VInt) {
    && IsId(v.value, v.length) && Holds(b, pos, EncodeVInt(v.value - Marker(v.length), v.length))
    && v.allOnes == (v.value == 2 * Marker(v.length) - 1)
  }

  /** The size whose encoding stands at `pos`. */
  predicate IsSize(b: seq<Byte>, pos: int, v: VInt) {
    && 1 <= v.length <= 8 && v.value < Marker(v.length) && Holds(b, pos, EncodeVInt(v.value, v.length))
    && v.allOnes == (v.value == Marker(v.length) - 1)
  }

  /** Exactly the encodings are read. */
  ghost predicate Exact(n: Numbers, b: seq<Byte>) {
    && (forall pos: int, v {:trigger IsIdent(b, pos, v)} :: n.ident(pos) == Fine(v) <==> IsIdent(b, pos, v))
    && (forall pos: int, v {:trigger IsSize(b, pos, v)} :: n.size(pos) == Fine(v) <==> IsSize(b, pos, v))
  }

  lemma IdentsAreExact(b: seq<Byte>, pos: int, v: VInt)
    ensures ReadVInt(b, pos, 4, true) == Fine(v) <==> IsIdent(b, pos, v)
  {
    if ReadVInt(b, pos, 4, true) == Fine(v) {
      var value := OnlyEncodingsAreRead(b, pos, 4, true, v);
    } else if IsIdent(b, pos, v) {
      var read := VIntRoundTrip(b, pos, 4, true, v.value - Marker(v.length), v.length);
    }
  }

  lemma SizesAreExact(b: seq<Byte>, pos: int, v: VInt)
    ensures ReadVInt(b, pos, 8, false) == Fine(v) <==> IsSize(b, pos, v)
  {
    if ReadVInt(b, pos, 8, false) == Fine(v) {
      var value := OnlyEncodingsAreRead(b, pos, 8, false, v);
    } else if IsSize(b, pos, v) {
      var read := VIntRoundTrip(b, pos, 8, false, v.value, v.length);
    }
  }

  /** `_vint` reads an element's id or size exactly where one is encoded. */
  lemma NumbersAreExact(b: seq<Byte>)
    ensures Exact(NumbersOf(b), b)
  {
    var n := NumbersOf(b);
    forall pos: int, v ensures n.ident(pos) == Fine(v) <==> IsIdent(b, pos, v) {
      IdentsAreExact(b, pos, v);
    }
    forall pos: int, v ensures n.size(pos) == Fine(v) <==> IsSize(b, pos, v) {
      SizesAreExact(b, pos, v);
    }
  }

  /** An element as it is written: its id (marker included) and size may each take more bytes than they need. */
  datatype Part = Part(id: nat, idLength: nat, sizeLength: nat, body: seq<Byte>)

  /** The bytes it takes. */
  function Size(p: Part): nat {
    p.idLength + p.sizeLength + |p.body|
  }

  predicate IsId(id: nat, length: nat) {
    1 <= length <= 4 && Marker(length) <= id < 2 * Marker(length)
  }

  /** All ones is kept for the unknown size. */
  predicate Writable(p: Part) {
    IsId(p.id, p.idLength) && 1 <= p.sizeLength <= 8 && |p.body| < Marker(p.sizeLength) - 1
  }

  function Header(id: nat, idLength: nat, size: nat, sizeLength: nat): (h: seq<Byte>)
    requires IsId(id, idLength)
    ensures |h| == idLength + sizeLength
  {
    EncodeVInt(id - Marker(idLength), idLength) + EncodeVInt(size, sizeLength)
  }

  function Encode(p: Part): seq<Byte>
    requires Writable(p)
  {
    Header(p.id, p.idLength, |p.body|, p.sizeLength) + p.body
  }

  lemma IdentIsRead(n: Numbers, b: seq<Byte>, pos: int, id: nat, length: nat)
    requires Exact(n, b) && IsId(id, length) && Holds(b, pos, EncodeVInt(id - Marker(length), length))
    ensures n.ident(pos) == Fine(VInt(id, length, id == 2 * Marker(length) - 1))
  {
    assert IsIdent(b, pos, VInt(id, length, id == 2 * Marker(length) - 1));
  }

  lemma SizeIsRead(n: Numbers, b: seq<Byte>, pos: int, size: nat, length: nat)
    requires Exact(n, b) && 1 <= length <= 8 && size < Marker(length) && Holds(b, pos, EncodeVInt(size, length))
    ensures n.size(pos) == Fine(VInt(size, length, size == Marker(length) - 1))
  {
    assert IsSize(b, pos, VInt(size, length, size == Marker(length) - 1));
  }

  lemma HeaderNumbers(n: Numbers, b: seq<Byte>, pos: int, id: nat, idLength: nat, size: nat, sizeLength: nat)
    returns (ident: VInt, stated: VInt)
    requires Exact(n, b) && IsId(id, idLength) && 1 <= sizeLength <= 8 && size < Marker(sizeLength)
    requires Holds(b, pos, Header(id, idLength, size, sizeLength))
    ensures ident.value == id && ident.length == idLength && n.ident(pos) == Fine(ident)
    ensures stated.value == size && stated.length == sizeLength && n.size(pos + idLength) == Fine(stated)
    ensures stated.allOnes == (size == Marker(sizeLength) - 1)
  {
    ident := VInt(id, idLength, id == 2 * Marker(idLength) - 1);
    stated := VInt(size, sizeLength, size == Marker(sizeLength) - 1);
    HoldsBoth(b, pos, EncodeVInt(id - Marker(idLength), idLength), EncodeVInt(size, sizeLength));
    IdentIsRead(n, b, pos, id, idLength);
    SizeIsRead(n, b, pos + idLength, size, sizeLength);
  }

  /** The element whose header stands at `pos`: a size of all ones is unknown. */
  lemma HeaderIsRead(n: Numbers, b: seq<Byte>, pos: int, end: int, id: nat, idLength: nat, size: nat,
                     sizeLength: nat)
    requires Exact(n, b) && IsId(id, idLength) && 1 <= sizeLength <= 8 && size < Marker(sizeLength)
    requires Holds(b, pos, Header(id, idLength, size, sizeLength))
    ensures ReadElement(n, pos, end) == Meant(id, pos + idLength + sizeLength, size, Marker(sizeLength), end)
  {
    var ident, stated := HeaderNumbers(n, b, pos, id, idLength, size, sizeLength);
    ElementMeans(n, pos, end, ident, stated, Marker(sizeLength));
  }

  lemma ElementMeans(n: Numbers, pos: int, end: int, ident: VInt, size: VInt, marker: nat)
    requires n.ident(pos) == Fine(ident) && n.size(pos + ident.length) == Fine(size)
    requires size.allOnes == (size.value == marker - 1)
    ensures ReadElement(n, pos, end) == Meant(ident.value, pos + ident.length + size.length, size.value, marker, end)
  {
  }

  /** What a header with that id and size stands for. */
  function Meant(id: nat, body: int, size: nat, marker: nat, end: int): Parsed<Element> {
    if size == marker - 1 then Fine(Element(id, body, None))
    else if body + size > end then Malformed
    else Fine(Element(id, body, Some(body + size)))
  }

  /** An element written with any widths is read back, wherever it stands, unless it runs past its parent. */
  lemma ElementRoundTrip(n: Numbers, b: seq<Byte>, pos: int, end: int, p: Part)
    requires Exact(n, b) && Writable(p) && Holds(b, pos, Encode(p))
    ensures ReadElement(n, pos, end)
         == if pos + Size(p) > end then Malformed
            else Fine(Element(p.id, pos + p.idLength + p.sizeLength, Some(pos + Size(p))))
    ensures Holds(b, pos + p.idLength + p.sizeLength, p.body)
  {
    HoldsBoth(b, pos, Header(p.id, p.idLength, |p.body|, p.sizeLength), p.body);
    HeaderIsRead(n, b, pos, end, p.id, p.idLength, |p.body|, p.sizeLength);
  }

  predicate Within(pos: int, end: int, size: nat, e: Element) {
    0 <= pos < e.body <= size && (e.end.Some? ==> e.body <= e.end.value <= end)
  }

  /** A number takes at least a byte, and none past the end. */
  ghost predicate Fits(n: Numbers, b: seq<Byte>) {
    && (forall pos: int | n.ident(pos).Fine? :: 0 <= pos < pos + n.ident(pos).value.length <= |b|)
    && (forall pos: int | n.size(pos).Fine? :: 0 <= pos < pos + n.size(pos).value.length <= |b|)
  }

  lemma ExactFits(n: Numbers, b: seq<Byte>)
    requires Exact(n, b)
    ensures Fits(n, b)
  {
    forall pos: int | n.ident(pos).Fine? ensures 0 <= pos < pos + n.ident(pos).value.length <= |b| {
      assert IsIdent(b, pos, n.ident(pos).value);
    }
    forall pos: int | n.size(pos).Fine? ensures 0 <= pos < pos + n.size(pos).value.length <= |b| {
      assert IsSize(b, pos, n.size(pos).value);
    }
  }

  /** The walk moves on, and stays within the parent and the file. */
  lemma ElementAdvances(n: Numbers, b: seq<Byte>, pos: int, end: int, e: Element)
    requires Fits(n, b) && ReadElement(n, pos, end) == Fine(e)
    ensures Within(pos, end, |b|, e)
  {
  }

  /** Whatever is read as an element of known size is the encoding of one. */
  lemma OnlyElementsAreRead(n: Numbers, b: seq<Byte>, pos: int, end: int, e: Element) returns (p: Part)
    requires Exact(n, b) && end <= |b| && ReadElement(n, pos, end) == Fine(e) && e.end.Some?
    ensures Writable(p) && p.id == e.id && Holds(b, pos, Encode(p)) && pos + Size(p) == e.end.value
  {
    var ident := n.ident(pos).value;
    var size := n.size(pos + ident.length).value;
    assert IsIdent(b, pos, ident) && IsSize(b, pos + ident.length, size);
    p := PartAt(b, pos, ident, size, e.body);
  }

  lemma PartAt(b: seq<Byte>, pos: int, ident: VInt, size: VInt, body: int) returns (p: Part)
    requires IsIdent(b, pos, ident) && IsSize(b, pos + ident.length, size) && !size.allOnes
    requires body == pos + ident.length + size.length && body + size.value <= |b|
    ensures Writable(p) && p.id == ident.value && Holds(b, pos, Encode(p)) && pos + Size(p) == body + size.value
  {
    p := Part(ident.value, ident.length, size.length, b[body..body + size.value]);
    Joined(b, pos, EncodeVInt(ident.value - Marker(ident.length), ident.length),
           EncodeVInt(size.value, size.length));
    Joined(b, pos, Header(p.id, p.idLength, |p.body|, p.sizeLength), p.body);
  }

  // --- a list of elements ---

  function TotalSize(parts: seq<Part>): nat {
    if parts == [] then 0 else Size(parts[0]) + TotalSize(parts[1..])
  }

  predicate AllWritable(parts: seq<Part>) {
    forall p :: p in parts ==> Writable(p)
  }

  function EncodeAll(parts: seq<Part>): (b: seq<Byte>)
    requires AllWritable(parts)
    ensures |b| == TotalSize(parts)
  {
    if parts == [] then [] else Encode(parts[0]) + EncodeAll(parts[1..])
  }

  /** At `pos`, an element is read as the one that was written. */
  ghost predicate Stands(n: Numbers, b: seq<Byte>, pos: int, p: Part) {
    && Size(p) > 0 && Holds(b, pos + p.idLength + p.sizeLength, p.body)
    && forall end: int | pos + Size(p) <= end ::
      ReadElement(n, pos, end) == Fine(Element(p.id, pos + p.idLength + p.sizeLength, Some(pos + Size(p))))
  }

  ghost predicate AllStand(n: Numbers, b: seq<Byte>, pos: int, parts: seq<Part>)
    decreases |parts|
  {
    parts == [] || (Stands(n, b, pos, parts[0]) && AllStand(n, b, pos + Size(parts[0]), parts[1..]))
  }

  lemma WrittenStands(n: Numbers, b: seq<Byte>, pos: int, p: Part)
    requires Exact(n, b) && Writable(p) && Holds(b, pos, Encode(p))
    ensures Stands(n, b, pos, p)
  {
    forall end: int | pos + Size(p) <= end
      ensures ReadElement(n, pos, end)
           == Fine(Element(p.id, pos + p.idLength + p.sizeLength, Some(pos + Size(p))))
    {
      ElementRoundTrip(n, b, pos, end, p);
    }
    ElementRoundTrip(n, b, pos, pos + Size(p), p);
  }

  lemma {:induction false} WrittenListStands(n: Numbers, b: seq<Byte>, pos: int, parts: seq<Part>)
    requires Exact(n, b) && AllWritable(parts) && Holds(b, pos, EncodeAll(parts))
    ensures AllStand(n, b, pos, parts)
    decreases |parts|
  {
    if parts != [] {
      HoldsBoth(b, pos, Encode(parts[0]), EncodeAll(parts[1..]));
      WrittenStands(n, b, pos, parts[0]);
      WrittenListStands(n, b, pos + Size(parts[0]), parts[1..]);
    }
  }

  // --- Info ---

  /** TimecodeScale in nanoseconds, and the bytes of Duration once one has been seen. */
  datatype Stated = Stated(scale: nat, duration: Option<seq<Byte>>)

  const UNSTATED: Stated := Stated(1_000_000, None)

  /** What one element of Info does. */
  function Take(s: Stated, id: nat, body: seq<Byte>): Parsed<Stated> {
    if id == TIMECODE_SCALE then
      if 1 <= |body| <= 8 then Fine(s.(scale := Big(body))) else Malformed
    else if id == DURATION then
      if |body| == 4 || |body| == 8 then Fine(s.(duration := Some(body))) else Malformed
    else Fine(s)
  }

  function TakeAll(s: Stated, parts: seq<Part>): Parsed<Stated>
    decreases |parts|
  {
    if parts == [] then Fine(s)
    else
      var next := Take(s, parts[0].id, parts[0].body);
      if next.Malformed? then Malformed else TakeAll(next.value, parts[1..])
  }

  /** The loop of `_info_seconds` from `pos`. */
  function ReadInfo(n: Numbers, b: seq<Byte>, pos: int, end: int, s: Stated): Parsed<Stated>
    requires end <= |b| && Fits(n, b)
    decreases if pos < end then end - pos else 0
  {
    if pos >= end then Fine(s)
    else
      var e := ReadElement(n, pos, end);
      if e.Malformed? || e.value.end.None? then Malformed
      else
        ElementAdvances(n, b, pos, end, e.value);
        var next := Take(s, e.value.id, b[e.value.body..e.value.end.value]);
        if next.Malformed? then Malformed else ReadInfo(n, b, e.value.end.value, end, next.value)
  }

  /** Reading the bytes of a list of elements is taking the elements one by one. */
  lemma OneIsRead(n: Numbers, b: seq<Byte>, pos: int, end: int, s: Stated, p: Part)
    requires Fits(n, b) && Stands(n, b, pos, p) && pos + Size(p) <= end <= |b|
    ensures var next := Take(s, p.id, p.body);
      ReadInfo(n, b, pos, end, s)
      == if next.Malformed? then Malformed else ReadInfo(n, b, pos + Size(p), end, next.value)
  {
  }

  lemma {:induction false} InfoIsRead(n: Numbers, b: seq<Byte>, pos: int, end: int, s: Stated, parts: seq<Part>)
    requires Fits(n, b) && AllStand(n, b, pos, parts) && end == pos + TotalSize(parts) <= |b|
    ensures ReadInfo(n, b, pos, end, s) == TakeAll(s, parts)
    decreases |parts|
  {
    if parts != [] {
      var p := parts[0];
      var next := Take(s, p.id, p.body);
      OneIsRead(n, b, pos, end, s, p);
      if next.Fine? {
        InfoIsRead(n, b, pos + Size(p), end, next.value, parts[1..]);
      }
    }
  }

  predicate Legal(p: Part) {
    && (p.id == TIMECODE_SCALE ==> 1 <= |p.body| <= 8)
    && (p.id == DURATION ==> |p.body| == 4 || |p.body| == 8)
  }

  /** Where the last element with an id stands, or -1. */
  function LastOf(parts: seq<Part>, id: nat): (i: int)
    ensures -1 <= i < |parts| && (i >= 0 ==> parts[i].id == id)
    ensures forall j :: i < j < |parts| ==> parts[j].id != id
  {
    if parts == [] then -1
    else if parts[|parts| - 1].id == id then |parts| - 1
    else LastOf(parts[..|parts| - 1], id)
  }

  /** What the last TimecodeScale and the last Duration say. */
  function LastStated(s: Stated, parts: seq<Part>): Stated {
    var scale, duration := LastOf(parts, TIMECODE_SCALE), LastOf(parts, DURATION);
    Stated(if scale < 0 then s.scale else Big(parts[scale].body),
           if duration < 0 then s.duration else Some(parts[duration].body))
  }

  /** Info is refused exactly for a TimecodeScale or Duration of the wrong length; otherwise the last one of each
  counts, and 1,000,000 ns when there is no TimecodeScale. */
  lemma {:induction false} LastOneCounts(s: Stated, parts: seq<Part>)
    ensures TakeAll(s, parts).Fine? <==> forall p :: p in parts ==> Legal(p)
    ensures TakeAll(s, parts).Fine? ==> TakeAll(s, parts).value == LastStated(s, parts)
    decreases |parts|
  {
    if parts != [] {
      var init, p := parts[..|parts| - 1], parts[|parts| - 1];
      assert parts == init + [p];
      LastOneCounts(s, init);
      TakeOneMore(s, init, p);
      LastOneMore(s, init, p);
      assert forall q :: q in parts <==> q in init || q == p;
    }
  }

  lemma LastOneMore(s: Stated, parts: seq<Part>, p: Part)
    ensures Take(LastStated(s, parts), p.id, p.body)
         == if Legal(p) then Fine(LastStated(s, parts + [p])) else Malformed
  {
    assert (parts + [p])[..|parts|] == parts;
  }

  lemma {:induction false} TakeOneMore(s: Stated, parts: seq<Part>, p: Part)
    ensures TakeAll(s, parts + [p])
         == (if TakeAll(s, parts).Malformed? then Malformed else Take(TakeAll(s, parts).value, p.id, p.body))
    decreases |parts|
  {
    if parts == [] {
      assert ([] + [p])[1..] == [];
    } else {
      var next := Take(s, parts[0].id, parts[0].body);
      assert (parts + [p])[1..] == parts[1..] + [p];
      if next.Fine? {
        TakeOneMore(next.value, parts[1..], p);
      }
    }
  }

  /** The number a Duration's bytes stand for (IEEE 754 binary32 or binary64). */
  datatype Float = Finite(value: real) | NotFinite

  /** The end of `_info_seconds`. */
  function Seconds(s: Stated, unpack: seq<Byte> -> Float): Parsed<Option<real>> {
    if s.duration.None? then Fine(None)
    else
      var d := unpack(s.duration.value);
      if d == Finite(0.0) then Fine(None)
      else if s.scale == 0 || d.NotFinite? || d.value < 0.0 then Malformed
      else Fine(Some(d.value * (s.scale as real) / 1_000_000_000.0))
  }

  function SecondsOf(s: Parsed<Stated>, unpack: seq<Byte> -> Float): Parsed<Option<real>> {
    if s.Malformed? then Malformed else Seconds(s.value, unpack)
  }

  /** An Info's elements in bytes, its last TimecodeScale and its last Duration among them; None where there is none. */
  predicate LastIs(parts: seq<Part>, id: nat, body: Option<seq<Byte>>) {
    match body
    case None => forall p :: p in parts ==> p.id != id
    case Some(bytes) =>
      exists i :: 0 <= i < |parts| && parts[i].id == id && parts[i].body == bytes
        && forall j :: i < j < |parts| ==> parts[j].id != id
  }

  /** A TimecodeScale as it is written, in one to eight bytes. */
  datatype ScaleElement = ScaleElement(value: nat, width: nat)

  predicate ScaleWritable(s: ScaleElement) {
    1 <= s.width <= 8 && s.value < Base(s.width)
  }

  /** What an Info says: the last TimecodeScale written in it and the bytes of the last Duration. */
  datatype InfoSays = InfoSays(scale: Option<ScaleElement>, duration: Option<seq<Byte>>)

  predicate Says(parts: seq<Part>, says: InfoSays) {
    && (forall p :: p in parts ==> Legal(p))
    && (says.scale.Some? ==> ScaleWritable(says.scale.value))
    && LastIs(parts, 0x2AD7B1, if says.scale.None? then None
                               else Some(ToBytes(says.scale.value.value, says.scale.value.width)))
    && LastIs(parts, 0x4489, says.duration)
  }

  /** Nanoseconds to a unit of Duration. */
  function UnitOf(says: InfoSays): nat {
    if says.scale.None? then 1_000_000 else says.scale.value.value
  }

  /** The length in seconds that an Info says: none without a Duration or with one of zero; one that is negative or not
  finite, or has no unit, is malformed. */
  predicate IsLengthOf(r: Parsed<Option<real>>, says: InfoSays, unpack: seq<Byte> -> Float) {
    match says.duration
    case None => r == Fine(None)
    case Some(bytes) =>
      match unpack(bytes)
      case NotFinite => r.Malformed?
      case Finite(d) =>
        if d == 0.0 then r == Fine(None)
        else if d < 0.0 || UnitOf(says) == 0 then r.Malformed?
        else r.Fine? && r.value.Some? && r.value.value * 1_000_000_000.0 == d * (UnitOf(says) as real)
  }

  lemma LastIsFound(parts: seq<Part>, id: nat, body: Option<seq<Byte>>)
    requires LastIs(parts, id, body)
    ensures var i := LastOf(parts, id); body == if i < 0 then None else Some(parts[i].body)
  {
    var i := LastOf(parts, id);
    if body.Some? {
      var k :| 0 <= k < |parts| && parts[k].id == id && parts[k].body == body.value
        && forall j :: k < j < |parts| ==> parts[j].id != id;
      assert i == k;
    } else {
      assert parts != [] ==> parts[Max(i, 0)] in parts;
    }
  }

  lemma ScaleIsRead(s: ScaleElement)
    requires ScaleWritable(s)
    ensures Big(ToBytes(s.value, s.width)) == s.value
  {
    BigOfBytes(ToBytes(s.value, s.width), 0, s.value, s.width);
  }

  /** The length is what the last TimecodeScale and Duration written say, in nanoseconds; a millisecond is the unit when
  no TimecodeScale is written. */
  lemma InfoIsItsLength(parts: seq<Part>, says: InfoSays, unpack: seq<Byte> -> Float)
    requires Says(parts, says)
    ensures IsLengthOf(SecondsOf(TakeAll(UNSTATED, parts), unpack), says, unpack)
  {
    SaysWhatIsStated(parts, says);
    StatedLength(Stated(UnitOf(says), says.duration), says, unpack);
  }

  lemma SaysWhatIsStated(parts: seq<Part>, says: InfoSays)
    requires Says(parts, says)
    ensures TakeAll(UNSTATED, parts) == Fine(Stated(UnitOf(says), says.duration))
  {
    LastOneCounts(UNSTATED, parts);
    LastIsFound(parts, DURATION, says.duration);
    var scale := says.scale;
    LastIsFound(parts, TIMECODE_SCALE,
                if scale.None? then None else Some(ToBytes(scale.value.value, scale.value.width)));
    if scale.Some? {
      ScaleIsRead(scale.value);
    }
  }

  lemma Billionth(product: real)
    ensures product / 1_000_000_000.0 * 1_000_000_000.0 == product
  {
  }

  lemma StatedLength(s: Stated, says: InfoSays, unpack: seq<Byte> -> Float)
    requires s == Stated(UnitOf(says), says.duration)
    ensures IsLengthOf(Seconds(s, unpack), says, unpack)
  {
    if says.duration.Some? && unpack(says.duration.value).Finite? {
      Billionth(unpack(says.duration.value).value * (s.scale as real));
    }
  }

  /** `_info_seconds`. */
  method InfoSeconds(n: Numbers, b: seq<Byte>, from: int, end: int, unpack: seq<Byte> -> Float)
    returns (r: Parsed<Option<real>>)
    requires end <= |b| && Fits(n, b)
    ensures r == SecondsOf(ReadInfo(n, b, from, end, UNSTATED), unpack)
  {
    var pos, s := from, UNSTATED;
    while pos < end
      invariant ReadInfo(n, b, from, end, UNSTATED) == ReadInfo(n, b, pos, end, s)
    {
      var e := ReadElement(n, pos, end);
      if e.Malformed? || e.value.end.None? {
        return Malformed;
      }
      ElementAdvances(n, b, pos, end, e.value);
      var body := b[e.value.body..e.value.end.value];
      if e.value.id == TIMECODE_SCALE {
        if !(1 <= |body| <= 8) {
          return Malformed;
        }
        s := s.(scale := Big(body));
      } else if e.value.id == DURATION {
        if |body| != 4 && |body| != 8 {
          return Malformed;
        }
        s := s.(duration := Some(body));
      }
      pos := e.value.end.value;
    }
    r := Seconds(s, unpack);
  }

  // --- the file ---

  /** The loop of `webm_seconds` over the Segment's elements. */
  function ReadSegment(n: Numbers, b: seq<Byte>, pos: int, end: int, unpack: seq<Byte> -> Float):
    Parsed<Option<real>>
    requires end <= |b| && Fits(n, b)
    decreases if pos < end then end - pos else 0
  {
    if pos >= end then Fine(None)
    else
      var e := ReadElement(n, pos, end);
      if e.Malformed? then Malformed
      else if e.value.end.None? then Fine(None)
      else
        ElementAdvances(n, b, pos, end, e.value);
        if e.value.id == INFO then SecondsOf(ReadInfo(n, b, e.value.body, e.value.end.value, UNSTATED), unpack)
        else ReadSegment(n, b, e.value.end.value, end, unpack)
  }

  /** Where the Segment's elements start and end. */
  function ReadTop(n: Numbers, b: seq<Byte>): (r: Parsed<(int, int)>)
    requires Fits(n, b)
    ensures r.Fine? ==> r.value.1 <= |b|
  {
    var header := ReadElement(n, 0, |b|);
    if header.Malformed? || header.value.id != EBML || header.value.end.None? then Malformed
    else
      var segment := ReadElement(n, header.value.end.value, |b|);
      if segment.Malformed? || segment.value.id != SEGMENT then Malformed
      else
        ElementAdvances(n, b, header.value.end.value, |b|, segment.value);
        Fine((segment.value.body, if segment.value.end.None? then |b| else segment.value.end.value))
  }

  function ReadFile(n: Numbers, b: seq<Byte>, unpack: seq<Byte> -> Float): Parsed<Option<real>>
    requires Fits(n, b)
  {
    var top := ReadTop(n, b);
    if top.Malformed? then Malformed else ReadSegment(n, b, top.value.0, top.value.1, unpack)
  }

  /** `webm_seconds`, however its numbers are read. */
  method WebmSecondsBy(n: Numbers, b: seq<Byte>, unpack: seq<Byte> -> Float) returns (r: Parsed<Option<real>>)
    requires Fits(n, b)
    ensures r == ReadFile(n, b, unpack)
  {
    var header := ReadElement(n, 0, |b|);
    if header.Malformed? || header.value.id != EBML || header.value.end.None? {
      return Malformed;
    }
    var segment := ReadElement(n, header.value.end.value, |b|);
    if segment.Malformed? || segment.value.id != SEGMENT {
      return Malformed;
    }
    ElementAdvances(n, b, header.value.end.value, |b|, segment.value);
    var pos := segment.value.body;
    var end := if segment.value.end.None? then |b| else segment.value.end.value;
    while pos < end
      invariant end <= |b| && ReadFile(n, b, unpack) == ReadSegment(n, b, pos, end, unpack)
    {
      var e := ReadElement(n, pos, end);
      if e.Malformed? {
        return Malformed;
      }
      if e.value.end.None? {
        return Fine(None);
      }
      ElementAdvances(n, b, pos, end, e.value);
      if e.value.id == INFO {
        r := InfoSeconds(n, b, e.value.body, e.value.end.value, unpack);
        return;
      }
      pos := e.value.end.value;
    }
    r := Fine(None);
  }

  /** Elements other than Info are passed over. */
  lemma {:induction false} PassesOver(n: Numbers, b: seq<Byte>, pos: int, end: int, parts: seq<Part>,
                                      unpack: seq<Byte> -> Float)
    requires Fits(n, b) && AllStand(n, b, pos, parts) && pos + TotalSize(parts) <= end <= |b|
    requires forall p :: p in parts ==> p.id != INFO
    ensures ReadSegment(n, b, pos, end, unpack) == ReadSegment(n, b, pos + TotalSize(parts), end, unpack)
    decreases |parts|
  {
    if parts != [] {
      PassesOver(n, b, pos + Size(parts[0]), end, parts[1..], unpack);
    }
  }

  lemma ReachesInfo(n: Numbers, b: seq<Byte>, at: int, end: int, info: Part, unpack: seq<Byte> -> Float)
    requires Fits(n, b) && Stands(n, b, at, info) && info.id == INFO && at + Size(info) <= end <= |b|
    ensures ReadSegment(n, b, at, end, unpack)
         == SecondsOf(ReadInfo(n, b, at + info.idLength + info.sizeLength, at + Size(info), UNSTATED), unpack)
  {
  }

  lemma InfoGivesLength(n: Numbers, b: seq<Byte>, at: int, end: int, info: Part, inside: seq<Part>,
                        unpack: seq<Byte> -> Float)
    requires Fits(n, b) && Stands(n, b, at, info) && info.id == INFO && at + Size(info) <= end <= |b|
    requires AllStand(n, b, at + info.idLength + info.sizeLength, inside) && |info.body| == TotalSize(inside)
    ensures ReadSegment(n, b, at, end, unpack) == SecondsOf(TakeAll(UNSTATED, inside), unpack)
  {
    ReachesInfo(n, b, at, end, info, unpack);
    InfoIsRead(n, b, at + info.idLength + info.sizeLength, at + Size(info), UNSTATED, inside);
  }

  /** A Segment written as elements, then Info, then anything: the length is what the Info's elements state. */
  lemma SegmentIsRead(n: Numbers, b: seq<Byte>, pos: int, end: int, before: seq<Part>, info: Part,
                      inside: seq<Part>, unpack: seq<Byte> -> Float)
    requires Fits(n, b) && AllStand(n, b, pos, before) && Stands(n, b, pos + TotalSize(before), info)
    requires (forall p :: p in before ==> p.id != INFO) && info.id == INFO
    requires AllStand(n, b, pos + TotalSize(before) + info.idLength + info.sizeLength, inside)
    requires |info.body| == TotalSize(inside)
    requires pos + TotalSize(before) + Size(info) <= end <= |b|
    ensures ReadSegment(n, b, pos, end, unpack) == SecondsOf(TakeAll(UNSTATED, inside), unpack)
  {
    InfoGivesLength(n, b, pos + TotalSize(before), end, info, inside, unpack);
    PassesOver(n, b, pos, end, before, unpack);
  }

  /** A Segment without an Info states no length. */
  lemma NoInfoNoLength(n: Numbers, b: seq<Byte>, pos: int, end: int, parts: seq<Part>, unpack: seq<Byte> -> Float)
    requires Fits(n, b) && AllStand(n, b, pos, parts) && end == pos + TotalSize(parts) <= |b|
    requires forall p :: p in parts ==> p.id != INFO
    ensures ReadSegment(n, b, pos, end, unpack) == Fine(None)
  {
    PassesOver(n, b, pos, end, parts, unpack);
  }

  /** Whatever has no EBML header of known size at its start, or no Segment after that, is malformed. */
  lemma OnlyWebmIsRead(n: Numbers, b: seq<Byte>, unpack: seq<Byte> -> Float) returns (header: Element, segment: Element)
    requires Fits(n, b) && ReadFile(n, b, unpack).Fine?
    ensures ReadElement(n, 0, |b|) == Fine(header) && header.id == 0x1A45DFA3 && header.end.Some?
    ensures ReadElement(n, header.end.value, |b|) == Fine(segment) && segment.id == 0x18538067
  {
    header := ReadElement(n, 0, |b|).value;
    segment := ReadElement(n, header.end.value, |b|).value;
  }

  predicate Refused(e: Parsed<Element>) {
    e.Malformed? || e.value.end.None?
  }

  lemma BadElementIsRefused(n: Numbers, b: seq<Byte>, pos: int, end: int, s: Stated)
    requires Fits(n, b) && pos < end <= |b| && Refused(ReadElement(n, pos, end))
    ensures ReadInfo(n, b, pos, end, s).Malformed?
  {
  }

  lemma FirstStands(n: Numbers, b: seq<Byte>, pos: int, parts: seq<Part>)
    requires parts != [] && AllStand(n, b, pos, parts)
    ensures Stands(n, b, pos, parts[0]) && AllStand(n, b, pos + Size(parts[0]), parts[1..])
    ensures TotalSize(parts) == Size(parts[0]) + TotalSize(parts[1..])
  {
  }

  /** An Info in which an element does not fit, or has an unknown size, is malformed. */
  lemma {:induction false} BadInfoIsRefused(n: Numbers, b: seq<Byte>, pos: int, end: int, s: Stated, parts: seq<Part>,
                                           at: int)
    requires Fits(n, b) && AllStand(n, b, pos, parts) && at == pos + TotalSize(parts) < end <= |b|
    requires Refused(ReadElement(n, at, end))
    ensures ReadInfo(n, b, pos, end, s).Malformed?
    decreases |parts|
  {
    if parts == [] {
      BadElementIsRefused(n, b, pos, end, s);
    } else {
      var p, rest := parts[0], parts[1..];
      var next := Take(s, p.id, p.body);
      FirstStands(n, b, pos, parts);
      OneIsRead(n, b, pos, end, s, p);
      if next.Fine? {
        BadInfoIsRefused(n, b, pos + Size(p), end, next.value, rest, at);
      }
    }
  }

  /** A live recording, whose Segment reaches an element of unknown size before any Info, states no length. */
  lemma LiveRecordingStatesNone(n: Numbers, b: seq<Byte>, pos: int, end: int, before: seq<Part>, id: nat, body: int,
                                at: int, unpack: seq<Byte> -> Float)
    requires Fits(n, b) && AllStand(n, b, pos, before) && at == pos + TotalSize(before) < end <= |b|
    requires forall p :: p in before ==> p.id != INFO
    requires ReadElement(n, at, end) == Fine(Element(id, body, None))
    ensures ReadSegment(n, b, pos, end, unpack) == Fine(None)
  {
    PassesOver(n, b, pos, end, before, unpack);
    UnknownStops(n, b, at, end, id, body, unpack);
  }

  lemma UnknownStops(n: Numbers, b: seq<Byte>, at: int, end: int, id: nat, body: int, unpack: seq<Byte> -> Float)
    requires Fits(n, b) && at < end <= |b| && ReadElement(n, at, end) == Fine(Element(id, body, None))
    ensures ReadSegment(n, b, at, end, unpack) == Fine(None)
  {
  }

  /** A file as it is written: the EBML header, a Segment of known or unknown size, elements, Info, and the rest. */
  datatype File = File(head: Part, segment: Part, sized: bool, before: seq<Part>, info: Part, inside: seq<Part>,
                       rest: seq<Byte>, after: seq<Byte>)

  predicate WellWritten(f: File) {
    && Writable(f.head) && f.head.id == 0x1A45DFA3 && Writable(f.segment) && f.segment.id == 0x18538067
    && AllWritable(f.before) && (forall p :: p in f.before ==> p.id != 0x1549A966)
    && Writable(f.info) && f.info.id == 0x1549A966 && AllWritable(f.inside) && f.info.body == EncodeAll(f.inside)
    && f.segment.body == EncodeAll(f.before) + Encode(f.info) + f.rest
  }

  function StatedSize(f: File): nat {
    if f.sized then |f.segment.body| else Marker(f.segment.sizeLength) - 1
  }

  function Opening(f: File): seq<Byte>
    requires WellWritten(f)
  {
    Header(f.segment.id, f.segment.idLength, StatedSize(f), f.segment.sizeLength)
  }

  function Written(f: File): seq<Byte>
    requires WellWritten(f)
  {
    Encode(f.head) + (Opening(f) + (f.segment.body + f.after))
  }

  /** Where a written file's pieces stand: the Segment's header, its elements, and Info among them. */
  ghost predicate Laid(f: File, b: seq<Byte>, start: int, pos: int, at: int) {
    && start == Size(f.head) && pos == start + f.segment.idLength + f.segment.sizeLength
    && at == pos + TotalSize(f.before) && at + Size(f.info) <= pos + |f.segment.body| <= |b|
    && Writable(f.head) && f.head.id == EBML && Holds(b, 0, Encode(f.head))
    && Writable(f.segment) && f.segment.id == SEGMENT
    && Holds(b, start, Header(f.segment.id, f.segment.idLength, StatedSize(f), f.segment.sizeLength))
    && ElementsLaid(f, b, pos, at)
  }

  ghost predicate ElementsLaid(f: File, b: seq<Byte>, pos: int, at: int) {
    && AllWritable(f.before) && Holds(b, pos, EncodeAll(f.before)) && at == pos + TotalSize(f.before)
    && Writable(f.info) && f.info.id == INFO && Holds(b, at, Encode(f.info))
    && AllWritable(f.inside) && Holds(b, at + f.info.idLength + f.info.sizeLength, EncodeAll(f.inside))
    && |f.info.body| == TotalSize(f.inside)
  }

  lemma WrittenIsLaid(f: File, b: seq<Byte>) returns (start: int, pos: int, at: int)
    requires WellWritten(f) && b == Written(f)
    ensures Laid(f, b, start, pos, at)
  {
    start := Size(f.head);
    pos := start + f.segment.idLength + f.segment.sizeLength;
    at := pos + TotalSize(f.before);
    FilePieces(f, b, start, pos);
    SegmentPieces(f, b, pos);
    SegmentIsLaid(f, b, pos, at);
  }

  lemma FilePieces(f: File, b: seq<Byte>, start: int, pos: int)
    requires WellWritten(f) && b == Written(f)
    requires start == Size(f.head) && pos == start + f.segment.idLength + f.segment.sizeLength
    ensures Holds(b, 0, Encode(f.head)) && Holds(b, start, Opening(f)) && Holds(b, pos, f.segment.body)
  {
    assert Holds(b, 0, b);
    HoldsBoth(b, 0, Encode(f.head), Opening(f) + (f.segment.body + f.after));
    HoldsBoth(b, start, Opening(f), f.segment.body + f.after);
    HoldsBoth(b, pos, f.segment.body, f.after);
  }

  lemma SegmentIsLaid(f: File, b: seq<Byte>, pos: int, at: int)
    requires AllWritable(f.before) && Writable(f.info) && AllWritable(f.inside) && f.info.id == INFO
    requires f.info.body == EncodeAll(f.inside) && at == pos + TotalSize(f.before)
    requires Holds(b, pos, EncodeAll(f.before)) && Holds(b, at, Encode(f.info))
    ensures ElementsLaid(f, b, pos, at)
  {
    InsideElement(b, at, f.info);
  }

  lemma SegmentPieces(f: File, b: seq<Byte>, pos: int)
    requires WellWritten(f) && Holds(b, pos, f.segment.body)
    ensures Holds(b, pos, EncodeAll(f.before)) && Holds(b, pos + TotalSize(f.before), Encode(f.info))
  {
    HoldsBoth(b, pos, EncodeAll(f.before) + Encode(f.info), f.rest);
    HoldsBoth(b, pos, EncodeAll(f.before), Encode(f.info));
  }

  lemma InsideElement(b: seq<Byte>, pos: int, p: Part)
    requires Writable(p) && Holds(b, pos, Encode(p))
    ensures Holds(b, pos + p.idLength + p.sizeLength, p.body)
  {
    HoldsBoth(b, pos, Header(p.id, p.idLength, |p.body|, p.sizeLength), p.body);
  }

  /** The elements before Info, Info, and its own elements are read where they were written. */
  ghost predicate BodyStands(n: Numbers, f: File, b: seq<Byte>, pos: int, at: int) {
    && AllStand(n, b, pos, f.before) && at == pos + TotalSize(f.before) && Stands(n, b, at, f.info)
    && AllStand(n, b, at + f.info.idLength + f.info.sizeLength, f.inside) && |f.info.body| == TotalSize(f.inside)
  }

  lemma BodyIsRead(n: Numbers, f: File, b: seq<Byte>, pos: int, at: int)
    requires Exact(n, b) && ElementsLaid(f, b, pos, at)
    ensures BodyStands(n, f, b, pos, at)
  {
    WrittenListStands(n, b, pos, f.before);
    WrittenStands(n, b, at, f.info);
    WrittenListStands(n, b, at + f.info.idLength + f.info.sizeLength, f.inside);
  }

  ghost predicate HeadsStand(n: Numbers, f: File, b: seq<Byte>, start: int, pos: int) {
    && ReadElement(n, 0, |b|) == Fine(Element(f.head.id, f.head.idLength + f.head.sizeLength, Some(start)))
    && ReadElement(n, start, |b|) == Fine(Element(f.segment.id, pos, EndOf(f, pos)))
  }

  function EndOf(f: File, pos: int): Option<int> {
    if f.sized then Some(pos + |f.segment.body|) else None
  }

  lemma HeadIsRead(n: Numbers, b: seq<Byte>, head: Part)
    requires Exact(n, b) && Writable(head) && Holds(b, 0, Encode(head))
    ensures ReadElement(n, 0, |b|) == Fine(Element(head.id, head.idLength + head.sizeLength, Some(Size(head))))
  {
    WrittenStands(n, b, 0, head);
  }

  lemma HeadsAreRead(n: Numbers, f: File, b: seq<Byte>, start: int, pos: int, at: int)
    requires Exact(n, b) && Laid(f, b, start, pos, at)
    ensures HeadsStand(n, f, b, start, pos)
  {
    HeadIsRead(n, b, f.head);
    SegmentHeadIsRead(n, f, b, start, pos, EndOf(f, pos));
  }

  lemma SegmentHeadIsRead(n: Numbers, f: File, b: seq<Byte>, start: int, pos: int, end: Option<int>)
    requires Exact(n, b) && Writable(f.segment) && end == EndOf(f, pos)
    requires Holds(b, start, Header(f.segment.id, f.segment.idLength, StatedSize(f), f.segment.sizeLength))
    requires pos == start + f.segment.idLength + f.segment.sizeLength && pos + |f.segment.body| <= |b|
    ensures ReadElement(n, start, |b|) == Fine(Element(f.segment.id, pos, end))
  {
    HeaderIsRead(n, b, start, |b|, f.segment.id, f.segment.idLength, StatedSize(f), f.segment.sizeLength);
  }

  lemma FileIs(n: Numbers, f: File, b: seq<Byte>, start: int, pos: int, at: int, unpack: seq<Byte> -> Float)
    requires Fits(n, b) && start > 0 && f.info.id == INFO && (forall p :: p in f.before ==> p.id != INFO)
    requires f.head.id == EBML && f.segment.id == SEGMENT
    requires HeadsStand(n, f, b, start, pos) && BodyStands(n, f, b, pos, at)
    requires at + Size(f.info) <= pos + |f.segment.body| <= |b|
    ensures ReadFile(n, b, unpack) == SecondsOf(TakeAll(UNSTATED, f.inside), unpack)
  {
    var end := if f.sized then pos + |f.segment.body| else |b|;
    SegmentIsRead(n, b, pos, end, f.before, f.info, f.inside, unpack);
  }

  /** A written file's length is the one its Info states, whatever else it holds. */
  lemma FileRoundTrip(n: Numbers, f: File, b: seq<Byte>, unpack: seq<Byte> -> Float)
    requires WellWritten(f) && b == Written(f) && Exact(n, b) && Fits(n, b)
    ensures ReadFile(n, b, unpack) == SecondsOf(TakeAll(UNSTATED, f.inside), unpack)
  {
    var start, pos, at := WrittenIsLaid(f, b);
    HeadsAreRead(n, f, b, start, pos, at);
    BodyIsRead(n, f, b, pos, at);
    FileIs(n, f, b, start, pos, at, unpack);
  }

  /** `webm_seconds`: a written file's length is the one its Info states, whatever else it holds. */
  method WebmSeconds(b: seq<Byte>, unpack: seq<Byte> -> Float) returns (r: Parsed<Option<real>>)
    ensures Fits(NumbersOf(b), b) && r == ReadFile(NumbersOf(b), b, unpack)
    ensures forall f :: WellWritten(f) && b == Written(f) ==> r == SecondsOf(TakeAll(UNSTATED, f.inside), unpack)
    ensures forall f, says :: WellWritten(f) && b == Written(f) && Says(f.inside, says) ==> IsLengthOf(r, says, unpack)
  {
    NumbersAreExact(b);
    var n := NumbersOf(b);
    ExactFits(n, b);
    r := WebmSecondsBy(n, b, unpack);
    forall f | WellWritten(f) && b == Written(f) ensures r == SecondsOf(TakeAll(UNSTATED, f.inside), unpack) {
      FileRoundTrip(n, f, b, unpack);
    }
    forall f, says | WellWritten(f) && b == Written(f) && Says(f.inside, says) ensures IsLengthOf(r, says, unpack) {
      InfoIsItsLength(f.inside, says, unpack);
    }
  }
}
