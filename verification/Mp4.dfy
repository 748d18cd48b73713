/** MP4 boxes (section 4.2 of ISO/IEC 14496-12) as a recording's length is read from them (backend/voice.py 322-392).
Every error is the same one, so it does not matter that the source finds a later box's error after using an earlier
box: boxes are listed first here. */
module Mp4 {
  import opened Basics
  import opened Bytes

  const MOOV: seq<Byte> := [0x6D, 0x6F, 0x6F, 0x76]
  const MVHD: seq<Byte> := [0x6D, 0x76, 0x68, 0x64]
  const MVEX: seq<Byte> := [0x6D, 0x76, 0x65, 0x78]
  const MEHD: seq<Byte> := [0x6D, 0x65, 0x68, 0x64]
  const TRAK: seq<Byte> := [0x74, 0x72, 0x61, 0x6B]
  const MDIA: seq<Byte> := [0x6D, 0x64, 0x69, 0x61]
  const MDHD: seq<Byte> := [0x6D, 0x64, 0x68, 0x64]

  // --- boxes ---

  datatype Box = Box(kind: seq<Byte>, body: int, end: int)

  function Fitted(b: seq<Byte>, pos: int, end: int, body: int, size: int): Parsed<Box>
    requires 0 <= pos && pos + 8 <= end <= |b|
  {
    if size < body - pos || pos + size > end then Malformed
    else Fine(Box(b[pos + 4..pos + 8], body, pos + size))
  }

  /** The box at `pos`: one turn of the loop of `_boxes`. */
  function BoxAt(b: seq<Byte>, pos: int, end: int): Parsed<Box>
    requires 0 <= pos && end <= |b|
  {
    if end - pos < 8 then Malformed
    else
      var word := U(b, pos, 4);
      if word.Malformed? then Malformed
      else if word.value == 1 then
        var long := U(b, pos + 8, 8);
        if long.Malformed? then Malformed else Fitted(b, pos, end, pos + 16, long.value)
      else if word.value == 0 then Fitted(b, pos, end, pos + 8, end - pos)
      else Fitted(b, pos, end, pos + 8, word.value)
  }

  /** The boxes of b[pos..end], which must fill it exactly. */
  function Boxes(b: seq<Byte>, pos: int, end: int): Parsed<seq<Box>>
    requires 0 <= pos && end <= |b|
    decreases if pos < end then end - pos else 0
  {
    if pos >= end then Fine([])
    else
      var first := BoxAt(b, pos, end);
      if first.Malformed? then Malformed else After([first.value], Boxes(b, first.value.end, end))
  }

  function After(found: seq<Box>, rest: Parsed<seq<Box>>): Parsed<seq<Box>> {
    if rest.Malformed? then Malformed else Fine(found + rest.value)
  }

  lemma AfterTwice(found: seq<Box>, more: seq<Box>, rest: Parsed<seq<Box>>)
    ensures After(found, After(more, rest)) == After(found + more, rest)
  {
    if rest.Fine? {
      assert found + (more + rest.value) == (found + more) + rest.value;
    }
  }

  lemma AfterNothing(rest: Parsed<seq<Box>>)
    ensures After([], rest) == rest
  {
    if rest.Fine? {
      assert [] + rest.value == rest.value;
    }
  }

  /** Side by side from `pos` to `end`, each body inside its box. */
  predicate Tile(boxes: seq<Box>, pos: int, end: int)
    decreases |boxes|
  {
    if boxes == [] then pos == end
    else pos + 8 <= boxes[0].body <= boxes[0].end && Tile(boxes[1..], boxes[0].end, end)
  }

  lemma {:induction false} BoxesTile(b: seq<Byte>, pos: int, end: int)
    requires 0 <= pos <= end <= |b| && Boxes(b, pos, end).Fine?
    ensures Tile(Boxes(b, pos, end).value, pos, end)
    decreases end - pos
  {
    if pos < end {
      var first := BoxAt(b, pos, end).value;
      BoxesTile(b, first.end, end);
      assert Boxes(b, pos, end).value[1..] == Boxes(b, first.end, end).value;
    }
  }

  lemma {:induction false} TileBounds(boxes: seq<Box>, pos: int, end: int, i: nat)
    requires Tile(boxes, pos, end) && i < |boxes|
    ensures pos + 8 <= boxes[i].body <= boxes[i].end <= end
    decreases |boxes|
  {
    TileIsLong(boxes[1..], boxes[0].end, end);
    if i > 0 {
      TileBounds(boxes[1..], boxes[0].end, end, i - 1);
    }
  }

  lemma {:induction false} TileIsLong(boxes: seq<Box>, pos: int, end: int)
    requires Tile(boxes, pos, end)
    ensures pos <= end
    decreases |boxes|
  {
    if boxes != [] {
      TileIsLong(boxes[1..], boxes[0].end, end);
    }
  }

  /** `_boxes`: the boxes found lie side by side and fill b[start..end] exactly. */
  method ListBoxes(b: seq<Byte>, start: int, end: int) returns (r: Parsed<seq<Box>>)
    requires 0 <= start <= end <= |b|
    ensures r == Boxes(b, start, end)
    ensures r.Fine? ==> Tile(r.value, start, end)
  {
    var pos, found := start, [];
    AfterNothing(Boxes(b, start, end));
    while pos < end
      invariant start <= pos <= end
      invariant Boxes(b, start, end) == After(found, Boxes(b, pos, end))
      decreases end - pos
    {
      var box := BoxAt(b, pos, end);
      if box.Malformed? {
        return Malformed;
      }
      AfterTwice(found, [box.value], Boxes(b, box.value.end, end));
      found := found + [box.value];
      pos := box.value.end;
    }
    r := Fine(found);
    assert found + [] == found;
    BoxesTile(b, start, end);
  }

  // --- the specification: boxes as they are written ---

  datatype Form = Short | Long | ToEnd

  datatype Written = Written(kind: seq<Byte>, form: Form, body: seq<Byte>)

  function HeaderSize(w: Written): nat {
    if w.form.Long? then 16 else 8
  }

  function Size(w: Written): nat {
    HeaderSize(w) + |w.body|
  }

  /** The size's first four bytes: the size itself, 1 when it follows in eight bytes, or 0 for "to the end". */
  function Word(w: Written): nat {
    match w.form
    case Short => Size(w)
    case Long => 1
    case ToEnd => 0
  }

  function Header(w: Written): seq<Byte> {
    ToBytes(Word(w), 4) + w.kind + if w.form.Long? then ToBytes(Size(w), 8) else []
  }

  predicate Writable(w: Written) {
    && |w.kind| == 4 && (w.form.Short? ==> Size(w) < Base(4)) && (w.form.Long? ==> Size(w) < Base(8))
  }

  /** Only the last box may go to the end. */
  predicate AllWritable(ws: seq<Written>) {
    && (forall w :: w in ws ==> Writable(w))
    && (forall i :: 0 <= i < |ws| && ws[i].form.ToEnd? ==> i == |ws| - 1)
  }

  function Encode(w: Written): seq<Byte> {
    Header(w) + w.body
  }

  function EncodeAll(ws: seq<Written>): seq<Byte> {
    if ws == [] then [] else Encode(ws[0]) + EncodeAll(ws[1..])
  }

  function TotalSize(ws: seq<Written>): nat {
    if ws == [] then 0 else Size(ws[0]) + TotalSize(ws[1..])
  }

  /** Where the boxes are found. */
  function Placed(ws: seq<Written>, pos: int): seq<Box>
    decreases |ws|
  {
    if ws == [] then []
    else [Box(ws[0].kind, pos + HeaderSize(ws[0]), pos + Size(ws[0]))] + Placed(ws[1..], pos + Size(ws[0]))
  }

  lemma NumberIsRead(b: seq<Byte>, pos: int, value: nat, n: nat)
    requires value < Base(n) && Holds(b, pos, ToBytes(value, n))
    ensures U(b, pos, n) == Fine(value)
  {
    BigOfBytes(b, pos, value, n);
  }

  lemma BoxIsFitted(b: seq<Byte>, pos: int, end: int, word: nat, body: int, size: int)
    requires 0 <= pos && pos + 8 <= end <= |b| && U(b, pos, 4) == Fine(word)
    requires if word == 1 then body == pos + 16 && U(b, pos + 8, 8) == Fine(size)
             else body == pos + 8 && size == if word == 0 then end - pos else word
    ensures BoxAt(b, pos, end) == Fitted(b, pos, end, body, size)
  {
  }

  lemma WordIsRead(b: seq<Byte>, pos: int, w: Written)
    requires Writable(w) && Holds(b, pos, Header(w))
    ensures U(b, pos, 4) == Fine(Word(w)) && Holds(b, pos + 4, w.kind)
    ensures w.form.Long? ==> U(b, pos + 8, 8) == Fine(Size(w))
  {
    var word, long := ToBytes(Word(w), 4), if w.form.Long? then ToBytes(Size(w), 8) else [];
    BaseIs();
    HoldsBoth(b, pos, word + w.kind, long);
    HoldsBoth(b, pos, word, w.kind);
    NumberIsRead(b, pos, Word(w), 4);
    if w.form.Long? {
      NumberIsRead(b, pos + 8, Size(w), 8);
    }
  }

  lemma BaseIs()
    ensures Base(4) == 0x1_0000_0000
  {
    assert Base(2) == 0x1_0000;
  }

  lemma HeaderIsRead(b: seq<Byte>, pos: int, end: int, w: Written)
    requires Writable(w) && Holds(b, pos, Header(w)) && pos + Size(w) <= end <= |b|
    requires w.form.ToEnd? ==> end == pos + Size(w)
    ensures BoxAt(b, pos, end) == Fine(Box(w.kind, pos + HeaderSize(w), pos + Size(w)))
  {
    WordIsRead(b, pos, w);
    BoxIsFitted(b, pos, end, Word(w), pos + HeaderSize(w), Size(w));
  }

  lemma EncodedSize(w: Written)
    requires Writable(w)
    ensures |Encode(w)| == Size(w) && |Header(w)| == HeaderSize(w)
  {
  }

  lemma FirstIsRead(b: seq<Byte>, pos: int, end: int, w: Written)
    requires Writable(w) && Holds(b, pos, Encode(w)) && pos + Size(w) <= end <= |b|
    requires w.form.ToEnd? ==> end == pos + Size(w)
    ensures FirstStands(b, pos, end, w)
  {
    EncodedSize(w);
    HoldsBoth(b, pos, Header(w), w.body);
    HeaderIsRead(b, pos, end, w);
  }

  predicate FirstStands(b: seq<Byte>, pos: int, end: int, w: Written) {
    && 0 <= pos < end <= |b| && BoxAt(b, pos, end) == Fine(Box(w.kind, pos + HeaderSize(w), pos + Size(w)))
    && Holds(b, pos + HeaderSize(w), w.body)
  }

  /** At `pos` in a parent ending at `end`, boxes are read one after another as they were written. */
  predicate AllStand(b: seq<Byte>, pos: int, end: int, ws: seq<Written>)
    decreases |ws|
  {
    0 <= pos <= end <= |b|
    && if ws == [] then pos == end
       else
         && FirstStands(b, pos, end, ws[0])
         && AllStand(b, pos + Size(ws[0]), end, ws[1..])
  }

  predicate Laid(b: seq<Byte>, pos: int, end: int, ws: seq<Written>)
    decreases |ws|
  {
    if ws == [] then 0 <= pos == end <= |b|
    else Holds(b, pos, Encode(ws[0])) && Laid(b, pos + Size(ws[0]), end, ws[1..])
  }

  lemma {:induction false} WrittenIsLaid(b: seq<Byte>, pos: int, end: int, ws: seq<Written>)
    requires (forall w :: w in ws ==> Writable(w)) && Holds(b, pos, EncodeAll(ws)) && end == pos + |EncodeAll(ws)|
    ensures Laid(b, pos, end, ws) && pos <= end <= |b|
    decreases |ws|
  {
    if ws != [] {
      EncodedSize(ws[0]);
      HoldsBoth(b, pos, Encode(ws[0]), EncodeAll(ws[1..]));
      WrittenIsLaid(b, pos + Size(ws[0]), end, ws[1..]);
    }
  }

  lemma {:induction false} WrittenStands(b: seq<Byte>, pos: int, end: int, ws: seq<Written>)
    requires AllWritable(ws) && Laid(b, pos, end, ws)
    ensures AllStand(b, pos, end, ws)
    decreases |ws|
  {
    if ws != [] {
      WrittenStands(b, pos + Size(ws[0]), end, ws[1..]);
      FirstIsRead(b, pos, end, ws[0]);
    }
  }

  lemma {:induction false} StandingIsRead(b: seq<Byte>, pos: int, end: int, ws: seq<Written>)
    requires AllStand(b, pos, end, ws)
    ensures Boxes(b, pos, end) == Fine(Placed(ws, pos))
    decreases |ws|
  {
    if ws != [] {
      StandingIsRead(b, pos + Size(ws[0]), end, ws[1..]);
    }
  }

  /** Boxes written side by side are read back, whatever stands around them. */
  lemma BoxesRoundTrip(b: seq<Byte>, pos: int, end: int, ws: seq<Written>)
    requires AllWritable(ws) && Holds(b, pos, EncodeAll(ws)) && end == pos + |EncodeAll(ws)|
    ensures Boxes(b, pos, end) == Fine(Placed(ws, pos))
  {
    WrittenIsLaid(b, pos, end, ws);
    WrittenStands(b, pos, end, ws);
    StandingIsRead(b, pos, end, ws);
  }

  lemma HeaderWasWritten(b: seq<Byte>, pos: int, w: Written)
    requires |w.kind| == 4 && 0 <= pos && pos + HeaderSize(w) <= |b| && w.kind == b[pos + 4..pos + 8]
    requires BigAt(b, pos, 4) == Word(w) && (w.form.Long? ==> BigAt(b, pos + 8, 8) == Size(w))
    ensures Writable(w) && Holds(b, pos, Header(w)) && |Header(w)| == HeaderSize(w)
  {
    BytesOfBig(b, pos, 4);
    Joined(b, pos, ToBytes(Word(w), 4), w.kind);
    if w.form.Long? {
      BytesOfBig(b, pos + 8, 8);
      Joined(b, pos, ToBytes(Word(w), 4) + w.kind, ToBytes(Size(w), 8));
    } else {
      assert Header(w) == ToBytes(Word(w), 4) + w.kind;
    }
  }

  lemma WrittenAt(b: seq<Byte>, pos: int, end: int, box: Box) returns (w: Written)
    requires 0 <= pos < end <= |b| && BoxAt(b, pos, end) == Fine(box)
    ensures pos + 8 <= box.body <= box.end <= end && |w.kind| == 4 && w.kind == b[pos + 4..pos + 8]
    ensures w.body == b[box.body..box.end] && box == Box(w.kind, pos + HeaderSize(w), pos + Size(w))
    ensures BigAt(b, pos, 4) == Word(w) && (w.form.Long? ==> BigAt(b, pos + 8, 8) == Size(w))
    ensures w.form.ToEnd? ==> box.end == end
  {
    var word := BigAt(b, pos, 4);
    w := Written(b[pos + 4..pos + 8], if word == 1 then Long else if word == 0 then ToEnd else Short,
                 b[box.body..box.end]);
  }

  /** Whatever is read as a box was written as one. */
  lemma BoxWasWritten(b: seq<Byte>, pos: int, end: int, box: Box) returns (w: Written)
    requires 0 <= pos < end <= |b| && BoxAt(b, pos, end) == Fine(box)
    ensures Writable(w) && b[pos..box.end] == Encode(w) && (w.form.ToEnd? ==> box.end == end)
    ensures box == Box(w.kind, pos + HeaderSize(w), pos + Size(w)) && pos < box.end <= end
  {
    w := WrittenAt(b, pos, end, box);
    HeaderWasWritten(b, pos, w);
    Joined(b, pos, Header(w), w.body);
  }

  /** `_boxes` accepts exactly the encodings of lists of boxes, and finds the boxes of the list. */
  lemma {:induction false} BoxesWereWritten(b: seq<Byte>, pos: int, end: int) returns (ws: seq<Written>)
    requires 0 <= pos <= end <= |b| && Boxes(b, pos, end).Fine?
    ensures AllWritable(ws) && b[pos..end] == EncodeAll(ws) && Boxes(b, pos, end) == Fine(Placed(ws, pos))
    decreases end - pos
  {
    if pos == end {
      ws := [];
    } else {
      var box := BoxAt(b, pos, end).value;
      var w := BoxWasWritten(b, pos, end, box);
      var rest := BoxesWereWritten(b, box.end, end);
      assert b[pos..end] == b[pos..box.end] + b[box.end..end];
      ws := [w] + rest;
      FirstAndRest(w, rest, box.end, end, b);
      FirstThenRest(b, pos, end, box);
      PlacedFirst(w, rest, pos);
    }
  }

  lemma FirstThenRest(b: seq<Byte>, pos: int, end: int, box: Box)
    requires 0 <= pos < end <= |b| && BoxAt(b, pos, end) == Fine(box)
    ensures box.end >= 0 && Boxes(b, pos, end) == After([box], Boxes(b, box.end, end))
  {
  }

  lemma PlacedFirst(w: Written, rest: seq<Written>, pos: int)
    ensures Placed([w] + rest, pos)
         == [Box(w.kind, pos + HeaderSize(w), pos + Size(w))] + Placed(rest, pos + Size(w))
  {
    assert ([w] + rest)[1..] == rest;
  }

  lemma FirstAndRest(w: Written, rest: seq<Written>, next: int, end: int, b: seq<Byte>)
    requires Writable(w) && AllWritable(rest) && 0 <= next <= end <= |b| && b[next..end] == EncodeAll(rest)
    requires w.form.ToEnd? ==> next == end
    ensures AllWritable([w] + rest) && EncodeAll([w] + rest) == Encode(w) + EncodeAll(rest)
    ensures ([w] + rest)[1..] == rest
  {
    assert ([w] + rest)[1..] == rest;
    if rest != [] {
      EncodedSize(rest[0]);
    }
  }

  // --- stated lengths ---

  /** The timescale, and the length if there is one. */
  datatype Length = Length(scale: nat, seconds: Option<real>)

  function Stated(scale: Parsed<nat>, duration: Parsed<nat>, unknown: nat, last: int, end: int): Parsed<Length> {
    if scale.Malformed? || duration.Malformed? || last > end || scale.value == 0 then Malformed
    else if duration.value == 0 || duration.value == unknown then Fine(Length(scale.value, None))
    else Fine(Length(scale.value, Some((duration.value as real) / (scale.value as real))))
  }

  /** `_scaled`: an mvhd's or mdhd's. */
  function Scaled(b: seq<Byte>, body: int, end: int): Parsed<Length> {
    var version := U(b, body, 1);
    if version == Fine(0) then Stated(U(b, body + 12, 4), U(b, body + 16, 4), 0xFFFF_FFFF, body + 20, end)
    else if version == Fine(1) then
      Stated(U(b, body + 20, 4), U(b, body + 24, 8), 0xFFFF_FFFF_FFFF_FFFF, body + 32, end)
    else Malformed
  }

  /** An mehd's, in the movie's timescale. */
  function Fragments(b: seq<Byte>, body: int, end: int, scale: nat): Parsed<real>
    requires scale > 0
  {
    var version := U(b, body, 1);
    if version.Malformed? then Malformed
    else
      var width := if version.value == 1 then 8 else 4;
      var duration := U(b, body + 4, width);
      if body + 4 + width > end || duration.Malformed? then Malformed
      else Fine((duration.value as real) / (scale as real))
  }

  function Seconds(l: Length): real {
    if l.seconds.None? then 0.0 else l.seconds.value
  }

  /** The lengths found so far in a moov, and the movie's timescale once its mvhd has been seen. */
  datatype Seen = Seen(scale: nat, lengths: seq<real>)

  const NOTHING: Seen := Seen(0, [])

  /** One box of an mvex. */
  function InMvex(b: seq<Byte>, s: Seen, box: Box): Parsed<Seen> {
    if box.kind == MEHD && s.scale > 0 then
      var x := Fragments(b, box.body, box.end, s.scale);
      if x.Malformed? then Malformed else Fine(s.(lengths := s.lengths + [x.value]))
    else Fine(s)
  }

  /** One box of an mdia. */
  function InMdia(b: seq<Byte>, s: Seen, box: Box): Parsed<Seen> {
    if box.kind == MDHD then
      var x := Scaled(b, box.body, box.end);
      if x.Malformed? then Malformed else Fine(s.(lengths := s.lengths + [Seconds(x.value)]))
    else Fine(s)
  }

  // --- the walk ---

  /** What the boxes walked are in. */
  datatype Parent = File | Moov | Trak | Mvex | Mdia

  function Depth(parent: Parent): nat {
    match parent
    case File => 3
    case Moov => 2
    case Trak => 1
    case Mvex => 0
    case Mdia => 0
  }

  predicate InFile(b: seq<Byte>, box: Box) {
    0 <= box.body <= box.end <= |b|
  }

  predicate AllInFile(b: seq<Byte>, boxes: seq<Box>) {
    forall box :: box in boxes ==> InFile(b, box)
  }

  lemma FoundInFile(b: seq<Byte>, pos: int, end: int)
    requires 0 <= pos <= end <= |b| && Boxes(b, pos, end).Fine?
    ensures AllInFile(b, Boxes(b, pos, end).value)
  {
    var boxes := Boxes(b, pos, end).value;
    BoxesTile(b, pos, end);
    forall i | 0 <= i < |boxes| ensures InFile(b, boxes[i]) {
      TileBounds(boxes, pos, end, i);
    }
  }

  /** What one box adds. */
  function One(parent: Parent, b: seq<Byte>, s: Seen, box: Box): Parsed<Seen>
    requires InFile(b, box)
    decreases Depth(parent), 0, 0
  {
    match parent
    case File => if box.kind == MOOV then Open(Moov, b, s.(scale := 0), box) else Fine(s)
    case Moov =>
      if box.kind == MVHD then
        var x := Scaled(b, box.body, box.end);
        if x.Malformed? then Malformed else Fine(Seen(x.value.scale, s.lengths + [Seconds(x.value)]))
      else if box.kind == MVEX then Open(Mvex, b, s, box)
      else if box.kind == TRAK then Open(Trak, b, s, box)
      else Fine(s)
    case Trak => if box.kind == MDIA then Open(Mdia, b, s, box) else Fine(s)
    case Mvex => InMvex(b, s, box)
    case Mdia => InMdia(b, s, box)
  }

  /** What the boxes inside a box add. */
  function Open(parent: Parent, b: seq<Byte>, s: Seen, box: Box): Parsed<Seen>
    requires InFile(b, box)
    decreases Depth(parent), 2, 0
  {
    var boxes := Boxes(b, box.body, box.end);
    if boxes.Malformed? then Malformed
    else
      FoundInFile(b, box.body, box.end);
      Walk(parent, b, s, boxes.value)
  }

  function Walk(parent: Parent, b: seq<Byte>, s: Seen, boxes: seq<Box>): Parsed<Seen>
    requires AllInFile(b, boxes)
    decreases Depth(parent), 1, |boxes|
  {
    if boxes == [] then Fine(s)
    else
      var next := One(parent, b, s, boxes[0]);
      if next.Malformed? then Malformed else Walk(parent, b, next.value, boxes[1..])
  }

  function WholeFile(b: seq<Byte>): Box {
    Box([], 0, |b|)
  }

  /** Every length a file states. */
  function Lengths(b: seq<Byte>): Parsed<seq<real>> {
    var s := Open(File, b, NOTHING, WholeFile(b));
    if s.Malformed? then Malformed else Fine(s.value.lengths)
  }

  // --- what is read depends on nothing outside the box ---

  /** b[from..to] is the same as c's bytes d further on. */
  predicate Agree(b: seq<Byte>, c: seq<Byte>, from: int, to: int, d: int) {
    0 <= from <= to <= |b| && 0 <= from + d && to + d <= |c| && b[from..to] == c[from + d..to + d]
  }

  lemma AgreeWithin(b: seq<Byte>, c: seq<Byte>, from: int, to: int, d: int, at: int, until: int)
    requires Agree(b, c, from, to, d) && from <= at <= until <= to
    ensures Agree(b, c, at, until, d)
  {
    SliceOfSlice(b, from, to, at - from, until - from);
    SliceOfSlice(c, from + d, to + d, at - from, until - from);
  }

  lemma SameNumber(b: seq<Byte>, c: seq<Byte>, from: int, to: int, d: int, at: int, n: nat)
    requires Agree(b, c, from, to, d) && from <= at && at + n <= to
    ensures U(b, at, n).Fine? && U(b, at, n) == U(c, at + d, n)
  {
    AgreeWithin(b, c, from, to, d, at, at + n);
    SameBytes(b, at, c, at + d, n);
  }

  function Moved(box: Box, d: int): Box {
    Box(box.kind, box.body + d, box.end + d)
  }

  function MovedBox(box: Parsed<Box>, d: int): Parsed<Box> {
    if box.Malformed? then Malformed else Fine(Moved(box.value, d))
  }

  function MovedAll(boxes: seq<Box>, d: int): seq<Box> {
    if boxes == [] then [] else [Moved(boxes[0], d)] + MovedAll(boxes[1..], d)
  }

  lemma BoxMoves(b: seq<Byte>, c: seq<Byte>, pos: int, end: int, d: int)
    requires Agree(b, c, pos, end, d) && pos < end
    ensures BoxAt(c, pos + d, end + d) == MovedBox(BoxAt(b, pos, end), d)
  {
    if end - pos >= 8 {
      SameNumber(b, c, pos, end, d, pos, 4);
      AgreeWithin(b, c, pos, end, d, pos + 4, pos + 8);
      if end - pos >= 16 {
        SameNumber(b, c, pos, end, d, pos + 8, 8);
      }
    }
  }

  lemma {:induction false} BoxesMove(b: seq<Byte>, c: seq<Byte>, pos: int, end: int, d: int)
    requires Agree(b, c, pos, end, d)
    ensures Boxes(c, pos + d, end + d)
         == if Boxes(b, pos, end).Malformed? then Malformed else Fine(MovedAll(Boxes(b, pos, end).value, d))
    decreases end - pos
  {
    if pos < end {
      BoxMoves(b, c, pos, end, d);
      var box := BoxAt(b, pos, end);
      if box.Fine? {
        AgreeWithin(b, c, pos, end, d, box.value.end, end);
        BoxesMove(b, c, box.value.end, end, d);
      }
    }
  }

  /** Of an mvhd or mdhd, only the box's own bytes count. */
  lemma ScaledMoves(b: seq<Byte>, c: seq<Byte>, body: int, end: int, d: int)
    requires Agree(b, c, body, end, d)
    ensures Scaled(c, body + d, end + d) == Scaled(b, body, end)
  {
    if body + 1 <= end {
      SameNumber(b, c, body, end, d, body, 1);
      if body + 20 <= end {
        SameNumber(b, c, body, end, d, body + 12, 4);
        SameNumber(b, c, body, end, d, body + 16, 4);
      }
      if body + 32 <= end {
        SameNumber(b, c, body, end, d, body + 20, 4);
        SameNumber(b, c, body, end, d, body + 24, 8);
      }
    }
  }

  /** Nor of an mehd. */
  lemma FragmentsMove(b: seq<Byte>, c: seq<Byte>, body: int, end: int, scale: nat, d: int)
    requires Agree(b, c, body, end, d) && scale > 0
    ensures Fragments(c, body + d, end + d, scale) == Fragments(b, body, end, scale)
  {
    if body + 1 <= end {
      SameNumber(b, c, body, end, d, body, 1);
      if body + 8 <= end {
        SameNumber(b, c, body, end, d, body + 4, 4);
      }
      if body + 12 <= end {
        SameNumber(b, c, body, end, d, body + 4, 8);
      }
    }
  }

  /** Of any box, what it adds depends on nothing outside it, nor on where it is. */
  lemma {:induction false} OneMoves(parent: Parent, b: seq<Byte>, c: seq<Byte>, s: Seen, box: Box, d: int)
    requires Agree(b, c, box.body, box.end, d) && InFile(b, box)
    ensures InFile(c, Moved(box, d)) && One(parent, c, s, Moved(box, d)) == One(parent, b, s, box)
    decreases Depth(parent), 0, 0
  {
    match parent
    case File =>
      if box.kind == MOOV {
        OpenMoves(Moov, b, c, s.(scale := 0), box, d);
      }
    case Moov =>
      if box.kind == MVHD {
        ScaledMoves(b, c, box.body, box.end, d);
      } else if box.kind == MVEX {
        OpenMoves(Mvex, b, c, s, box, d);
      } else if box.kind == TRAK {
        OpenMoves(Trak, b, c, s, box, d);
      }
    case Trak =>
      if box.kind == MDIA {
        OpenMoves(Mdia, b, c, s, box, d);
      }
    case Mvex =>
      if box.kind == MEHD && s.scale > 0 {
        FragmentsMove(b, c, box.body, box.end, s.scale, d);
      }
    case Mdia =>
      ScaledMoves(b, c, box.body, box.end, d);
  }

  lemma {:induction false} OpenMoves(parent: Parent, b: seq<Byte>, c: seq<Byte>, s: Seen, box: Box, d: int)
    requires Agree(b, c, box.body, box.end, d) && InFile(b, box)
    ensures InFile(c, Moved(box, d)) && Open(parent, c, s, Moved(box, d)) == Open(parent, b, s, box)
    decreases Depth(parent), 2, 0
  {
    BoxesMove(b, c, box.body, box.end, d);
    var boxes := Boxes(b, box.body, box.end);
    OpenIs(parent, b, s, box);
    OpenIs(parent, c, s, Moved(box, d));
    if boxes.Fine? {
      BoxesTile(b, box.body, box.end);
      WalkMoves(parent, b, c, s, boxes.value, box.body, box.end, d);
    }
  }

  lemma OpenIs(parent: Parent, b: seq<Byte>, s: Seen, box: Box)
    requires InFile(b, box)
    ensures var boxes := Boxes(b, box.body, box.end);
      if boxes.Malformed? then Open(parent, b, s, box).Malformed?
      else AllInFile(b, boxes.value) && Open(parent, b, s, box) == Walk(parent, b, s, boxes.value)
  {
    if Boxes(b, box.body, box.end).Fine? {
      FoundInFile(b, box.body, box.end);
    }
  }

  lemma {:induction false} WalkMoves(parent: Parent, b: seq<Byte>, c: seq<Byte>, s: Seen, boxes: seq<Box>, from: int,
                                     to: int, d: int)
    requires Tile(boxes, from, to) && Agree(b, c, from, to, d)
    requires AllInFile(b, boxes) && AllInFile(c, MovedAll(boxes, d))
    ensures Walk(parent, c, s, MovedAll(boxes, d)) == Walk(parent, b, s, boxes)
    decreases Depth(parent), 1, |boxes|
  {
    if boxes != [] {
      TileIsLong(boxes[1..], boxes[0].end, to);
      AgreeWithin(b, c, from, to, d, boxes[0].body, boxes[0].end);
      AgreeWithin(b, c, from, to, d, boxes[0].end, to);
      OneMoves(parent, b, c, s, boxes[0], d);
      var next := One(parent, b, s, boxes[0]);
      if next.Fine? {
        WalkMoves(parent, b, c, next.value, boxes[1..], boxes[0].end, to, d);
      }
    }
  }

  // --- a tree of boxes ---

  /** What a box with that type and body adds, wherever it is. */
  function Adds(parent: Parent, s: Seen, kind: seq<Byte>, body: seq<Byte>): Parsed<Seen> {
    One(parent, body, s, Box(kind, 0, |body|))
  }

  function AllAdd(parent: Parent, s: Seen, ws: seq<Written>): Parsed<Seen>
    decreases |ws|
  {
    if ws == [] then Fine(s)
    else
      var next := Adds(parent, s, ws[0].kind, ws[0].body);
      if next.Malformed? then Malformed else AllAdd(parent, next.value, ws[1..])
  }

  lemma OneIsAdded(parent: Parent, b: seq<Byte>, s: Seen, w: Written, pos: int)
    requires Holds(b, pos, w.body)
    ensures One(parent, b, s, Box(w.kind, pos, pos + |w.body|)) == Adds(parent, s, w.kind, w.body)
  {
    assert w.body[0..|w.body|] == w.body;
    OneMoves(parent, w.body, b, s, Box(w.kind, 0, |w.body|), pos);
  }

  lemma WalkFirst(parent: Parent, b: seq<Byte>, s: Seen, box: Box, rest: seq<Box>)
    requires AllInFile(b, [box] + rest)
    ensures InFile(b, box) && AllInFile(b, rest)
    ensures var next := One(parent, b, s, box);
      Walk(parent, b, s, [box] + rest) == if next.Malformed? then Malformed else Walk(parent, b, next.value, rest)
  {
    assert ([box] + rest)[0] == box && ([box] + rest)[1..] == rest;
    assert forall x :: x in rest ==> x in [box] + rest;
  }

  lemma FirstIsAdded(parent: Parent, b: seq<Byte>, s: Seen, w: Written, at: int, rest: seq<Box>)
    requires Holds(b, at, w.body) && AllInFile(b, [Box(w.kind, at, at + |w.body|)] + rest)
    ensures var next := Adds(parent, s, w.kind, w.body);
      && AllInFile(b, rest)
      && Walk(parent, b, s, [Box(w.kind, at, at + |w.body|)] + rest)
           == if next.Malformed? then Malformed else Walk(parent, b, next.value, rest)
  {
    WalkFirst(parent, b, s, Box(w.kind, at, at + |w.body|), rest);
    OneIsAdded(parent, b, s, w, at);
  }

  /** The first of the boxes that stand somewhere, and the others after it. */
  lemma StandsFirst(b: seq<Byte>, pos: int, end: int, ws: seq<Written>) returns (at: int)
    requires ws != [] && AllStand(b, pos, end, ws)
    ensures at == pos + HeaderSize(ws[0]) && at + |ws[0].body| == pos + Size(ws[0]) && Holds(b, at, ws[0].body)
    ensures AllStand(b, pos + Size(ws[0]), end, ws[1..])
    ensures Placed(ws, pos) == [Box(ws[0].kind, at, at + |ws[0].body|)] + Placed(ws[1..], pos + Size(ws[0]))
  {
    at := pos + HeaderSize(ws[0]);
  }

  lemma AllAddFirst(parent: Parent, s: Seen, w: Written, ws: seq<Written>)
    ensures var next := Adds(parent, s, w.kind, w.body);
      AllAdd(parent, s, [w] + ws) == if next.Malformed? then Malformed else AllAdd(parent, next.value, ws)
  {
    assert ([w] + ws)[1..] == ws;
  }

  lemma FirstOfAll(parent: Parent, b: seq<Byte>, s: Seen, ws: seq<Written>, pos: int, end: int)
    returns (next: Parsed<Seen>)
    requires ws != [] && AllStand(b, pos, end, ws) && AllInFile(b, Placed(ws, pos))
    ensures AllStand(b, pos + Size(ws[0]), end, ws[1..]) && AllInFile(b, Placed(ws[1..], pos + Size(ws[0])))
    ensures AllAdd(parent, s, ws) == if next.Malformed? then Malformed else AllAdd(parent, next.value, ws[1..])
    ensures Walk(parent, b, s, Placed(ws, pos))
         == if next.Malformed? then Malformed else Walk(parent, b, next.value, Placed(ws[1..], pos + Size(ws[0])))
  {
    var at := StandsFirst(b, pos, end, ws);
    next := Adds(parent, s, ws[0].kind, ws[0].body);
    FirstIsAdded(parent, b, s, ws[0], at, Placed(ws[1..], pos + Size(ws[0])));
    AllAddFirst(parent, s, ws[0], ws[1..]);
    assert ws == [ws[0]] + ws[1..];
  }

  lemma {:induction false} WalkIsAllAdd(parent: Parent, b: seq<Byte>, s: Seen, ws: seq<Written>, pos: int, end: int)
    requires AllStand(b, pos, end, ws) && AllInFile(b, Placed(ws, pos))
    ensures Walk(parent, b, s, Placed(ws, pos)) == AllAdd(parent, s, ws)
    decreases |ws|
  {
    if ws != [] {
      var next := FirstOfAll(parent, b, s, ws, pos, end);
      if next.Fine? {
        WalkIsAllAdd(parent, b, next.value, ws[1..], pos + Size(ws[0]), end);
      }
    }
  }

  /** What the boxes written inside a box add, one after another, whatever forms their sizes take. */
  lemma OpenIsAllAdd(parent: Parent, s: Seen, ws: seq<Written>, kind: seq<Byte>)
    requires AllWritable(ws)
    ensures Open(parent, EncodeAll(ws), s, Box(kind, 0, |EncodeAll(ws)|)) == AllAdd(parent, s, ws)
  {
    var b := EncodeAll(ws);
    WrittenIsLaid(b, 0, |b|, ws);
    WrittenStands(b, 0, |b|, ws);
    StandingIsRead(b, 0, |b|, ws);
    FoundInFile(b, 0, |b|);
    WalkIsAllAdd(parent, b, s, ws, 0, |b|);
  }

  // --- the length ---

  function Prefixed(before: seq<real>, s: Parsed<Seen>): Parsed<Seen> {
    if s.Malformed? then Malformed else Fine(s.value.(lengths := before + s.value.lengths))
  }

  lemma Longer(before: seq<real>, lengths: seq<real>, x: real)
    ensures before + (lengths + [x]) == before + lengths + [x]
  {
  }

  /** Lengths found earlier make no difference to what a box adds. */
  lemma {:induction false} OneIsPrefixed(parent: Parent, b: seq<Byte>, before: seq<real>, s: Seen, box: Box)
    requires InFile(b, box)
    ensures One(parent, b, s.(lengths := before + s.lengths), box) == Prefixed(before, One(parent, b, s, box))
    decreases Depth(parent), 0, 0
  {
    match parent
    case File =>
      if box.kind == MOOV {
        OpenIsPrefixed(Moov, b, before, s.(scale := 0), box);
      }
    case Moov =>
      if box.kind == MVHD {
        var x := Scaled(b, box.body, box.end);
        if x.Fine? {
          Longer(before, s.lengths, Seconds(x.value));
        }
      } else if box.kind == MVEX {
        OpenIsPrefixed(Mvex, b, before, s, box);
      } else if box.kind == TRAK {
        OpenIsPrefixed(Trak, b, before, s, box);
      }
    case Trak =>
      if box.kind == MDIA {
        OpenIsPrefixed(Mdia, b, before, s, box);
      }
    case Mvex =>
      if box.kind == MEHD && s.scale > 0 {
        var x := Fragments(b, box.body, box.end, s.scale);
        if x.Fine? {
          Longer(before, s.lengths, x.value);
        }
      }
    case Mdia =>
      var x := Scaled(b, box.body, box.end);
      if x.Fine? {
        Longer(before, s.lengths, Seconds(x.value));
      }
  }

  lemma {:induction false} OpenIsPrefixed(parent: Parent, b: seq<Byte>, before: seq<real>, s: Seen, box: Box)
    requires InFile(b, box)
    ensures Open(parent, b, s.(lengths := before + s.lengths), box) == Prefixed(before, Open(parent, b, s, box))
    decreases Depth(parent), 2, 0
  {
    var boxes := Boxes(b, box.body, box.end);
    if boxes.Fine? {
      FoundInFile(b, box.body, box.end);
      WalkIsPrefixed(parent, b, before, s, boxes.value);
    }
  }

  lemma {:induction false} WalkIsPrefixed(parent: Parent, b: seq<Byte>, before: seq<real>, s: Seen, boxes: seq<Box>)
    requires AllInFile(b, boxes)
    ensures Walk(parent, b, s.(lengths := before + s.lengths), boxes) == Prefixed(before, Walk(parent, b, s, boxes))
    decreases Depth(parent), 1, |boxes|
  {
    if boxes != [] {
      OneIsPrefixed(parent, b, before, s, boxes[0]);
      var next := One(parent, b, s, boxes[0]);
      if next.Fine? {
        WalkIsPrefixed(parent, b, before, next.value, boxes[1..]);
      }
    }
  }

  /** The mdhds of an mdia. */
  method MdiaLengths(b: seq<Byte>, before: Seen, box: Box) returns (r: Parsed<Seen>)
    requires InFile(b, box)
    ensures r == Open(Mdia, b, before, box)
  {
    var media := ListBoxes(b, box.body, box.end);
    if media.Malformed? {
      return Malformed;
    }
    FoundInFile(b, box.body, box.end);
    var s := before;
    for i := 0 to |media.value|
      invariant Walk(Mdia, b, before, media.value) == Walk(Mdia, b, s, media.value[i..])
    {
      var part := media.value[i];
      assert media.value[i..][1..] == media.value[i + 1..];
      if part.kind == MDHD {
        var x := Scaled(b, part.body, part.end);
        if x.Malformed? {
          return Malformed;
        }
        s := s.(lengths := s.lengths + [Seconds(x.value)]);
      }
    }
    r := Fine(s);
  }

  method TrakLengths(b: seq<Byte>, before: Seen, box: Box) returns (r: Parsed<Seen>)
    requires InFile(b, box)
    ensures r == Open(Trak, b, before, box)
  {
    var parts := ListBoxes(b, box.body, box.end);
    if parts.Malformed? {
      return Malformed;
    }
    FoundInFile(b, box.body, box.end);
    var s := before;
    for i := 0 to |parts.value|
      invariant Walk(Trak, b, before, parts.value) == Walk(Trak, b, s, parts.value[i..])
    {
      var part := parts.value[i];
      assert parts.value[i..][1..] == parts.value[i + 1..];
      if part.kind == MDIA {
        var next := MdiaLengths(b, s, part);
        if next.Malformed? {
          return Malformed;
        }
        s := next.value;
      }
    }
    r := Fine(s);
  }

  /** The mehds of an mvex, once the movie's timescale is known. */
  method MvexLengths(b: seq<Byte>, before: Seen, box: Box) returns (r: Parsed<Seen>)
    requires InFile(b, box)
    ensures r == Open(Mvex, b, before, box)
  {
    var parts := ListBoxes(b, box.body, box.end);
    if parts.Malformed? {
      return Malformed;
    }
    FoundInFile(b, box.body, box.end);
    var s := before;
    for i := 0 to |parts.value|
      invariant Walk(Mvex, b, before, parts.value) == Walk(Mvex, b, s, parts.value[i..])
    {
      var part := parts.value[i];
      assert parts.value[i..][1..] == parts.value[i + 1..];
      if part.kind == MEHD && s.scale > 0 {
        var x := Fragments(b, part.body, part.end, s.scale);
        if x.Malformed? {
          return Malformed;
        }
        s := s.(lengths := s.lengths + [x.value]);
      }
    }
    r := Fine(s);
  }

  /** `_moov_lengths`. */
  method MoovLengths(b: seq<Byte>, box: Box) returns (r: Parsed<Seen>)
    requires InFile(b, box)
    ensures r == Open(Moov, b, NOTHING, box)
  {
    var children := ListBoxes(b, box.body, box.end);
    if children.Malformed? {
      return Malformed;
    }
    FoundInFile(b, box.body, box.end);
    var s := NOTHING;
    for i := 0 to |children.value|
      invariant Walk(Moov, b, NOTHING, children.value) == Walk(Moov, b, s, children.value[i..])
    {
      var child := children.value[i];
      assert children.value[i..][1..] == children.value[i + 1..];
      if child.kind == MVHD {
        var x := Scaled(b, child.body, child.end);
        if x.Malformed? {
          return Malformed;
        }
        s := Seen(x.value.scale, s.lengths + [Seconds(x.value)]);
      } else if child.kind == MVEX {
        var next := MvexLengths(b, s, child);
        if next.Malformed? {
          return Malformed;
        }
        s := next.value;
      } else if child.kind == TRAK {
        var next := TrakLengths(b, s, child);
        if next.Malformed? {
          return Malformed;
        }
        s := next.value;
      }
    }
    r := Fine(s);
  }

  function Longest(lengths: seq<real>): real
    requires lengths != []
  {
    if |lengths| == 1 then lengths[0]
    else
      var x, rest := lengths[|lengths| - 1], Longest(lengths[..|lengths| - 1]);
      if x > rest then x else rest
  }

  lemma {:induction false} LongestIs(lengths: seq<real>)
    requires lengths != []
    ensures Longest(lengths) in lengths && forall x :: x in lengths ==> x <= Longest(lengths)
  {
    if |lengths| > 1 {
      var init := lengths[..|lengths| - 1];
      assert lengths == init + [lengths[|lengths| - 1]];
      LongestIs(init);
    }
  }

  lemma LongestStated(lengths: seq<real>, longest: real)
    requires longest == Longest([0.0] + lengths)
    ensures longest >= 0.0 && (longest > 0.0 ==> longest in lengths) && forall x :: x in lengths ==> x <= longest
  {
    var all := [0.0] + lengths;
    LongestIs(all);
    assert 0.0 in all;
    forall x | x in lengths ensures x <= longest {
      assert x in all;
    }
  }

  lemma MoovAdds(b: seq<Byte>, s: Seen, box: Box)
    requires InFile(b, box) && box.kind == MOOV
    ensures One(File, b, s, box) == Prefixed(s.lengths, Open(Moov, b, NOTHING, box))
  {
    OpenIsPrefixed(Moov, b, s.lengths, NOTHING, box);
    assert NOTHING.(lengths := s.lengths + NOTHING.lengths) == s.(scale := 0);
  }

  /** The loop of `mp4_seconds` over the top-level boxes. */
  method MovieLengths(b: seq<Byte>, boxes: seq<Box>) returns (r: Parsed<seq<real>>)
    requires AllInFile(b, boxes)
    ensures r.Malformed? <==> Walk(File, b, NOTHING, boxes).Malformed?
    ensures r.Fine? ==> r.value == [0.0] + Walk(File, b, NOTHING, boxes).value.lengths
  {
    var stated: seq<real> := [0.0];
    ghost var s := NOTHING;
    for i := 0 to |boxes|
      invariant stated == [0.0] + s.lengths
      invariant Walk(File, b, NOTHING, boxes) == Walk(File, b, s, boxes[i..])
    {
      var box := boxes[i];
      assert boxes[i..][1..] == boxes[i + 1..];
      if box.kind == MOOV {
        MoovAdds(b, s, box);
        var more := MoovLengths(b, box);
        if more.Malformed? {
          return Malformed;
        }
        stated := stated + more.value.lengths;
        s := One(File, b, s, box).value;
      }
    }
    r := Fine(stated);
  }
}
