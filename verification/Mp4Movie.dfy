/** What a recording's MP4 file states (backend/voice.py 343-392), against files written field by field: the headers of
sections 8.2.2, 8.4.2 and 8.8.2 of ISO/IEC 14496-12, in the boxes that hold them. */
module Mp4Movie {
  import opened Basics
  import opened Bytes
  import opened Mp4

  // --- an mvhd or mdhd ---

  /** The header of a movie or of a track's media: version 1 has 64-bit times and a 64-bit duration. */
  datatype Clock = Clock(wide: bool, flags: seq<Byte>, created: nat, modified: nat, scale: nat, duration: nat,
                         rest: seq<Byte>)

  function Width(c: Clock): nat {
    if c.wide then 8 else 4
  }

  predicate ClockWritable(c: Clock) {
    && |c.flags| == 3 && c.created < Base(Width(c)) && c.modified < Base(Width(c))
    && c.scale < Base(4) && c.duration < Base(Width(c))
  }

  function ClockBytes(c: Clock): seq<Byte> {
    [if c.wide then 1 else 0] + (c.flags + (ToBytes(c.created, Width(c)) + (ToBytes(c.modified, Width(c))
      + (ToBytes(c.scale, 4) + (ToBytes(c.duration, Width(c)) + c.rest)))))
  }

  /** The length in seconds, unless the duration is zero or all ones. */
  function StatedBy(c: Clock): Option<real>
    requires c.scale > 0
  {
    if c.duration == 0 || c.duration == Base(Width(c)) - 1 then None
    else Some((c.duration as real) / (c.scale as real))
  }

  lemma OneByte(b: seq<Byte>, pos: int, x: Byte)
    requires Holds(b, pos, [x])
    ensures U(b, pos, 1) == Fine(x)
  {
    assert b[pos] == b[pos..pos + 1][0];
    assert BigAt(b, pos, 0) == 0;
  }

  lemma AllOnesAre()
    ensures Base(4) - 1 == 0xFFFF_FFFF && Base(8) - 1 == 0xFFFF_FFFF_FFFF_FFFF
  {
    BaseIs();
    assert Base(6) == 0x1_0000_0000_0000;
  }

  /** The header's numbers stand where they are looked for. */
  lemma ClockFields(b: seq<Byte>, pos: int, c: Clock)
    requires ClockWritable(c) && Holds(b, pos, ClockBytes(c))
    ensures U(b, pos, 1) == Fine(if c.wide then 1 else 0)
    ensures U(b, pos + 4 + 2 * Width(c), 4) == Fine(c.scale)
    ensures U(b, pos + 8 + 2 * Width(c), Width(c)) == Fine(c.duration)
  {
    var n := Width(c);
    var version: seq<Byte> := [if c.wide then 1 else 0];
    var length := ToBytes(c.scale, 4) + (ToBytes(c.duration, n) + c.rest);
    HoldsBoth(b, pos, version, c.flags + (ToBytes(c.created, n) + (ToBytes(c.modified, n) + length)));
    HoldsBoth(b, pos + 1, c.flags, ToBytes(c.created, n) + (ToBytes(c.modified, n) + length));
    HoldsBoth(b, pos + 4, ToBytes(c.created, n), ToBytes(c.modified, n) + length);
    HoldsBoth(b, pos + 4 + n, ToBytes(c.modified, n), length);
    HoldsBoth(b, pos + 4 + 2 * n, ToBytes(c.scale, 4), ToBytes(c.duration, n) + c.rest);
    HoldsBoth(b, pos + 8 + 2 * n, ToBytes(c.duration, n), c.rest);
    OneByte(b, pos, if c.wide then 1 else 0);
    NumberIsRead(b, pos + 4 + 2 * n, c.scale, 4);
    NumberIsRead(b, pos + 8 + 2 * n, c.duration, n);
  }

  lemma ClockSize(c: Clock)
    requires ClockWritable(c)
    ensures |ClockBytes(c)| == 8 + 3 * Width(c) + |c.rest|
  {
  }

  /** A written header states its duration in its timescale; one whose timescale is zero is refused. */
  lemma ClockIsRead(b: seq<Byte>, pos: int, end: int, c: Clock)
    requires ClockWritable(c) && Holds(b, pos, ClockBytes(c)) && pos + |ClockBytes(c)| <= end
    ensures Scaled(b, pos, end) == if c.scale == 0 then Malformed else Fine(Length(c.scale, StatedBy(c)))
  {
    ClockFields(b, pos, c);
    ClockSize(c);
    AllOnesAre();
  }

  /** Whatever is read as a header was written as one, inside its box. */
  lemma ClockWasWritten(b: seq<Byte>, pos: int, end: int) returns (c: Clock)
    requires Scaled(b, pos, end).Fine?
    ensures ClockWritable(c) && c.scale > 0 && c.rest == [] && Holds(b, pos, ClockBytes(c))
    ensures pos + |ClockBytes(c)| <= end && Scaled(b, pos, end) == Fine(Length(c.scale, StatedBy(c)))
  {
    var wide := U(b, pos, 1) == Fine(1);
    var n := if wide then 8 else 4;
    c := Clock(wide, b[pos + 1..pos + 4], BigAt(b, pos + 4, n), BigAt(b, pos + 4 + n, n),
               BigAt(b, pos + 4 + 2 * n, 4), BigAt(b, pos + 8 + 2 * n, n), []);
    BytesOfBig(b, pos + 4, n);
    BytesOfBig(b, pos + 4 + n, n);
    BytesOfBig(b, pos + 4 + 2 * n, 4);
    BytesOfBig(b, pos + 8 + 2 * n, n);
    VersionIs(b, pos);
    ClockStands(b, pos, c);
    ClockSize(c);
    AllOnesAre();
  }

  lemma VersionIs(b: seq<Byte>, pos: int)
    requires U(b, pos, 1).Fine?
    ensures U(b, pos, 1) == Fine(b[pos])
  {
    assert BigAt(b, pos, 0) == 0;
  }

  lemma ClockStands(b: seq<Byte>, pos: int, c: Clock)
    requires ClockWritable(c) && c.rest == [] && 0 <= pos && pos + 8 + 3 * Width(c) <= |b|
    requires b[pos] == (if c.wide then 1 else 0) && c.flags == b[pos + 1..pos + 4]
    requires var n := Width(c);
      && Holds(b, pos + 4, ToBytes(c.created, n)) && Holds(b, pos + 4 + n, ToBytes(c.modified, n))
      && Holds(b, pos + 4 + 2 * n, ToBytes(c.scale, 4)) && Holds(b, pos + 8 + 2 * n, ToBytes(c.duration, n))
    ensures Holds(b, pos, ClockBytes(c))
  {
    var n := Width(c);
    var version: seq<Byte> := [if c.wide then 1 else 0];
    var last := ToBytes(c.duration, n) + c.rest;
    assert last == ToBytes(c.duration, n);
    var length := ToBytes(c.scale, 4) + last;
    Joined(b, pos + 4 + 2 * n, ToBytes(c.scale, 4), last);
    Joined(b, pos + 4 + n, ToBytes(c.modified, n), length);
    Joined(b, pos + 4, ToBytes(c.created, n), ToBytes(c.modified, n) + length);
    Joined(b, pos + 1, c.flags, ToBytes(c.created, n) + (ToBytes(c.modified, n) + length));
    Joined(b, pos, version, c.flags + (ToBytes(c.created, n) + (ToBytes(c.modified, n) + length)));
  }

  // --- an mehd ---

  datatype FragmentHeader = FragmentHeader(version: Byte, flags: seq<Byte>, duration: nat, rest: seq<Byte>)

  function DurationWidth(f: FragmentHeader): nat {
    if f.version == 1 then 8 else 4
  }

  predicate FragmentWritable(f: FragmentHeader) {
    |f.flags| == 3 && f.duration < Base(DurationWidth(f))
  }

  function FragmentBytes(f: FragmentHeader): seq<Byte> {
    [f.version] + (f.flags + (ToBytes(f.duration, DurationWidth(f)) + f.rest))
  }

  lemma FragmentIsRead(b: seq<Byte>, pos: int, end: int, f: FragmentHeader, scale: nat)
    requires FragmentWritable(f) && Holds(b, pos, FragmentBytes(f)) && pos + |FragmentBytes(f)| <= end && scale > 0
    ensures Fragments(b, pos, end, scale) == Fine((f.duration as real) / (scale as real))
  {
    var n := DurationWidth(f);
    HoldsBoth(b, pos, [f.version], f.flags + (ToBytes(f.duration, n) + f.rest));
    HoldsBoth(b, pos + 1, f.flags, ToBytes(f.duration, n) + f.rest);
    HoldsBoth(b, pos + 4, ToBytes(f.duration, n), f.rest);
    OneByte(b, pos, f.version);
    NumberIsRead(b, pos + 4, f.duration, n);
  }

  /** Whatever is read as a fragment header was written as one, inside its box. */
  lemma FragmentWasWritten(b: seq<Byte>, pos: int, end: int, scale: nat) returns (f: FragmentHeader)
    requires scale > 0 && Fragments(b, pos, end, scale).Fine?
    ensures FragmentWritable(f) && f.rest == [] && Holds(b, pos, FragmentBytes(f)) && pos + |FragmentBytes(f)| <= end
    ensures Fragments(b, pos, end, scale) == Fine((f.duration as real) / (scale as real))
  {
    var version := b[pos];
    var n := if version == 1 then 8 else 4;
    VersionIs(b, pos);
    f := FragmentHeader(version, b[pos + 1..pos + 4], BigAt(b, pos + 4, n), []);
    BytesOfBig(b, pos + 4, n);
    var last := ToBytes(f.duration, n) + f.rest;
    assert last == ToBytes(f.duration, n);
    Joined(b, pos + 1, f.flags, last);
    Joined(b, pos, [f.version], f.flags + last);
  }

  // --- a file, and the lengths written in it ---

  datatype InMedia = MediaHeader(form: Form, clock: Clock) | OtherInMedia(box: Written)

  datatype InTrack = Media(form: Form, parts: seq<InMedia>) | OtherInTrack(box: Written)

  datatype InExtends = Fragment(form: Form, header: FragmentHeader) | OtherInExtends(box: Written)

  datatype InMovie =
    | MovieHeader(form: Form, clock: Clock)
    | Track(form: Form, parts: seq<InTrack>)
    | Extends(form: Form, extensions: seq<InExtends>)
    | OtherInMovie(box: Written)

  datatype InFile = Movie(form: Form, parts: seq<InMovie>) | OtherInFile(box: Written)

  function MediaBoxes(ps: seq<InMedia>): seq<Written> {
    if ps == [] then []
    else
      [match ps[0]
       case MediaHeader(form, clock) => Written(MDHD, form, ClockBytes(clock))
       case OtherInMedia(box) => box] + MediaBoxes(ps[1..])
  }

  function TrackBoxes(ps: seq<InTrack>): seq<Written> {
    if ps == [] then []
    else
      [match ps[0]
       case Media(form, parts) => Written(MDIA, form, EncodeAll(MediaBoxes(parts)))
       case OtherInTrack(box) => box] + TrackBoxes(ps[1..])
  }

  function ExtendsBoxes(ps: seq<InExtends>): seq<Written> {
    if ps == [] then []
    else
      [match ps[0]
       case Fragment(form, header) => Written(MEHD, form, FragmentBytes(header))
       case OtherInExtends(box) => box] + ExtendsBoxes(ps[1..])
  }

  function MovieBox(p: InMovie): Written {
    match p
    case MovieHeader(form, clock) => Written(MVHD, form, ClockBytes(clock))
    case Track(form, parts) => Written(TRAK, form, EncodeAll(TrackBoxes(parts)))
    case Extends(form, extensions) => Written(MVEX, form, EncodeAll(ExtendsBoxes(extensions)))
    case OtherInMovie(box) => box
  }

  function MovieBoxes(ps: seq<InMovie>): seq<Written> {
    if ps == [] then [] else [MovieBox(ps[0])] + MovieBoxes(ps[1..])
  }

  function FileBox(p: InFile): Written {
    if p.Movie? then Written(MOOV, p.form, EncodeAll(MovieBoxes(p.parts))) else p.box
  }

  function FileBoxes(ps: seq<InFile>): seq<Written> {
    if ps == [] then [] else [FileBox(ps[0])] + FileBoxes(ps[1..])
  }

  function LengthOf(c: Clock): real {
    if c.scale == 0 || StatedBy(c).None? then 0.0 else StatedBy(c).value
  }

  predicate GoodClock(c: Clock) {
    ClockWritable(c) && c.scale > 0
  }

  predicate GoodMedia(ps: seq<InMedia>) {
    && AllWritable(MediaBoxes(ps))
    && forall p :: p in ps ==> if p.MediaHeader? then GoodClock(p.clock) else p.box.kind != MDHD
  }

  predicate GoodTrack(ps: seq<InTrack>) {
    && AllWritable(TrackBoxes(ps))
    && forall p :: p in ps ==> if p.Media? then GoodMedia(p.parts) else p.box.kind != MDIA
  }

  predicate GoodExtends(ps: seq<InExtends>) {
    && AllWritable(ExtendsBoxes(ps))
    && forall p :: p in ps ==> if p.Fragment? then FragmentWritable(p.header) else p.box.kind != MEHD
  }

  predicate GoodInMovie(p: InMovie) {
    match p
    case MovieHeader(_, clock) => GoodClock(clock)
    case Track(_, parts) => GoodTrack(parts)
    case Extends(_, extensions) => GoodExtends(extensions)
    case OtherInMovie(box) => box.kind != MVHD && box.kind != TRAK && box.kind != MVEX
  }

  predicate GoodMovie(ps: seq<InMovie>) {
    AllWritable(MovieBoxes(ps)) && forall p :: p in ps ==> GoodInMovie(p)
  }

  predicate GoodTop(p: InFile) {
    if p.Movie? then GoodMovie(p.parts) else p.box.kind != MOOV
  }

  predicate GoodFile(ps: seq<InFile>) {
    AllWritable(FileBoxes(ps)) && forall p :: p in ps ==> GoodTop(p)
  }

  function MediaLengths(ps: seq<InMedia>): seq<real> {
    if ps == [] then [] else (if ps[0].MediaHeader? then [LengthOf(ps[0].clock)] else []) + MediaLengths(ps[1..])
  }

  function TrackLengths(ps: seq<InTrack>): seq<real> {
    if ps == [] then [] else (if ps[0].Media? then MediaLengths(ps[0].parts) else []) + TrackLengths(ps[1..])
  }

  /** Fragments are counted in the movie's timescale, once its header has been seen. */
  function ExtendsLengths(ps: seq<InExtends>, scale: nat): seq<real> {
    if ps == [] || scale == 0 then []
    else
      (if ps[0].Fragment? then [(ps[0].header.duration as real) / (scale as real)] else [])
      + ExtendsLengths(ps[1..], scale)
  }

  function OwnLengths(p: InMovie, scale: nat): seq<real> {
    match p
    case MovieHeader(_, clock) => [LengthOf(clock)]
    case Track(_, parts) => TrackLengths(parts)
    case Extends(_, extensions) => ExtendsLengths(extensions, scale)
    case OtherInMovie(_) => []
  }

  function NextScale(p: InMovie, scale: nat): nat {
    if p.MovieHeader? then p.clock.scale else scale
  }

  function MovieLengths(ps: seq<InMovie>, scale: nat): seq<real>
    decreases ps
  {
    if ps == [] then [] else OwnLengths(ps[0], scale) + MovieLengths(ps[1..], NextScale(ps[0], scale))
  }

  function TopLengths(p: InFile): seq<real> {
    if p.Movie? then MovieLengths(p.parts, 0) else []
  }

  function FileLengths(ps: seq<InFile>): seq<real> {
    if ps == [] then [] else TopLengths(ps[0]) + FileLengths(ps[1..])
  }

  // --- and they are the ones found ---

  function More(s: Seen, lengths: seq<real>): Seen {
    s.(lengths := s.lengths + lengths)
  }

  lemma MoreTwice(s: Seen, a: seq<real>, b: seq<real>)
    ensures More(More(s, a), b) == More(s, a + b)
    ensures More(s, []) == s
  {
    assert s.lengths + a + b == s.lengths + (a + b);
    assert s.lengths + [] == s.lengths;
  }

  lemma RestWritable(w: Written, ws: seq<Written>)
    requires AllWritable([w] + ws)
    ensures AllWritable(ws) && Writable(w)
  {
    assert ([w] + ws)[0] == w;
    forall x | x in ws ensures Writable(x) {
      assert x in [w] + ws;
    }
    forall i | 0 <= i < |ws| && ws[i].form.ToEnd? ensures i == |ws| - 1 {
      assert ([w] + ws)[i + 1] == ws[i];
    }
  }

  lemma Stands(body: seq<Byte>)
    ensures Holds(body, 0, body)
  {
  }

  lemma {:induction false} MediaAdds(s: Seen, ps: seq<InMedia>)
    requires GoodMedia(ps)
    ensures AllAdd(Mdia, s, MediaBoxes(ps)) == Fine(More(s, MediaLengths(ps)))
    decreases ps
  {
    MoreTwice(s, [], []);
    if ps != [] {
      var w, rest := MediaBoxes(ps)[0], MediaBoxes(ps[1..]);
      AllAddFirst(Mdia, s, w, rest);
      RestWritable(w, rest);
      var own := if ps[0].MediaHeader? then [LengthOf(ps[0].clock)] else [];
      OneInMedia(s, ps[0], w);
      MediaAdds(More(s, own), ps[1..]);
      MoreTwice(s, own, MediaLengths(ps[1..]));
    }
  }

  lemma OneInMedia(s: Seen, p: InMedia, w: Written)
    requires if p.MediaHeader? then GoodClock(p.clock) else p.box.kind != MDHD
    requires w == if p.MediaHeader? then Written(MDHD, p.form, ClockBytes(p.clock)) else p.box
    ensures Adds(Mdia, s, w.kind, w.body) == Fine(More(s, if p.MediaHeader? then [LengthOf(p.clock)] else []))
  {
    MoreTwice(s, [], []);
    if p.MediaHeader? {
      Stands(w.body);
      ClockIsRead(w.body, 0, |w.body|, p.clock);
    }
  }

  lemma {:induction false} TrackAdds(s: Seen, ps: seq<InTrack>)
    requires GoodTrack(ps)
    ensures AllAdd(Trak, s, TrackBoxes(ps)) == Fine(More(s, TrackLengths(ps)))
    decreases ps
  {
    MoreTwice(s, [], []);
    if ps != [] {
      var w, rest := TrackBoxes(ps)[0], TrackBoxes(ps[1..]);
      AllAddFirst(Trak, s, w, rest);
      RestWritable(w, rest);
      var own := if ps[0].Media? then MediaLengths(ps[0].parts) else [];
      OneInTrack(s, ps[0], w);
      TrackAdds(More(s, own), ps[1..]);
      MoreTwice(s, own, TrackLengths(ps[1..]));
    }
  }

  lemma OneInTrack(s: Seen, p: InTrack, w: Written)
    requires if p.Media? then GoodMedia(p.parts) else p.box.kind != MDIA
    requires w == if p.Media? then Written(MDIA, p.form, EncodeAll(MediaBoxes(p.parts))) else p.box
    ensures Adds(Trak, s, w.kind, w.body) == Fine(More(s, if p.Media? then MediaLengths(p.parts) else []))
  {
    MoreTwice(s, [], []);
    if p.Media? {
      OpenIsAllAdd(Mdia, s, MediaBoxes(p.parts), MDIA);
      MediaAdds(s, p.parts);
    }
  }

  lemma {:induction false} ExtendsAdds(s: Seen, ps: seq<InExtends>)
    requires GoodExtends(ps)
    ensures AllAdd(Mvex, s, ExtendsBoxes(ps)) == Fine(More(s, ExtendsLengths(ps, s.scale)))
    decreases ps
  {
    MoreTwice(s, [], []);
    if ps != [] {
      var w, rest := ExtendsBoxes(ps)[0], ExtendsBoxes(ps[1..]);
      AllAddFirst(Mvex, s, w, rest);
      RestWritable(w, rest);
      var own := FragmentLength(ps[0], s.scale);
      OneInExtends(s, ps[0], w);
      ExtendsAdds(More(s, own), ps[1..]);
      MoreTwice(s, own, ExtendsLengths(ps[1..], s.scale));
    }
  }

  function FragmentLength(p: InExtends, scale: nat): seq<real> {
    if p.Fragment? && scale > 0 then [(p.header.duration as real) / (scale as real)] else []
  }

  lemma OneInExtends(s: Seen, p: InExtends, w: Written)
    requires if p.Fragment? then FragmentWritable(p.header) else p.box.kind != MEHD
    requires w == if p.Fragment? then Written(MEHD, p.form, FragmentBytes(p.header)) else p.box
    ensures Adds(Mvex, s, w.kind, w.body) == Fine(More(s, FragmentLength(p, s.scale)))
  {
    MoreTwice(s, [], []);
    if p.Fragment? && s.scale > 0 {
      Stands(w.body);
      FragmentIsRead(w.body, 0, |w.body|, p.header, s.scale);
    }
  }

  lemma {:induction false} MovieAdds(s: Seen, ps: seq<InMovie>)
    requires GoodMovie(ps)
    ensures var r := AllAdd(Moov, s, MovieBoxes(ps));
      r.Fine? && r.value.lengths == s.lengths + MovieLengths(ps, s.scale)
    decreases ps
  {
    if ps != [] {
      var w := MovieBox(ps[0]);
      GoodMovieRest(ps);
      AllAddFirst(Moov, s, w, MovieBoxes(ps[1..]));
      OneInMovie(s, ps[0], w);
      var next := AfterPart(s, ps[0]);
      MovieAdds(next, ps[1..]);
      AddedUp(s.lengths, OwnLengths(ps[0], s.scale), MovieLengths(ps[1..], next.scale));
    }
  }

  function AfterPart(s: Seen, p: InMovie): Seen {
    Seen(NextScale(p, s.scale), s.lengths + OwnLengths(p, s.scale))
  }

  lemma AddedUp(a: seq<real>, b: seq<real>, c: seq<real>)
    ensures a + b + c == a + (b + c)
  {
  }

  lemma GoodMovieRest(ps: seq<InMovie>)
    requires ps != [] && GoodMovie(ps)
    ensures GoodInMovie(ps[0]) && GoodMovie(ps[1..])
  {
    RestWritable(MovieBox(ps[0]), MovieBoxes(ps[1..]));
    assert ps[0] in ps;
  }

  lemma OneInMovie(s: Seen, p: InMovie, w: Written)
    requires GoodInMovie(p) && w == MovieBox(p)
    ensures Adds(Moov, s, w.kind, w.body) == Fine(AfterPart(s, p))
  {
    MoreTwice(s, [], []);
    match p
    case MovieHeader(_, clock) =>
      Stands(w.body);
      ClockIsRead(w.body, 0, |w.body|, clock);
    case Track(_, parts) =>
      OpenIsAllAdd(Trak, s, TrackBoxes(parts), TRAK);
      TrackAdds(s, parts);
    case Extends(_, extensions) =>
      OpenIsAllAdd(Mvex, s, ExtendsBoxes(extensions), MVEX);
      ExtendsAdds(s, extensions);
    case OtherInMovie(_) =>
  }

  lemma {:induction false} FileAdds(s: Seen, ps: seq<InFile>)
    requires GoodFile(ps)
    ensures var r := AllAdd(File, s, FileBoxes(ps)); r.Fine? && r.value.lengths == s.lengths + FileLengths(ps)
    decreases ps
  {
    if ps != [] {
      var w := FileBox(ps[0]);
      GoodFileRest(ps);
      AllAddFirst(File, s, w, FileBoxes(ps[1..]));
      OneInFile(s, ps[0], w);
      var next := Adds(File, s, w.kind, w.body).value;
      FileAdds(next, ps[1..]);
      AddedUp(s.lengths, TopLengths(ps[0]), FileLengths(ps[1..]));
    }
  }

  lemma GoodFileRest(ps: seq<InFile>)
    requires ps != [] && GoodFile(ps)
    ensures GoodTop(ps[0]) && GoodFile(ps[1..])
  {
    RestWritable(FileBox(ps[0]), FileBoxes(ps[1..]));
    assert ps[0] in ps;
  }

  lemma OneInFile(s: Seen, p: InFile, w: Written)
    requires GoodTop(p) && w == FileBox(p)
    ensures var r := Adds(File, s, w.kind, w.body); r.Fine? && r.value.lengths == s.lengths + TopLengths(p)
  {
    if p.Movie? {
      OpenIsAllAdd(Moov, s.(scale := 0), MovieBoxes(p.parts), MOOV);
      MovieAdds(s.(scale := 0), p.parts);
    }
  }

  /** The lengths found in a written file are those written in it, in order. */
  lemma FileIsRead(ps: seq<InFile>)
    requires GoodFile(ps)
    ensures Lengths(EncodeAll(FileBoxes(ps))) == Fine(FileLengths(ps))
  {
    OpenIsAllAdd(File, NOTHING, FileBoxes(ps), []);
    FileAdds(NOTHING, ps);
    assert [] + FileLengths(ps) == FileLengths(ps);
  }

  /** The longest of some lengths, or none when no length is more than zero. */
  predicate IsLongest(longest: Option<real>, lengths: seq<real>) {
    match longest
    case None => forall x :: x in lengths ==> x <= 0.0
    case Some(m) => m > 0.0 && m in lengths && forall x :: x in lengths ==> x <= m
  }

  /** `mp4_seconds`: the longest of the lengths stated; for a file as it was written, the longest written in it. */
  method Mp4Seconds(b: seq<Byte>) returns (r: Parsed<Option<real>>)
    ensures r.Malformed? <==> Lengths(b).Malformed?
    ensures r.Fine? ==> IsLongest(r.value, Lengths(b).value)
    ensures forall ps :: GoodFile(ps) && b == EncodeAll(FileBoxes(ps)) ==>
      r.Fine? && IsLongest(r.value, FileLengths(ps))
  {
    forall ps | GoodFile(ps) && b == EncodeAll(FileBoxes(ps)) ensures Lengths(b) == Fine(FileLengths(ps)) {
      FileIsRead(ps);
    }
    var found := ListBoxes(b, 0, |b|);
    if found.Malformed? {
      return Malformed;
    }
    FoundInFile(b, 0, |b|);
    var stated := Mp4.MovieLengths(b, found.value);
    if stated.Malformed? {
      return Malformed;
    }
    var longest := Longest(stated.value);
    LongestStated(Lengths(b).value, longest);
    r := Fine(if longest == 0.0 then None else Some(longest));
  }
}
