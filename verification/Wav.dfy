/** A WAV recording's length (backend/voice.py 467-492), from its chunks. */
module Wav {
  import opened Basics
  import opened Bytes

  const RIFF: seq<Byte> := [0x52, 0x49, 0x46, 0x46]
  const WAVE: seq<Byte> := [0x57, 0x41, 0x56, 0x45]
  const FMT: seq<Byte> := [0x66, 0x6D, 0x74, 0x20]
  const DATA: seq<Byte> := [0x64, 0x61, 0x74, 0x61]

  /** The number n bytes are, least significant first. */
  function LittleAt(b: seq<Byte>, start: nat, n: nat): nat
    requires start + n <= |b|
    decreases n
  {
    if n == 0 then 0 else b[start] + 256 * LittleAt(b, start + 1, n - 1)
  }

  function ToLittle(value: nat, n: nat): (b: seq<Byte>)
    ensures |b| == n
  {
    if n == 0 then [] else [value % 256] + ToLittle(value / 256, n - 1)
  }

  lemma {:induction false} LittleOfBytes(b: seq<Byte>, start: nat, value: nat, n: nat)
    requires value < Base(n) && start + n <= |b| && b[start..start + n] == ToLittle(value, n)
    ensures LittleAt(b, start, n) == value
    decreases n
  {
    if n > 0 {
      var part := b[start..start + n];
      assert b[start] == part[0] == value % 256;
      assert b[start + 1..start + n] == part[1..] == ToLittle(value / 256, n - 1);
      LittleOfBytes(b, start + 1, value / 256, n - 1);
    }
  }

  lemma {:induction false} SameLittle(b: seq<Byte>, start: nat, c: seq<Byte>, from: nat, n: nat)
    requires start + n <= |b| && from + n <= |c| && b[start..start + n] == c[from..from + n]
    ensures LittleAt(b, start, n) == LittleAt(c, from, n)
    decreases n
  {
    if n > 0 {
      var part := b[start..start + n];
      assert b[start] == part[0] && c[from] == c[from..from + n][0];
      assert b[start + 1..start + n] == part[1..] && c[from + 1..from + n] == c[from..from + n][1..];
      SameLittle(b, start + 1, c, from + 1, n - 1);
    }
  }

  /** The bytes a second that a format chunk's body gives, or None if its stated rate disagrees. */
  function RateAt(b: seq<Byte>, body: nat): Option<nat>
    requires body + 16 <= |b|
  {
    AgreedRate(LittleAt(b, body + 4, 4), LittleAt(b, body + 2, 2), LittleAt(b, body + 14, 2),
               LittleAt(b, body + 8, 4))
  }

  function AgreedRate(samples: nat, channels: nat, bits: nat, stated: nat): Option<nat> {
    var rate := samples * channels * bits / 8;
    if rate == 0 || stated != rate then None else Some(rate)
  }

  /** What a format chunk gives: None for a second one, a short one, or one whose stated rate disagrees. */
  function FormatRate(b: seq<Byte>, body: nat, size: nat, rate: nat): Option<nat> {
    if rate != 0 || size < 16 || |b| < body + 16 then None else RateAt(b, body)
  }

  /** A length in bytes, at a rate in bytes a second. */
  datatype Length = Length(bytes: nat, rate: nat)

  function Seconds(l: Option<Length>): Option<real> {
    if l.None? || l.value.rate == 0 then None else Some((l.value.bytes as real) / (l.value.rate as real))
  }

  /** The loop of `wav_seconds` from `pos`, with the rate found so far (0 for none). */
  function ReadChunks(b: seq<Byte>, pos: nat, rate: nat): Option<Length>
    decreases if pos <= |b| then |b| - pos else 0
  {
    if pos + 8 > |b| then None
    else
      var kind, size, body := b[pos..pos + 4], LittleAt(b, pos + 4, 4), pos + 8;
      var next := body + size + size % 2;
      if kind == FMT then
        var found := FormatRate(b, body, size, rate);
        if found.None? then None else ReadChunks(b, next, found.value)
      else if kind == DATA then
        if rate == 0 then None else Some(Length(|b| - body, rate))
      else ReadChunks(b, next, rate)
  }

  predicate IsWav(b: seq<Byte>) {
    |b| >= 12 && b[..4] == RIFF && b[8..12] == WAVE
  }

  function SecondsOf(b: seq<Byte>): Option<real> {
    Seconds(if IsWav(b) then ReadChunks(b, 12, 0) else None)
  }

  /** `wav_seconds`: a written file's length is its sound's bytes over the bytes a second of its format. */
  method WavSeconds(b: seq<Byte>) returns (r: Option<real>)
    ensures r == SecondsOf(b)
    ensures forall f :: WellWritten(f) && b == Written(f) ==> IsLengthOf(r, f)
  {
    forall f | WellWritten(f) && b == Written(f) ensures IsLengthOf(SecondsOf(b), f) {
      FileIsRead(b, f);
    }
    if !IsWav(b) {
      return None;
    }
    var pos, rate := 12, 0;
    while pos + 8 <= |b|
      invariant ReadChunks(b, 12, 0) == ReadChunks(b, pos, rate)
      decreases |b| - pos
    {
      var kind, size, body := b[pos..pos + 4], LittleAt(b, pos + 4, 4), pos + 8;
      if kind == FMT {
        var found := FormatRate(b, body, size, rate);
        if found.None? {
          return None;
        }
        rate := found.value;
      } else if kind == DATA {
        return Seconds(if rate == 0 then None else Some(Length(|b| - body, rate)));
      }
      pos := body + size + size % 2;
    }
    r := None;
  }

  // --- the specification: chunks as they are written ---

  /** A chunk, and the byte that pads an odd body. */
  datatype Chunk = Chunk(kind: seq<Byte>, body: seq<Byte>, pad: Byte)

  predicate Writable(c: Chunk) {
    |c.kind| == 4 && |c.body| < Base(4)
  }

  function Header(kind: seq<Byte>, size: nat): seq<Byte> {
    kind + ToLittle(size, 4)
  }

  function Padded(c: Chunk): seq<Byte> {
    c.body + if |c.body| % 2 == 1 then [c.pad] else []
  }

  function Encode(c: Chunk): seq<Byte> {
    Header(c.kind, |c.body|) + Padded(c)
  }

  function EncodeAll(cs: seq<Chunk>): seq<Byte> {
    if cs == [] then [] else Encode(cs[0]) + EncodeAll(cs[1..])
  }

  /** What the chunks before the sound say: None if the file is refused, else the rate (0 for none). */
  function RateOf(cs: seq<Chunk>, rate: nat): Option<nat>
    decreases |cs|
  {
    if cs == [] then Some(rate)
    else
      var after := RateAfter(cs[0].kind, cs[0].body, rate);
      if after.None? then None else RateOf(cs[1..], after.value)
  }

  lemma SameRate(b: seq<Byte>, pos: nat, body: seq<Byte>)
    requires Holds(b, pos, body) && |body| >= 16
    ensures RateAt(b, pos) == RateAt(body, 0)
  {
    SamePart(b, pos, body, 2, 2);
    SamePart(b, pos, body, 4, 4);
    SamePart(b, pos, body, 8, 4);
    SamePart(b, pos, body, 14, 2);
  }

  lemma SamePart(b: seq<Byte>, pos: nat, body: seq<Byte>, at: nat, n: nat)
    requires Holds(b, pos, body) && at + n <= |body|
    ensures LittleAt(b, pos + at, n) == LittleAt(body, at, n)
  {
    var whole, x, y := b[pos..pos + |body|], b[pos + at..pos + at + n], body[at..at + n];
    forall i | 0 <= i < n ensures x[i] == y[i] {
      assert x[i] == whole[at + i];
    }
    assert x == y;
    SameLittle(b, pos + at, body, at, n);
  }

  lemma HeaderIsRead(b: seq<Byte>, pos: nat, kind: seq<Byte>, size: nat)
    requires |kind| == 4 && size < Base(4) && Holds(b, pos, Header(kind, size))
    ensures pos + 8 <= |b| && b[pos..pos + 4] == kind && LittleAt(b, pos + 4, 4) == size
  {
    HoldsBoth(b, pos, kind, ToLittle(size, 4));
    LittleOfBytes(b, pos + 4, size, 4);
  }

  /** The rate after a chunk that is not the sound, or None if the file is refused. */
  function RateAfter(kind: seq<Byte>, body: seq<Byte>, rate: nat): Option<nat> {
    if kind != FMT then Some(rate)
    else if rate != 0 || |body| < 16 then None
    else RateAt(body, 0)
  }

  function ReadFrom(b: seq<Byte>, pos: nat, rate: Option<nat>): Option<Length> {
    if rate.None? then None else ReadChunks(b, pos, rate.value)
  }

  /** One turn of the loop. */
  lemma TurnIs(b: seq<Byte>, pos: nat, kind: seq<Byte>, body: seq<Byte>, rate: nat)
    requires pos + 8 + |body| <= |b| && b[pos..pos + 4] == kind != DATA && LittleAt(b, pos + 4, 4) == |body|
    requires |body| >= 16 ==> RateAt(b, pos + 8) == RateAt(body, 0)
    ensures ReadChunks(b, pos, rate) == ReadFrom(b, pos + 8 + |body| + |body| % 2, RateAfter(kind, body, rate))
  {
  }

  lemma ChunkStands(b: seq<Byte>, pos: nat, c: Chunk)
    requires Writable(c) && Holds(b, pos, Encode(c))
    ensures |Encode(c)| == 8 + |c.body| + |c.body| % 2 && pos + 8 + |c.body| <= |b|
    ensures b[pos..pos + 4] == c.kind && LittleAt(b, pos + 4, 4) == |c.body| && Holds(b, pos + 8, c.body)
  {
    HoldsBoth(b, pos, Header(c.kind, |c.body|), Padded(c));
    HeaderIsRead(b, pos, c.kind, |c.body|);
    HoldsBoth(b, pos + 8, c.body, if |c.body| % 2 == 1 then [c.pad] else []);
  }

  lemma ChunkIsRead(b: seq<Byte>, pos: nat, c: Chunk, size: nat, rate: nat)
    requires c.kind != DATA && pos + 8 + |c.body| <= |b| && size == 8 + |c.body| + |c.body| % 2
    requires b[pos..pos + 4] == c.kind && LittleAt(b, pos + 4, 4) == |c.body| && Holds(b, pos + 8, c.body)
    ensures ReadChunks(b, pos, rate) == ReadFrom(b, pos + size, RateAfter(c.kind, c.body, rate))
  {
    if |c.body| >= 16 {
      SameRate(b, pos + 8, c.body);
    }
    TurnIs(b, pos, c.kind, c.body, rate);
  }

  lemma FirstIsRead(b: seq<Byte>, pos: nat, c: Chunk, rest: seq<Chunk>, rate: nat)
    requires Writable(c) && c.kind != DATA && Holds(b, pos, Encode(c) + EncodeAll(rest))
    ensures ReadChunks(b, pos, rate) == ReadFrom(b, pos + |Encode(c)|, RateAfter(c.kind, c.body, rate))
    ensures Holds(b, pos + |Encode(c)|, EncodeAll(rest))
  {
    HoldsBoth(b, pos, Encode(c), EncodeAll(rest));
    ChunkStands(b, pos, c);
    ChunkIsRead(b, pos, c, |Encode(c)|, rate);
  }

  lemma {:induction false} ChunksAreRead(b: seq<Byte>, pos: nat, cs: seq<Chunk>, rate: nat)
    requires (forall c :: c in cs ==> Writable(c) && c.kind != DATA) && Holds(b, pos, EncodeAll(cs))
    ensures ReadChunks(b, pos, rate) == ReadFrom(b, pos + |EncodeAll(cs)|, RateOf(cs, rate))
    decreases |cs|
  {
    if cs == [] {
      assert EncodeAll(cs) == [];
    } else {
      var c, rest := cs[0], cs[1..];
      var next := pos + |Encode(c)|;
      assert EncodeAll(cs) == Encode(c) + EncodeAll(rest);
      FirstIsRead(b, pos, c, rest, rate);
      var after := RateAfter(c.kind, c.body, rate);
      if after.Some? {
        ChunksAreRead(b, next, rest, after.value);
      }
    }
  }

  lemma SoundIsRead(b: seq<Byte>, at: nat, rate: nat, sound: seq<Byte>)
    requires at + 8 <= |b| && b[at..at + 4] == DATA && |b| == at + 8 + |sound|
    ensures ReadChunks(b, at, rate) == if rate == 0 then None else Some(Length(|sound|, rate))
  {
  }

  /** A WAV's length is everything after the start of its sound data, trailing chunks included, at the rate its one
  format chunk gives; without one before the sound, or with two, or one whose stated rate disagrees, it has none. */
  lemma WavRoundTrip(b: seq<Byte>, size: seq<Byte>, before: seq<Chunk>, stated: nat, sound: seq<Byte>)
    requires |size| == 4 && stated < Base(4) && (forall c :: c in before ==> Writable(c) && c.kind != DATA)
    requires b == RIFF + size + WAVE + (EncodeAll(before) + (Header(DATA, stated) + sound))
    ensures IsWav(b)
    ensures ReadChunks(b, 12, 0)
         == (if RateOf(before, 0).None? || RateOf(before, 0).value == 0 then None
             else Some(Length(|sound|, RateOf(before, 0).value)))
  {
    var at := WavStands(b, size, before, stated, sound);
    ChunksAreRead(b, 12, before, 0);
    if RateOf(before, 0).Some? {
      SoundIsRead(b, at, RateOf(before, 0).value, sound);
    }
  }

  lemma WavStands(b: seq<Byte>, size: seq<Byte>, before: seq<Chunk>, stated: nat, sound: seq<Byte>) returns (at: nat)
    requires |size| == 4 && stated < Base(4)
    requires b == RIFF + size + WAVE + (EncodeAll(before) + (Header(DATA, stated) + sound))
    ensures IsWav(b) && Holds(b, 12, EncodeAll(before)) && at == 12 + |EncodeAll(before)|
    ensures at + 8 <= |b| && b[at..at + 4] == DATA && |b| == at + 8 + |sound|
  {
    var rest := Header(DATA, stated) + sound;
    at := 12 + |EncodeAll(before)|;
    assert Holds(b, 12, EncodeAll(before) + rest);
    HoldsBoth(b, 12, EncodeAll(before), rest);
    HoldsBoth(b, at, Header(DATA, stated), sound);
    HeaderIsRead(b, at, DATA, stated);
  }

  // --- a format chunk, and a file, field by field ---

  /** A format chunk's body: the encoding, channels, samples a second, bytes a second, bytes a sample of all channels
  and bits a sample, and what follows them. */
  datatype Format = Format(code: nat, channels: nat, samples: nat, stated: nat, align: nat, bits: nat,
                           rest: seq<Byte>)

  predicate FormatWritable(f: Format) {
    && f.code < Base(2) && f.channels < Base(2) && f.samples < Base(4)
    && f.stated < Base(4) && f.align < Base(2) && f.bits < Base(2)
  }

  function FormatBytes(f: Format): (b: seq<Byte>)
    ensures |b| >= 16
  {
    ToLittle(f.code, 2) + (ToLittle(f.channels, 2) + (ToLittle(f.samples, 4) + (ToLittle(f.stated, 4)
      + (ToLittle(f.align, 2) + (ToLittle(f.bits, 2) + f.rest)))))
  }

  function BitsASecond(f: Format): nat {
    f.samples * f.channels * f.bits
  }

  /** The whole bytes a second that so many bits are, where that same number is stated and it is not zero. */
  predicate IsRate(rate: Option<nat>, bits: nat, stated: nat) {
    match rate
    case Some(r) => r > 0 && stated == r && 8 * r <= bits < 8 * (r + 1)
    case None => bits < 8 || !(8 * stated <= bits < 8 * (stated + 1))
  }

  predicate IsRateOf(rate: Option<nat>, f: Format) {
    IsRate(rate, BitsASecond(f), f.stated)
  }

  lemma NumberIsRead(b: seq<Byte>, pos: int, value: nat, n: nat)
    requires value < Base(n) && Holds(b, pos, ToLittle(value, n))
    ensures LittleAt(b, pos, n) == value
  {
    LittleOfBytes(b, pos, value, n);
  }

  /** The format's numbers stand where they are looked for. */
  lemma FormatFields(b: seq<Byte>, pos: nat, f: Format)
    requires FormatWritable(f) && Holds(b, pos, FormatBytes(f))
    ensures LittleAt(b, pos + 2, 2) == f.channels && LittleAt(b, pos + 4, 4) == f.samples
    ensures LittleAt(b, pos + 8, 4) == f.stated && LittleAt(b, pos + 14, 2) == f.bits
  {
    var late := ToLittle(f.align, 2) + (ToLittle(f.bits, 2) + f.rest);
    var rates := ToLittle(f.samples, 4) + (ToLittle(f.stated, 4) + late);
    HoldsBoth(b, pos, ToLittle(f.code, 2), ToLittle(f.channels, 2) + rates);
    HoldsBoth(b, pos + 2, ToLittle(f.channels, 2), rates);
    HoldsBoth(b, pos + 4, ToLittle(f.samples, 4), ToLittle(f.stated, 4) + late);
    HoldsBoth(b, pos + 8, ToLittle(f.stated, 4), late);
    HoldsBoth(b, pos + 12, ToLittle(f.align, 2), ToLittle(f.bits, 2) + f.rest);
    HoldsBoth(b, pos + 14, ToLittle(f.bits, 2), f.rest);
    NumberIsRead(b, pos + 2, f.channels, 2);
    NumberIsRead(b, pos + 4, f.samples, 4);
    NumberIsRead(b, pos + 8, f.stated, 4);
    NumberIsRead(b, pos + 14, f.bits, 2);
  }

  lemma AgreedIs(f: Format)
    ensures IsRateOf(AgreedRate(f.samples, f.channels, f.bits, f.stated), f)
  {
    EighthIs(AgreedRate(f.samples, f.channels, f.bits, f.stated), BitsASecond(f), f.stated);
  }

  lemma EighthIs(rate: Option<nat>, bits: nat, stated: nat)
    requires rate == if bits / 8 == 0 || stated != bits / 8 then None else Some(bits / 8)
    ensures IsRate(rate, bits, stated)
  {
  }

  /** A written format gives its rate. */
  lemma FormatIsRead(b: seq<Byte>, pos: nat, f: Format)
    requires FormatWritable(f) && Holds(b, pos, FormatBytes(f))
    ensures IsRateOf(RateAt(b, pos), f)
  {
    FormatFields(b, pos, f);
    AgreedIs(f);
  }

  /** A WAV file: chunks that are neither format nor sound, the format, more such chunks, and the sound, to which
  everything up to the end of the file belongs. */
  datatype File = File(size: seq<Byte>, early: seq<Chunk>, format: Format, pad: Byte, late: seq<Chunk>, stated: nat,
                       sound: seq<Byte>)

  function FormatChunk(f: File): Chunk {
    Chunk(FMT, FormatBytes(f.format), f.pad)
  }

  function Before(f: File): seq<Chunk> {
    f.early + ([FormatChunk(f)] + f.late)
  }

  predicate Others(cs: seq<Chunk>) {
    forall c :: c in cs ==> Writable(c) && c.kind != DATA && c.kind != FMT
  }

  predicate WellWritten(f: File) {
    |f.size| == 4 && f.stated < Base(4) && FormatWritable(f.format) && Writable(FormatChunk(f))
    && Others(f.early) && Others(f.late)
  }

  function Written(f: File): seq<Byte> {
    RIFF + f.size + WAVE + (EncodeAll(Before(f)) + (Header(DATA, f.stated) + f.sound))
  }

  /** The sound's bytes over the format's rate, or none where the format has no rate that it states itself. */
  ghost predicate IsLengthOf(seconds: Option<real>, f: File) {
    exists rate :: IsRateOf(rate, f.format)
      && seconds == if rate.None? then None else Some((|f.sound| as real) / (rate.value as real))
  }

  lemma {:induction false} RateSplits(a: seq<Chunk>, b: seq<Chunk>, rate: nat)
    ensures RateOf(a + b, rate) == if RateOf(a, rate).None? then None else RateOf(b, RateOf(a, rate).value)
    decreases |a|
  {
    if a == [] {
      assert a + b == b;
    } else {
      assert (a + b)[1..] == a[1..] + b;
      var after := RateAfter(a[0].kind, a[0].body, rate);
      if after.Some? {
        RateSplits(a[1..], b, after.value);
      }
    }
  }

  lemma {:induction false} OthersKeepRate(cs: seq<Chunk>, rate: nat)
    requires Others(cs)
    ensures RateOf(cs, rate) == Some(rate)
    decreases |cs|
  {
    if cs != [] {
      assert cs[0] in cs;
      OthersKeepRate(cs[1..], rate);
    }
  }

  lemma OneChunk(c: Chunk, rate: nat)
    ensures RateOf([c], rate) == RateAfter(c.kind, c.body, rate)
  {
    assert [c][1..] == [];
  }

  /** Of two format chunks the second refuses the file, and so does one too short to be a format. */
  lemma FormatsDecide(early: seq<Chunk>, format: Chunk, late: seq<Chunk>)
    requires format.kind == FMT && Others(early)
    ensures |format.body| < 16 ==> RateOf(early + ([format] + late), 0) == None
    ensures Others(late) && |format.body| >= 16 ==> RateOf(early + ([format] + late), 0) == RateAt(format.body, 0)
    ensures !Others(late) && (forall c :: c in late ==> Writable(c) && c.kind != DATA) ==>
      RateOf(early + ([format] + late), 0) == None
  {
    RateSplits(early, [format] + late, 0);
    OthersKeepRate(early, 0);
    RateSplits([format], late, 0);
    OneChunk(format, 0);
    var after := RateOf([format], 0);
    if after.Some? && Others(late) {
      OthersKeepRate(late, after.value);
    } else if after.Some? && forall c :: c in late ==> Writable(c) && c.kind != DATA {
      SecondFormatRefuses(late, after.value);
    }
  }

  lemma {:induction false} SecondFormatRefuses(cs: seq<Chunk>, rate: nat)
    requires !Others(cs) && (forall c :: c in cs ==> Writable(c) && c.kind != DATA) && rate > 0
    ensures RateOf(cs, rate) == None
    decreases |cs|
  {
    assert cs[0] in cs;
    if cs[0].kind != FMT {
      assert forall c :: c in cs <==> c == cs[0] || c in cs[1..];
      SecondFormatRefuses(cs[1..], rate);
    }
  }

  /** A written file has the length its format and its sound give. */
  lemma FileIsRead(b: seq<Byte>, f: File)
    requires WellWritten(f) && b == Written(f)
    ensures IsLengthOf(SecondsOf(b), f)
  {
    WavRoundTrip(b, f.size, Before(f), f.stated, f.sound);
    FormatsDecide(f.early, FormatChunk(f), f.late);
    FormatIsRead(FormatBytes(f.format), 0, f.format);
    assert IsRateOf(RateOf(Before(f), 0), f.format);
  }

  /** A file that ends before any sound has no length, whatever its chunks say. */
  lemma NoSoundNoLength(b: seq<Byte>, before: seq<Chunk>, tail: seq<Byte>)
    requires (forall c :: c in before ==> Writable(c) && c.kind != DATA) && |tail| < 8
    requires IsWav(b) && b[12..] == EncodeAll(before) + tail
    ensures ReadChunks(b, 12, 0) == None
  {
    assert b[12..12 + |EncodeAll(before) + tail|] == b[12..];
    HoldsBoth(b, 12, EncodeAll(before), tail);
    ChunksAreRead(b, 12, before, 0);
  }
}
