/** Where a feature's time went (backend/readmodel/timing.py). Times are whole microseconds, the finest the
record holds, so a length of time is a number of instants. */
module Timing {
  import opened Basics

  datatype Period =
    | Planning | Building | MergeCheck | InQueue | Approvals | MergeDecision | MissionMerge | NotPlaced

  type Placed = p: Period | p != NotPlaced witness InQueue

  datatype Kind = Machine | Wait | Between

  const ORDER: seq<Period> :=
    [Planning, Building, MergeCheck, InQueue, Approvals, MergeDecision, MissionMerge, NotPlaced]

  function KindOf(p: Period): Kind {
    match p
    case Planning | Building | MergeCheck => Machine
    case InQueue | Approvals | MergeDecision | MissionMerge => Wait
    case NotPlaced => Between
  }

  datatype Span = Span(period: Placed, start: int, end: Option<int>, open: bool)

  // --- what the breakdown means ---

  predicate Covers(s: Span, t: int) {
    s.start <= t && (s.end.Some? ==> t < s.end.value)
  }

  predicate Covered(spans: seq<Span>, p: Period, t: int) {
    exists s :: s in spans && s.period == p && Covers(s, t)
  }

  /** The one period an instant is counted under: the first of these, in the order of precedence, to cover it. */
  function PeriodAt(spans: seq<Span>, t: int): Period {
    if Covered(spans, Approvals, t) then Approvals
    else if Covered(spans, MergeDecision, t) then MergeDecision
    else if Covered(spans, MergeCheck, t) then MergeCheck
    else if Covered(spans, Building, t) then Building
    else if Covered(spans, Planning, t) then Planning
    else if Covered(spans, InQueue, t) then InQueue
    else if Covered(spans, MissionMerge, t) then MissionMerge
    else NotPlaced
  }

  ghost function Instants(lo: int, hi: int): (r: set<int>)
    ensures forall t :: t in r <==> lo <= t < hi
    ensures |r| == Max(hi - lo, 0)
    decreases hi - lo
  {
    if lo >= hi then {} else {lo} + Instants(lo + 1, hi)
  }

  ghost function InstantsOf(spans: seq<Span>, p: Period, lo: int, hi: int): set<int> {
    set t | lo <= t < hi && PeriodAt(spans, t) == p
  }

  /** How many instants of [lo, hi) are counted under a period. */
  ghost function Measure(spans: seq<Span>, p: Period, lo: int, hi: int): nat {
    |InstantsOf(spans, p, lo, hi)|
  }

  // --- the sweep ---

  datatype Piece = Piece(period: Placed, start: int, end: int)

  function Clip(s: Span, lo: int, hi: int): Piece {
    Piece(s.period, Max(s.start, lo), Min(if s.end.Some? then s.end.value else hi, hi))
  }

  ghost predicate Increasing(cuts: seq<int>) {
    forall i, j :: 0 <= i < j < |cuts| ==> cuts[i] < cuts[j]
  }

  /** How many points come before `x`. */
  function Below(cuts: seq<int>, x: int): (k: nat)
    requires Increasing(cuts)
    ensures k <= |cuts|
    ensures forall i :: 0 <= i < k ==> cuts[i] < x
    ensures forall i :: k <= i < |cuts| ==> cuts[i] >= x
  {
    if cuts == [] then 0
    else if cuts[|cuts| - 1] < x then |cuts|
    else Below(cuts[..|cuts| - 1], x)
  }

  /** A point put in its place among the others, once: how a set of points is kept sorted. */
  method Insert(cuts: seq<int>, x: int) returns (r: seq<int>)
    requires Increasing(cuts)
    ensures Increasing(r) && forall y :: y in r <==> y in cuts || y == x
  {
    var k := Below(cuts, x);
    if k < |cuts| && cuts[k] == x {
      return cuts;
    }
    assert cuts == cuts[..k] + cuts[k..];
    return cuts[..k] + [x] + cuts[k..];
  }

  function Rank(p: Period): nat {
    match p
    case Approvals => 0
    case MergeDecision => 1
    case MergeCheck => 2
    case Building => 3
    case Planning => 4
    case InQueue => 5
    case MissionMerge => 6
    case NotPlaced => 7
  }

  /** The period covering all of [a, z) that comes first in PRECEDENCE. */
  method Classify(clipped: seq<Piece>, a: int, z: int) returns (best: Period)
    ensures best.NotPlaced? || exists c :: c in clipped && c.period == best && c.start <= a && c.end >= z
    ensures forall c :: c in clipped && c.start <= a && c.end >= z ==> Rank(best) <= Rank(c.period)
  {
    best := NotPlaced;
    for i := 0 to |clipped|
      invariant best.NotPlaced? || exists c :: c in clipped && c.period == best && c.start <= a && c.end >= z
      invariant forall c :: c in clipped[..i] && c.start <= a && c.end >= z ==> Rank(best) <= Rank(c.period)
    {
      var c := clipped[i];
      if c.start <= a && c.end >= z && Rank(c.period) < Rank(best) {
        best := c.period;
      }
    }
    assert clipped[..|clipped|] == clipped;
  }

  lemma PeriodAtIs(spans: seq<Span>, t: int, p: Period)
    requires p.NotPlaced? || Covered(spans, p, t)
    requires forall q: Placed :: Covered(spans, q, t) ==> Rank(p) <= Rank(q)
    ensures PeriodAt(spans, t) == p
  {
  }

  // --- the measure ---

  /** Windows put end to end: the parts add up. */
  lemma MeasureSplits(spans: seq<Span>, p: Period, lo: int, mid: int, hi: int)
    requires lo <= mid <= hi
    ensures Measure(spans, p, lo, hi) == Measure(spans, p, lo, mid) + Measure(spans, p, mid, hi)
  {
    var left, right := InstantsOf(spans, p, lo, mid), InstantsOf(spans, p, mid, hi);
    assert InstantsOf(spans, p, lo, hi) == left + right;
    assert left !! right;
  }

  /** A window counted under one period throughout. */
  lemma MeasureConstant(spans: seq<Span>, p: Period, q: Period, lo: int, hi: int)
    requires lo <= hi && forall t :: lo <= t < hi ==> PeriodAt(spans, t) == q
    ensures Measure(spans, p, lo, hi) == if p == q then hi - lo else 0
  {
    if p == q {
      assert InstantsOf(spans, p, lo, hi) == Instants(lo, hi);
    } else {
      assert InstantsOf(spans, p, lo, hi) == {};
    }
  }

  ghost function InstantsOfAny(spans: seq<Span>, ps: seq<Period>, lo: int, hi: int): set<int> {
    set t | lo <= t < hi && PeriodAt(spans, t) in ps
  }

  /** The measures of some periods, added up. */
  ghost function SumOfMeasures(spans: seq<Span>, ps: seq<Period>, lo: int, hi: int): nat {
    if ps == [] then 0
    else SumOfMeasures(spans, ps[..|ps| - 1], lo, hi) + Measure(spans, ps[|ps| - 1], lo, hi)
  }

  lemma {:induction false} DifferentPeriodsAddUp(spans: seq<Span>, ps: seq<Period>, lo: int, hi: int)
    requires forall i, j :: 0 <= i < j < |ps| ==> ps[i] != ps[j]
    ensures SumOfMeasures(spans, ps, lo, hi) == |InstantsOfAny(spans, ps, lo, hi)|
  {
    if ps == [] {
      assert InstantsOfAny(spans, ps, lo, hi) == {};
    } else {
      var n := |ps| - 1;
      DifferentPeriodsAddUp(spans, ps[..n], lo, hi);
      var rest, last := InstantsOfAny(spans, ps[..n], lo, hi), InstantsOf(spans, ps[n], lo, hi);
      assert ps == ps[..n] + [ps[n]];
      assert InstantsOfAny(spans, ps, lo, hi) == rest + last;
      assert rest !! last;
    }
  }

  lemma EveryPeriodIsOrdered()
    ensures forall p: Period :: p in ORDER
  {
    forall p: Period ensures p in ORDER {
      match p
      case Planning => assert ORDER[0] == p;
      case Building => assert ORDER[1] == p;
      case MergeCheck => assert ORDER[2] == p;
      case InQueue => assert ORDER[3] == p;
      case Approvals => assert ORDER[4] == p;
      case MergeDecision => assert ORDER[5] == p;
      case MissionMerge => assert ORDER[6] == p;
      case NotPlaced => assert ORDER[7] == p;
    }
  }

  /** Every moment is counted once: the parts make up the whole window. */
  lemma MeasuresAddUp(spans: seq<Span>, lo: int, hi: int)
    requires lo <= hi
    ensures SumOfMeasures(spans, ORDER, lo, hi) == hi - lo
  {
    DifferentPeriodsAddUp(spans, ORDER, lo, hi);
    EveryPeriodIsOrdered();
    assert InstantsOfAny(spans, ORDER, lo, hi) == Instants(lo, hi);
  }

  /** Only which spans there are matters, not their order or repetition. */
  lemma OrderDoesNotMatter(a: seq<Span>, b: seq<Span>, p: Period, lo: int, hi: int)
    requires forall s :: s in a <==> s in b
    ensures Measure(a, p, lo, hi) == Measure(b, p, lo, hi)
  {
    assert forall t :: PeriodAt(a, t) == PeriodAt(b, t);
    assert InstantsOf(a, p, lo, hi) == InstantsOf(b, p, lo, hi);
  }

  lemma Fewer(a: set<int>, b: set<int>)
    requires a <= b
    ensures |a| <= |b|
  {
    assert b == a + (b - a);
  }

  /** One more span never takes time from its own period, and never gives any to another. */
  lemma OneMoreSpan(spans: seq<Span>, s: Span, p: Period, lo: int, hi: int)
    ensures p == s.period ==> Measure(spans + [s], p, lo, hi) >= Measure(spans, p, lo, hi)
    ensures p != s.period ==> Measure(spans + [s], p, lo, hi) <= Measure(spans, p, lo, hi)
  {
    forall t ensures PeriodAt(spans + [s], t) in {PeriodAt(spans, t), s.period} {
      OneMoreCovers(spans, s, t);
    }
    if p == s.period {
      Fewer(InstantsOf(spans, p, lo, hi), InstantsOf(spans + [s], p, lo, hi));
    } else {
      Fewer(InstantsOf(spans + [s], p, lo, hi), InstantsOf(spans, p, lo, hi));
    }
  }

  lemma OneMoreCovers(spans: seq<Span>, s: Span, t: int)
    ensures forall q: Period :: Covered(spans + [s], q, t) <==> Covered(spans, q, t) || (q == s.period && Covers(s, t))
  {
    assert forall x :: x in spans + [s] <==> x in spans || x == s;
  }

  // --- the sweep meets its specification ---

  /** No cut lies strictly between these two. */
  ghost predicate Uncut(clipped: seq<Piece>, a: int, z: int) {
    forall c :: c in clipped ==> (c.start <= a || c.start >= z) && (c.end <= a || c.end >= z)
  }

  ghost predicate ClippedFrom(clipped: seq<Piece>, spans: seq<Span>, lo: int, hi: int) {
    forall c :: c in clipped <==> exists s :: s in spans && c == Clip(s, lo, hi) && c.end > c.start
  }

  /** A span covers an instant of an uncut piece exactly when its clipped form covers the piece. */
  lemma CoversPiece(clipped: seq<Piece>, spans: seq<Span>, lo: int, hi: int, a: int, z: int, t: int, p: Placed)
    requires ClippedFrom(clipped, spans, lo, hi) && Uncut(clipped, a, z) && lo <= a <= t < z <= hi
    ensures Covered(spans, p, t) <==> exists c :: c in clipped && c.period == p && c.start <= a && c.end >= z
  {
    if Covered(spans, p, t) {
      var s :| s in spans && s.period == p && Covers(s, t);
      assert Clip(s, lo, hi) in clipped;
    }
    if exists c :: c in clipped && c.period == p && c.start <= a && c.end >= z {
      var c :| c in clipped && c.period == p && c.start <= a && c.end >= z;
      var s :| s in spans && c == Clip(s, lo, hi) && c.end > c.start;
      assert Covers(s, t);
    }
  }

  lemma ClassifiedIs(clipped: seq<Piece>, spans: seq<Span>, lo: int, hi: int, a: int, z: int, best: Period)
    requires ClippedFrom(clipped, spans, lo, hi) && Uncut(clipped, a, z) && lo <= a <= z <= hi
    requires best.NotPlaced? || exists c :: c in clipped && c.period == best && c.start <= a && c.end >= z
    requires forall c :: c in clipped && c.start <= a && c.end >= z ==> Rank(best) <= Rank(c.period)
    ensures forall t :: a <= t < z ==> PeriodAt(spans, t) == best
  {
    forall t | a <= t < z ensures PeriodAt(spans, t) == best {
      forall q: Placed | Covered(spans, q, t) ensures Rank(best) <= Rank(q) {
        CoversPiece(clipped, spans, lo, hi, a, z, t, q);
      }
      if !best.NotPlaced? {
        CoversPiece(clipped, spans, lo, hi, a, z, t, best);
      }
      PeriodAtIs(spans, t, best);
    }
  }

  method ClipAll(spans: seq<Span>, lo: int, hi: int) returns (clipped: seq<Piece>)
    ensures ClippedFrom(clipped, spans, lo, hi)
    ensures forall c :: c in clipped ==> lo <= c.start < c.end <= hi
  {
    clipped := [];
    for i := 0 to |spans|
      invariant ClippedFrom(clipped, spans[..i], lo, hi)
    {
      assert spans[..i + 1] == spans[..i] + [spans[i]];
      var c := Clip(spans[i], lo, hi);
      if c.end > c.start {
        clipped := clipped + [c];
      }
    }
    assert spans[..|spans|] == spans;
  }

  predicate Cut(cuts: seq<int>, c: Piece) {
    c.start in cuts && c.end in cuts
  }

  method Cuts(clipped: seq<Piece>, lo: int, hi: int) returns (cuts: seq<int>)
    requires lo <= hi
    requires forall c :: c in clipped ==> lo <= c.start < c.end <= hi
    ensures Increasing(cuts) && |cuts| > 0 && cuts[0] == lo && cuts[|cuts| - 1] == hi
    ensures forall c :: c in clipped ==> Cut(cuts, c)
  {
    cuts := Insert([], lo);
    cuts := Insert(cuts, hi);
    for i := 0 to |clipped|
      invariant Increasing(cuts) && lo in cuts && hi in cuts
      invariant forall x :: x in cuts ==> lo <= x <= hi
      invariant forall j :: 0 <= j < i ==> Cut(cuts, clipped[j])
    {
      var c := clipped[i];
      assert c in clipped;
      cuts := Insert(cuts, c.start);
      cuts := Insert(cuts, c.end);
    }
    EndsOf(cuts, lo, hi);
  }

  lemma EndsOf(cuts: seq<int>, lo: int, hi: int)
    requires Increasing(cuts) && lo in cuts && hi in cuts && forall x :: x in cuts ==> lo <= x <= hi
    ensures cuts[0] == lo && cuts[|cuts| - 1] == hi
  {
    assert cuts[0] in cuts && cuts[|cuts| - 1] in cuts;
  }

  lemma NeighboursAreUncut(clipped: seq<Piece>, cuts: seq<int>, i: nat)
    requires Increasing(cuts) && i + 1 < |cuts|
    requires forall c :: c in clipped ==> Cut(cuts, c)
    ensures Uncut(clipped, cuts[i], cuts[i + 1])
  {
    forall x | x in cuts ensures x <= cuts[i] || x >= cuts[i + 1] {
      var k :| 0 <= k < |cuts| && cuts[k] == x;
    }
  }

  /** The sweep gives each period exactly the instants that are counted under it. */
  method Sweep(spans: seq<Span>, lo: int, hi: int) returns (secs: map<Period, int>)
    requires lo <= hi
    ensures forall p :: p in secs && secs[p] == Measure(spans, p, lo, hi)
  {
    var clipped := ClipAll(spans, lo, hi);
    var cuts := Cuts(clipped, lo, hi);
    EveryPeriodIsOrdered();
    secs := map p | p in ORDER :: 0;
    forall p ensures Measure(spans, p, lo, lo) == 0 {
      MeasureConstant(spans, p, NotPlaced, lo, lo);
    }
    for i := 0 to |cuts| - 1
      invariant forall p :: p in secs && secs[p] == Measure(spans, p, lo, cuts[i])
    {
      var a, z := cuts[i], cuts[i + 1];
      assert lo <= a <= z <= hi;
      var key := Classify(clipped, a, z);
      NeighboursAreUncut(clipped, cuts, i);
      ClassifiedIs(clipped, spans, lo, hi, a, z, key);
      forall p ensures Measure(spans, p, lo, z) == Measure(spans, p, lo, a) + if p == key then z - a else 0 {
        MeasureSplits(spans, p, lo, a, z);
        MeasureConstant(spans, p, key, a, z);
      }
      secs := secs[key := secs[key] + (z - a)];
    }
  }

  // --- a feature's breakdown ---

  datatype Part = Part(period: Period, seconds: int, open: bool)

  /** Why a feature's time is not measured: a build closed in a clean-up, so many days after its last recorded step. */
  datatype CleanUp = CleanUp(closed: int, days: int)

  datatype FeatureTime = FeatureTime(elapsed: int, soFar: bool, parts: seq<Part>, unmeasured: Option<CleanUp>) {
    /** The time of one kind. */
    function Total(kind: Kind): int {
      TotalOf(parts, kind)
    }
  }

  function TotalOf(parts: seq<Part>, kind: Kind): int {
    if parts == [] then 0
    else
      var last := parts[|parts| - 1];
      TotalOf(parts[..|parts| - 1], kind) + if KindOf(last.period) == kind then last.seconds else 0
  }

  function AllTotals(parts: seq<Part>): int {
    TotalOf(parts, Machine) + TotalOf(parts, Wait) + TotalOf(parts, Between)
  }

  /** The periods a machine works in, those in which a person or a queue is waited for, and the rest. */
  function PeriodsOf(kind: Kind): set<Period> {
    match kind
    case Machine => {Planning, Building, MergeCheck}
    case Wait => {InQueue, Approvals, MergeDecision, MissionMerge}
    case Between => {NotPlaced}
  }

  ghost function InstantsAmong(spans: seq<Span>, ps: seq<Period>, kept: set<Period>, lo: int, hi: int): set<int> {
    set t | lo <= t < hi && PeriodAt(spans, t) in ps && PeriodAt(spans, t) in kept
  }

  /** How many instants of [lo, hi) are counted under any of these periods. */
  ghost function TimeIn(spans: seq<Span>, kept: set<Period>, lo: int, hi: int): nat {
    |InstantsAmong(spans, ORDER, kept, lo, hi)|
  }

  lemma OneMorePeriod(spans: seq<Span>, ps: seq<Period>, p: Period, kept: set<Period>, lo: int, hi: int)
    requires p !in ps
    ensures |InstantsAmong(spans, ps + [p], kept, lo, hi)|
         == |InstantsAmong(spans, ps, kept, lo, hi)| + if p in kept then Measure(spans, p, lo, hi) else 0
  {
    var before, own := InstantsAmong(spans, ps, kept, lo, hi), InstantsOf(spans, p, lo, hi);
    assert forall q :: q in ps + [p] <==> q in ps || q == p;
    if p in kept {
      assert InstantsAmong(spans, ps + [p], kept, lo, hi) == before + own;
      assert before !! own;
    } else {
      assert InstantsAmong(spans, ps + [p], kept, lo, hi) == before;
    }
  }

  /** The parts' times of each kind are the instants counted under its periods, of those in `done`. */
  ghost predicate KindsAddUp(parts: seq<Part>, spans: seq<Span>, done: seq<Period>, lo: int, hi: int) {
    forall kind :: TotalOf(parts, kind) == |InstantsAmong(spans, done, PeriodsOf(kind), lo, hi)|
  }

  lemma NextKindsAddUp(parts: seq<Part>, next: seq<Part>, part: Part, spans: seq<Span>, done: seq<Period>,
                       lo: int, hi: int)
    requires part.period !in done && part.seconds == Measure(spans, part.period, lo, hi)
    requires next == parts + [part] || (next == parts && part.seconds == 0)
    requires KindsAddUp(parts, spans, done, lo, hi)
    ensures KindsAddUp(next, spans, done + [part.period], lo, hi)
  {
    assert (parts + [part])[..|parts|] == parts;
    forall kind ensures TotalOf(next, kind) == |InstantsAmong(spans, done + [part.period], PeriodsOf(kind), lo, hi)| {
      OneMorePeriod(spans, done, part.period, PeriodsOf(kind), lo, hi);
    }
  }

  predicate StillOpen(spans: seq<Span>, p: Period) {
    exists s :: s in spans && s.period == p && s.open
  }

  predicate Mentions(parts: seq<Part>, p: Period) {
    exists part :: part in parts && part.period == p
  }

  ghost predicate Measured(parts: seq<Part>, spans: seq<Span>, lo: int, hi: int) {
    forall part :: part in parts ==>
      part.seconds == Measure(spans, part.period, lo, hi) && part.open == StillOpen(spans, part.period)
  }

  lemma OneMorePart(parts: seq<Part>, part: Part)
    ensures AllTotals(parts + [part]) == AllTotals(parts) + part.seconds
    ensures forall p :: Mentions(parts + [part], p) <==> Mentions(parts, p) || p == part.period
  {
    assert (parts + [part])[..|parts|] == parts;
    assert forall x :: x in parts + [part] <==> x in parts || x == part;
    assert part in parts + [part];
  }

  predicate Worth(spans: seq<Span>, secs: map<Period, int>, p: Period)
    requires p in secs
  {
    secs[p] > 0 || StillOpen(spans, p)
  }

  /** The parts mention those of the periods `done` that are worth showing. */
  ghost predicate Shown(parts: seq<Part>, spans: seq<Span>, secs: map<Period, int>, done: seq<Period>)
    requires forall p :: p in secs
  {
    forall p :: Mentions(parts, p) <==> p in done && Worth(spans, secs, p)
  }

  lemma NextIsShown(parts: seq<Part>, next: seq<Part>, part: Part, spans: seq<Span>, secs: map<Period, int>,
                    done: seq<Period>)
    requires (forall p :: p in secs) && Shown(parts, spans, secs, done)
    requires next == if Worth(spans, secs, part.period) then parts + [part] else parts
    ensures Shown(next, spans, secs, done + [part.period])
  {
    OneMorePart(parts, part);
  }

  lemma NextAddsUp(parts: seq<Part>, next: seq<Part>, part: Part, spans: seq<Span>, done: seq<Period>, lo: int, hi: int)
    requires part.seconds == Measure(spans, part.period, lo, hi)
    requires next == parts + [part] || (next == parts && part.seconds == 0)
    requires AllTotals(parts) == SumOfMeasures(spans, done, lo, hi)
    ensures AllTotals(next) == SumOfMeasures(spans, done + [part.period], lo, hi)
  {
    OneMorePart(parts, part);
    assert (done + [part.period])[..|done|] == done;
  }

  /** Where a period stands in the list. */
  function Place(p: Period): (i: nat)
    ensures i < |ORDER| && ORDER[i] == p
  {
    match p
    case Planning => 0
    case Building => 1
    case MergeCheck => 2
    case InQueue => 3
    case Approvals => 4
    case MergeDecision => 5
    case MissionMerge => 6
    case NotPlaced => 7
  }

  predicate InTheirOrder(parts: seq<Part>) {
    forall i, j :: 0 <= i < j < |parts| ==> Place(parts[i].period) < Place(parts[j].period)
  }

  predicate AllBefore(parts: seq<Part>, i: nat) {
    forall part :: part in parts ==> Place(part.period) < i
  }

  /** The parts are those of the first `i` periods: which they are, and what they add up to. */
  ghost predicate Gathered(parts: seq<Part>, spans: seq<Span>, secs: map<Period, int>, i: nat, lo: int, hi: int)
    requires (forall p :: p in secs) && i <= |ORDER|
  {
    && AllTotals(parts) == SumOfMeasures(spans, ORDER[..i], lo, hi) && KindsAddUp(parts, spans, ORDER[..i], lo, hi)
    && Measured(parts, spans, lo, hi) && Shown(parts, spans, secs, ORDER[..i])
    && InTheirOrder(parts) && AllBefore(parts, i)
  }

  lemma NextInOrder(parts: seq<Part>, part: Part, i: nat)
    requires InTheirOrder(parts) && AllBefore(parts, i) && Place(part.period) == i
    ensures InTheirOrder(parts + [part]) && AllBefore(parts + [part], i + 1) && AllBefore(parts, i + 1)
  {
    forall k | 0 <= k < |parts| ensures Place(parts[k].period) < i {
      assert parts[k] in parts;
    }
  }

  lemma PlaceIs(i: nat)
    requires i < |ORDER|
    ensures Place(ORDER[i]) == i && ORDER[i] !in ORDER[..i] && ORDER[..i + 1] == ORDER[..i] + [ORDER[i]]
  {
    var p := ORDER[..i];
    forall k | 0 <= k < i ensures ORDER[k] != ORDER[i] {
      assert Place(ORDER[k]) == k;
    }
    assert ORDER[..i + 1] == p + [ORDER[i]];
  }

  lemma GathersNext(parts: seq<Part>, next: seq<Part>, part: Part, spans: seq<Span>, secs: map<Period, int>, i: nat,
                    lo: int, hi: int)
    requires (forall p :: p in secs && secs[p] == Measure(spans, p, lo, hi)) && i < |ORDER|
    requires part == Part(ORDER[i], secs[ORDER[i]], StillOpen(spans, ORDER[i]))
    requires next == (if Worth(spans, secs, part.period) then parts + [part] else parts)
    requires Gathered(parts, spans, secs, i, lo, hi)
    ensures Gathered(next, spans, secs, i + 1, lo, hi)
  {
    PlaceIs(i);
    NextIsShown(parts, next, part, spans, secs, ORDER[..i]);
    NextAddsUp(parts, next, part, spans, ORDER[..i], lo, hi);
    NextKindsAddUp(parts, next, part, spans, ORDER[..i], lo, hi);
    NextInOrder(parts, part, i);
  }

  /** The parts worth showing, in their order. */
  method PartsOf(spans: seq<Span>, secs: map<Period, int>, ghost lo: int, ghost hi: int) returns (parts: seq<Part>)
    requires forall p :: p in secs && secs[p] == Measure(spans, p, lo, hi)
    ensures Gathered(parts, spans, secs, |ORDER|, lo, hi)
  {
    parts := [];
    assert forall kind :: InstantsAmong(spans, [], PeriodsOf(kind), lo, hi) == {};
    for i := 0 to |ORDER|
      invariant Gathered(parts, spans, secs, i, lo, hi)
    {
      var part := Part(ORDER[i], secs[ORDER[i]], StillOpen(spans, ORDER[i]));
      var next := if Worth(spans, secs, part.period) then parts + [part] else parts;
      GathersNext(parts, next, part, spans, secs, i, lo, hi);
      parts := next;
    }
  }

  // --- a build that a clean-up closed ---

  const DAY: int := 86_400_000_000
  const UNBACKED_END: int := DAY

  /** A build's row, and whether its details say that the build waits for a person. */
  datatype StageRow = StageRow(id: int, at: int, waits: bool)

  datatype Build = Build(active: bool, queued: Option<int>, started: Option<int>, completed: Option<int>,
                         stages: seq<StageRow>)

  predicate After(a: StageRow, b: StageRow) {
    a.at > b.at || (a.at == b.at && a.id > b.id)
  }

  /** The last row, by time and then by id. */
  function Final(stages: seq<StageRow>): (r: StageRow)
    requires stages != []
    ensures r in stages && forall s :: s in stages ==> !After(s, r)
  {
    if |stages| == 1 then stages[0]
    else
      var r, s := Final(stages[..|stages| - 1]), stages[|stages| - 1];
      assert stages == stages[..|stages| - 1] + [s];
      if After(s, r) then s else r
  }

  function Begun(b: Build): Option<int> {
    if b.started.Some? then b.started else b.queued
  }

  /** The last moment the record shows the build alive. */
  function LastSign(b: Build): Option<int> {
    if b.stages != [] then Some(Final(b.stages).at) else Begun(b)
  }

  /** `unbacked_end`. */
  predicate UnbackedEnd(b: Build) {
    if b.completed.None? || b.active then false
    else if b.stages == [] then Begun(b).Some? && b.completed.value - Begun(b).value > UNBACKED_END
    else !Final(b.stages).waits && b.completed.value - Final(b.stages).at > UNBACKED_END
  }

  /** The last of the builds that a clean-up closed. */
  function ClosedLate(builds: seq<Build>): (late: Option<nat>)
    ensures late.None? <==> forall i :: 0 <= i < |builds| ==> !UnbackedEnd(builds[i])
    ensures late.Some? ==> IsLast(builds, late.value)
  {
    if builds == [] then None
    else if UnbackedEnd(builds[|builds| - 1]) then Some(|builds| - 1)
    else ClosedLate(builds[..|builds| - 1])
  }

  predicate IsLast(builds: seq<Build>, i: nat) {
    i < |builds| && UnbackedEnd(builds[i]) && forall j :: i < j < |builds| ==> !UnbackedEnd(builds[j])
  }

  // --- and what that means on its fields ---

  /** The i-th row is the last by time and then by id, and the first of those alike. */
  predicate IsLastRow(stages: seq<StageRow>, i: int) {
    && 0 <= i < |stages|
    && (forall j :: 0 <= j < |stages| ==>
          stages[j].at < stages[i].at || (stages[j].at == stages[i].at && stages[j].id <= stages[i].id))
    && (forall j :: 0 <= j < i ==>
          stages[j].at < stages[i].at || (stages[j].at == stages[i].at && stages[j].id < stages[i].id))
  }

  /** The last moment the record shows the build alive, and whether it waited for a person then: its last row or,
  without rows, when it was started or, if it never was, queued. */
  ghost predicate LastKnown(b: Build, at: int, waiting: bool) {
    if b.stages != [] then exists i :: IsLastRow(b.stages, i) && at == b.stages[i].at && waiting == b.stages[i].waits
    else !waiting && if b.started.Some? then b.started == Some(at) else b.queued == Some(at)
  }

  /** A build that is over, more than 24 hours after the record last shows it, when it waited for no one. */
  ghost predicate EndedUnseen(b: Build) {
    && b.completed.Some? && !b.active
    && exists at: int :: LastKnown(b, at, false) && b.completed.value - at > 86_400_000_000
  }

  lemma {:induction false} FinalIsLast(stages: seq<StageRow>) returns (i: nat)
    requires stages != []
    ensures IsLastRow(stages, i) && stages[i] == Final(stages)
  {
    if |stages| == 1 {
      i := 0;
    } else {
      var n := |stages| - 1;
      i := FinalIsLast(stages[..n]);
      if After(stages[n], stages[i]) {
        i := n;
      }
    }
  }

  lemma LastKnownIs(b: Build, at: int, waiting: bool)
    ensures LastKnown(b, at, waiting) <==>
      LastSign(b) == Some(at) && waiting == (b.stages != [] && Final(b.stages).waits)
  {
    if b.stages != [] {
      var k := FinalIsLast(b.stages);
      forall i | IsLastRow(b.stages, i) ensures i == k {
      }
    }
  }

  lemma UnbackedIsUnseen(b: Build)
    ensures UnbackedEnd(b) <==> EndedUnseen(b)
  {
    forall at: int ensures LastKnown(b, at, false) <==>
      LastSign(b) == Some(at) && !(b.stages != [] && Final(b.stages).waits)
    {
      LastKnownIs(b, at, false);
    }
    if UnbackedEnd(b) {
      assert LastKnown(b, LastSign(b).value, false);
    }
  }

  ghost predicate IsLastUnseen(builds: seq<Build>, i: int) {
    0 <= i < |builds| && EndedUnseen(builds[i]) && forall j :: i < j < |builds| ==> !EndedUnseen(builds[j])
  }

  /** It names the day the last of the cleaned-up builds was closed, and the whole days since the record last shows that
  build: at least one. */
  ghost predicate FromClosed(c: CleanUp, builds: seq<Build>) {
    exists i, at: int :: IsLastUnseen(builds, i) && LastKnown(builds[i], at, false)
      && builds[i].completed == Some(c.closed) && c.days >= 1
      && c.days * 86_400_000_000 <= c.closed - at < (c.days + 1) * 86_400_000_000
  }

  lemma ClosedIsUnseen(builds: seq<Build>, late: Option<nat>)
    requires late == ClosedLate(builds)
    ensures late.None? <==> forall i :: 0 <= i < |builds| ==> !EndedUnseen(builds[i])
    ensures late.Some? ==> IsLastUnseen(builds, late.value) && LastSign(builds[late.value]).Some?
    ensures late.Some? ==> LastKnown(builds[late.value], LastSign(builds[late.value]).value, false)
  {
    forall i | 0 <= i < |builds| ensures UnbackedEnd(builds[i]) <==> EndedUnseen(builds[i]) {
      UnbackedIsUnseen(builds[i]);
    }
    if late.Some? {
      LastKnownIs(builds[late.value], LastSign(builds[late.value]).value, false);
    }
  }

  /** Machine time, waiting and the time between steps, each the instants counted under its periods, make up the elapsed
  time; the parts are the periods with time or still open, in order, each with its own measure. */
  ghost predicate Complete(time: FeatureTime, spans: seq<Span>, lo: int, hi: int) {
    && time.Total(Machine) + time.Total(Wait) + time.Total(Between) == hi - lo
    && time.Total(Machine) == TimeIn(spans, {Planning, Building, MergeCheck}, lo, hi)
    && time.Total(Wait) == TimeIn(spans, {InQueue, Approvals, MergeDecision, MissionMerge}, lo, hi)
    && time.Total(Between) == TimeIn(spans, {NotPlaced}, lo, hi)
    && Measured(time.parts, spans, lo, hi) && InTheirOrder(time.parts)
    && (forall p: Period :: Mentions(time.parts, p) <==>
          Measure(spans, p, lo, hi) > 0 || exists s :: s in spans && s.period == p && s.open)
    && (forall part :: part in time.parts ==>
          (part.open <==> exists s :: s in spans && s.period == part.period && s.open))
  }

  lemma PartsAreComplete(time: FeatureTime, spans: seq<Span>, secs: map<Period, int>, lo: int, hi: int)
    requires lo <= hi && forall p :: p in secs && secs[p] == Measure(spans, p, lo, hi)
    requires Gathered(time.parts, spans, secs, |ORDER|, lo, hi)
    ensures Complete(time, spans, lo, hi)
  {
    assert ORDER[..|ORDER|] == ORDER;
    MeasuresAddUp(spans, lo, hi);
    EveryPeriodIsOrdered();
    assert forall kind :: time.Total(kind) == TimeIn(spans, PeriodsOf(kind), lo, hi);
    assert PeriodsOf(Machine) == {Planning, Building, MergeCheck} && PeriodsOf(Between) == {NotPlaced};
    assert PeriodsOf(Wait) == {InQueue, Approvals, MergeDecision, MissionMerge};
  }

  /** `feature_time`: nothing without a time it was sent, and no parts when a build's end is not to be believed, with
  the day the last such build was closed and how many days after its last sign. Otherwise a complete breakdown, so no
  figure of it can exceed the elapsed time. */
  method TimeOf(spans: seq<Span>, builds: seq<Build>, sent: Option<int>, end: Option<int>, now: int)
    returns (time: Option<FeatureTime>)
    ensures time.None? <==> sent.None?
    ensures time.Some? ==>
      && time.value.elapsed == Max(if end.Some? then end.value else now, sent.value) - sent.value
      && time.value.soFar == end.None?
      && (time.value.unmeasured.Some? <==> exists i :: 0 <= i < |builds| && EndedUnseen(builds[i]))
      && (time.value.unmeasured.Some? ==> time.value.parts == [] && FromClosed(time.value.unmeasured.value, builds))
      && (time.value.unmeasured.None? ==>
            Complete(time.value, spans, sent.value, sent.value + time.value.elapsed))
  {
    if sent.None? {
      return None;
    }
    var stop := Max(if end.Some? then end.value else now, sent.value);
    var late := ClosedLate(builds);
    ClosedIsUnseen(builds, late);
    if late.Some? {
      var b := builds[late.value];
      var closed, last := b.completed.value, LastSign(b);
      var days := if last.Some? then (closed - last.value) / DAY else 0;
      return Some(FeatureTime(stop - sent.value, end.None?, [], Some(CleanUp(closed, days))));
    }
    var secs := Sweep(spans, sent.value, stop);
    var parts := PartsOf(spans, secs, sent.value, stop);
    var breakdown := FeatureTime(stop - sent.value, end.None?, parts, None);
    PartsAreComplete(breakdown, spans, secs, sent.value, stop);
    return Some(breakdown);
  }
}
