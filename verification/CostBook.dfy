/** Cost by tag, hour and London week (backend/readmodel/costs.py, backend/readmodel/dbread.py). Times are
microseconds; an hour bucket is a number of whole hours from the epoch.
Money is exact. */
module CostBook {
  import opened Basics

  const HOUR: int := 3_600_000_000
  const DAY: int := 24 * HOUR
  const WEEK: int := 7 * DAY
  const PROJECT_WEEKS: nat := 8

  datatype Totals = Totals(calls: int, failed: int, tokensIn: int, tokensOut: int, cost: real,
                           estimated: int, unpriced: int, priced: int)

  const ZERO: Totals := Totals(0, 0, 0, 0, 0.0, 0, 0, 0)

  function Plus(a: Totals, b: Totals): Totals {
    Totals(a.calls + b.calls, a.failed + b.failed, a.tokensIn + b.tokensIn, a.tokensOut + b.tokensOut,
           a.cost + b.cost, a.estimated + b.estimated, a.unpriced + b.unpriced, a.priced + b.priced)
  }

  datatype Basis = LiteLLM | Estimated | NoTokens | NotPriced

  datatype Call = Call(tag: Option<string>, start: int, failure: bool, tokensIn: int, tokensOut: int,
                       cost: Option<real>, basis: Basis)

  /** What one call adds to each column. */
  function One(c: Call): Totals {
    Totals(1, if c.failure then 1 else 0, c.tokensIn, c.tokensOut, if c.cost.Some? then c.cost.value else 0.0,
           if c.basis.Estimated? then 1 else 0, if c.basis.NotPriced? then 1 else 0,
           if c.basis.LiteLLM? || c.basis.Estimated? then 1 else 0)
  }

  /** The first thirteen characters of a stamp: which hour it is, counted from the epoch. */
  datatype Hour = Hour(index: int)

  function HourOf(c: Call): Hour {
    Hour(c.start / HOUR)
  }

  // --- sums of raw calls ---

  predicate Tagged(c: Call, tags: set<string>) {
    c.tag.Some? && c.tag.value in tags
  }

  /** Every call with one of the tags that started in one of the hours, each once. */
  function SumAt(calls: seq<Call>, tags: set<string>, hours: set<Hour>): Totals {
    if calls == [] then ZERO
    else
      var c := calls[|calls| - 1];
      var rest := SumAt(calls[..|calls| - 1], tags, hours);
      if Tagged(c, tags) && HourOf(c) in hours then Plus(rest, One(c)) else rest
  }

  predicate Starts(c: Call, lo: Option<int>, hi: Option<int>) {
    (lo.Some? ==> lo.value <= c.start) && (hi.Some? ==> c.start < hi.value)
  }

  /** Every call with one of the tags that started in [lo, hi), each once. */
  function WindowSum(calls: seq<Call>, tags: set<string>, lo: Option<int>, hi: Option<int>): Totals {
    if calls == [] then ZERO
    else
      var c := calls[|calls| - 1];
      var rest := WindowSum(calls[..|calls| - 1], tags, lo, hi);
      if Tagged(c, tags) && Starts(c, lo, hi) then Plus(rest, One(c)) else rest
  }

  lemma {:induction false} MoreHours(calls: seq<Call>, tags: set<string>, hours: set<Hour>, h: Hour)
    requires h !in hours
    ensures SumAt(calls, tags, hours + {h}) == Plus(SumAt(calls, tags, hours), SumAt(calls, tags, {h}))
  {
    if calls != [] {
      MoreHours(calls[..|calls| - 1], tags, hours, h);
    }
  }

  lemma {:induction false} MoreTags(calls: seq<Call>, tags: set<string>, t: string, hours: set<Hour>)
    requires t !in tags
    ensures SumAt(calls, tags + {t}, hours) == Plus(SumAt(calls, tags, hours), SumAt(calls, {t}, hours))
  {
    if calls != [] {
      MoreTags(calls[..|calls| - 1], tags, t, hours);
    }
  }

  lemma {:induction false} NothingAt(calls: seq<Call>, tags: set<string>, hours: set<Hour>)
    requires forall c :: c in calls ==> !(Tagged(c, tags) && HourOf(c) in hours)
    ensures SumAt(calls, tags, hours) == ZERO
  {
    if calls != [] {
      assert calls[|calls| - 1] in calls;
      NothingAt(calls[..|calls| - 1], tags, hours);
    }
  }

  // --- the book ---

  /** Tag, then hour, to the totals of that hour's calls. */
  type Book = map<string, map<Hour, Totals>>

  function Bucket(book: Book, tag: string, h: Hour): Totals {
    if tag in book && h in book[tag] then book[tag][h] else ZERO
  }

  ghost predicate Sums(book: Book, calls: seq<Call>) {
    && (forall tag, h :: Bucket(book, tag, h) == SumAt(calls, {tag}, {h}))
    && (forall c :: c in calls && c.tag.Some? ==> c.tag.value in book && HourOf(c) in book[c.tag.value])
  }

  /** `load_cost_book`: tagged calls grouped by tag and hour. */
  method LoadCostBook(calls: seq<Call>) returns (book: Book)
    ensures Sums(book, calls)
  {
    book := map[];
    for i := 0 to |calls|
      invariant Sums(book, calls[..i])
    {
      assert calls[..i + 1] == calls[..i] + [calls[i]];
      assert calls[..i + 1][..i] == calls[..i];
      var c := calls[i];
      if c.tag.Some? {
        var tag, h := c.tag.value, HourOf(c);
        var hours := if tag in book then book[tag] else map[];
        book := book[tag := hours[h := Plus(Bucket(book, tag, h), One(c))]];
      }
    }
    assert calls[..|calls|] == calls;
  }

  function HourTotals(hours: map<Hour, Totals>, h: Hour): Totals {
    if h in hours then hours[h] else ZERO
  }

  /** The hours in `done` have been added to what was there. */
  ghost predicate Added(sum: map<Hour, Totals>, out: map<Hour, Totals>, hours: map<Hour, Totals>, done: set<Hour>)
    requires done <= hours.Keys
  {
    && sum.Keys == out.Keys + done
    && (forall h :: h in done ==> sum[h] == Plus(HourTotals(out, h), hours[h]))
    && (forall h :: h in out && h !in done ==> sum[h] == out[h])
  }

  lemma AddHour(sum: map<Hour, Totals>, out: map<Hour, Totals>, hours: map<Hour, Totals>, done: set<Hour>, h: Hour)
    requires done <= hours.Keys && Added(sum, out, hours, done) && h in hours && h !in done
    ensures Added(sum[h := Plus(HourTotals(sum, h), hours[h])], out, hours, done + {h})
  {
    assert HourTotals(sum, h) == HourTotals(out, h);
  }

  /** One tag's hours added to what is there. */
  method AddTag(out: map<Hour, Totals>, hours: map<Hour, Totals>) returns (sum: map<Hour, Totals>)
    ensures Added(sum, out, hours, hours.Keys)
  {
    sum := out;
    var done: set<Hour> := {};
    while done != hours.Keys
      invariant done <= hours.Keys && Added(sum, out, hours, done)
      decreases hours.Keys - done
    {
      var h :| h in hours && h !in done;
      AddHour(sum, out, hours, done, h);
      sum := sum[h := Plus(HourTotals(sum, h), hours[h])];
      done := done + {h};
    }
  }

  lemma PlusZero(a: Totals)
    ensures Plus(a, ZERO) == a
  {
  }

  /** Every tagged call's hour is there, with that hour's sum. */
  ghost predicate HourSums(out: map<Hour, Totals>, calls: seq<Call>, tags: set<string>) {
    && (forall h :: HourTotals(out, h) == SumAt(calls, tags, {h}))
    && (forall c :: c in calls && Tagged(c, tags) ==> HourOf(c) in out)
  }

  lemma AddedAt(sum: map<Hour, Totals>, out: map<Hour, Totals>, hours: map<Hour, Totals>, h: Hour)
    requires Added(sum, out, hours, hours.Keys)
    ensures HourTotals(sum, h) == Plus(HourTotals(out, h), HourTotals(hours, h))
  {
    if h !in hours {
      PlusZero(HourTotals(out, h));
    }
  }

  lemma OneMoreTag(book: Book, calls: seq<Call>, tags: set<string>, tag: string,
                   before: map<Hour, Totals>, after: map<Hour, Totals>)
    requires Sums(book, calls) && HourSums(before, calls, tags) && tag !in tags
    requires var hours := if tag in book then book[tag] else map[]; Added(after, before, hours, hours.Keys)
    ensures HourSums(after, calls, tags + {tag})
  {
    forall h ensures HourTotals(after, h) == SumAt(calls, tags + {tag}, {h}) {
      MoreTags(calls, tags, tag, {h});
      assert Bucket(book, tag, h) == SumAt(calls, {tag}, {h});
      AddedAt(after, before, if tag in book then book[tag] else map[], h);
    }
  }

  /** `CostBook.tag_hours`. */
  method TagHours(book: Book, tags: set<string>, ghost calls: seq<Call>) returns (out: map<Hour, Totals>)
    requires Sums(book, calls)
    ensures HourSums(out, calls, tags)
  {
    out := map[];
    var done: set<string> := {};
    forall h ensures SumAt(calls, {}, {h}) == ZERO {
      NothingAt(calls, {}, {h});
    }
    while done != tags
      invariant done <= tags && HourSums(out, calls, done)
      decreases tags - done
    {
      var tag :| tag in tags && tag !in done;
      var sum := AddTag(out, if tag in book then book[tag] else map[]);
      OneMoreTag(book, calls, done, tag, out, sum);
      out := sum;
      done := done + {tag};
    }
  }

  predicate HourIn(h: Hour, lo: Option<int>, hi: Option<int>) {
    (lo.Some? ==> h.index * HOUR >= lo.value) && (hi.Some? ==> h.index * HOUR < hi.value)
  }

  /** The hours that start in the window. */
  ghost function HoursIn(hours: set<Hour>, lo: Option<int>, hi: Option<int>): set<Hour> {
    set h | h in hours && HourIn(h, lo, hi)
  }

  lemma SumOneHour(hours: map<Hour, Totals>, calls: seq<Call>, tags: set<string>, seen: set<Hour>, h: Hour)
    requires HourSums(hours, calls, tags) && h in hours && h !in seen
    ensures SumAt(calls, tags, seen + {h}) == Plus(SumAt(calls, tags, seen), hours[h])
  {
    assert HourTotals(hours, h) == SumAt(calls, tags, {h});
    MoreHours(calls, tags, seen, h);
  }

  lemma OneMoreHourIn(done: set<Hour>, h: Hour, lo: Option<int>, hi: Option<int>)
    ensures HoursIn(done + {h}, lo, hi) == HoursIn(done, lo, hi) + if HourIn(h, lo, hi) then {h} else {}
  {
  }

  /** `_sum` over the hours that start in the window, as `tagged_spend` does. */
  method SumHours(hours: map<Hour, Totals>, lo: Option<int>, hi: Option<int>,
                  ghost calls: seq<Call>, ghost tags: set<string>) returns (sum: Totals)
    requires HourSums(hours, calls, tags)
    ensures sum == SumAt(calls, tags, HoursIn(hours.Keys, lo, hi))
  {
    sum := ZERO;
    var done: set<Hour> := {};
    ghost var seen: set<Hour> := {};
    NothingAt(calls, tags, {});
    while done != hours.Keys
      invariant done <= hours.Keys && seen == HoursIn(done, lo, hi)
      invariant sum == SumAt(calls, tags, seen)
      decreases hours.Keys - done
    {
      var h :| h in hours && h !in done;
      OneMoreHourIn(done, h, lo, hi);
      if HourIn(h, lo, hi) {
        SumOneHour(hours, calls, tags, seen, h);
        sum := Plus(sum, hours[h]);
        seen := seen + {h};
      }
      done := done + {h};
    }
  }

  predicate Aligned(t: Option<int>) {
    t.Some? ==> t.value % HOUR == 0
  }

  lemma HourStartsInWindow(c: Call, lo: Option<int>, hi: Option<int>)
    requires Aligned(lo) && Aligned(hi)
    ensures HourIn(HourOf(c), lo, hi) <==> Starts(c, lo, hi)
  {
  }

  lemma {:induction false} HoursRefineCalls(calls: seq<Call>, tags: set<string>, hours: set<Hour>,
                                            lo: Option<int>, hi: Option<int>)
    requires Aligned(lo) && Aligned(hi)
    requires forall c :: c in calls && Tagged(c, tags) ==> (HourOf(c) in hours <==> HourIn(HourOf(c), lo, hi))
    ensures SumAt(calls, tags, hours) == WindowSum(calls, tags, lo, hi)
  {
    if calls != [] {
      var c := calls[|calls| - 1];
      assert c in calls;
      HourStartsInWindow(c, lo, hi);
      HoursRefineCalls(calls[..|calls| - 1], tags, hours, lo, hi);
    }
  }

  /** What the buckets give for a window: the calls of the hours that start in it. */
  ghost function BucketSum(calls: seq<Call>, tags: set<string>, lo: Option<int>, hi: Option<int>): Totals {
    SumAt(calls, tags, HoursIn(set c | c in calls :: HourOf(c), lo, hi))
  }

  /** Only the hours of tagged calls matter. */
  lemma {:induction false} SameTaggedHours(calls: seq<Call>, tags: set<string>, a: set<Hour>, b: set<Hour>)
    requires forall c :: c in calls && Tagged(c, tags) ==> (HourOf(c) in a <==> HourOf(c) in b)
    ensures SumAt(calls, tags, a) == SumAt(calls, tags, b)
  {
    if calls != [] {
      assert calls[|calls| - 1] in calls;
      SameTaggedHours(calls[..|calls| - 1], tags, a, b);
    }
  }

  /** `tagged_spend`'s figure: the tagged calls of the hours that start in the window, each counted once. For a window
  that starts and ends on the hour these are exactly the tagged calls that started in it. */
  method TaggedSpend(book: Book, tags: set<string>, lo: Option<int>, hi: Option<int>, ghost calls: seq<Call>)
    returns (sum: Totals)
    requires Sums(book, calls)
    ensures sum == BucketSum(calls, tags, lo, hi)
    ensures Aligned(lo) && Aligned(hi) ==> sum == WindowSum(calls, tags, lo, hi)
  {
    var hours := TagHours(book, tags, calls);
    sum := SumHours(hours, lo, hi, calls, tags);
    ghost var all := set c | c in calls :: HourOf(c);
    SameTaggedHours(calls, tags, HoursIn(hours.Keys, lo, hi), HoursIn(all, lo, hi));
    if Aligned(lo) && Aligned(hi) {
      HoursRefineCalls(calls, tags, HoursIn(all, lo, hi), lo, hi);
    }
  }

  // --- what each column holds ---

  /** A call that `tagged_spend` counts for a window. */
  predicate Counts(c: Call, tags: set<string>, lo: Option<int>, hi: Option<int>) {
    && c.tag.Some? && c.tag.value in tags
    && (lo.None? || c.start >= lo.value) && (hi.None? || c.start < hi.value)
  }

  /** How many of the calls are like this. */
  ghost function HowMany(calls: seq<Call>, like: Call -> bool): nat {
    |set i | 0 <= i < |calls| && like(calls[i])|
  }

  /** What all the calls give, added up. */
  function AddedUp(calls: seq<Call>, gives: Call -> real): real {
    if calls == [] then 0.0 else AddedUp(calls[..|calls| - 1], gives) + gives(calls[|calls| - 1])
  }

  lemma OneMoreLike(calls: seq<Call>, c: Call, like: Call -> bool)
    ensures HowMany(calls + [c], like) == HowMany(calls, like) + if like(c) then 1 else 0
  {
    var all, n := calls + [c], |calls|;
    var before := set i | 0 <= i < n && like(calls[i]);
    var after := set i | 0 <= i < |all| && like(all[i]);
    assert forall i :: 0 <= i < n ==> all[i] == calls[i];
    if like(c) {
      assert after == before + {n};
    } else {
      assert after == before;
    }
  }

  lemma OneMoreAdded(calls: seq<Call>, c: Call, gives: Call -> real)
    ensures AddedUp(calls + [c], gives) == AddedUp(calls, gives) + gives(c)
  {
    assert (calls + [c])[..|calls|] == calls;
  }

  ghost predicate CountsAre(t: Totals, calls: seq<Call>, tags: set<string>, lo: Option<int>, hi: Option<int>) {
    && t.calls == HowMany(calls, c => Counts(c, tags, lo, hi))
    && t.failed == HowMany(calls, c => Counts(c, tags, lo, hi) && c.failure)
    && t.estimated == HowMany(calls, c => Counts(c, tags, lo, hi) && c.basis == Estimated)
    && t.unpriced == HowMany(calls, c => Counts(c, tags, lo, hi) && c.basis == NotPriced)
    && t.priced == HowMany(calls, c => Counts(c, tags, lo, hi) && c.basis in {LiteLLM, Estimated})
  }

  predicate SumsAre(t: Totals, calls: seq<Call>, tags: set<string>, lo: Option<int>, hi: Option<int>) {
    && t.tokensIn as real == AddedUp(calls, c => if Counts(c, tags, lo, hi) then c.tokensIn as real else 0.0)
    && t.tokensOut as real == AddedUp(calls, c => if Counts(c, tags, lo, hi) then c.tokensOut as real else 0.0)
    && t.cost == AddedUp(calls, c => if Counts(c, tags, lo, hi) && c.cost.Some? then c.cost.value else 0.0)
  }

  lemma OneMoreCounted(calls: seq<Call>, c: Call, tags: set<string>, lo: Option<int>, hi: Option<int>)
    requires CountsAre(WindowSum(calls, tags, lo, hi), calls, tags, lo, hi)
    ensures CountsAre(WindowSum(calls + [c], tags, lo, hi), calls + [c], tags, lo, hi)
  {
    assert (calls + [c])[..|calls|] == calls;
    OneMoreLike(calls, c, c => Counts(c, tags, lo, hi));
    OneMoreLike(calls, c, c => Counts(c, tags, lo, hi) && c.failure);
    OneMoreLike(calls, c, c => Counts(c, tags, lo, hi) && c.basis == Estimated);
    OneMoreLike(calls, c, c => Counts(c, tags, lo, hi) && c.basis == NotPriced);
    OneMoreLike(calls, c, c => Counts(c, tags, lo, hi) && c.basis in {LiteLLM, Estimated});
  }

  lemma OneMoreSummed(calls: seq<Call>, c: Call, tags: set<string>, lo: Option<int>, hi: Option<int>)
    requires SumsAre(WindowSum(calls, tags, lo, hi), calls, tags, lo, hi)
    ensures SumsAre(WindowSum(calls + [c], tags, lo, hi), calls + [c], tags, lo, hi)
  {
    assert (calls + [c])[..|calls|] == calls;
    OneMoreAdded(calls, c, c => if Counts(c, tags, lo, hi) then c.tokensIn as real else 0.0);
    OneMoreAdded(calls, c, c => if Counts(c, tags, lo, hi) then c.tokensOut as real else 0.0);
    OneMoreAdded(calls, c, c => if Counts(c, tags, lo, hi) && c.cost.Some? then c.cost.value else 0.0);
  }

  /** Each figure of a window's spend: how many of its calls there are, and how many of them failed, were estimated,
  could not be priced and have a price; and their tokens and costs, added up. */
  lemma {:induction false} ColumnsAre(calls: seq<Call>, tags: set<string>, lo: Option<int>, hi: Option<int>)
    ensures CountsAre(WindowSum(calls, tags, lo, hi), calls, tags, lo, hi)
    ensures SumsAre(WindowSum(calls, tags, lo, hi), calls, tags, lo, hi)
  {
    if calls != [] {
      var init, c := calls[..|calls| - 1], calls[|calls| - 1];
      assert calls == init + [c];
      ColumnsAre(init, tags, lo, hi);
      OneMoreCounted(init, c, tags, lo, hi);
      OneMoreSummed(init, c, tags, lo, hi);
    }
  }

  ghost predicate AlwaysExact(tags: set<string>, lo: Option<int>, hi: Option<int>) {
    forall calls :: BucketSum(calls, tags, lo, hi) == WindowSum(calls, tags, lo, hi)
  }

  predicate IsWindow(lo: Option<int>, hi: Option<int>) {
    lo.Some? && hi.Some? ==> lo.value < hi.value
  }

  /** `tagged_spend` gives a window's spend for every record exactly when the window starts and ends on the hour. Off
  the hour a bucket is counted whole or not at all: a call that starts with the window is lost, or one that starts at
  its end is counted. */
  lemma ExactOnlyOnTheHour(tags: set<string>, tag: string, lo: Option<int>, hi: Option<int>)
    requires tag in tags && IsWindow(lo, hi)
    ensures AlwaysExact(tags, lo, hi) <==> Aligned(lo) && Aligned(hi)
  {
    if Aligned(lo) && Aligned(hi) {
      forall calls ensures BucketSum(calls, tags, lo, hi) == WindowSum(calls, tags, lo, hi) {
        HoursRefineCalls(calls, tags, HoursIn(set c | c in calls :: HourOf(c), lo, hi), lo, hi);
      }
    } else {
      var at := if !Aligned(lo) then lo.value else hi.value;
      OneCallDiffers(tags, tag, lo, hi, Call(Some(tag), at, false, 0, 0, None, NotPriced));
    }
  }

  lemma OneCallDiffers(tags: set<string>, tag: string, lo: Option<int>, hi: Option<int>, c: Call)
    requires tag in tags && c.tag == Some(tag) && HourIn(HourOf(c), lo, hi) != Starts(c, lo, hi)
    ensures BucketSum([c], tags, lo, hi) != WindowSum([c], tags, lo, hi)
  {
    var hours := HoursIn(set x | x in [c] :: HourOf(x), lo, hi);
    assert c in [c];
    assert HourOf(c) in (set x | x in [c] :: HourOf(x));
    assert HourOf(c) in hours <==> HourIn(HourOf(c), lo, hi);
    assert [c][..|[c]| - 1] == [];
    assert SumAt([], tags, hours) == ZERO && WindowSum([], tags, lo, hi) == ZERO;
    assert SumAt([c], tags, hours).calls == if HourOf(c) in hours then 1 else 0;
    assert WindowSum([c], tags, lo, hi).calls == if Starts(c, lo, hi) then 1 else 0;
  }

  lemma {:induction false} WindowsAddUp(calls: seq<Call>, tags: set<string>, lo: int, mid: int, hi: int)
    requires lo <= mid <= hi
    ensures WindowSum(calls, tags, Some(lo), Some(hi))
         == Plus(WindowSum(calls, tags, Some(lo), Some(mid)), WindowSum(calls, tags, Some(mid), Some(hi)))
  {
    if calls != [] {
      WindowsAddUp(calls[..|calls| - 1], tags, lo, mid, hi);
    }
  }

  // --- London weeks ---

  /** A zone's offset at an instant, and the one its Monday midnight of a week has; week 0 starts at `base` of local
  time. */
  datatype Zone = Zone(offsetAt: int -> int, mondayOffset: int -> int, base: int)

  ghost predicate IsLondon(z: Zone) {
    && z.base % HOUR == 0
    && (forall t :: z.offsetAt(t) == 0 || z.offsetAt(t) == HOUR)
    && (forall k :: z.mondayOffset(k) == 0 || z.mondayOffset(k) == HOUR)
    && (forall k :: SteadyAround(z, k))
  }

  /** The clocks do not change within an hour of a local Monday midnight: they change on Sundays at 01:00 UTC. */
  ghost predicate SteadyAround(z: Zone, k: int) {
    forall t | Monday(z, k) - HOUR <= t < Monday(z, k) + HOUR :: z.offsetAt(t) == z.mondayOffset(k)
  }

  /** The number of the local week of an instant. */
  function WeekOf(z: Zone, t: int): int {
    (t + z.offsetAt(t) - z.base) / WEEK
  }

  /** Monday 00:00 local time of a week. */
  function Monday(z: Zone, k: int): int {
    z.base + k * WEEK - z.mondayOffset(k)
  }

  /** `week_start`. */
  function WeekStart(z: Zone, t: int): int {
    Monday(z, WeekOf(z, t))
  }

  /** The bounds of the n-th week back, as `project_weeks` computes them. */
  function WeekFrom(z: Zone, now: int, n: int): int {
    WeekStart(z, WeekStart(z, now) - n * WEEK + 12 * HOUR)
  }

  function WeekTo(z: Zone, now: int, n: int): int {
    WeekStart(z, WeekFrom(z, now, n) + WEEK + 12 * HOUR)
  }

  lemma InWeek(x: int, k: int)
    requires k * WEEK <= x < k * WEEK + WEEK
    ensures x / WEEK == k
  {
  }

  /** Half a day after a local Monday midnight moved by whole weeks is in the week meant, whatever the offsets are. */
  lemma NearMonday(z: Zone, k: int, j: int, t: int)
    requires IsLondon(z) && t == Monday(z, k) + j * WEEK + 12 * HOUR
    ensures WeekStart(z, t) == Monday(z, k + j)
  {
    assert k * WEEK + j * WEEK == (k + j) * WEEK;
    InWeek(t + z.offsetAt(t) - z.base, k + j);
  }

  lemma WeekFromIs(z: Zone, now: int, n: int)
    requires IsLondon(z)
    ensures WeekFrom(z, now, n) == Monday(z, WeekOf(z, now) - n)
  {
    var t := WeekStart(z, now) - n * WEEK + 12 * HOUR;
    assert t == Monday(z, WeekOf(z, now)) + (-n) * WEEK + 12 * HOUR;
    NearMonday(z, WeekOf(z, now), -n, t);
  }

  lemma WeekToIs(z: Zone, now: int, n: int)
    requires IsLondon(z)
    ensures WeekTo(z, now, n) == Monday(z, WeekOf(z, now) - n + 1)
  {
    WeekFromIs(z, now, n);
    NearMonday(z, WeekOf(z, now) - n, 1, WeekFrom(z, now, n) + WEEK + 12 * HOUR);
  }

  lemma MondaysAreOrdered(z: Zone, k: int)
    requires IsLondon(z)
    ensures Monday(z, k) < Monday(z, k + 1)
  {
  }

  /** An instant is in the local week `k` or a later one exactly from that week's Monday midnight on. */
  lemma FromMonday(z: Zone, k: int, t: int)
    requires IsLondon(z)
    ensures t + z.offsetAt(t) - z.base >= k * WEEK <==> t >= Monday(z, k)
  {
    assert SteadyAround(z, k);
    if Monday(z, k) - HOUR <= t < Monday(z, k) + HOUR {
      assert z.offsetAt(t) == z.mondayOffset(k);
    }
  }

  /** A local week is the instants from its own Monday midnight up to the next one. */
  lemma WeekIsMondayToMonday(z: Zone, k: int, t: int)
    requires IsLondon(z)
    ensures WeekOf(z, t) == k <==> Monday(z, k) <= t < Monday(z, k + 1)
  {
    FromMonday(z, k, t);
    FromMonday(z, k + 1, t);
    if Monday(z, k) <= t < Monday(z, k + 1) {
      InWeek(t + z.offsetAt(t) - z.base, k);
    }
  }

  /** The weeks listed are whole local weeks, each ending where the next begins, on the hour, whatever clock changes
  fall between them. */
  lemma WeeksTile(z: Zone, now: int, n: int)
    requires IsLondon(z)
    ensures WeekFrom(z, now, n) == Monday(z, WeekOf(z, now) - n)
    ensures WeekTo(z, now, n) == Monday(z, WeekOf(z, now) - n + 1) == WeekFrom(z, now, n - 1)
    ensures WeekFrom(z, now, n) < WeekTo(z, now, n)
    ensures forall t :: WeekFrom(z, now, n) <= t < WeekTo(z, now, n) <==> WeekOf(z, t) == WeekOf(z, now) - n
    ensures WeekFrom(z, now, n) % HOUR == 0 && WeekTo(z, now, n) % HOUR == 0
  {
    var k := WeekOf(z, now) - n;
    WeekFromIs(z, now, n);
    WeekFromIs(z, now, n - 1);
    WeekToIs(z, now, n);
    MondaysAreOrdered(z, k);
    MondayOnTheHour(z, k);
    MondayOnTheHour(z, k + 1);
    forall t ensures Monday(z, k) <= t < Monday(z, k + 1) <==> WeekOf(z, t) == k {
      WeekIsMondayToMonday(z, k, t);
    }
  }

  lemma MondayOnTheHour(z: Zone, k: int)
    requires IsLondon(z)
    ensures Monday(z, k) % HOUR == 0
  {
    assert k * WEEK == (k * 168) * HOUR;
  }

  /** Without the twelve hours, moving by whole weeks from a Monday midnight finds the right week exactly when the
  clocks there are not behind: from a summer Monday into winter time it lands in the week before. */
  lemma TheNudgeIsNeeded(z: Zone, k: int, j: int, t: int)
    requires IsLondon(z) && t == Monday(z, k) + j * WEEK
    ensures WeekStart(z, t) == Monday(z, k + j) <==> z.offsetAt(t) >= z.mondayOffset(k)
    ensures z.offsetAt(t) < z.mondayOffset(k) ==> WeekStart(z, t) == Monday(z, k + j - 1)
  {
    assert k * WEEK + j * WEEK == (k + j) * WEEK;
    var local := t + z.offsetAt(t) - z.base;
    if z.offsetAt(t) >= z.mondayOffset(k) {
      InWeek(local, k + j);
    } else {
      InWeek(local, k + j - 1);
      MondaysAreOrdered(z, k + j - 1);
    }
  }

  /** The spend of the last `n` weeks of the list, added up. */
  function WeeklySum(z: Zone, now: int, n: nat, calls: seq<Call>, tags: set<string>): Totals {
    if n == 0 then ZERO
    else Plus(WeeklySum(z, now, n - 1, calls, tags),
              WindowSum(calls, tags, Some(WeekFrom(z, now, n - 1)), Some(WeekTo(z, now, n - 1))))
  }

  /** The weekly figures add up to the whole window's: no call is lost between two weeks or counted in both. */
  lemma {:induction false} WeeksAddUp(z: Zone, now: int, n: nat, calls: seq<Call>, tags: set<string>)
    requires IsLondon(z) && n > 0
    ensures WeekFrom(z, now, n - 1) <= WeekTo(z, now, 0)
    ensures WeeklySum(z, now, n, calls, tags)
         == WindowSum(calls, tags, Some(WeekFrom(z, now, n - 1)), Some(WeekTo(z, now, 0)))
  {
    WeeksTile(z, now, n - 1);
    var lo, mid, hi := WeekFrom(z, now, n - 1), WeekTo(z, now, n - 1), WeekTo(z, now, 0);
    if n > 1 {
      WeeksAddUp(z, now, n - 1, calls, tags);
      WindowsAddUp(calls, tags, lo, mid, hi);
      PlusCommutes(WindowSum(calls, tags, Some(mid), Some(hi)), WindowSum(calls, tags, Some(lo), Some(mid)));
    } else {
      PlusCommutes(ZERO, WindowSum(calls, tags, Some(lo), Some(hi)));
      PlusZero(WindowSum(calls, tags, Some(lo), Some(hi)));
    }
  }

  lemma PlusCommutes(a: Totals, b: Totals)
    ensures Plus(a, b) == Plus(b, a)
  {
  }

  /** `project_weeks`: the figures shown for the last eight weeks. */
  method ProjectWeeks(book: Book, tags: set<string>, z: Zone, now: int, ghost calls: seq<Call>)
    returns (rows: seq<Totals>)
    requires Sums(book, calls) && IsLondon(z)
    ensures |rows| == 8
    ensures forall n :: 0 <= n < 8 ==>
      rows[n] == WindowSum(calls, tags, Some(WeekFrom(z, now, n)), Some(WeekTo(z, now, n)))
  {
    rows := [];
    var thisWeek := WeekStart(z, now);
    for n := 0 to PROJECT_WEEKS
      invariant |rows| == n
      invariant forall i :: 0 <= i < n ==>
        rows[i] == WindowSum(calls, tags, Some(WeekFrom(z, now, i)), Some(WeekTo(z, now, i)))
    {
      var lo := WeekStart(z, thisWeek - n * WEEK + 12 * HOUR);
      var hi := WeekStart(z, lo + WEEK + 12 * HOUR);
      assert lo == WeekFrom(z, now, n) && hi == WeekTo(z, now, n);
      WeeksTile(z, now, n);
      var sum := TaggedSpend(book, tags, Some(lo), Some(hi), calls);
      rows := rows + [sum];
    }
  }
}
