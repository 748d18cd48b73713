/** How far the promise goes that a submission is given up only after whole passes that began after it was sent: a row
still carries the read count of its check until the one read after the send is stored. */
module AnswerGivenUp {
  import opened Basics
  import opened AnswerStore
  import opened AnswerProtocol
  import opened AnswerInvariant
  import opened AnswerRuns
  import opened AnswerSettlement
  import opened AnswerTheorems
  import opened AnswerUndone

  /** The read count that the row of `g` carried when the rows were read. */
  ghost predicate CountRead(log: Log, readAt: nat, g: nat, count: nat)
    requires readAt <= |log|
  {
    || CountSet(g, count) in log[..readAt]
    || ((forall a :: CountSet(g, a) !in log[..readAt]) && exists key :: Granted(g, key, count) in log)
  }

  /** At `m` a settlement gives up what was sent at `p`, on a read count that lacks `lag` of the passes counted before
  the send. */
  ghost predicate GivesUp(log: Log, m: nat, p: nat, lag: nat) {
    && p < m < |log| && log[p].Published? && log[m].TimedOut? && log[m].generation == log[p].generation
    && log[m].readAt <= m
    && exists count: nat ::
         CountRead(log, log[m].readAt, log[m].generation, count) && lag == Max(PassCount(log[..p]) - count, 0)
  }

  /** Each pass counted between the count that the row carried and the send is one less that began after the send. */
  lemma WholePassesLessTheLag(cards: Cards, steps: seq<Step>, m: nat, p: nat, lag: nat)
    requires GivesUp(LogOf(cards, steps), m, p, lag)
    ensures var log := LogOf(cards, steps); BegunAfter(log[..m], p) >= Limit(log[m].state) - 1 - lag
  {
    RunKeeps(cards, steps);
    LessTheLagInLog(LogOf(cards, steps), m, p, lag);
  }

  lemma LessTheLagInLog(log: Log, m: nat, p: nat, lag: nat)
    requires LogOk(log) && GivesUp(log, m, p, lag)
    ensures BegunAfter(log[..m], p) >= Limit(log[m].state) - 1 - lag
  {
    var count: nat :| CountRead(log, log[m].readAt, log[m].generation, count)
      && lag == Max(PassCount(log[..p]) - count, 0);
    GivenUpOnCount(log, m, count);
    PassesInTurn(log);
    StraddledBefore(log, m, p);
  }

  /** Whichever count the row carried, enough passes were counted since. */
  lemma GivenUpOnCount(log: Log, m: nat, count: nat)
    requires LogOk(log) && m < |log| && log[m].TimedOut? && log[m].readAt <= m
    requires CountRead(log, log[m].readAt, log[m].generation, count)
    ensures PassCount(log[..m]) >= count + Limit(log[m].state)
  {
    var g := log[m].generation;
    assert MayFollow(log[..m], log[m]);
    if CountSet(g, count) in log[..log[m].readAt] {
      var k :| 0 <= k < log[m].readAt && log[..log[m].readAt][k] == CountSet(g, count);
      PassesSinceCounted(log, m, k);
    } else {
      var key :| Granted(g, key, count) in log;
      GrantedBefore(log, m, key, count);
    }
  }

  lemma GrantedBefore(log: Log, m: nat, key: Key, count: nat)
    requires LogOk(log) && m < |log| && log[m].TimedOut? && MayFollow(log[..m], log[m])
    requires Granted(log[m].generation, key, count) in log
    ensures PassCount(log[..m]) >= count + Limit(log[m].state)
  {
    var g := log[m].generation;
    var k, n :| WasGranted(log[..m], g, k) && Granted(g, k, n) in log[..m];
    var i :| 0 <= i < m && log[..m][i] == Granted(g, k, n);
    var j :| 0 <= j < |log| && log[j] == Granted(g, key, count);
    GrantsDiffer(log, i, j);
  }

  /** What the board's own documentation promises of every submission it gives up: two whole passes began after the
  answer was sent (three for a rebuild). */
  ghost predicate AlwaysWholePasses(table: Table, lag: nat) {
    forall cards, steps, m: nat, p: nat | GivesUp(LogOf(cards, steps), m, p, lag) ::
      LogOf(cards, steps)[p].key.table == table ==>
        BegunAfter(LogOf(cards, steps)[..m], p) >= Limit(LogOf(cards, steps)[m].state) - 1
  }

  /** It holds of every run if and only if the row carried a read count no lower than the one at the send. */
  lemma WholePassesExactlyWhenNoLag(table: Table, lag: nat)
    ensures AlwaysWholePasses(table, lag) <==> lag == 0
  {
    if lag == 0 {
      forall cards, steps, m: nat, p: nat | GivesUp(LogOf(cards, steps), m, p, lag)
        ensures BegunAfter(LogOf(cards, steps)[..m], p) >= Limit(LogOf(cards, steps)[m].state) - 1
      {
        WholePassesLessTheLag(cards, steps, m, p, lag);
      }
    } else {
      var key := Key(table, "");
      var m, p := GivenUpEarly(key, lag);
      assert GivesUpEarly(LogOf(Waited(key), Forgotten(key, lag) + [SettleWrite(1)]), m, p, key, lag);
    }
  }

  // --- a run for every lag ---

  /** A record in which either kind of submission may be made, and nothing came of it yet. */
  function Waited(key: Key): Cards {
    map[key.requestId := Card(true, true, Some(Rebuild(0, false, true)))]
  }

  /** Passes that begin after the send: what is missing to the limit, besides those before it and the one that was under
  way. */
  function After(key: Key, lag: nat): nat {
    Max(Limit(GivenUpState(key)) - 1 - lag, 0)
  }

  function GivenUpState(key: Key): State {
    if key.table.AnswerClaims? then NotRecorded else Unconfirmed
  }

  /** After its check a submission is held up while `lag` passes are counted. It is then claimed and sent while a pass
  is under way. */
  function SentLate(key: Key, lag: nat): seq<Step> {
    [Check(0, key, true)] + Passes(Waited(key), lag) + [Ask(0), PassBegin]
  }

  lemma SentLateLeaves(key: Key, lag: nat)
    ensures var w := Run(Init(Waited(key)), SentLate(key, lag));
      && w.rows == map[key := Row(0, 0, 0, FirstState(key.table))] && w.grants == [Grant(key, 0)]
      && w.submitters == map[0 := Holding(key, 0)] && w.settlers == map[]
      && w.cards == Waited(key) && w.readCount == lag
      && w.feed.Reading? && w.feed.began < |w.log|
  {
    var w := Init(Waited(key));
    var checked := Do(w, Check(0, key, true));
    assert checked.submitters == map[0 := Checked(key, 0, 0)];
    RunOne(w, Check(0, key, true));
    RunConcat(w, [Check(0, key, true)], Passes(Waited(key), lag));
    PassesContinue(checked, Waited(key), lag, 0);
    PassesAreCounted(checked, Waited(key), lag);
    var later := Run(checked, Passes(Waited(key), lag));
    RunConcat(w, [Check(0, key, true)] + Passes(Waited(key), lag), [Ask(0), PassBegin]);
    RunTwo(later, Ask(0), PassBegin);
    AskedAndBegun(later, key);
  }

  lemma RunTwo(w: World, a: Step, b: Step)
    ensures Run(w, [a, b]) == Do(Do(w, a), b)
  {
    assert [a, b] == [a] + [b];
    RunConcat(w, [a], [b]);
    RunOne(w, a);
    RunOne(Do(w, a), b);
  }

  lemma AskedAndBegun(w: World, key: Key)
    requires w.rows == map[] && w.grants == [] && w.submitters == map[0 := Checked(key, 0, 0)] && w.feed.Idle?
    ensures var v := Do(Do(w, Ask(0)), PassBegin);
      && v == w.(rows := map[key := Row(0, 0, 0, FirstState(key.table))], grants := [Grant(key, 0)],
                 submitters := map[0 := Holding(key, 0)], feed := Reading(|w.log| + 1),
                 log := w.log + [Granted(0, key, 0)] + [PassBegan])
  {
    var asked := Do(w, Ask(0));
    assert asked.submitters == map[0 := Holding(key, 0)];
  }

  lemma PassesStayIdle(w: World, cards: Cards, n: nat)
    requires w.feed.Idle? && w.cards == cards
    ensures Run(w, Passes(cards, n)).feed.Idle?
  {
    PassesAreCounted(w, cards, n);
  }

  /** `v` is what `w` becomes by `n` whole passes that began after the log's place `p`. */
  predicate Continues(w: World, v: World, p: nat, n: nat) {
    && w.log <= v.log && v.submitters == w.submitters && v.grants == w.grants
    && BegunAfter(v.log, p) == BegunAfter(w.log, p) + n
  }

  lemma ContinuesThrough(w: World, u: World, v: World, p: nat, n: nat)
    requires Continues(w, u, p, n) && Continues(u, v, p, 1)
    ensures Continues(w, v, p, n + 1)
  {
  }

  /** Passes only add to the log, and each of them begins after what is there. */
  lemma {:induction false} PassesContinue(w: World, cards: Cards, n: nat, p: nat)
    requires w.feed.Idle? && w.cards == cards && p < |w.log|
    ensures Continues(w, Run(w, Passes(cards, n)), p, n)
  {
    if n > 0 {
      var u := Run(w, Passes(cards, n - 1));
      PassesContinue(w, cards, n - 1, p);
      PassesStayIdle(w, cards, n - 1);
      OnePassContinues(u, cards, p);
      RunConcat(w, Passes(cards, n - 1), Pass(cards));
      ContinuesThrough(w, u, Run(u, Pass(cards)), p, n - 1);
    }
  }

  lemma OnePassContinues(w: World, cards: Cards, p: nat)
    requires w.feed.Idle? && p < |w.log|
    ensures Continues(w, Run(w, Pass(cards)), p, 1)
  {
    RunThree(w, PassBegin, PassWrite(cards), PassStamp);
    assert Run(w, Pass(cards)).log == w.log + [PassBegan] + [PassCounted(|w.log|)];
    OneMoreLogged(w.log, PassBegan, p);
    OneMoreLogged(w.log + [PassBegan], PassCounted(|w.log|), p);
  }

  lemma OneMoreLogged(log: Log, e: Event, p: nat)
    ensures BegunAfter(log + [e], p) == BegunAfter(log, p) + if e.PassCounted? && e.began > p then 1 else 0
  {
    assert (log + [e])[..|log|] == log;
  }

  lemma {:induction false} NoneBegunYet(log: Log, p: nat)
    requires LogOk(log) && |log| <= p + 1
    ensures BegunAfter(log, p) == 0
  {
    if log != [] {
      var n := |log| - 1;
      assert MayFollow(log[..n], log[n]);
      forall i | 0 <= i < n ensures MayFollow(log[..n][..i], log[..n][i]) {
        assert log[..n][..i] == log[..i];
      }
      NoneBegunYet(log[..n], p);
    }
  }

  /** The send, and the rest of the pass that was under way. */
  function SentMeanwhile(key: Key): seq<Step> {
    [Publish(0, false), PassWrite(Waited(key)), PassStamp]
  }

  lemma SentMeanwhileLeaves(w: World, key: Key)
    requires w.submitters == map[0 := Holding(key, 0)] && w.feed.Reading?
    ensures var v := Run(w, SentMeanwhile(key));
      v == w.(submitters := map[0 := Sent(key, 0)], cards := Waited(key), readCount := w.readCount + 1, feed := Idle,
              log := w.log + [Published(0, key)] + [PassCounted(w.feed.began)])
  {
    RunThree(w, Publish(0, false), PassWrite(Waited(key)), PassStamp);
    SendIs(w, key);
  }

  lemma SendIs(w: World, key: Key)
    requires w.submitters == map[0 := Holding(key, 0)]
    ensures Do(w, Publish(0, false)) == w.(submitters := map[0 := Sent(key, 0)], log := w.log + [Published(0, key)])
  {
  }

  /** The pass that was under way is not one of those that began after the send. */
  lemma NoneBegunMeanwhile(log: Log, key: Key, began: nat)
    requires LogOk(log) && began < |log|
    ensures BegunAfter(log + [Published(0, key)] + [PassCounted(began)], |log|) == 0
  {
    NoneBegunYet(log, |log|);
    OneMoreLogged(log, Published(0, key), |log|);
    OneMoreLogged(log + [Published(0, key)], PassCounted(began), |log|);
  }

  /** A settlement reads the one row there is and takes its snapshot. */
  function ClaimsWith(e: Entry): seq<Entry> {
    if e.key.table.AnswerClaims? then [e] else []
  }

  function MarksWith(e: Entry): seq<Entry> {
    if e.key.table.AnswerClaims? then [] else [e]
  }

  function InspectingRow(e: Entry): seq<Step> {
    [SettleReadClaims(1, ClaimsWith(e)), SettleReadMarks(1, MarksWith(e)), SettleSnapshot(1, true)]
  }

  lemma OnlyARow(e: Entry)
    ensures Selects(ClaimsWith(e), map[e.key := e.row], AnswerClaims)
    ensures Selects(MarksWith(e), map[e.key := e.row], RebuildMarks)
    ensures ClaimsWith(e) + MarksWith(e) == [e]
  {
  }

  lemma ReadsDecide(w: World, claims: seq<Entry>, marks: seq<Entry>)
    requires w.settlers == map[] && Selects(claims, w.rows, AnswerClaims) && Selects(marks, w.rows, RebuildMarks)
    ensures Run(w, [SettleReadClaims(1, claims), SettleReadMarks(1, marks), SettleSnapshot(1, true)])
         == w.(settlers :=
              map[1 := Decided(Seen(claims, |w.log|), Seen(marks, |w.log|), w.cards, Some(w.readCount))])
  {
    ClaimsAreRead(w, claims);
    MarksAreRead(w, claims, marks);
    SnapshotIsTaken(w, claims, marks);
    RunThree(w, SettleReadClaims(1, claims), SettleReadMarks(1, marks), SettleSnapshot(1, true));
  }

  lemma ClaimsAreRead(w: World, claims: seq<Entry>)
    requires w.settlers == map[] && Selects(claims, w.rows, AnswerClaims)
    ensures Do(w, SettleReadClaims(1, claims)) == w.(settlers := map[1 := ReadClaims(Seen(claims, |w.log|))])
  {
  }

  lemma MarksAreRead(w: World, claims: seq<Entry>, marks: seq<Entry>)
    requires Selects(marks, w.rows, RebuildMarks)
    ensures Do(w.(settlers := map[1 := ReadClaims(Seen(claims, |w.log|))]), SettleReadMarks(1, marks))
         == w.(settlers := map[1 := ReadBoth(Seen(claims, |w.log|), Seen(marks, |w.log|))])
  {
  }

  lemma SnapshotIsTaken(w: World, claims: seq<Entry>, marks: seq<Entry>)
    ensures Do(w.(settlers := map[1 := ReadBoth(Seen(claims, |w.log|), Seen(marks, |w.log|))]), SettleSnapshot(1, true))
         == w.(settlers :=
              map[1 := Decided(Seen(claims, |w.log|), Seen(marks, |w.log|), w.cards, Some(w.readCount))])
  {
  }

  lemma InspectingRowDecides(w: World, e: Entry)
    requires w.rows == map[e.key := e.row] && w.settlers == map[]
    ensures var v := Run(w, InspectingRow(e));
      && v == w.(settlers := v.settlers) && v.settlers.Keys == {1} && v.settlers[1].Decided?
      && Found(v.settlers[1]) == [e] && v.settlers[1].cards == w.cards && v.settlers[1].counted == Some(w.readCount)
      && ReadAt(v.settlers[1], e.key.table) == |w.log|
  {
    OnlyARow(e);
    ReadsDecide(w, ClaimsWith(e), MarksWith(e));
  }

  /** A settlement that gives up the one row there is notes it first. */
  lemma GivingUpIsNoted(w: World, e: Entry, state: State)
    requires w.rows == map[e.key := e.row] && 1 in w.settlers && w.settlers[1].Decided?
    requires Found(w.settlers[1]) == [e] && GaveUp(state)
    requires VerdictOn(e, w.settlers[1].cards, w.settlers[1].counted) == Become(state)
    ensures var log := DoSettleWrite(w, 1).log;
      w.log + [TimedOut(e.row.generation, state, ReadAt(w.settlers[1], e.key.table))] <= log
  {
    var s := w.settlers[1];
    var change := Change(Target(e.key, e.row.generation), state);
    DecideOne(e, s.cards, s.counted);
    assert [change][..0] == [];
    assert ChangeRows(w, [change], s) == ChangeRow(w, change, s);
  }

  /** Up to the settlement's write. */
  function Forgotten(key: Key, lag: nat): seq<Step> {
    SentLate(key, lag) + SentMeanwhile(key) + Passes(Waited(key), After(key, lag))
    + InspectingRow(Entry(key, Row(0, 0, 0, FirstState(key.table))))
  }

  /** What the settlement is about to write on, and what the log says by then. */
  ghost predicate AboutToGiveUp(w: World, key: Key, lag: nat, p: nat) {
    && w.rows == map[key := Row(0, 0, 0, FirstState(key.table))] && w.grants == [Grant(key, 0)]
    && w.submitters == map[0 := Sent(key, 0)]
    && 1 in w.settlers && w.settlers[1].Decided?
    && Found(w.settlers[1]) == [Entry(key, Row(0, 0, 0, FirstState(key.table)))]
    && w.settlers[1].cards == Waited(key) && w.settlers[1].counted == Some(lag + 1 + After(key, lag))
    && ReadAt(w.settlers[1], key.table) == |w.log|
    && p < |w.log| && w.log[p] == Published(0, key) && PassCount(w.log[..p]) == lag
    && BegunAfter(w.log, p) == After(key, lag)
  }

  lemma FourParts(w: World, a: seq<Step>, b: seq<Step>, c: seq<Step>, d: seq<Step>)
    ensures Run(w, a + b + c + d) == Run(Run(Run(Run(w, a), b), c), d)
  {
    RunConcat(w, a, b);
    RunConcat(w, a + b, c);
    RunConcat(w, a + b + c, d);
  }

  lemma ForgottenLeaves(key: Key, lag: nat) returns (p: nat)
    ensures AboutToGiveUp(Run(Init(Waited(key)), Forgotten(key, lag)), key, lag, p)
  {
    var cards, e := Waited(key), Entry(key, Row(0, 0, 0, FirstState(key.table)));
    var held := Run(Init(cards), SentLate(key, lag));
    SentLateLeaves(key, lag);
    RunKeeps(cards, SentLate(key, lag));
    p := |held.log|;
    SentMeanwhileLeaves(held, key);
    NoneBegunMeanwhile(held.log, key, held.feed.began);
    var sent := Run(held, SentMeanwhile(key));
    PassesContinue(sent, cards, After(key, lag), p);
    PassesAreCounted(sent, cards, After(key, lag));
    var waited := Run(sent, Passes(cards, After(key, lag)));
    InspectingRowDecides(waited, e);
    FourParts(Init(cards), SentLate(key, lag), SentMeanwhile(key), Passes(cards, After(key, lag)), InspectingRow(e));
    assert waited.log[..p] == sent.log[..p] == held.log;
    assert waited.log[p] == sent.log[p] == Published(0, key);
  }

  /** It gives up on fewer passes than promised: on those alone that were missing to the limit. */
  ghost predicate GivesUpEarly(log: Log, m: nat, p: nat, key: Key, lag: nat) {
    && GivesUp(log, m, p, lag) && log[p].key == key && log[m].state == GivenUpState(key)
    && BegunAfter(log[..m], p) == After(key, lag) < Limit(log[m].state) - 1
  }

  /** For every lag there is a run, from the start, in which a submission is given up although too few passes began
  after it was sent: only those that were missing to the limit. */
  lemma GivenUpEarly(key: Key, lag: nat) returns (m: nat, p: nat)
    requires lag > 0
    ensures GivesUpEarly(LogOf(Waited(key), Forgotten(key, lag) + [SettleWrite(1)]), m, p, key, lag)
  {
    var steps := Forgotten(key, lag);
    p := ForgottenLeaves(key, lag);
    m := |LogOf(Waited(key), steps)|;
    OneStepMore(Waited(key), steps, SettleWrite(1));
    WriteGivesUp(Waited(key), steps, Run(Init(Waited(key)), steps), key, lag, p);
  }

  lemma OneStepMore(cards: Cards, steps: seq<Step>, step: Step)
    ensures LogOf(cards, steps + [step]) == Do(Run(Init(cards), steps), step).log
  {
    RunConcat(Init(cards), steps, [step]);
    RunOne(Run(Init(cards), steps), step);
  }

  lemma WriteGivesUp(cards: Cards, steps: seq<Step>, w: World, key: Key, lag: nat, p: nat)
    requires w == Run(Init(cards), steps) && AboutToGiveUp(w, key, lag, p) && lag > 0
    ensures GivesUpEarly(DoSettleWrite(w, 1).log, |w.log|, p, key, lag)
  {
    LimitReached(w, key, lag, p);
    GivingUpIsNoted(w, Entry(key, Row(0, 0, 0, FirstState(key.table))), GivenUpState(key));
    var log := DoSettleWrite(w, 1).log;
    Grown(w.log, TimedOut(0, GivenUpState(key), |w.log|), log);
    CountOfCheckRead(cards, steps, w, log, key);
    EarlyInLog(log, |w.log|, p, lag, After(key, lag));
  }

  lemma Grown(before: Log, e: Event, log: Log)
    requires before + [e] <= log
    ensures |before| < |log| && log[|before|] == e && log[..|before|] == before && before <= log
    ensures forall i :: 0 <= i < |before| ==> log[i] == before[i] && log[..i] == before[..i]
  {
    assert log[..|before|] == (before + [e])[..|before|] == before;
  }

  lemma EarlyInLog(log: Log, m: nat, p: nat, lag: nat, begun: nat)
    requires p < m < |log| && log[p].Published? && log[m].TimedOut? && log[m].generation == log[p].generation
    requires log[m].readAt == m && CountRead(log, m, log[m].generation, 0)
    requires PassCount(log[..p]) == lag && BegunAfter(log[..m], p) == begun
    ensures GivesUp(log, m, p, lag)
  {
  }

  lemma LimitReached(w: World, key: Key, lag: nat, p: nat)
    requires AboutToGiveUp(w, key, lag, p) && lag > 0
    ensures VerdictOn(Entry(key, Row(0, 0, 0, FirstState(key.table))), w.settlers[1].cards, w.settlers[1].counted)
         == Become(GivenUpState(key))
  {
  }

  /** The count after the send was never stored, so the row carries the check's. */
  lemma CountOfCheckRead(cards: Cards, steps: seq<Step>, w: World, log: Log, key: Key)
    requires w == Run(Init(cards), steps) && w.log <= log
    requires w.submitters == map[0 := Sent(key, 0)] && w.grants == [Grant(key, 0)]
    ensures CountRead(log, |w.log|, 0, 0)
  {
    RunKeeps(cards, steps);
    assert SubmitterOk(w, w.submitters[0]);
    assert log[..|w.log|] == w.log;
    assert w.grants[0] == Grant(key, 0);
    assert Granted(0, key, 0) in w.log;
    var i :| 0 <= i < |w.log| && w.log[i] == Granted(0, key, 0);
    assert log[i] == w.log[i];
  }
}
