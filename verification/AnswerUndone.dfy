/** "Done" is not final in the protocol either: exactly when a settlement's write undoes it in a run, and a run in
which one does. */
module AnswerUndone {
  import opened Basics
  import opened AnswerStore
  import opened AnswerProtocol
  import opened AnswerInvariant
  import opened AnswerRuns
  import opened AnswerSettlement
  import opened AnswerTheorems

  // --- exactly when ---

  lemma WriteIsSettle(w: World, who: nat)
    requires who in w.settlers && w.settlers[who].Decided?
    ensures var s := w.settlers[who];
      DoSettleWrite(w, who).rows == Settle(w.rows, Found(s), s.cards, s.counted)
  {
    var s := w.settlers[who];
    SameSettlers(w, Deletes(Found(s), s.cards, s.counted), Updates(Found(s), s.cards, s.counted), s);
  }

  /** The claims and the marks are two tables, so a settlement reads no key twice. */
  lemma FoundOnce(w: World, s: Settler)
    requires s.Decided? && SettlerOk(w, s)
    ensures forall i, j :: 0 <= i < j < |Found(s)| ==> Found(s)[i].key != Found(s)[j].key
  {
    var claims, marks := s.claims.entries, s.marks.entries;
    forall i, j | 0 <= i < j < |Found(s)| ensures Found(s)[i].key != Found(s)[j].key {
      if i < |claims| <= j {
        assert claims[i] in claims && marks[j - |claims|] in marks;
      }
    }
  }

  /** In every run, a settlement's write puts a done mark back exactly when that settlement had read the mark's own
  submission as still requested, from a copy of the record that did not show the rebuild yet. */
  lemma WriteUndoesDoneExactlyWhen(cards: Cards, steps: seq<Step>, who: nat, key: Key)
    requires var w := Run(Init(cards), steps);
      && who in w.settlers && w.settlers[who].Decided?
      && key.table.RebuildMarks? && key in w.rows && w.rows[key].state.Done?
    ensures var w := Run(Init(cards), steps);
      var v, s := DoSettleWrite(w, who), w.settlers[who];
      && ((key in v.rows && !v.rows[key].state.Done?) <==>
            exists e :: e in s.marks.entries && e.key == key && e.row.generation == w.rows[key].generation
              && Undoes(e, s.cards, s.counted))
      && (key in v.rows && !v.rows[key].state.Done? ==> v.rows[key] == w.rows[key].(state := Unconfirmed))
  {
    var w := Run(Init(cards), steps);
    RunKeeps(cards, steps);
    var s := w.settlers[who];
    assert SettlerOk(w, s);
    WriteIsSettle(w, who);
    FoundOnce(w, s);
    DoneIsUndoneExactlyWhen(w.rows, Found(s), s.cards, s.counted, key);
    assert forall e: Entry | e.key == key :: e in Found(s) <==> e in s.marks.entries;
  }

  // --- a run in which one does ---

  lemma RunOne(w: World, step: Step)
    ensures Run(w, [step]) == Do(w, step)
  {
    assert [step][..0] == [];
  }

  lemma RunThree(w: World, a: Step, b: Step, c: Step)
    ensures Run(w, [a, b, c]) == Do(Do(Do(w, a), b), c)
  {
    assert [a, b, c] == [a] + ([b] + [c]);
    RunConcat(w, [a], [b] + [c]);
    RunConcat(Do(w, a), [b], [c]);
    RunOne(w, a);
    RunOne(Do(w, a), b);
    RunOne(Do(Do(w, a), b), c);
  }

  /** One successful pass of the feed. */
  function Pass(cards: Cards): seq<Step> {
    [PassBegin, PassWrite(cards), PassStamp]
  }

  lemma PassIsCounted(w: World, cards: Cards)
    requires w.feed.Idle?
    ensures var v := Run(w, Pass(cards));
      && v.rows == w.rows && v.settlers == w.settlers && v.cards == cards
      && v.readCount == w.readCount + 1 && v.feed.Idle?
  {
    RunThree(w, PassBegin, PassWrite(cards), PassStamp);
  }

  function Passes(cards: Cards, n: nat): seq<Step> {
    if n == 0 then [] else Passes(cards, n - 1) + Pass(cards)
  }

  lemma {:induction false} PassesAreCounted(w: World, cards: Cards, n: nat)
    requires w.feed.Idle? && w.cards == cards
    ensures var v := Run(w, Passes(cards, n));
      && v.rows == w.rows && v.settlers == w.settlers && v.cards == cards
      && v.readCount == w.readCount + n && v.feed.Idle?
  {
    if n > 0 {
      PassesAreCounted(w, cards, n - 1);
      RunConcat(w, Passes(cards, n - 1), Pass(cards));
      PassIsCounted(Run(w, Passes(cards, n - 1)), cards);
    }
  }

  /** A rebuild is asked for, sent, and its read count stored. */
  function Asking(key: Key): seq<Step> {
    [Check(0, key, true), Ask(0), Publish(0, false)] + [ReadCount(0), SetCount(0), AbandonSubmit(0)]
  }

  lemma AskingMarks(cards: Cards, key: Key)
    requires key.table.RebuildMarks? && MayAsk(cards, key, true)
    ensures var v := Run(Init(cards), Asking(key));
      && v.rows == map[key := Row(0, 0, cards[key.requestId].rebuild.value.count, Requested)]
      && v.settlers == map[] && v.cards == cards && v.readCount == 0 && v.feed.Idle?
  {
    var w := Init(cards);
    var row := Row(0, 0, cards[key.requestId].rebuild.value.count, Requested);
    RunConcat(w, [Check(0, key, true), Ask(0), Publish(0, false)], [ReadCount(0), SetCount(0), AbandonSubmit(0)]);
    RunThree(w, Check(0, key, true), Ask(0), Publish(0, false));
    var sent := Do(Do(Do(w, Check(0, key, true)), Ask(0)), Publish(0, false));
    assert sent.rows == map[key := row] && sent.submitters == map[0 := Sent(key, 0)];
    RunThree(sent, ReadCount(0), SetCount(0), AbandonSubmit(0));
    assert Do(sent, ReadCount(0)).submitters == map[0 := Counted(key, 0, 0)];
    assert row.(readCount := 0) == row;
  }

  /** A settlement reads the one mark there is and takes its snapshot. */
  function Inspecting(who: nat, e: Entry): seq<Step> {
    [SettleReadClaims(who, []), SettleReadMarks(who, [e]), SettleSnapshot(who, true)]
  }

  lemma OnlyAMark(key: Key, row: Row)
    requires key.table.RebuildMarks?
    ensures Selects([], map[key := row], AnswerClaims)
    ensures Selects([Entry(key, row)], map[key := row], RebuildMarks)
  {
  }

  lemma InspectingDecides(w: World, who: nat, key: Key, row: Row)
    requires key.table.RebuildMarks? && w.rows == map[key := row] && who !in w.settlers
    ensures var v := Run(w, Inspecting(who, Entry(key, row)));
      v == w.(settlers := w.settlers[who :=
        Decided(Seen([], |w.log|), Seen([Entry(key, row)], |w.log|), w.cards, Some(w.readCount))])
  {
    var e := Entry(key, row);
    OnlyAMark(key, row);
    var claims, marks := Seen([], |w.log|), Seen([e], |w.log|);
    var one := Do(w, SettleReadClaims(who, []));
    assert one == w.(settlers := w.settlers[who := ReadClaims(claims)]);
    var two := Do(one, SettleReadMarks(who, [e]));
    assert two == w.(settlers := w.settlers[who := ReadBoth(claims, marks)]);
    RunThree(w, SettleReadClaims(who, []), SettleReadMarks(who, [e]), SettleSnapshot(who, true));
  }

  /** A settlement that read the one mark gives it its verdict, if its submission still holds it. */
  lemma WriteOnMark(w: World, who: nat, e: Entry, held: Row)
    requires w.rows == map[e.key := held] && held.generation == e.row.generation
    requires who in w.settlers && w.settlers[who].Decided? && Found(w.settlers[who]) == [e]
    requires VerdictOn(e, w.settlers[who].cards, w.settlers[who].counted).Become?
    ensures var v, s := DoSettleWrite(w, who), w.settlers[who];
      && v.rows == map[e.key := held.(state := VerdictOn(e, s.cards, s.counted).state)]
      && v.settlers == w.settlers - {who}
  {
    var s := w.settlers[who];
    WriteIsSettle(w, who);
    SameSettlers(w, Deletes(Found(s), s.cards, s.counted), Updates(Found(s), s.cards, s.counted), s);
    WriteOne(e.key, e.row, held, s.cards, s.counted);
  }

  /** The mark as it was asked for. */
  function AskedMark(cards: Cards, key: Key): Entry
    requires key.table.RebuildMarks? && MayAsk(cards, key, true)
  {
    Entry(key, Row(0, 0, cards[key.requestId].rebuild.value.count, Requested))
  }

  /** A settlement reads the mark and the older record; the feed then copies the newer one, and a second settlement
  reads the mark as well. */
  function BothRead(older: Cards, newer: Cards, key: Key): seq<Step>
    requires key.table.RebuildMarks? && MayAsk(older, key, true)
  {
    var e := AskedMark(older, key);
    Asking(key) + Passes(older, REBUILD_UNCONFIRMED_AFTER) + Inspecting(1, e) + Pass(newer) + Inspecting(2, e)
  }

  /** Both settlements hold the mark as requested; the first has the older record, the second the newer. */
  predicate TwoWriters(w: World, older: Cards, newer: Cards, e: Entry) {
    && w.rows == map[e.key := e.row]
    && w.settlers.Keys == {1, 2} && w.settlers[1].Decided? && w.settlers[2].Decided?
    && Found(w.settlers[1]) == [e] && w.settlers[1].cards == older
    && w.settlers[1].counted == Some(REBUILD_UNCONFIRMED_AFTER)
    && Found(w.settlers[2]) == [e] && w.settlers[2].cards == newer
  }

  lemma BothHaveRead(older: Cards, newer: Cards, key: Key)
    requires key.table.RebuildMarks? && MayAsk(older, key, true)
    ensures TwoWriters(Run(Init(older), BothRead(older, newer, key)), older, newer, AskedMark(older, key))
  {
    var e := AskedMark(older, key);
    var asked := Run(Init(older), Asking(key));
    AskingMarks(older, key);
    var passes := Passes(older, REBUILD_UNCONFIRMED_AFTER);
    PassesAreCounted(asked, older, REBUILD_UNCONFIRMED_AFTER);
    var counted := Run(asked, passes);
    InspectingDecides(counted, 1, key, e.row);
    var first := Run(counted, Inspecting(1, e));
    PassIsCounted(first, newer);
    var copied := Run(first, Pass(newer));
    InspectingDecides(copied, 2, key, e.row);
    RunConcat(Init(older), Asking(key), passes);
    RunConcat(Init(older), Asking(key) + passes, Inspecting(1, e));
    RunConcat(Init(older), Asking(key) + passes + Inspecting(1, e), Pass(newer));
    RunConcat(Init(older), Asking(key) + passes + Inspecting(1, e) + Pass(newer), Inspecting(2, e));
  }

  lemma FirstDoneThenNot(e: Entry, older: Cards, newer: Cards, counted: Option<nat>, later: Option<nat>)
    requires e.key.table.RebuildMarks? && Undoes(e, older, counted)
    requires ShowsRebuild(newer, e.key) && newer[e.key.requestId].rebuild.value.count > e.row.rebuilds
    ensures VerdictOn(e, newer, later) == Become(Done)
    ensures VerdictOn(e, older, counted) == Become(Unconfirmed)
  {
  }

  lemma SecondThenFirst(w: World, older: Cards, newer: Cards, e: Entry)
    requires TwoWriters(w, older, newer, e) && e.key.table.RebuildMarks? && Undoes(e, older, w.settlers[1].counted)
    requires ShowsRebuild(newer, e.key) && newer[e.key.requestId].rebuild.value.count > e.row.rebuilds
    ensures var done := Do(w, SettleWrite(2));
      && done.rows == map[e.key := e.row.(state := Done)]
      && Do(done, SettleWrite(1)).rows == map[e.key := e.row.(state := Unconfirmed)]
  {
    FirstDoneThenNot(e, older, newer, w.settlers[1].counted, w.settlers[2].counted);
    WriteOnMark(w, 2, e, e.row);
    var done := Do(w, SettleWrite(2));
    assert done.settlers[1] == w.settlers[1];
    WriteOnMark(done, 1, e, e.row.(state := Done));
  }

  /** For any card whose rebuild may be asked for now, and any later record that shows the rebuild finished, there is
  a run from the start in which the mark is done and one more write leaves it "unconfirmed". */
  lemma DoneIsUndoneInARun(older: Cards, newer: Cards, key: Key)
    requires key.table.RebuildMarks? && MayAsk(older, key, true) && !older[key.requestId].rebuild.value.wanted
    requires ShowsRebuild(newer, key)
    requires newer[key.requestId].rebuild.value.count > older[key.requestId].rebuild.value.count
    ensures var steps := BothRead(older, newer, key) + [SettleWrite(2)];
      var row := AskedMark(older, key).row;
      && Run(Init(older), steps).rows == map[key := row.(state := Done)]
      && Run(Init(older), steps + [SettleWrite(1)]).rows == map[key := row.(state := Unconfirmed)]
  {
    var steps := BothRead(older, newer, key);
    var w := Run(Init(older), steps);
    BothHaveRead(older, newer, key);
    SecondThenFirst(w, older, newer, AskedMark(older, key));
    RunConcat(Init(older), steps, [SettleWrite(2)]);
    RunOne(w, SettleWrite(2));
    RunConcat(Init(older), steps + [SettleWrite(2)], [SettleWrite(1)]);
    RunOne(Do(w, SettleWrite(2)), SettleWrite(1));
  }
}
