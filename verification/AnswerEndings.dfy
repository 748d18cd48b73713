/** What the copy of the record showed when a submission was taken up and when a settlement removed it, in every run;
and when a submission can be taken up. */
module AnswerEndings {
  import opened Basics
  import opened AnswerStore
  import opened AnswerProtocol
  import opened AnswerInvariant
  import opened AnswerRuns
  import opened AnswerSettlement
  import opened AnswerTheorems

  /** The world before a step of a run. */
  function At(cards: Cards, steps: seq<Step>, n: nat): World
    requires n <= |steps|
  {
    Run(Init(cards), steps[..n])
  }

  lemma NextWorld(cards: Cards, steps: seq<Step>, n: nat)
    requires n < |steps|
    ensures At(cards, steps, n + 1) == Do(At(cards, steps, n), steps[n])
  {
    assert steps[..n + 1][..n] == steps[..n];
  }

  /** The step of a run that logged an event. */
  predicate LoggedBy(cards: Cards, steps: seq<Step>, i: nat, n: nat) {
    n < |steps| && |At(cards, steps, n).log| <= i < |At(cards, steps, n + 1).log|
  }

  lemma LogKeeps(cards: Cards, steps: seq<Step>, n: nat)
    requires n <= |steps|
    ensures At(cards, steps, n).log <= LogOf(cards, steps)
  {
    assert steps[..n] + steps[n..] == steps;
    RunConcat(Init(cards), steps[..n], steps[n..]);
    LogGrows(At(cards, steps, n), steps[n..]);
  }

  /** Every event was logged by one of the steps. */
  lemma {:induction false} StepBehind(cards: Cards, steps: seq<Step>, i: nat, upTo: nat) returns (n: nat)
    requires upTo <= |steps| && i < |At(cards, steps, upTo).log|
    ensures n < upTo && LoggedBy(cards, steps, i, n)
    decreases upTo
  {
    assert steps[..0] == [];
    if i < |At(cards, steps, upTo - 1).log| {
      n := StepBehind(cards, steps, i, upTo - 1);
    } else {
      n := upTo - 1;
    }
  }

  lemma LoggedIs(cards: Cards, steps: seq<Step>, i: nat, n: nat)
    requires LoggedBy(cards, steps, i, n)
    ensures i < |LogOf(cards, steps)| && LogOf(cards, steps)[i] == At(cards, steps, n + 1).log[i]
  {
    NextWorld(cards, steps, n);
    LogKeeps(cards, steps, n + 1);
  }

  // --- a claim or mark is granted on an open card ---

  /** The record's copy offers what is asked for. */
  predicate Offered(cards: Cards, key: Key) {
    && key.requestId in cards
    && cards[key.requestId].open
    && cards[key.requestId].answerable
    && (key.table.RebuildMarks? ==>
          cards[key.requestId].rebuild.Some? && cards[key.requestId].rebuild.value.offered)
  }

  lemma OnlyChecksLook(w: World, step: Step, i: nat)
    requires |w.log| <= i < |Do(w, step).log| && Do(w, step).log[i].Looked?
    ensures Offered(w.cards, Do(w, step).log[i].key) && Do(w, step).log[i].readCount == w.readCount
  {
    if step.SettleWrite? && step.who in w.settlers && w.settlers[step.who].Decided? {
      SettlementLogs(w, step.who, i);
    }
  }

  /** Every claim and every rebuild mark was granted on a check at which the copy showed the card open and answerable
  (and the rebuild offered), and carries the read count of that moment. */
  lemma GrantedWhenOffered(cards: Cards, steps: seq<Step>, i: nat)
    requires i < |LogOf(cards, steps)| && LogOf(cards, steps)[i].Granted?
    ensures var e := LogOf(cards, steps)[i];
      exists n: nat :: n < |steps| && |At(cards, steps, n).log| < i
        && Offered(At(cards, steps, n).cards, e.key) && e.checkCount == At(cards, steps, n).readCount
  {
    RunKeeps(cards, steps);
    var log := LogOf(cards, steps);
    var c := CheckBefore(log, i);
    assert steps[..|steps|] == steps;
    var n := StepBehind(cards, steps, c, |steps|);
    NextWorld(cards, steps, n);
    LoggedIs(cards, steps, c, n);
    OnlyChecksLook(At(cards, steps, n), steps[n], c);
  }

  lemma CheckBefore(log: Log, i: nat) returns (c: nat)
    requires LogOk(log) && i < |log| && log[i].Granted?
    ensures c < i && log[c] == Looked(log[i].key, log[i].checkCount)
  {
    assert MayFollow(log[..i], log[i]);
    c :| 0 <= c < i && log[..i][c] == Looked(log[i].key, log[i].checkCount);
  }

  // --- a settlement removes only what its snapshot showed gone ---

  lemma {:induction false} DropsLog(w: World, deletes: seq<Target>, i: nat)
    requires |w.log| <= i < |DropRows(w, deletes).log|
    ensures var e := DropRows(w, deletes).log[i];
      e.Ended? && e.how.BySettledDelete? && Target(e.key, e.generation) in deletes
  {
    var n := |deletes| - 1;
    if i < |DropRows(w, deletes[..n]).log| {
      DropsLog(w, deletes[..n], i);
    }
  }

  lemma {:induction false} ChangesLog(w: World, updates: seq<Change>, s: Settler, i: nat)
    requires s.Decided? && |w.log| <= i < |ChangeRows(w, updates, s).log|
    ensures var e := ChangeRows(w, updates, s).log[i];
      e.TimedOut? || (e.Ended? && e.how.ByMark?)
  {
    var n := |updates| - 1;
    if i < |ChangeRows(w, updates[..n], s).log| {
      ChangesLog(w, updates[..n], s, i);
    }
  }

  lemma SettlementLogs(w: World, who: nat, i: nat)
    requires who in w.settlers && w.settlers[who].Decided? && |w.log| <= i < |DoSettleWrite(w, who).log|
    ensures var e, s := DoSettleWrite(w, who).log[i], w.settlers[who];
      && (e.TimedOut? || e.Ended?)
      && (e.Ended? ==> !e.how.ByRelease?)
      && (e.Ended? && e.how.BySettledDelete? ==> Gone(s.cards, e.key))
  {
    var s := w.settlers[who];
    var deletes, updates := Deletes(Found(s), s.cards, s.counted), Updates(Found(s), s.cards, s.counted);
    var u := DropRows(w, deletes);
    if i < |u.log| {
      ChangesGrow(u, updates, s);
      DropsLog(w, deletes, i);
      DeletedIsGone(s, Target(u.log[i].key, u.log[i].generation));
    } else {
      ChangesLog(u, updates, s, i);
    }
  }

  lemma DeletedIsGone(s: Settler, t: Target)
    requires s.Decided? && t in Deletes(Found(s), s.cards, s.counted)
    ensures Gone(s.cards, t.key)
  {
    DecisionsAre(Found(s), s.cards, s.counted);
  }

  lemma OnlySettlementsDelete(w: World, step: Step, i: nat)
    requires |w.log| <= i < |Do(w, step).log|
    requires Do(w, step).log[i].Ended? && Do(w, step).log[i].how.BySettledDelete?
    ensures step.SettleWrite? && step.who in w.settlers && w.settlers[step.who].Decided?
    ensures Gone(w.settlers[step.who].cards, Do(w, step).log[i].key)
  {
    if step.SettleWrite? && step.who in w.settlers && w.settlers[step.who].Decided? {
      SettlementLogs(w, step.who, i);
    }
  }

  /** What a settlement decides from is the record's copy as it was at some earlier moment. */
  lemma {:induction false} SnapshotWasTheCopy(cards: Cards, steps: seq<Step>, who: nat) returns (k: nat)
    requires who in Run(Init(cards), steps).settlers && Run(Init(cards), steps).settlers[who].Decided?
    ensures k < |steps| && steps[k].SettleSnapshot? && steps[k].who == who
    ensures var w, s := At(cards, steps, k), Run(Init(cards), steps).settlers[who];
      w.cards == s.cards && s.counted == if steps[k].current then Some(w.readCount) else None
  {
    if steps != [] {
      var n := |steps| - 1;
      var w := Run(Init(cards), steps[..n]);
      if steps[n] == SettleSnapshot(who, true) || steps[n] == SettleSnapshot(who, false) {
        if w.settlers[who].Decided? {
          k := SnapshotWasTheCopy(cards, steps[..n], who);
        } else {
          k := n;
        }
      } else {
        SettlersStay(w, steps[n], who);
        k := SnapshotWasTheCopy(cards, steps[..n], who);
      }
      assert steps[..n][..k] == steps[..k];
    }
  }

  lemma SettlersStay(w: World, step: Step, who: nat)
    requires who in Do(w, step).settlers && Do(w, step).settlers[who].Decided?
    requires !(step.SettleSnapshot? && step.who == who)
    ensures who in w.settlers && w.settlers[who] == Do(w, step).settlers[who]
  {
    if step.SettleWrite? && step.who in w.settlers && w.settlers[step.who].Decided? {
      var s := w.settlers[step.who];
      SameSettlers(w, Deletes(Found(s), s.cards, s.counted), Updates(Found(s), s.cards, s.counted), s);
    }
  }

  /** A submission that a settlement removed was removed by a settlement that had seen, in the copy as it was at some
  earlier moment of the run, that the card was missing or closed (or, for a mark, that its rebuild was no longer on
  offer). */
  lemma RemovedWhenGone(cards: Cards, steps: seq<Step>, i: nat)
    requires i < |LogOf(cards, steps)| && LogOf(cards, steps)[i].Ended? && LogOf(cards, steps)[i].how.BySettledDelete?
    ensures exists n: nat, k: nat ::
      && LoggedBy(cards, steps, i, n) && steps[n].SettleWrite?
      && k < n && Gone(At(cards, steps, k).cards, LogOf(cards, steps)[i].key)
  {
    assert steps[..|steps|] == steps;
    var n := StepBehind(cards, steps, i, |steps|);
    NextWorld(cards, steps, n);
    LoggedIs(cards, steps, i, n);
    OnlySettlementsDelete(At(cards, steps, n), steps[n], i);
    var k := SnapshotWasTheCopy(cards, steps[..n], steps[n].who);
    assert steps[..n][..k] == steps[..k];
    assert LoggedBy(cards, steps, i, n) && Gone(At(cards, steps, k).cards, LogOf(cards, steps)[i].key);
  }

  // --- a settlement gives up only on a fresh copy ---

  lemma {:induction false} TimedOutInChanges(w: World, updates: seq<Change>, s: Settler, i: nat) returns (c: Change)
    requires s.Decided? && |w.log| <= i < |ChangeRows(w, updates, s).log| && ChangeRows(w, updates, s).log[i].TimedOut?
    ensures c in updates && GaveUp(c.state)
  {
    var n := |updates| - 1;
    if i < |ChangeRows(w, updates[..n], s).log| {
      c := TimedOutInChanges(w, updates[..n], s, i);
    } else {
      c := updates[n];
    }
  }

  lemma SettlementCounted(w: World, who: nat, i: nat)
    requires who in w.settlers && w.settlers[who].Decided? && |w.log| <= i < |DoSettleWrite(w, who).log|
    requires DoSettleWrite(w, who).log[i].TimedOut?
    ensures w.settlers[who].counted.Some?
  {
    var s := w.settlers[who];
    var deletes, updates := Deletes(Found(s), s.cards, s.counted), Updates(Found(s), s.cards, s.counted);
    var u := DropRows(w, deletes);
    if i < |u.log| {
      ChangesGrow(u, updates, s);
      DropsLog(w, deletes, i);
    }
    var c := TimedOutInChanges(u, updates, s, i);
    DecisionsAre(Found(s), s.cards, s.counted);
  }

  lemma OnlySettlementsGiveUp(w: World, step: Step, i: nat)
    requires |w.log| <= i < |Do(w, step).log| && Do(w, step).log[i].TimedOut?
    ensures step.SettleWrite? && step.who in w.settlers && w.settlers[step.who].Decided?
    ensures w.settlers[step.who].counted.Some?
  {
    if step.SettleWrite? && step.who in w.settlers && w.settlers[step.who].Decided? {
      SettlementCounted(w, step.who, i);
    }
  }

  /** A settlement gives a submission up only if the copy was fresh when it took its snapshot: the passes of a feed that
  has fallen behind are not counted. */
  lemma GivenUpOnAFreshCopy(cards: Cards, steps: seq<Step>, i: nat)
    requires i < |LogOf(cards, steps)| && LogOf(cards, steps)[i].TimedOut?
    ensures exists n: nat, k: nat ::
      LoggedBy(cards, steps, i, n) && steps[n].SettleWrite? && k < n && steps[k] == SettleSnapshot(steps[n].who, true)
  {
    assert steps[..|steps|] == steps;
    var n := StepBehind(cards, steps, i, |steps|);
    NextWorld(cards, steps, n);
    LoggedIs(cards, steps, i, n);
    OnlySettlementsGiveUp(At(cards, steps, n), steps[n], i);
    var k := SnapshotWasTheCopy(cards, steps[..n], steps[n].who);
    assert steps[..n][..k] == steps[..k];
    assert LoggedBy(cards, steps, i, n) && steps[k] == SettleSnapshot(steps[n].who, true);
  }

  // --- a card on offer can be taken, and a send that raised lets the next press through ---

  /** Neither a claim that waits nor a rebuild asked for. */
  predicate Free(rows: Rows, key: Key) {
    key in rows ==> rows[key].state != Waiting && rows[key].state != Requested
  }

  /** In any world, a newcomer that checks and then asks is granted its submission if and only if the copy is fresh, the
  card is on offer and nobody's submission stands; the row it gets is its own. */
  lemma GrantedExactlyWhenFree(w: World, who: nat, key: Key, current: bool)
    requires who !in w.submitters
    ensures var v := Do(Do(w, Check(who, key, current)), Ask(who));
      if current && Offered(w.cards, key) && Free(w.rows, key) then
        && |v.log| == |w.log| + 2 && v.log[|w.log| + 1] == Granted(|w.grants|, key, w.readCount)
        && key in v.rows && v.rows[key].generation == |w.grants| && v.rows[key].readCount == w.readCount
        && v.rows[key].rebuilds == (if key.table.RebuildMarks? then w.cards[key.requestId].rebuild.value.count else 0)
        && v.rows[key].state == if key.table.AnswerClaims? then Waiting else Requested
      else v.rows == w.rows && forall i :: |w.log| <= i < |v.log| ==> !v.log[i].Granted?
  {
  }

  /** A send that raised takes its own row away, so that the next press is not turned away by it; a later submission's
  row is left alone. */
  lemma RaisedSendLetsGo(w: World, who: nat)
    requires who in w.submitters && w.submitters[who].Holding?
    ensures var s, v := w.submitters[who], Do(Do(w, Publish(who, true)), Release(who));
      && (s.key in w.rows && w.rows[s.key].generation == s.generation ==> s.key !in v.rows && Free(v.rows, s.key))
      && (forall key :: key in w.rows && (key != s.key || w.rows[key].generation != s.generation) ==>
            key in v.rows && v.rows[key] == w.rows[key])
  {
  }
}
