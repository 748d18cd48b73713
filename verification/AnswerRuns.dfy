/** The settlement's and the feed's steps, and with them every run. */
module AnswerRuns {
  import opened Basics
  import opened AnswerStore
  import opened AnswerProtocol
  import opened AnswerInvariant
  import opened AnswerSteps

  // --- a settlement's updates ---

  /** What the settlement saw that justifies one update. */
  ghost predicate Justifies(s: Settler, c: Change, e: Entry)
    requires s.Decided?
  {
    && e.key == c.target.key && e.row.generation == c.target.generation
    && e in (if e.key.table.AnswerClaims? then s.claims.entries else s.marks.entries)
    && Fits(c.target.key.table, c.state) && !Blocks(c.state)
    && (GaveUp(c.state) ==> Enough(e.row, s.counted, Limit(c.state)))
  }

  ghost predicate Justified(s: Settler, c: Change)
    requires s.Decided?
  {
    exists e :: Justifies(s, c, e)
  }

  lemma UpdatesAreJustified(w: World, s: Settler)
    requires s.Decided? && SettlerOk(w, s)
    ensures forall c :: c in Updates(Found(s), s.cards, s.counted) ==> Justified(s, c)
  {
    DecisionsAre(Found(s), s.cards, s.counted);
    forall c | c in Updates(Found(s), s.cards, s.counted) ensures Justified(s, c) {
      // The settlement's own verdict on a row it found is the reason.
      var e :| e in Found(s) && c.target == Target(e.key, e.row.generation)
        && VerdictOn(e, s.cards, s.counted) == Become(c.state);
      FoundWhereItStood(w, s, e);
      VerdictIsJust(e, s.cards, s.counted);
      assert Justifies(s, c, e);
    }
  }

  lemma FoundWhereItStood(w: World, s: Settler, e: Entry)
    requires s.Decided? && SettlerOk(w, s) && e in Found(s)
    ensures e in (if e.key.table.AnswerClaims? then s.claims.entries else s.marks.entries)
  {
  }

  lemma VerdictIsJust(e: Entry, cards: Cards, counted: Option<nat>)
    requires VerdictOn(e, cards, counted).Become?
    ensures var state := VerdictOn(e, cards, counted).state;
      Fits(e.key.table, state) && !Blocks(state) && (GaveUp(state) ==> Enough(e.row, counted, Limit(state)))
  {
  }

  lemma TimedOutIsFair(w: World, s: Settler, c: Change, e: Entry)
    requires Inv(w) && s.Decided? && SettlerOk(w, s) && Justifies(s, c, e) && GaveUp(c.state)
    ensures MayFollow(w.log, TimedOut(c.target.generation, c.state, ReadAt(s, c.target.key.table)))
    ensures c.target.generation < |w.grants|
    ensures w.readCount >= w.grants[c.target.generation].checkCount + Limit(c.state)
  {
    var g := c.target.generation;
    var at := ReadAt(s, e.key.table);
    assert CountKnown(w.log[..at], w.grants, e.key, e.row);
    assert Granted(g, e.key, w.grants[g].checkCount) in w.log;
    assert WasGranted(w.log, g, e.key);
  }

  lemma ChangedEndingsOk(w: World, v: World, c: Change, e: Event)
    requires EndingsOk(w) && RowsOk(w) && Holds(w.rows, c.target) && Blocks(w.rows[c.target.key].state)
    requires !Blocks(c.state) && v.rows == Changed(w.rows, c) && v.grants == w.grants
    requires e.Ended? && e.generation == c.target.generation && Logs(w, v, e)
    ensures EndingsOk(v)
  {
    assert CountKnown(w.log, w.grants, c.target.key, w.rows[c.target.key]);
    forall g | 0 <= g < |v.grants| ensures HasEnded(v.log, g) <==> !StillBlocks(v, g) {
      assert HasEnded(w.log, g) <==> !StillBlocks(w, g);
      EndedGrows(w.log, e, g);
    }
  }

  lemma ChangedRowsOk(w: World, v: World, c: Change)
    requires RowsOk(w) && Holds(w.rows, c.target) && v.rows == Changed(w.rows, c) && v.grants == w.grants
    requires v.readCount == w.readCount && Fits(c.target.key.table, c.state)
    requires v.log == w.log || exists e: Event :: !e.CountSet? && Logs(w, v, e)
    requires c.target.generation < |w.grants|
    requires GaveUp(c.state) ==> GivenUpFairly(w, c.target.generation, c.state)
    ensures RowsOk(v)
  {
    if v.log != w.log {
      var e: Event :| !e.CountSet? && Logs(w, v, e);
      Append(w.log, e);
    }
    forall key | key in v.rows
      ensures CountKnown(v.log, v.grants, key, v.rows[key])
    {
      assert CountKnown(w.log, w.grants, key, w.rows[key]);
    }
  }

  /** The row takes its new state; if it turned others away until now, that ends. */
  function Settled(w: World, c: Change): World {
    w.(rows := Changed(w.rows, c), log := w.log + EndOf(w.rows, c.target, ByMark(c.state)))
  }

  lemma SettledEnds(w: World, v: World, c: Change, e: Event)
    requires Inv(w) && Holds(w.rows, c.target) && Blocks(w.rows[c.target.key].state)
    requires Fits(c.target.key.table, c.state) && !Blocks(c.state) && v == Settled(w, c)
    requires e == Ended(c.target.generation, c.target.key, ByMark(c.state))
    requires c.target.generation < |w.grants|
    requires GaveUp(c.state) ==> GivenUpFairly(w, c.target.generation, c.state)
    ensures Inv(v) && Extends(w, v)
  {
    assert Logs(w, v, e);
    EndIsFair(w, c.target, ByMark(c.state));
    AppendOk(w.log, e);
    LogsExtends(w, v, e);
    GrantsKept(w, v, e);
    ChangedEndingsOk(w, v, c, e);
    ChangedRowsOk(w, v, c);
    FeedKept(w, v, e);
    NobodyMoves(w, v, e);
    SettlersKept(w, v);
  }

  lemma SettledQuietly(w: World, v: World, c: Change)
    requires Inv(w) && Holds(w.rows, c.target) && !Blocks(w.rows[c.target.key].state)
    requires Fits(c.target.key.table, c.state) && !Blocks(c.state) && v == Settled(w, c)
    requires c.target.generation < |w.grants|
    requires GaveUp(c.state) ==> GivenUpFairly(w, c.target.generation, c.state)
    ensures Inv(v) && Extends(w, v)
  {
    var rows := Changed(w.rows, c);
    assert v == w.(rows := rows) by {
      assert w.log + [] == w.log;
    }
    ChangedRowsOk(w, v, c);
    QuietEndingsOk(w, v, c);
    OnlyRowsMove(w, v, rows);
  }

  /** What does not speak of the rows is kept when only the rows change. */
  lemma OnlyRowsMove(w: World, v: World, rows: Rows)
    requires Inv(w) && v == w.(rows := rows) && EndingsOk(v) && RowsOk(v)
    ensures Inv(v) && Extends(w, v)
  {
    SameGrants(w, v);
    SameFeed(w, v);
    SameSubmitters(w, v);
    SettlersKept(w, v);
  }

  lemma QuietEndingsOk(w: World, v: World, c: Change)
    requires EndingsOk(w) && RowsOk(w) && Holds(w.rows, c.target) && !Blocks(w.rows[c.target.key].state)
    requires !Blocks(c.state) && v == w.(rows := Changed(w.rows, c))
    ensures EndingsOk(v)
  {
    assert CountKnown(w.log, w.grants, c.target.key, w.rows[c.target.key]);
    forall g | 0 <= g < |v.grants| ensures HasEnded(v.log, g) <==> !StillBlocks(v, g) {
      assert HasEnded(w.log, g) <==> !StillBlocks(w, g);
    }
  }

  lemma TimedOutKeeps(w: World, v: World, e: Event)
    requires Inv(w) && e.TimedOut? && MayFollow(w.log, e) && v == w.(log := w.log + [e])
    ensures Inv(v) && Extends(w, v)
  {
    AppendOk(w.log, e);
    LogsExtends(w, v, e);
    GrantsKept(w, v, e);
    EndingsKept(w, v, e);
    RowsKept(w, v, e);
    FeedKept(w, v, e);
    NobodyMoves(w, v, e);
    SettlersKept(w, v);
  }

  lemma SettledKeeps(w: World, c: Change)
    requires Inv(w) && Holds(w.rows, c.target) && Fits(c.target.key.table, c.state) && !Blocks(c.state)
    requires c.target.generation < |w.grants|
    requires GaveUp(c.state) ==> GivenUpFairly(w, c.target.generation, c.state)
    ensures Inv(Settled(w, c)) && Extends(w, Settled(w, c))
  {
    if Blocks(w.rows[c.target.key].state) {
      SettledEnds(w, Settled(w, c), c, Ended(c.target.generation, c.target.key, ByMark(c.state)));
    } else {
      SettledQuietly(w, Settled(w, c), c);
    }
  }

  lemma GivingUpKeeps(w: World, c: Change, s: Settler, e: Entry, t: Event)
    requires Inv(w) && s.Decided? && SettlerOk(w, s) && Justifies(s, c, e) && GaveUp(c.state)
    requires t == TimedOut(c.target.generation, c.state, ReadAt(s, c.target.key.table))
    ensures var u := w.(log := w.log + [t]);
      Inv(u) && Extends(w, u) && c.target.generation < |u.grants| && GivenUpFairly(u, c.target.generation, c.state)
  {
    TimedOutIsFair(w, s, c, e);
    TimedOutKeeps(w, w.(log := w.log + [t]), t);
    assert t in w.log + [t];
  }

  /** An update is the note that the settlement gave up, if it did, and then the row's new state. */
  lemma ChangeIs(w: World, c: Change, s: Settler, t: Event)
    requires s.Decided? && Holds(w.rows, c.target)
    requires t == TimedOut(c.target.generation, c.state, ReadAt(s, c.target.key.table))
    ensures ChangeRow(w, c, s) == Settled(if GaveUp(c.state) then w.(log := w.log + [t]) else w, c)
  {
    assert w.log + [] == w.log;
  }

  lemma ChangeKeeps(w: World, c: Change, s: Settler)
    requires Inv(w) && s.Decided? && SettlerOk(w, s) && Justified(s, c)
    ensures Inv(ChangeRow(w, c, s)) && Extends(w, ChangeRow(w, c, s))
  {
    if Holds(w.rows, c.target) {
      var e :| Justifies(s, c, e);
      var t := TimedOut(c.target.generation, c.state, ReadAt(s, c.target.key.table));
      ChangeIs(w, c, s, t);
      if GaveUp(c.state) {
        GiveUpKeeps(w, c, s, e, t);
      } else {
        assert CountKnown(w.log, w.grants, c.target.key, w.rows[c.target.key]);
        SettledKeeps(w, c);
      }
    }
  }

  lemma GiveUpKeeps(w: World, c: Change, s: Settler, e: Entry, t: Event)
    requires Inv(w) && s.Decided? && SettlerOk(w, s) && Justifies(s, c, e) && GaveUp(c.state)
    requires t == TimedOut(c.target.generation, c.state, ReadAt(s, c.target.key.table))
    requires Holds(w.rows, c.target)
    ensures var v := Settled(w.(log := w.log + [t]), c); Inv(v) && Extends(w, v)
  {
    var u := w.(log := w.log + [t]);
    GivingUpKeeps(w, c, s, e, t);
    SettledKeeps(u, c);
    ExtendsThrough(w, u, Settled(u, c));
  }

  lemma ExtendsThrough(w: World, u: World, v: World)
    requires Extends(w, u) && Extends(u, v)
    ensures Extends(w, v)
  {
    assert v.log[..|w.log|] == v.log[..|u.log|][..|w.log|];
    assert v.grants[..|w.grants|] == v.grants[..|u.grants|][..|w.grants|];
  }

  lemma {:induction false} DropsKeep(w: World, deletes: seq<Target>)
    requires Inv(w)
    ensures Inv(DropRows(w, deletes)) && Extends(w, DropRows(w, deletes))
  {
    if deletes != [] {
      var n := |deletes| - 1;
      DropsKeep(w, deletes[..n]);
      var u := DropRows(w, deletes[..n]);
      DropKeeps(u, deletes[n], BySettledDelete);
      ExtendsThrough(w, u, DropRow(u, deletes[n], BySettledDelete));
    }
  }

  lemma {:induction false} ChangesKeep(w: World, updates: seq<Change>, s: Settler)
    requires Inv(w) && s.Decided? && SettlerOk(w, s)
    requires forall c :: c in updates ==> Justified(s, c)
    ensures Inv(ChangeRows(w, updates, s)) && Extends(w, ChangeRows(w, updates, s))
  {
    if updates != [] {
      var n := |updates| - 1;
      ChangesKeep(w, updates[..n], s);
      var u := ChangeRows(w, updates[..n], s);
      SettlerKept(w, u, s);
      assert updates[n] in updates;
      ChangeKeeps(u, updates[n], s);
      ExtendsThrough(w, u, ChangeRow(u, updates[n], s));
    }
  }

  lemma SettleWriteKeeps(w: World, who: nat)
    requires Inv(w)
    ensures Inv(DoSettleWrite(w, who))
  {
    if who in w.settlers && w.settlers[who].Decided? {
      var s := w.settlers[who];
      assert SettlerOk(w, s);
      var deletes := Deletes(Found(s), s.cards, s.counted);
      var updates := Updates(Found(s), s.cards, s.counted);
      DropsKeep(w, deletes);
      var u := DropRows(w, deletes);
      SettlerKept(w, u, s);
      UpdatesAreJustified(w, s);
      ChangesKeep(u, updates, s);
      var v := ChangeRows(u, updates, s);
      SameSettlers(w, deletes, updates, s);
      SettlerLeaves(v, who);
    }
  }

  /** Only the settlement's own row work happens in its transaction; it is the store's, statement by statement. */
  lemma {:induction false} SameSettlers(w: World, deletes: seq<Target>, updates: seq<Change>, s: Settler)
    requires s.Decided?
    ensures var v := ChangeRows(DropRows(w, deletes), updates, s);
      && v.settlers == w.settlers
      && v.rows == ChangedAll(DroppedAll(w.rows, deletes), updates)
  {
    if updates != [] {
      SameSettlers(w, deletes, updates[..|updates| - 1], s);
    } else if deletes != [] {
      SameSettlers(w, deletes[..|deletes| - 1], [], s);
    }
  }

  lemma SettlerLeaves(w: World, who: nat)
    requires Inv(w)
    ensures Inv(w.(settlers := w.settlers - {who}))
  {
    var v := w.(settlers := w.settlers - {who});
    forall x | x in v.settlers ensures SettlerOk(v, v.settlers[x]) {
      SettlerKept(w, v, w.settlers[x]);
    }
  }

  // --- a settlement's reads ---

  lemma SettlerMoves(w: World, who: nat, s: Settler)
    requires Inv(w) && SettlerOk(w, s)
    ensures Inv(w.(settlers := w.settlers[who := s]))
  {
    var v := w.(settlers := w.settlers[who := s]);
    forall x | x in v.settlers ensures SettlerOk(v, v.settlers[x]) {
      SettlerKept(w, v, v.settlers[x]);
    }
    SameGrants(w, v);
    SameFeed(w, v);
    SameSubmitters(w, v);
  }

  lemma SelectedIsSeen(w: World, found: seq<Entry>, table: Table)
    requires RowsOk(w) && Selects(found, w.rows, table)
    ensures SeenOk(w, Seen(found, |w.log|))
    ensures forall e :: e in found ==> e.key.table == table
  {
    assert w.log[..|w.log|] == w.log;
  }

  lemma SettleReadClaimsKeeps(w: World, who: nat, found: seq<Entry>)
    requires Inv(w)
    ensures Inv(DoSettleReadClaims(w, who, found))
  {
    if who !in w.settlers && Selects(found, w.rows, AnswerClaims) {
      SelectedIsSeen(w, found, AnswerClaims);
      SettlerMoves(w, who, ReadClaims(Seen(found, |w.log|)));
    }
  }

  lemma SettleReadMarksKeeps(w: World, who: nat, found: seq<Entry>)
    requires Inv(w)
    ensures Inv(DoSettleReadMarks(w, who, found))
  {
    if who in w.settlers && w.settlers[who].ReadClaims? && Selects(found, w.rows, RebuildMarks) {
      assert SettlerOk(w, w.settlers[who]);
      SelectedIsSeen(w, found, RebuildMarks);
      SettlerMoves(w, who, ReadBoth(w.settlers[who].claims, Seen(found, |w.log|)));
    }
  }

  lemma SettleSnapshotKeeps(w: World, who: nat, current: bool)
    requires Inv(w)
    ensures Inv(DoSettleSnapshot(w, who, current))
  {
    if who in w.settlers && w.settlers[who].ReadBoth? {
      var s := w.settlers[who];
      assert SettlerOk(w, s);
      SettlerMoves(w, who, Decided(s.claims, s.marks, w.cards, if current then Some(w.readCount) else None));
    }
  }

  // --- the feed ---

  lemma PassBeginKeeps(w: World, v: World)
    requires Inv(w) && w.feed.Idle? && v == w.(feed := Reading(|w.log|), log := w.log + [PassBegan])
    ensures Inv(v)
  {
    var e := PassBegan;
    Append(w.log, e);
    AppendOk(w.log, e);
    LogsExtends(w, v, e);
    GrantsKept(w, v, e);
    EndingsKept(w, v, e);
    RowsKept(w, v, e);
    NobodyMoves(w, v, e);
    SettlersKept(w, v);
  }

  lemma PassStampKeeps(w: World, v: World, e: Event)
    requires Inv(w) && w.feed.Written? && e == PassCounted(w.feed.began)
    requires v == w.(readCount := w.readCount + 1, feed := Idle, log := w.log + [e])
    ensures Inv(v)
  {
    Append(w.log, e);
    AppendOk(w.log, e);
    LogsExtends(w, v, e);
    GrantsKept(w, v, e);
    EndingsKept(w, v, e);
    RowsKept(w, v, e);
    NobodyMoves(w, v, e);
    SettlersKept(w, v);
  }

  lemma QuietFeedKeeps(w: World, v: World)
    requires Inv(w) && v == w.(cards := v.cards, feed := v.feed)
    requires v.feed.Idle? || (!w.feed.Idle? && v.feed.began == w.feed.began)
    ensures Inv(v)
  {
    SameGrants(w, v);
    SameSubmitters(w, v);
    SettlersKept(w, v);
  }

  lemma FeedKeeps(w: World, step: Step)
    requires Inv(w)
    ensures Inv(DoFeed(w, step))
  {
    if DoFeed(w, step) == w {
    } else if step.PassBegin? {
      PassBeginKeeps(w, DoFeed(w, step));
    } else if step.PassStamp? {
      PassStampKeeps(w, DoFeed(w, step), PassCounted(w.feed.began));
    } else {
      QuietFeedKeeps(w, DoFeed(w, step));
    }
  }

  // --- every run ---

  lemma SubmitStepKeeps(w: World, step: Step, v: World)
    requires Inv(w) && v == Do(w, step)
    requires step.Check? || step.Ask? || step.Publish? || step.Release? || step.ReadCount? || step.SetCount?
          || step.AbandonSubmit?
    ensures Inv(v)
  {
    match step
    case Check(who, key, current) => CheckKeeps(w, who, key, current);
    case Ask(who) => AskKeeps(w, who);
    case Publish(who, raised) => PublishKeeps(w, who, raised);
    case Release(who) => ReleaseKeeps(w, who);
    case ReadCount(who) => ReadCountKeeps(w, who);
    case SetCount(who) => SetCountKeeps(w, who);
    case AbandonSubmit(who) => SubmitterLeaves(w, who);
  }

  lemma SettleReadKeeps(w: World, step: Step, v: World)
    requires Inv(w) && v == Do(w, step)
    requires step.SettleReadClaims? || step.SettleReadMarks?
    ensures Inv(v)
  {
    match step
    case SettleReadClaims(who, found) => SettleReadClaimsKeeps(w, who, found);
    case SettleReadMarks(who, found) => SettleReadMarksKeeps(w, who, found);
  }

  lemma StepKeeps(w: World, step: Step, v: World)
    requires Inv(w) && v == Do(w, step)
    ensures Inv(v)
  {
    if step.PassBegin? || step.PassWrite? || step.PassStamp? || step.PassFail? {
      FeedKeeps(w, step);
    } else if step.SettleReadClaims? || step.SettleReadMarks? {
      SettleReadKeeps(w, step, v);
    } else if step.SettleWrite? {
      SettleWriteKeeps(w, step.who);
    } else if step.SettleSnapshot? {
      SettleSnapshotKeeps(w, step.who, step.current);
    } else if step.AbandonSettle? {
      SettlerLeaves(w, step.who);
    } else {
      SubmitStepKeeps(w, step, v);
    }
  }

  lemma {:induction false} RunKeeps(cards: Cards, steps: seq<Step>)
    ensures Inv(Run(Init(cards), steps))
  {
    if steps == [] {
      InitInv(cards);
    } else {
      RunKeeps(cards, steps[..|steps| - 1]);
      var w := Run(Init(cards), steps[..|steps| - 1]);
      StepKeeps(w, steps[|steps| - 1], Do(w, steps[|steps| - 1]));
    }
  }
}
