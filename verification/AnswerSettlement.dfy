/** What one uninterrupted settlement does to the whole store (`settle`, backend/claims.py). */
module AnswerSettlement {
  import opened Basics
  import opened AnswerStore

  function Settle(rows: Rows, found: seq<Entry>, cards: Cards, counted: Option<nat>): Rows {
    ChangedAll(DroppedAll(rows, Deletes(found, cards, counted)), Updates(found, cards, counted))
  }

  lemma UpdatesFit(found: seq<Entry>, cards: Cards, counted: Option<nat>)
    ensures forall c :: c in Updates(found, cards, counted) ==> Fits(c.target.key.table, c.state)
  {
    DecisionsAre(found, cards, counted);
  }

  /** `settle`, once it has read the claims, the marks and the record (or failed to read that): the two lists of
  decisions, one after the other, are written as one settlement of all that was found. */
  method SettleStore(db: AnswersDb, claims: seq<Entry>, marks: seq<Entry>, record: Option<Cards>, counted: Option<nat>)
    requires db.Valid()
    requires forall e :: e in claims ==> e.key.table.AnswerClaims?
    requires forall e :: e in marks ==> e.key.table.RebuildMarks?
    modifies db`rows
    ensures db.Valid()
    ensures db.rows
         == if record.Some? then Settle(old(db.rows), claims + marks, record.value, counted) else old(db.rows)
  {
    if record.None? || (claims == [] && marks == []) {
      return;
    }
    var cards := record.value;
    var deletes, updates := SettleClaims(claims, cards, counted);
    var moreDeletes, moreUpdates := SettleMarks(marks, cards, counted);
    DeletesConcat(claims, marks, cards, counted);
    UpdatesConcat(claims, marks, cards, counted);
    UpdatesFit(claims + marks, cards, counted);
    deletes, updates := deletes + moreDeletes, updates + moreUpdates;
    if deletes == [] && updates == [] {
      return;
    }
    db.WriteSettlement(deletes, updates);
  }

  /** The fate of one row, on its own. */
  function Fate(key: Key, row: Row, cards: Cards, counted: Option<nat>): Option<Row> {
    match VerdictOn(Entry(key, row), cards, counted)
    case Delete => None
    case Keep => Some(row)
    case Become(state) => Some(row.(state := state))
  }

  lemma {:induction false} UpdatesAreDistinct(found: seq<Entry>, cards: Cards, counted: Option<nat>)
    requires forall i, j :: 0 <= i < j < |found| ==> found[i].key != found[j].key
    ensures OneChangeEach(Updates(found, cards, counted))
    ensures forall c :: c in Updates(found, cards, counted) ==> exists e :: e in found && e.key == c.target.key
  {
    DecisionsAre(found, cards, counted);
    if found != [] {
      var n := |found| - 1;
      UpdatesAreDistinct(found[..n], cards, counted);
      var before := Updates(found[..n], cards, counted);
      forall i | 0 <= i < |before| ensures before[i].target.key != found[n].key {
        assert before[i] in before;
      }
    }
  }

  /** A settlement of the rows it read sends every row to its own fate, whatever order they were read in. */
  lemma SettleIsPointwise(rows: Rows, found: seq<Entry>, cards: Cards, counted: Option<nat>, key: Key)
    requires Lists(found, rows)
    ensures var after := Settle(rows, found, cards, counted);
      && (key in after <==> key in rows && Fate(key, rows[key], cards, counted).Some?)
      && (key in after ==> Fate(key, rows[key], cards, counted) == Some(after[key]))
  {
    var deletes, updates := Deletes(found, cards, counted), Updates(found, cards, counted);
    DecisionsAre(found, cards, counted);
    UpdatesAreDistinct(found, cards, counted);
    DroppedAllIs(rows, deletes);
    var kept := DroppedAll(rows, deletes);
    ChangedAllIs(kept, updates, key);
    if key in rows {
      var e := Entry(key, rows[key]);
      assert e in found;
      var target := Target(key, rows[key].generation);
      match VerdictOn(e, cards, counted) {
        case Delete => assert target in deletes;
        case Keep =>
          assert target !in deletes;
          assert forall s :: Change(target, s) !in updates;
        case Become(s) =>
          assert target !in deletes;
          assert Change(target, s) in updates;
      }
    }
  }

  /** The record shows nothing to keep a row for: no card, a closed one or, for a mark, one without a rebuild. */
  predicate Gone(cards: Cards, key: Key) {
    || key.requestId !in cards
    || !cards[key.requestId].open
    || (key.table.RebuildMarks? && cards[key.requestId].rebuild.None?)
  }

  /** A claim or a mark that waits while the record has been counted often enough and shows nothing of it. */
  predicate WaitedInVain(cards: Cards, key: Key, row: Row, counted: Option<nat>)
    requires !Gone(cards, key)
  {
    && counted.Some?
    && match key.table
       case AnswerClaims => row.state.Waiting? && counted.value >= row.readCount + 3
       case RebuildMarks =>
         && row.state.Requested? && counted.value >= row.readCount + 4
         && cards[key.requestId].rebuild.value.count <= row.rebuilds
         && !cards[key.requestId].rebuild.value.wanted
  }

  /** The record shows a rebuild later than the one a mark was asked at. */
  predicate Rebuilt(cards: Cards, key: Key, row: Row)
    requires !Gone(cards, key)
  {
    key.table.RebuildMarks? && !row.state.Done? && cards[key.requestId].rebuild.value.count > row.rebuilds
  }

  /** A settlement takes exactly the rows that the record has nothing more to show for. Of the others it changes only
  the state, and only that of a mark whose rebuild is there and of a submission that waited in vain. */
  lemma SettleTakesWhatIsGone(rows: Rows, found: seq<Entry>, cards: Cards, counted: Option<nat>, key: Key)
    requires Lists(found, rows)
    ensures var after := Settle(rows, found, cards, counted);
      && (key in after <==> key in rows && !Gone(cards, key))
      && (key in after ==>
            && after[key] == rows[key].(state := after[key].state)
            && (Rebuilt(cards, key, rows[key]) ==> after[key].state == Done)
            && (WaitedInVain(cards, key, rows[key], counted) ==>
                  after[key].state == if key.table.AnswerClaims? then NotRecorded else Unconfirmed)
            && (!Rebuilt(cards, key, rows[key]) && !WaitedInVain(cards, key, rows[key], counted) ==>
                  after[key] == rows[key]))
  {
    SettleIsPointwise(rows, found, cards, counted, key);
  }

  /** After one uninterrupted settlement: a closed card has no row, a mark whose open card shows a finished
  rebuild is done, and no claim the feed has passed often enough still waits. It does not matter what state
  stale settlements left the rows in. */
  lemma SettleConverges(rows: Rows, found: seq<Entry>, cards: Cards, counted: Option<nat>, key: Key)
    requires Lists(found, rows)
    requires key in rows && Fits(key.table, rows[key].state)
    requires key in Settle(rows, found, cards, counted)
    ensures var row := Settle(rows, found, cards, counted)[key];
      && key.requestId in cards && cards[key.requestId].open
      && row.generation == rows[key].generation && row.readCount == rows[key].readCount
      && (key.table.RebuildMarks? ==>
            var rebuild := cards[key.requestId].rebuild;
            && rebuild.Some?
            && (rebuild.value.count > row.rebuilds ==> row.state.Done?)
            && (rows[key].state.Done? <== row.state.Done? && rebuild.value.count <= row.rebuilds)
            && (row.state.Requested? ==> rebuild.value.wanted || !Enough(row, counted, REBUILD_UNCONFIRMED_AFTER)))
      && (row.state.Waiting? ==> !Enough(row, counted, NOT_RECORDED_AFTER))
      && (Blocks(row.state) ==> Blocks(rows[key].state))
  {
    SettleIsPointwise(rows, found, cards, counted, key);
  }

  /** Settling again from the same record changes nothing. */
  lemma SettleIsIdempotent(rows: Rows, found: seq<Entry>, again: seq<Entry>, cards: Cards, counted: Option<nat>)
    requires Lists(found, rows)
    requires Lists(again, Settle(rows, found, cards, counted))
    ensures var once := Settle(rows, found, cards, counted);
      Settle(once, again, cards, counted) == once
  {
    var once := Settle(rows, found, cards, counted);
    var twice := Settle(once, again, cards, counted);
    forall key
      ensures key in twice <==> key in once
      ensures key in once ==> twice[key] == once[key]
    {
      SettleIsPointwise(rows, found, cards, counted, key);
      SettleIsPointwise(once, again, cards, counted, key);
      if key in once {
        FateIsFinal(key, rows[key], cards, counted);
      }
    }
  }

  lemma FateIsFinal(key: Key, row: Row, cards: Cards, counted: Option<nat>)
    requires Fate(key, row, cards, counted).Some?
    ensures var after := Fate(key, row, cards, counted); Fate(key, after.value, cards, counted) == after
  {
  }

  predicate ShowsRebuild(cards: Cards, key: Key) {
    key.requestId in cards && cards[key.requestId].open && cards[key.requestId].rebuild.Some?
  }

  /** A row was still requested when it was read, the settlement's own copy of the record shows no later rebuild and
  none wanted, and enough passes were counted. */
  predicate Undoes(e: Entry, cards: Cards, counted: Option<nat>) {
    && e.row.state.Requested?
    && ShowsRebuild(cards, e.key)
    && cards[e.key.requestId].rebuild.value.count <= e.row.rebuilds
    && !cards[e.key.requestId].rebuild.value.wanted
    && Enough(e.row, counted, REBUILD_UNCONFIRMED_AFTER)
  }

  /** "Done" is not final. A mark that is done when a settlement writes, whatever else is stored and however long ago
  the settlement read, is left in another state exactly when what the settlement read of that very submission
  undoes it. */
  lemma DoneIsUndoneExactlyWhen(rows: Rows, found: seq<Entry>, cards: Cards, counted: Option<nat>, key: Key)
    requires forall i, j :: 0 <= i < j < |found| ==> found[i].key != found[j].key
    requires key.table.RebuildMarks? && key in rows && rows[key].state.Done?
    ensures var after := Settle(rows, found, cards, counted);
      (key in after && !after[key].state.Done?) <==>
        exists e :: e in found && e.key == key && e.row.generation == rows[key].generation && Undoes(e, cards, counted)
    ensures var after := Settle(rows, found, cards, counted);
      key in after && !after[key].state.Done? ==> after[key] == rows[key].(state := Unconfirmed)
  {
    var deletes, updates := Deletes(found, cards, counted), Updates(found, cards, counted);
    var target := Target(key, rows[key].generation);
    DecisionsAre(found, cards, counted);
    UpdatesAreDistinct(found, cards, counted);
    DroppedAllIs(rows, deletes);
    ChangedAllIs(DroppedAll(rows, deletes), updates, key);
    if e :| e in found && e.key == key && e.row.generation == target.generation && Undoes(e, cards, counted) {
      assert VerdictOn(e, cards, counted) == Become(Unconfirmed);
      assert Change(target, Unconfirmed) in updates;
      OneVerdictEach(found, cards, counted, e);
      assert target !in deletes;
    } else {
      OnlyUndoingChanges(found, cards, counted, target);
    }
  }

  /** A row that is read once gets one verdict. */
  lemma OneVerdictEach(found: seq<Entry>, cards: Cards, counted: Option<nat>, e: Entry)
    requires forall i, j :: 0 <= i < j < |found| ==> found[i].key != found[j].key
    requires e in found && !VerdictOn(e, cards, counted).Delete?
    ensures Target(e.key, e.row.generation) !in Deletes(found, cards, counted)
  {
    DecisionsAre(found, cards, counted);
  }

  /** The only other state a settlement gives to a mark it did not read as undoing is "done". */
  lemma OnlyUndoingChanges(found: seq<Entry>, cards: Cards, counted: Option<nat>, target: Target)
    requires target.key.table.RebuildMarks?
    requires forall e :: e in found && e.key == target.key && e.row.generation == target.generation
               ==> !Undoes(e, cards, counted)
    ensures forall s :: Change(target, s) in Updates(found, cards, counted) ==> s.Done?
  {
    DecisionsAre(found, cards, counted);
  }

  /** The smallest case, and its repair: of two settlements that both read one mark as requested, the one that decided
  from the older copy of the record writes last and puts the finished submission back to "unconfirmed"; the next
  settlement on the newer record makes it done again. */
  lemma StaleSettlementUndoesDone(key: Key, row: Row, older: Cards, newer: Cards,
                                  counted: nat, newerCounted: Option<nat>)
    requires key.table.RebuildMarks? && row.state.Requested?
    requires ShowsRebuild(older, key) && ShowsRebuild(newer, key)
    requires newer[key.requestId].rebuild.value.count > row.rebuilds
    requires older[key.requestId].rebuild.value.count <= row.rebuilds && !older[key.requestId].rebuild.value.wanted
    requires counted >= row.readCount + REBUILD_UNCONFIRMED_AFTER
    ensures var rows, found := map[key := row], [Entry(key, row)];
      var done := Settle(rows, found, newer, newerCounted);
      var undone := Settle(done, found, older, Some(counted));
      && done == map[key := row.(state := Done)]
      && undone == map[key := row.(state := Unconfirmed)]
      && Settle(undone, [Entry(key, undone[key])], newer, newerCounted) == done
  {
    WriteOne(key, row, row, newer, newerCounted);
    WriteOne(key, row, row.(state := Done), older, Some(counted));
    WriteOne(key, row.(state := Unconfirmed), row.(state := Unconfirmed), newer, newerCounted);
  }

  /** A settlement that saw one row, writing when the row may have moved on within the same generation. */
  lemma WriteOne(key: Key, seen: Row, held: Row, cards: Cards, counted: Option<nat>)
    requires seen.generation == held.generation
    ensures var verdict := VerdictOn(Entry(key, seen), cards, counted);
      verdict.Become? ==>
        Settle(map[key := held], [Entry(key, seen)], cards, counted) == map[key := held.(state := verdict.state)]
  {
    var verdict := VerdictOn(Entry(key, seen), cards, counted);
    if verdict.Become? {
      var change := Change(Target(key, seen.generation), verdict.state);
      DecideOne(Entry(key, seen), cards, counted);
      ChangeOne(map[key := held], change);
      assert Changed(map[key := held], change) == map[key := held.(state := verdict.state)];
    }
  }

  lemma DecideOne(e: Entry, cards: Cards, counted: Option<nat>)
    requires VerdictOn(e, cards, counted).Become?
    ensures Deletes([e], cards, counted) == []
    ensures Updates([e], cards, counted)
         == [Change(Target(e.key, e.row.generation), VerdictOn(e, cards, counted).state)]
  {
    assert [e][..0] == [];
  }

  lemma ChangeOne(rows: Rows, change: Change)
    ensures ChangedAll(rows, [change]) == Changed(rows, change)
  {
    assert [change][..0] == [];
  }
}
