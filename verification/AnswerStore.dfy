/** The store of submissions that the factory has not recorded yet (backend/claims.py).

Both SQLite tables have the same life cycle, and three of their operations are already written once for
either table, so a row here is found by its table and its request id. The random generation of a submission
is a number never handed out before. */
module AnswerStore {
  import opened Basics

  datatype Table = AnswerClaims | RebuildMarks

  datatype Key = Key(table: Table, requestId: string)

  datatype State = Waiting | NotRecorded | Requested | Done | Unconfirmed

  datatype Row = Row(generation: nat, readCount: nat, rebuilds: int, state: State)

  type Rows = map<Key, Row>

  datatype Entry = Entry(key: Key, row: Row)

  datatype Target = Target(key: Key, generation: nat)

  datatype Change = Change(target: Target, state: State)

  datatype Rebuild = Rebuild(count: int, wanted: bool, offered: bool)

  /** What the record's copy says about one card. */
  datatype Card = Card(open: bool, answerable: bool, rebuild: Option<Rebuild>)

  type Cards = map<string, Card>

  const NOT_RECORDED_AFTER: nat := 3
  const REBUILD_UNCONFIRMED_AFTER: nat := 4

  /** The states in which a submission turns a second press away. */
  predicate Blocks(state: State) {
    state.Waiting? || state.Requested?
  }

  function FirstState(table: Table): State {
    if table.AnswerClaims? then Waiting else Requested
  }

  /** The CHECK constraint of each table. */
  predicate Fits(table: Table, state: State) {
    match table
    case AnswerClaims => state.Waiting? || state.NotRecorded?
    case RebuildMarks => state.Requested? || state.Done? || state.Unconfirmed?
  }

  /** The states that say "long enough, and the record shows nothing". */
  predicate GaveUp(state: State) {
    state.NotRecorded? || state.Unconfirmed?
  }

  function Limit(state: State): nat {
    if state.NotRecorded? then NOT_RECORDED_AFTER else REBUILD_UNCONFIRMED_AFTER
  }

  predicate Holds(rows: Rows, t: Target) {
    t.key in rows && rows[t.key].generation == t.generation
  }

  predicate Blocked(rows: Rows, key: Key) {
    key in rows && Blocks(rows[key].state)
  }

  // --- each transaction's effect ---

  function Asked(rows: Rows, key: Key, rebuilds: int, readCount: nat, generation: nat): Rows {
    if Blocked(rows, key) then rows
    else rows[key := Row(generation, readCount, rebuilds, FirstState(key.table))]
  }

  function CountSetTo(rows: Rows, t: Target, readCount: nat): Rows {
    if Holds(rows, t) then rows[t.key := rows[t.key].(readCount := readCount)] else rows
  }

  function Dropped(rows: Rows, t: Target): Rows {
    if Holds(rows, t) then rows - {t.key} else rows
  }

  function Changed(rows: Rows, c: Change): Rows {
    if Holds(rows, c.target) then rows[c.target.key := rows[c.target.key].(state := c.state)] else rows
  }

  /** All the deletes of one settlement, in order. */
  function DroppedAll(rows: Rows, deletes: seq<Target>): Rows {
    if deletes == [] then rows
    else Dropped(DroppedAll(rows, deletes[..|deletes| - 1]), deletes[|deletes| - 1])
  }

  /** All the updates of one settlement, in order. */
  function ChangedAll(rows: Rows, updates: seq<Change>): Rows {
    if updates == [] then rows
    else Changed(ChangedAll(rows, updates[..|updates| - 1]), updates[|updates| - 1])
  }

  // --- what a settlement decides ---

  datatype Verdict = Keep | Delete | Become(state: State)

  predicate Enough(row: Row, counted: Option<nat>, limit: nat) {
    counted.Some? && counted.value >= row.readCount + limit
  }

  function Judge(table: Table, row: Row, card: Option<Card>, counted: Option<nat>): Verdict {
    if card.None? || !card.value.open then Delete
    else if table.AnswerClaims? then
      if row.state.Waiting? && Enough(row, counted, NOT_RECORDED_AFTER) then Become(NotRecorded) else Keep
    else if card.value.rebuild.None? then Delete
    else if row.state.Done? then Keep
    else if card.value.rebuild.value.count > row.rebuilds then Become(Done)
    else if row.state.Requested? && !card.value.rebuild.value.wanted
            && Enough(row, counted, REBUILD_UNCONFIRMED_AFTER) then Become(Unconfirmed)
    else Keep
  }

  function CardOf(cards: Cards, requestId: string): Option<Card> {
    if requestId in cards then Some(cards[requestId]) else None
  }

  function VerdictOn(e: Entry, cards: Cards, counted: Option<nat>): Verdict {
    Judge(e.key.table, e.row, CardOf(cards, e.key.requestId), counted)
  }

  function Deletes(found: seq<Entry>, cards: Cards, counted: Option<nat>): seq<Target> {
    if found == [] then []
    else
      var e := found[|found| - 1];
      Deletes(found[..|found| - 1], cards, counted)
      + (if VerdictOn(e, cards, counted).Delete? then [Target(e.key, e.row.generation)] else [])
  }

  function Updates(found: seq<Entry>, cards: Cards, counted: Option<nat>): seq<Change> {
    if found == [] then []
    else
      var e := found[|found| - 1];
      var v := VerdictOn(e, cards, counted);
      Updates(found[..|found| - 1], cards, counted)
      + (if v.Become? then [Change(Target(e.key, e.row.generation), v.state)] else [])
  }

  /** `found` lists every row, each once. */
  ghost predicate Lists(found: seq<Entry>, rows: Rows) {
    && (forall e :: e in found ==> e.key in rows && rows[e.key] == e.row)
    && (forall key :: key in rows ==> Entry(key, rows[key]) in found)
    && (forall i, j :: 0 <= i < j < |found| ==> found[i].key != found[j].key)
  }

  // --- the store itself ---

  class AnswersDb {
    var rows: Rows
    var issued: nat

    ghost predicate Valid()
      reads this
    {
      forall key :: key in rows ==> Fits(key.table, rows[key].state) && rows[key].generation < issued
    }

    constructor ()
      ensures Valid() && rows == map[] && issued == 0
    {
      rows, issued := map[], 0;
    }

    method Claim(requestId: string, readCount: nat) returns (granted: bool, row: Row)
      requires Valid()
      modifies this
      ensures Valid()
      ensures granted == !Blocked(old(rows), Key(AnswerClaims, requestId))
      ensures rows == Asked(old(rows), Key(AnswerClaims, requestId), 0, readCount, old(issued))
      ensures Key(AnswerClaims, requestId) in rows && row == rows[Key(AnswerClaims, requestId)]
      ensures issued == old(issued) + if granted then 1 else 0
    {
      var key := Key(AnswerClaims, requestId);
      if key in rows && rows[key].state == Waiting {
        return false, rows[key];
      }
      rows := rows[key := Row(issued, readCount, 0, Waiting)];
      issued := issued + 1;
      return true, rows[key];
    }

    method AskRebuild(requestId: string, rebuilds: int, readCount: nat) returns (granted: bool, row: Row)
      requires Valid()
      modifies this
      ensures Valid()
      ensures granted == !Blocked(old(rows), Key(RebuildMarks, requestId))
      ensures rows == Asked(old(rows), Key(RebuildMarks, requestId), rebuilds, readCount, old(issued))
      ensures Key(RebuildMarks, requestId) in rows && row == rows[Key(RebuildMarks, requestId)]
      ensures issued == old(issued) + if granted then 1 else 0
    {
      var key := Key(RebuildMarks, requestId);
      if key in rows && rows[key].state == Requested {
        return false, rows[key];
      }
      rows := rows[key := Row(issued, readCount, rebuilds, Requested)];
      issued := issued + 1;
      return true, rows[key];
    }

    method SetReadCount(t: Target, readCount: nat)
      requires Valid()
      modifies this`rows
      ensures Valid() && rows == CountSetTo(old(rows), t, readCount)
    {
      if t.key in rows && rows[t.key].generation == t.generation {
        rows := rows[t.key := rows[t.key].(readCount := readCount)];
      }
    }

    /** `release` and `drop_rebuild`. */
    method Drop(t: Target)
      requires Valid()
      modifies this`rows
      ensures Valid() && rows == Dropped(old(rows), t)
    {
      if t.key in rows && rows[t.key].generation == t.generation {
        rows := rows - {t.key};
      }
    }

    /** The one write transaction of `settle`. */
    method WriteSettlement(deletes: seq<Target>, updates: seq<Change>)
      requires Valid()
      requires forall c :: c in updates ==> Fits(c.target.key.table, c.state)
      modifies this`rows
      ensures Valid() && rows == ChangedAll(DroppedAll(old(rows), deletes), updates)
    {
      for i := 0 to |deletes|
        invariant Valid() && rows == DroppedAll(old(rows), deletes[..i])
      {
        assert deletes[..i + 1][..i] == deletes[..i];
        Drop(deletes[i]);
      }
      assert deletes[..|deletes|] == deletes;
      for i := 0 to |updates|
        invariant Valid() && rows == ChangedAll(DroppedAll(old(rows), deletes), updates[..i])
      {
        assert updates[..i + 1][..i] == updates[..i];
        var c := updates[i];
        if c.target.key in rows && rows[c.target.key].generation == c.target.generation {
          rows := rows[c.target.key := rows[c.target.key].(state := c.state)];
        }
      }
      assert updates[..|updates|] == updates;
    }
  }

  method SettleClaims(found: seq<Entry>, cards: Cards, counted: Option<nat>)
    returns (deletes: seq<Target>, updates: seq<Change>)
    requires forall e :: e in found ==> e.key.table.AnswerClaims?
    ensures deletes == Deletes(found, cards, counted)
    ensures updates == Updates(found, cards, counted)
  {
    deletes, updates := [], [];
    for i := 0 to |found|
      invariant deletes == Deletes(found[..i], cards, counted)
      invariant updates == Updates(found[..i], cards, counted)
    {
      assert found[..i + 1][..i] == found[..i];
      var c := found[i];
      var id := c.key.requestId;
      if id !in cards || !cards[id].open {
        deletes := deletes + [Target(c.key, c.row.generation)];
      } else if c.row.state == Waiting && counted.Some? && counted.value >= c.row.readCount + NOT_RECORDED_AFTER {
        updates := updates + [Change(Target(c.key, c.row.generation), NotRecorded)];
      }
    }
    assert found[..|found|] == found;
  }

  method SettleMarks(found: seq<Entry>, cards: Cards, counted: Option<nat>)
    returns (deletes: seq<Target>, updates: seq<Change>)
    requires forall e :: e in found ==> e.key.table.RebuildMarks?
    ensures deletes == Deletes(found, cards, counted)
    ensures updates == Updates(found, cards, counted)
  {
    deletes, updates := [], [];
    for i := 0 to |found|
      invariant deletes == Deletes(found[..i], cards, counted)
      invariant updates == Updates(found[..i], cards, counted)
    {
      assert found[..i + 1][..i] == found[..i];
      var m := found[i];
      var id := m.key.requestId;
      if id !in cards || !cards[id].open || cards[id].rebuild.None? {
        deletes := deletes + [Target(m.key, m.row.generation)];
      } else if m.row.state == Done {
      } else if cards[id].rebuild.value.count > m.row.rebuilds {
        updates := updates + [Change(Target(m.key, m.row.generation), Done)];
      } else if m.row.state == Requested && !cards[id].rebuild.value.wanted
        && counted.Some? && counted.value >= m.row.readCount + REBUILD_UNCONFIRMED_AFTER {
        updates := updates + [Change(Target(m.key, m.row.generation), Unconfirmed)];
      }
    }
    assert found[..|found|] == found;
  }

  /** The claims' decisions followed by the marks' are the decisions on the two lists read one after the other. */
  lemma {:induction false} DeletesConcat(claims: seq<Entry>, marks: seq<Entry>, cards: Cards, counted: Option<nat>)
    ensures Deletes(claims + marks, cards, counted) == Deletes(claims, cards, counted) + Deletes(marks, cards, counted)
  {
    if marks == [] {
      assert claims + marks == claims;
    } else {
      DeletesConcat(claims, marks[..|marks| - 1], cards, counted);
      assert (claims + marks)[..|claims + marks| - 1] == claims + marks[..|marks| - 1];
    }
  }

  lemma {:induction false} UpdatesConcat(claims: seq<Entry>, marks: seq<Entry>, cards: Cards, counted: Option<nat>)
    ensures Updates(claims + marks, cards, counted) == Updates(claims, cards, counted) + Updates(marks, cards, counted)
  {
    if marks == [] {
      assert claims + marks == claims;
    } else {
      UpdatesConcat(claims, marks[..|marks| - 1], cards, counted);
      assert (claims + marks)[..|claims + marks| - 1] == claims + marks[..|marks| - 1];
    }
  }

  // --- the settlement, row by row ---

  /** Exactly the rows that still hold a listed generation go. */
  lemma {:induction false} DroppedAllIs(rows: Rows, deletes: seq<Target>)
    ensures DroppedAll(rows, deletes)
         == map key | key in rows && Target(key, rows[key].generation) !in deletes :: rows[key]
  {
    if deletes != [] {
      var n := |deletes| - 1;
      DroppedAllIs(rows, deletes[..n]);
      assert deletes == deletes[..n] + [deletes[n]];
    }
  }

  ghost predicate OneChangeEach(updates: seq<Change>) {
    forall i, j :: 0 <= i < j < |updates| ==> updates[i].target.key != updates[j].target.key
  }

  /** A row changes only its state, and only if an update names its generation. */
  lemma {:induction false} ChangedAllIs(rows: Rows, updates: seq<Change>, key: Key)
    requires OneChangeEach(updates)
    ensures ChangedAll(rows, updates).Keys == rows.Keys
    ensures key in rows ==>
      var row := ChangedAll(rows, updates)[key];
      && row == rows[key].(state := row.state)
      && (forall s :: Change(Target(key, row.generation), s) in updates ==> row.state == s)
      && ((forall s :: Change(Target(key, row.generation), s) !in updates) ==> row == rows[key])
  {
    if updates != [] {
      var n := |updates| - 1;
      ChangedAllIs(rows, updates[..n], key);
      assert updates == updates[..n] + [updates[n]];
    }
  }

  /** The decisions are the verdicts on the rows found, and none other. */
  lemma {:induction false} DecisionsAre(found: seq<Entry>, cards: Cards, counted: Option<nat>)
    ensures forall t :: t in Deletes(found, cards, counted) <==>
      exists e :: e in found && t == Target(e.key, e.row.generation) && VerdictOn(e, cards, counted) == Delete
    ensures forall c :: c in Updates(found, cards, counted) <==>
      exists e :: e in found && c.target == Target(e.key, e.row.generation)
        && VerdictOn(e, cards, counted) == Become(c.state)
  {
    if found != [] {
      var n := |found| - 1;
      DecisionsAre(found[..n], cards, counted);
      assert found == found[..n] + [found[n]];
    }
  }
}
