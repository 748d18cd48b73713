/** Live updates (backend/sse.py 43-76, backend/projector/store.py 44-51, backend/projector/forge_mirror.py 253-254, and
the stream of backend/app.py 325-344): the numbered log of changed page sections, its pruning, and what a page that
reconnects is told. */
module ChangeLog {
  import opened Basics

  datatype Row = Row(id: int, panel: string, at: int)

  /** The rows kept, in key order, and every row there ever was: ids count up from 1 and are never used again. */
  datatype Log = Log(rows: seq<Row>, history: seq<Row>)

  const EMPTY: Log := Log([], [])

  /** One row of `record_change`, which adds one for each panel. */
  function Appended(l: Log, panel: string, at: int): Log {
    var row := Row(|l.history| + 1, panel, at);
    Log(l.rows + [row], l.history + [row])
  }

  function KeptFrom(rows: seq<Row>, cutoff: int): seq<Row> {
    if rows == [] then []
    else KeptFrom(rows[..|rows| - 1], cutoff) + if rows[|rows| - 1].at >= cutoff then [rows[|rows| - 1]] else []
  }

  /** `prune_change_log`. */
  function PrunedLog(l: Log, cutoff: int): Log {
    l.(rows := KeptFrom(l.rows, cutoff))
  }

  function MinId(l: Log): int {
    if l.rows == [] then 0 else l.rows[0].id
  }

  function MaxId(l: Log): int {
    if l.rows == [] then 0 else l.rows[|l.rows| - 1].id
  }

  datatype Update = Update(id: int, panel: string)

  function UpdatesAfter(rows: seq<Row>, last: int, wanted: seq<string>): seq<Update> {
    if rows == [] then []
    else
      var row := rows[|rows| - 1];
      UpdatesAfter(rows[..|rows| - 1], last, wanted)
      + if row.id > last && row.panel in wanted then [Update(row.id, row.panel)] else []
  }

  /** `events_since`; `wanted` is the subscribed panels in order. */
  function EventsSince(l: Log, last: int, wanted: seq<string>): seq<Update> {
    UpdatesAfter(l.rows, last, wanted)
  }

  /** `refetch_all`. */
  function RefetchAll(l: Log, wanted: seq<string>): seq<Update> {
    seq(|wanted|, i requires 0 <= i < |wanted| => Update(MaxId(l), wanted[i]))
  }

  /** `replay_or_refetch`. */
  function ReplayOrRefetch(l: Log, last: int, wanted: seq<string>): seq<Update> {
    if last <= 0 then RefetchAll(l, wanted)
    else if MinId(l) > 0 && last < MinId(l) - 1 then RefetchAll(l, wanted)
    else EventsSince(l, last, wanted)
  }

  // --- what the log keeps ---

  /** Ids count the rows; those kept are some of them, in order. */
  predicate Numbered(l: Log) {
    && (forall i :: 0 <= i < |l.history| ==> l.history[i].id == i + 1)
    && (forall row :: row in l.rows ==> 1 <= row.id <= |l.history| && row == l.history[row.id - 1])
    && ByKey(l.rows)
  }

  /** The newest rows, with none missing between them. */
  predicate IsSuffix(l: Log) {
    |l.rows| <= |l.history| && l.rows == l.history[|l.history| - |l.rows|..]
  }

  predicate InOrder(rows: seq<Row>) {
    forall i, j :: 0 <= i < j < |rows| ==> rows[i].at <= rows[j].at
  }

  lemma {:induction false} KeptAre(rows: seq<Row>, cutoff: int)
    ensures forall row :: row in KeptFrom(rows, cutoff) <==> row in rows && row.at >= cutoff
  {
    if rows != [] {
      var init, last := rows[..|rows| - 1], rows[|rows| - 1];
      KeptAre(init, cutoff);
      assert rows == init + [last];
      forall row ensures row in KeptFrom(rows, cutoff) <==> row in rows && row.at >= cutoff {
        assert row in rows <==> row in init || row == last;
        assert row in KeptFrom(rows, cutoff) <==> row in KeptFrom(init, cutoff) || (row == last && last.at >= cutoff);
      }
    }
  }

  predicate ByKey(rows: seq<Row>) {
    forall i, j :: 0 <= i < j < |rows| ==> rows[i].id < rows[j].id
  }

  lemma {:induction false} KeptInKeyOrder(rows: seq<Row>, cutoff: int)
    requires ByKey(rows)
    ensures ByKey(KeptFrom(rows, cutoff))
  {
    if rows != [] {
      var init, last := rows[..|rows| - 1], rows[|rows| - 1];
      var inner := KeptFrom(init, cutoff);
      KeptInKeyOrder(init, cutoff);
      KeptAre(init, cutoff);
      forall i | 0 <= i < |inner| ensures inner[i].id < last.id {
        assert inner[i] in init;
        var j :| 0 <= j < |init| && init[j] == inner[i];
        assert rows[j].id < last.id;
      }
      assert KeptFrom(rows, cutoff) == inner + if last.at >= cutoff then [last] else [];
    }
  }

  lemma AppendKeepsNumbers(l: Log, panel: string, at: int)
    requires Numbered(l)
    ensures Numbered(Appended(l, panel, at))
  {
    var row := Row(|l.history| + 1, panel, at);
    forall i | 0 <= i < |l.rows| ensures l.rows[i].id < row.id {
      assert l.rows[i] in l.rows;
    }
    AddedByKey(l.rows, row);
    forall r | r in l.rows + [row] ensures 1 <= r.id <= |l.history| + 1 && r == (l.history + [row])[r.id - 1] {
      assert r in l.rows || r == row;
    }
  }

  lemma AddedByKey(rows: seq<Row>, row: Row)
    requires ByKey(rows) && forall i :: 0 <= i < |rows| ==> rows[i].id < row.id
    ensures ByKey(rows + [row])
  {
  }

  lemma AppendKeepsSuffix(l: Log, panel: string, at: int)
    requires IsSuffix(l)
    ensures IsSuffix(Appended(l, panel, at))
  {
    var row := Row(|l.history| + 1, panel, at);
    var after := Appended(l, panel, at);
    assert after.history[|after.history| - |after.rows|..] == l.history[|l.history| - |l.rows|..] + [row];
  }

  lemma PruneKeepsNumbers(l: Log, cutoff: int)
    requires Numbered(l)
    ensures Numbered(PrunedLog(l, cutoff))
  {
    var after := PrunedLog(l, cutoff);
    KeptAre(l.rows, cutoff);
    KeptInKeyOrder(l.rows, cutoff);
    forall row | row in after.rows
      ensures 1 <= row.id <= |after.history| && row == after.history[row.id - 1]
    {
      assert row in l.rows;
    }
    assert after.rows == KeptFrom(l.rows, cutoff);
  }

  lemma {:induction false} NoneKept(rows: seq<Row>, cutoff: int)
    requires forall i :: 0 <= i < |rows| ==> rows[i].at < cutoff
    ensures KeptFrom(rows, cutoff) == []
  {
    if rows != [] {
      NoneKept(rows[..|rows| - 1], cutoff);
    }
  }

  /** When the rows' times never go back, pruning takes only the oldest. */
  lemma {:induction false} OldestGoFirst(rows: seq<Row>, cutoff: int) returns (k: nat)
    requires InOrder(rows)
    ensures k <= |rows| && KeptFrom(rows, cutoff) == rows[k..]
  {
    if rows == [] {
      k := 0;
    } else {
      var last := rows[|rows| - 1];
      if last.at < cutoff {
        NoneKept(rows, cutoff);
        k := |rows|;
      } else {
        k := OldestGoFirst(rows[..|rows| - 1], cutoff);
        assert rows[..|rows| - 1][k..] + [last] == rows[k..];
      }
    }
  }

  lemma PruneKeepsSuffix(l: Log, cutoff: int)
    requires IsSuffix(l) && InOrder(l.rows)
    ensures IsSuffix(PrunedLog(l, cutoff))
  {
    var k := |l.history| - |l.rows|;
    var dropped := OldestGoFirst(l.rows, cutoff);
    assert l.history[k..][dropped..] == l.history[k + dropped..];
  }

  // --- what a reconnecting page is told ---

  /** Every change after `last` to a wanted panel, pruned or not. */
  function Missed(l: Log, last: int, wanted: seq<string>): seq<Update> {
    UpdatesAfter(l.history, last, wanted)
  }

  lemma {:induction false} UpdatesSplit(a: seq<Row>, b: seq<Row>, last: int, wanted: seq<string>)
    ensures UpdatesAfter(a + b, last, wanted) == UpdatesAfter(a, last, wanted) + UpdatesAfter(b, last, wanted)
  {
    if b == [] {
      assert a + b == a;
    } else {
      assert (a + b)[..|a + b| - 1] == a + b[..|b| - 1];
      UpdatesSplit(a, b[..|b| - 1], last, wanted);
    }
  }

  lemma {:induction false} NoneAfter(rows: seq<Row>, last: int, wanted: seq<string>)
    requires forall row :: row in rows ==> row.id <= last
    ensures UpdatesAfter(rows, last, wanted) == []
  {
    if rows != [] {
      assert rows[|rows| - 1] in rows;
      NoneAfter(rows[..|rows| - 1], last, wanted);
    }
  }

  predicate IsUpdate(u: Update, row: Row, last: int, wanted: seq<string>) {
    row.id > last && row.panel in wanted && u == Update(row.id, row.panel)
  }

  lemma {:induction false} UpdateFor(rows: seq<Row>, last: int, wanted: seq<string>, i: nat)
    requires i < |rows| && rows[i].id > last && rows[i].panel in wanted
    ensures Tells(UpdatesAfter(rows, last, wanted), rows[i].panel)
  {
    var init, updates := rows[..|rows| - 1], UpdatesAfter(rows, last, wanted);
    if i == |rows| - 1 {
      assert updates[|updates| - 1].panel == rows[i].panel;
    } else {
      UpdateFor(init, last, wanted, i);
      var inner := UpdatesAfter(init, last, wanted);
      var j :| 0 <= j < |inner| && inner[j].panel == rows[i].panel;
      assert updates[j].panel == rows[i].panel;
    }
  }

  lemma {:induction false} RowFor(rows: seq<Row>, last: int, wanted: seq<string>, i: nat) returns (j: nat)
    requires i < |UpdatesAfter(rows, last, wanted)|
    ensures j < |rows| && IsUpdate(UpdatesAfter(rows, last, wanted)[i], rows[j], last, wanted)
  {
    var init := rows[..|rows| - 1];
    if i < |UpdatesAfter(init, last, wanted)| {
      j := RowFor(init, last, wanted, i);
    } else {
      j := |rows| - 1;
    }
  }

  lemma SkipsOld(rows: seq<Row>, k: nat, last: int, wanted: seq<string>)
    requires k <= |rows| && forall row :: row in rows[..k] ==> row.id <= last
    ensures UpdatesAfter(rows, last, wanted) == UpdatesAfter(rows[k..], last, wanted)
  {
    NoneAfter(rows[..k], last, wanted);
    UpdatesSplit(rows[..k], rows[k..], last, wanted);
    assert rows == rows[..k] + rows[k..];
    assert [] + UpdatesAfter(rows[k..], last, wanted) == UpdatesAfter(rows[k..], last, wanted);
  }

  predicate InWindow(l: Log, last: int) {
    last > 0 && last >= MinId(l) - 1
  }

  lemma BeforeTheRest(l: Log, k: nat, last: int)
    requires Numbered(l) && k < |l.history| && l.rows == l.history[k..] && last >= MinId(l) - 1
    ensures forall row :: row in l.history[..k] ==> row.id <= last
  {
    assert l.rows[0] == l.history[k];
    forall row | row in l.history[..k] ensures row.id <= last {
      var i :| 0 <= i < k && l.history[i] == row;
    }
  }

  /** A page whose last id is within the log's window is told exactly what it missed. */
  lemma ReplayIsExact(l: Log, last: int, wanted: seq<string>)
    requires Numbered(l) && IsSuffix(l) && l.rows != [] && InWindow(l, last)
    ensures ReplayOrRefetch(l, last, wanted) == Missed(l, last, wanted)
  {
    var k := |l.history| - |l.rows|;
    BeforeTheRest(l, k, last);
    SkipsOld(l.history, k, last, wanted);
  }

  predicate Tells(updates: seq<Update>, panel: string) {
    exists i :: 0 <= i < |updates| && updates[i].panel == panel
  }

  predicate Changed(l: Log, panel: string, last: int) {
    exists i :: 0 <= i < |l.history| && l.history[i].id > last && l.history[i].panel == panel
  }

  lemma MissedTells(l: Log, last: int, wanted: seq<string>, panel: string)
    requires panel in wanted
    ensures Tells(Missed(l, last, wanted), panel) <==> Changed(l, panel, last)
  {
    if Changed(l, panel, last) {
      var i :| 0 <= i < |l.history| && l.history[i].id > last && l.history[i].panel == panel;
      UpdateFor(l.history, last, wanted, i);
    } else if Tells(Missed(l, last, wanted), panel) {
      var i :| 0 <= i < |Missed(l, last, wanted)| && Missed(l, last, wanted)[i].panel == panel;
      var j := RowFor(l.history, last, wanted, i);
    }
  }

  lemma RefetchIs(l: Log, wanted: seq<string>, i: nat)
    requires i < |wanted|
    ensures RefetchAll(l, wanted)[i] == Update(MaxId(l), wanted[i])
  {
  }

  /** A refetch carries the id of the newest change there ever was. */
  lemma RefetchIsAtTheHead(l: Log, wanted: seq<string>, i: nat)
    requires Numbered(l) && IsSuffix(l) && l.rows != [] && i < |wanted|
    ensures RefetchAll(l, wanted)[i] == Update(|l.history|, wanted[i])
  {
    assert l.rows[|l.rows| - 1] == l.history[|l.history| - 1];
    RefetchIs(l, wanted, i);
  }

  lemma RefetchTells(l: Log, wanted: seq<string>, panel: string)
    requires panel in wanted
    ensures Tells(RefetchAll(l, wanted), panel)
  {
    var i :| 0 <= i < |wanted| && wanted[i] == panel;
    assert RefetchAll(l, wanted)[i].panel == panel;
  }

  /** While the log is not empty, every wanted panel that changed after the page's last id is told, pruned or not,
  whatever that id is. */
  lemma NoChangeIsLost(l: Log, last: int, wanted: seq<string>, panel: string)
    requires Numbered(l) && IsSuffix(l) && l.rows != [] && panel in wanted && Changed(l, panel, last)
    ensures Tells(ReplayOrRefetch(l, last, wanted), panel)
  {
    if InWindow(l, last) {
      ReplayIsExact(l, last, wanted);
      MissedTells(l, last, wanted, panel);
    } else {
      RefetchTells(l, wanted, panel);
    }
  }

  /** A log pruned to nothing tells a page nothing: it misses something exactly if a wanted panel changed. */
  lemma EmptyLogTellsNothing(l: Log, last: int, wanted: seq<string>)
    requires l.rows == [] && last > 0
    ensures ReplayOrRefetch(l, last, wanted) == []
    ensures Missed(l, last, wanted) == ReplayOrRefetch(l, last, wanted)
       <==> forall panel :: panel in wanted ==> !Changed(l, panel, last)
  {
    var missed := Missed(l, last, wanted);
    forall panel | panel in wanted ensures Tells(missed, panel) <==> Changed(l, panel, last) {
      MissedTells(l, last, wanted, panel);
    }
    if missed != [] {
      var j := RowFor(l.history, last, wanted, 0);
      assert Tells(missed, missed[0].panel);
    }
  }

  // --- when the log has a gap ---

  predicate Holds(l: Log, id: int) {
    exists i :: 0 <= i < |l.rows| && l.rows[i].id == id
  }

  lemma {:induction false} WithoutGapsIsSuffix(l: Log, i: nat)
    requires Numbered(l) && i < |l.rows| && l.rows[|l.rows| - 1].id == |l.history|
    requires forall j :: 0 <= j < |l.rows| - 1 ==> l.rows[j + 1].id == l.rows[j].id + 1
    ensures l.rows[i].id == |l.history| - |l.rows| + i + 1
    decreases |l.rows| - i
  {
    if i < |l.rows| - 1 {
      WithoutGapsIsSuffix(l, i + 1);
      assert l.rows[i + 1].id == l.rows[i].id + 1;
    }
  }

  /** A kept log that is not the newest rows lacks one that is newer than its oldest. */
  lemma GapIn(l: Log) returns (id: int)
    requires Numbered(l) && l.rows != [] && !IsSuffix(l)
    ensures MinId(l) < id <= |l.history| && !Holds(l, id)
  {
    var newest := l.rows[|l.rows| - 1];
    assert newest in l.rows && l.rows[0] in l.rows;
    if newest.id < |l.history| {
      id := |l.history|;
    } else if j :| 0 <= j < |l.rows| - 1 && l.rows[j + 1].id != l.rows[j].id + 1 {
      id := l.rows[j].id + 1;
      assert l.rows[j] in l.rows && l.rows[j + 1] in l.rows;
      forall i | 0 <= i < |l.rows| ensures l.rows[i].id != id {
        assert i <= j || j + 1 <= i;
      }
    } else {
      SuffixByKeys(l);
      id := 0;
    }
  }

  lemma SuffixByKeys(l: Log)
    requires Numbered(l) && l.rows != [] && l.rows[|l.rows| - 1].id == |l.history|
    requires forall j :: 0 <= j < |l.rows| - 1 ==> l.rows[j + 1].id == l.rows[j].id + 1
    ensures IsSuffix(l)
  {
    WithoutGapsIsSuffix(l, 0);
    assert l.rows[0] in l.rows;
    forall i | 0 <= i < |l.rows| ensures l.rows[i] == l.history[|l.history| - |l.rows| + i] {
      WithoutGapsIsSuffix(l, i);
      assert l.rows[i] in l.rows;
    }
  }

  ghost predicate AlwaysExact(l: Log) {
    forall last: int, wanted :: InWindow(l, last) ==> ReplayOrRefetch(l, last, wanted) == Missed(l, last, wanted)
  }

  /** Replaying tells every page within the window exactly what it missed if and only if no row is missing between those
  kept. */
  lemma ReplayIsExactIffNoGap(l: Log)
    requires Numbered(l) && l.rows != []
    ensures AlwaysExact(l) <==> IsSuffix(l)
  {
    if IsSuffix(l) {
      forall last: int, wanted | InWindow(l, last)
        ensures ReplayOrRefetch(l, last, wanted) == Missed(l, last, wanted)
      {
        ReplayIsExact(l, last, wanted);
      }
    } else {
      var id := GapIn(l);
      assert l.rows[0] in l.rows;
      GapIsNotTold(l, id, [l.history[id - 1].panel]);
    }
  }

  lemma GapIsNotTold(l: Log, id: int, wanted: seq<string>)
    requires Numbered(l) && l.rows != [] && 1 <= MinId(l) < id <= |l.history| && !Holds(l, id)
    requires wanted == [l.history[id - 1].panel]
    ensures InWindow(l, id - 1) && ReplayOrRefetch(l, id - 1, wanted) != Missed(l, id - 1, wanted)
  {
    var told, missed := EventsSince(l, id - 1, wanted), Missed(l, id - 1, wanted);
    var i := IdIsTold(l.history, id - 1, wanted, id - 1);
    if i < |told| {
      NotTold(l, id, wanted, i);
    }
  }

  lemma NotTold(l: Log, id: int, wanted: seq<string>, i: nat)
    requires !Holds(l, id) && i < |EventsSince(l, id - 1, wanted)|
    ensures EventsSince(l, id - 1, wanted)[i].id != id
  {
    var j := RowFor(l.rows, id - 1, wanted, i);
  }

  lemma {:induction false} IdIsTold(rows: seq<Row>, last: int, wanted: seq<string>, i: nat) returns (j: nat)
    requires i < |rows| && rows[i].id > last && rows[i].panel in wanted
    ensures j < |UpdatesAfter(rows, last, wanted)| && UpdatesAfter(rows, last, wanted)[j].id == rows[i].id
  {
    var init := rows[..|rows| - 1];
    if i == |rows| - 1 {
      j := |UpdatesAfter(init, last, wanted)|;
    } else {
      j := IdIsTold(init, last, wanted, i);
    }
  }

  ghost predicate PrunesToSuffixes(l: Log) {
    forall cutoff: int :: IsSuffix(PrunedLog(l, cutoff))
  }

  /** Pruning by time leaves no gap, whenever it is done, if and only if the rows' times never go back. Two feeds that
  stamp their rows with the time their pass began can break this. */
  lemma PruningLeavesNoGapIffTimesInOrder(l: Log)
    requires Numbered(l) && IsSuffix(l)
    ensures PrunesToSuffixes(l) <==> InOrder(l.rows)
  {
    if InOrder(l.rows) {
      forall cutoff: int ensures IsSuffix(PrunedLog(l, cutoff)) {
        PruneKeepsSuffix(l, cutoff);
      }
    } else {
      var i, j :| 0 <= i < j < |l.rows| && l.rows[i].at > l.rows[j].at;
      var cutoff := l.rows[i].at;
      OlderKeptWithoutNewer(l, i, j, cutoff);
      assert !IsSuffix(PrunedLog(l, cutoff));
    }
  }

  lemma SuffixHasLater(l: Log, x: nat, y: nat)
    requires Numbered(l) && IsSuffix(l) && x < y < |l.history| && l.history[x] in l.rows
    ensures l.history[y] in l.rows
  {
    var a :| 0 <= a < |l.rows| && l.rows[a] == l.history[x];
    var m := InHistory(l, a);
    assert l.history[m].id == m + 1;
    var z := InHistory(l, a + (y - x));
  }

  lemma OlderKeptWithoutNewer(l: Log, i: nat, j: nat, cutoff: int)
    requires Numbered(l) && IsSuffix(l) && i < j < |l.rows| && l.rows[i].at == cutoff > l.rows[j].at
    ensures !IsSuffix(PrunedLog(l, cutoff))
  {
    var after := PrunedLog(l, cutoff);
    KeptAre(l.rows, cutoff);
    PruneKeepsNumbers(l, cutoff);
    var x := InHistory(l, i);
    var y := InHistory(l, j);
    if IsSuffix(after) {
      SuffixHasLater(after, x, y);
    }
  }

  lemma InHistory(l: Log, i: nat) returns (x: nat)
    requires IsSuffix(l) && i < |l.rows|
    ensures x == |l.history| - |l.rows| + i && l.history[x] == l.rows[i] && l.rows[i] in l.rows
  {
    x := |l.history| - |l.rows| + i;
  }

  /** Three rows are enough: the second carries the earliest time, so pruning takes it and keeps the first, and a page
  that saw the first is not told of it. */
  lemma AGap(other: string, panel: string)
    ensures var rows := [Row(1, other, 10), Row(2, panel, 5), Row(3, other, 11)];
      var kept := PrunedLog(Log(rows, rows), 7);
      && kept.rows == [Row(1, other, 10), Row(3, other, 11)]
      && InWindow(kept, 1) && Changed(kept, panel, 1)
      && (other != panel ==> ReplayOrRefetch(kept, 1, [panel]) == [])
  {
    var rows := [Row(1, other, 10), Row(2, panel, 5), Row(3, other, 11)];
    assert rows[..2] == [Row(1, other, 10), Row(2, panel, 5)];
    assert rows[..2][..1] == [Row(1, other, 10)] && rows[..2][..1][..0] == [];
    assert KeptFrom(rows[..2][..1], 7) == [Row(1, other, 10)];
    assert KeptFrom(rows[..2], 7) == [Row(1, other, 10)];
    var kept := PrunedLog(Log(rows, rows), 7);
    assert kept.rows == [Row(1, other, 10), Row(3, other, 11)];
    assert kept.history[1].panel == panel;
    if other != panel {
      NoneWanted(kept.rows, 1, [panel]);
    }
  }

  lemma {:induction false} NoneWanted(rows: seq<Row>, last: int, wanted: seq<string>)
    requires forall i :: 0 <= i < |rows| ==> rows[i].panel !in wanted
    ensures UpdatesAfter(rows, last, wanted) == []
  {
    if rows != [] {
      NoneWanted(rows[..|rows| - 1], last, wanted);
    }
  }

  // --- a page over a whole run ---

  /** The id a page would send on reconnecting, and how many changes had been made when it last fetched each panel. */
  datatype Page = Page(last: int, fetched: map<string, int>)

  function FetchedAt(p: Page, panel: string): int {
    if panel in p.fetched then p.fetched[panel] else 0
  }

  /** Each update makes the page fetch the panel. */
  function Delivered(p: Page, updates: seq<Update>, changes: int): Page {
    if updates == [] then p
    else
      var before, u := Delivered(p, updates[..|updates| - 1], changes), updates[|updates| - 1];
      Page(Max(before.last, u.id), before.fetched[u.panel := changes])
  }

  datatype World = World(log: Log, page: Page)

  datatype Step = Change(panel: string, at: int) | Prune(cutoff: int) | Connect | Poll

  function Do(w: World, wanted: seq<string>, step: Step): World {
    match step
    case Change(panel, at) => w.(log := Appended(w.log, panel, at))
    case Prune(cutoff) => w.(log := PrunedLog(w.log, cutoff))
    case Connect =>
      w.(page := Delivered(w.page, ReplayOrRefetch(w.log, w.page.last, wanted), |w.log.history|))
    case Poll => w.(page := Delivered(w.page, EventsSince(w.log, w.page.last, wanted), |w.log.history|))
  }

  function Run(wanted: seq<string>, steps: seq<Step>): World {
    if steps == [] then World(EMPTY, Page(0, map[]))
    else Do(Run(wanted, steps[..|steps| - 1]), wanted, steps[|steps| - 1])
  }

  /** A change is not dated before the newest row kept. */
  predicate InTurn(w: World, step: Step) {
    step.Change? && w.log.rows != [] ==> w.log.rows[|w.log.rows| - 1].at <= step.at
  }

  predicate AllInTurn(wanted: seq<string>, steps: seq<Step>) {
    forall i :: 0 <= i < |steps| ==> InTurn(Run(wanted, steps[..i]), steps[i])
  }

  /** A kept row is newer than the page's last id. */
  predicate HasNews(l: Log, panel: string, last: int) {
    exists i :: 0 <= i < |l.rows| && l.rows[i].panel == panel && l.rows[i].id > last
  }

  predicate NoNews(w: World, wanted: seq<string>) {
    forall panel :: panel in wanted ==> !HasNews(w.log, panel, w.page.last)
  }

  /** A change to a wanted panel that the page has not fetched since. */
  predicate Behind(w: World, wanted: seq<string>, i: int) {
    0 <= i < |w.log.history| && w.log.history[i].panel in wanted
    && w.log.history[i].id > FetchedAt(w.page, w.log.history[i].panel)
  }

  predicate NewsOfAll(w: World, wanted: seq<string>) {
    forall i | 0 <= i < |w.log.history| && Behind(w, wanted, i) :: HasNews(w.log, w.log.history[i].panel, w.page.last)
  }

  /** Before a poll: either no wanted panel has news, or each of them that the page is behind on has. */
  predicate TellsInTime(w: World, wanted: seq<string>) {
    NoNews(w, wanted) || NewsOfAll(w, wanted)
  }

  predicate PollsInTime(wanted: seq<string>, steps: seq<Step>) {
    forall i :: 0 <= i < |steps| && steps[i].Poll? ==> TellsInTime(Run(wanted, steps[..i]), wanted)
  }

  predicate UpToDate(w: World, wanted: seq<string>) {
    forall i :: 0 <= i < |w.log.history| && w.log.history[i].panel in wanted ==>
      w.log.history[i].id <= FetchedAt(w.page, w.log.history[i].panel)
  }

  /** Whatever is not after the page's last id has been fetched. */
  predicate Covered(w: World, wanted: seq<string>) {
    && w.page.last <= |w.log.history|
    && forall i | 0 <= i < |w.log.history| && w.log.history[i].panel in wanted && w.log.history[i].id <= w.page.last ::
      w.log.history[i].id <= FetchedAt(w.page, w.log.history[i].panel)
  }

  lemma {:induction false} DeliveredFetches(p: Page, updates: seq<Update>, changes: int, panel: string)
    ensures FetchedAt(Delivered(p, updates, changes), panel)
         == if Tells(updates, panel) then changes else FetchedAt(p, panel)
  {
    if updates != [] {
      var init, u := updates[..|updates| - 1], updates[|updates| - 1];
      DeliveredFetches(p, init, changes, panel);
      TellsLast(init, u, panel);
      assert updates == init + [u];
    }
  }

  lemma TellsLast(init: seq<Update>, u: Update, panel: string)
    ensures Tells(init + [u], panel) <==> Tells(init, panel) || u.panel == panel
  {
    if Tells(init, panel) {
      var i :| 0 <= i < |init| && init[i].panel == panel;
      assert (init + [u])[i].panel == panel;
    }
    if u.panel == panel {
      assert (init + [u])[|init|].panel == panel;
    }
  }

  lemma {:induction false} DeliveredLast(p: Page, updates: seq<Update>, changes: int, most: int)
    requires p.last <= most && forall i :: 0 <= i < |updates| ==> updates[i].id <= most
    ensures p.last <= Delivered(p, updates, changes).last <= most
  {
    if updates != [] {
      DeliveredLast(p, updates[..|updates| - 1], changes, most);
    }
  }

  predicate TellsAll(l: Log, last: int, wanted: seq<string>, updates: seq<Update>) {
    && (forall panel :: panel in wanted && Changed(l, panel, last) ==> Tells(updates, panel))
    && (forall i :: 0 <= i < |updates| ==> updates[i].id <= |l.history|)
  }

  /** Told of every panel that changed after its last id, a page is up to date. */
  lemma ToldIsUpToDate(w: World, wanted: seq<string>, updates: seq<Update>)
    requires Numbered(w.log) && Covered(w, wanted) && TellsAll(w.log, w.page.last, wanted, updates)
    ensures var after := w.(page := Delivered(w.page, updates, |w.log.history|));
      UpToDate(after, wanted) && Covered(after, wanted)
  {
    var changes := |w.log.history|;
    var after := w.(page := Delivered(w.page, updates, changes));
    DeliveredLast(w.page, updates, changes, changes);
    forall i | 0 <= i < |after.log.history| && after.log.history[i].panel in wanted
      ensures after.log.history[i].id <= FetchedAt(after.page, after.log.history[i].panel)
    {
      RowIsFetched(w, wanted, updates, i);
    }
    assert UpToDate(after, wanted);
  }

  lemma RowIsFetched(w: World, wanted: seq<string>, updates: seq<Update>, i: nat)
    requires Numbered(w.log) && Covered(w, wanted) && TellsAll(w.log, w.page.last, wanted, updates)
    requires i < |w.log.history| && w.log.history[i].panel in wanted
    ensures var page := Delivered(w.page, updates, |w.log.history|);
      w.log.history[i].id <= FetchedAt(page, w.log.history[i].panel)
  {
    var row := w.log.history[i];
    DeliveredFetches(w.page, updates, |w.log.history|, row.panel);
    if row.id > w.page.last {
      assert Changed(w.log, row.panel, w.page.last);
    }
  }

  lemma UpdateIds(l: Log, last: int, wanted: seq<string>)
    requires Numbered(l)
    ensures forall i | 0 <= i < |EventsSince(l, last, wanted)| :: EventsSince(l, last, wanted)[i].id <= |l.history|
  {
    forall i | 0 <= i < |EventsSince(l, last, wanted)|
      ensures EventsSince(l, last, wanted)[i].id <= |l.history|
    {
      var j := RowFor(l.rows, last, wanted, i);
      assert l.rows[j] in l.rows;
    }
  }

  lemma ConnectTellsAll(l: Log, last: int, wanted: seq<string>)
    requires Numbered(l) && IsSuffix(l) && l.rows != []
    ensures TellsAll(l, last, wanted, ReplayOrRefetch(l, last, wanted))
  {
    UpdateIds(l, last, wanted);
    var updates := ReplayOrRefetch(l, last, wanted);
    assert l.rows[|l.rows| - 1] in l.rows;
    forall i | 0 <= i < |updates| ensures updates[i].id <= |l.history| {
      if updates == RefetchAll(l, wanted) {
        RefetchIs(l, wanted, i);
      }
    }
    forall panel | panel in wanted && Changed(l, panel, last)
      ensures Tells(ReplayOrRefetch(l, last, wanted), panel)
    {
      NoChangeIsLost(l, last, wanted, panel);
    }
  }

  // --- every run ---

  /** What the log keeps, whatever pages do. */
  predicate Contiguous(l: Log) {
    Numbered(l) && IsSuffix(l) && InOrder(l.rows)
  }

  lemma {:induction false} TurnsBefore(wanted: seq<string>, steps: seq<Step>, n: nat)
    requires AllInTurn(wanted, steps) && n <= |steps|
    ensures AllInTurn(wanted, steps[..n])
  {
    forall i | 0 <= i < n ensures InTurn(Run(wanted, steps[..n][..i]), steps[..n][i]) {
      assert steps[..n][..i] == steps[..i];
    }
  }

  /** As long as changes are dated in turn, the rows kept are the newest ones with none missing, however pages connect
  and poll and whenever the log is pruned. */
  lemma {:induction false} RunKeepsNewest(wanted: seq<string>, steps: seq<Step>)
    requires AllInTurn(wanted, steps)
    ensures Contiguous(Run(wanted, steps).log)
  {
    if steps != [] {
      var n := |steps| - 1;
      TurnsBefore(wanted, steps, n);
      RunKeepsNewest(wanted, steps[..n]);
      StepKeepsNewest(Run(wanted, steps[..n]), wanted, steps[n]);
    }
  }

  lemma StepKeepsNewest(w: World, wanted: seq<string>, step: Step)
    requires Contiguous(w.log) && InTurn(w, step)
    ensures Contiguous(Do(w, wanted, step).log)
  {
    if step.Change? {
      AppendKeepsNewest(w.log, step.panel, step.at);
    } else if step.Prune? {
      PruneKeepsNewest(w.log, step.cutoff);
    }
  }

  lemma AppendKeepsNewest(l: Log, panel: string, at: int)
    requires Contiguous(l) && (l.rows != [] ==> l.rows[|l.rows| - 1].at <= at)
    ensures Contiguous(Appended(l, panel, at))
  {
    AppendKeepsNumbers(l, panel, at);
    AppendKeepsSuffix(l, panel, at);
    AppendKeepsOrder(l, panel, at);
  }

  lemma AppendKeepsOrder(l: Log, panel: string, at: int)
    requires InOrder(l.rows) && (l.rows != [] ==> l.rows[|l.rows| - 1].at <= at)
    ensures InOrder(Appended(l, panel, at).rows)
  {
    StaysInOrder(l.rows, Row(|l.history| + 1, panel, at));
  }

  lemma StaysInOrder(rows: seq<Row>, row: Row)
    requires InOrder(rows) && (rows != [] ==> rows[|rows| - 1].at <= row.at)
    ensures InOrder(rows + [row])
  {
  }

  lemma PruneKeepsNewest(l: Log, cutoff: int)
    requires Contiguous(l)
    ensures Contiguous(PrunedLog(l, cutoff))
  {
    PruneKeepsNumbers(l, cutoff);
    PruneKeepsSuffix(l, cutoff);
    var k := OldestGoFirst(l.rows, cutoff);
  }

  /** At every moment of a run. */
  ghost predicate Always(p: World -> bool, wanted: seq<string>, steps: seq<Step>) {
    forall n :: 0 <= n <= |steps| ==> p(Run(wanted, steps[..n]))
  }

  lemma SoFar(steps: seq<Step>, n: nat)
    requires n < |steps|
    ensures steps[..|steps| - 1][..n] == steps[..n]
  {
  }

  lemma AlwaysBefore(p: World -> bool, wanted: seq<string>, steps: seq<Step>)
    requires steps != [] && Always(p, wanted, steps)
    ensures Always(p, wanted, steps[..|steps| - 1])
  {
    var init := steps[..|steps| - 1];
    forall n | 0 <= n <= |init| ensures p(Run(wanted, init[..n])) {
      SoFar(steps, n);
    }
  }

  lemma AlwaysStill(p: World -> bool, wanted: seq<string>, steps: seq<Step>)
    requires steps != [] && Always(p, wanted, steps[..|steps| - 1]) && p(Run(wanted, steps))
    ensures Always(p, wanted, steps)
  {
    var init := steps[..|steps| - 1];
    forall n | 0 <= n <= |steps| ensures p(Run(wanted, steps[..n])) {
      if n < |steps| {
        SoFar(steps, n);
        assert p(Run(wanted, init[..n]));
      } else {
        assert steps[..n] == steps;
      }
    }
  }

  lemma AlwaysNow(p: World -> bool, wanted: seq<string>, steps: seq<Step>)
    requires Always(p, wanted, steps)
    ensures p(Run(wanted, steps))
  {
    assert steps[..|steps|] == steps;
  }

  lemma AlwaysOneMore(p: World -> bool, wanted: seq<string>, steps: seq<Step>)
    requires steps != []
    ensures Always(p, wanted, steps) <==> Always(p, wanted, steps[..|steps| - 1]) && p(Run(wanted, steps))
    ensures Always(p, wanted, steps[..|steps| - 1]) ==> p(Run(wanted, steps[..|steps| - 1]))
  {
    if Always(p, wanted, steps) {
      AlwaysBefore(p, wanted, steps);
      AlwaysNow(p, wanted, steps);
    }
    if Always(p, wanted, steps[..|steps| - 1]) {
      AlwaysNow(p, wanted, steps[..|steps| - 1]);
      if p(Run(wanted, steps)) {
        AlwaysStill(p, wanted, steps);
      }
    }
  }

  ghost predicate AlwaysCovered(wanted: seq<string>, steps: seq<Step>) {
    Always((w: World) => Covered(w, wanted), wanted, steps)
  }

  /** A page's last id can be trusted at every moment of a run if and only if every poll of the run told in time. */
  lemma {:induction false} LastIdIsTrueIffPollsInTime(wanted: seq<string>, steps: seq<Step>)
    requires AllInTurn(wanted, steps)
    ensures AlwaysCovered(wanted, steps) <==> PollsInTime(wanted, steps)
  {
    if steps == [] {
      assert steps[..0] == [];
    } else {
      var n := |steps| - 1;
      TurnsBefore(wanted, steps, n);
      LastIdIsTrueIffPollsInTime(wanted, steps[..n]);
      RunKeepsNewest(wanted, steps[..n]);
      AlwaysOneMore((w: World) => Covered(w, wanted), wanted, steps);
      InTimeOneMore(wanted, steps);
      if Covered(Run(wanted, steps[..n]), wanted) {
        StepKeepsCoveredExactlyWhen(Run(wanted, steps[..n]), wanted, steps[n]);
      }
    }
  }

  lemma InTimeOneMore(wanted: seq<string>, steps: seq<Step>)
    requires steps != []
    ensures var n := |steps| - 1;
      var before, onTime := PollsInTime(wanted, steps[..n]), TellsInTime(Run(wanted, steps[..n]), wanted);
      PollsInTime(wanted, steps) <==> before && (steps[n].Poll? ==> onTime)
  {
    var n := |steps| - 1;
    assert forall i :: 0 <= i < n ==> steps[..n][..i] == steps[..i];
    if PollsInTime(wanted, steps[..n]) && (steps[n].Poll? ==> TellsInTime(Run(wanted, steps[..n]), wanted)) {
      forall i | 0 <= i < |steps| && steps[i].Poll? ensures TellsInTime(Run(wanted, steps[..i]), wanted) {
        if i < n {
          assert steps[..n][i].Poll? && TellsInTime(Run(wanted, steps[..n][..i]), wanted);
        }
      }
    }
  }

  lemma StepKeepsCoveredExactlyWhen(w: World, wanted: seq<string>, step: Step)
    requires Contiguous(w.log) && Covered(w, wanted)
    ensures Covered(Do(w, wanted, step), wanted) <==> (step.Poll? ==> TellsInTime(w, wanted))
  {
    match step
    case Change(panel, at) => CoveredAfter(w, wanted, panel, at);
    case Prune(cutoff) =>
    case Connect => ConnectKeepsCovered(w, wanted);
    case Poll => PollKeepsCoveredExactlyWhen(w, wanted);
  }

  lemma CoveredAfter(w: World, wanted: seq<string>, panel: string, at: int)
    requires Covered(w, wanted)
    ensures Covered(w.(log := Appended(w.log, panel, at)), wanted)
  {
  }

  lemma ConnectKeepsCovered(w: World, wanted: seq<string>)
    requires Contiguous(w.log) && Covered(w, wanted)
    ensures Covered(Do(w, wanted, Connect), wanted)
  {
    if w.log.rows != [] {
      ConnectTellsAll(w.log, w.page.last, wanted);
      ToldIsUpToDate(w, wanted, ReplayOrRefetch(w.log, w.page.last, wanted));
    } else {
      EmptyConnect(w, wanted);
    }
  }

  lemma NewsIsTold(l: Log, last: int, wanted: seq<string>, panel: string)
    requires panel in wanted
    ensures Tells(EventsSince(l, last, wanted), panel) <==> HasNews(l, panel, last)
  {
    var updates := EventsSince(l, last, wanted);
    if HasNews(l, panel, last) {
      var i :| 0 <= i < |l.rows| && l.rows[i].panel == panel && l.rows[i].id > last;
      UpdateFor(l.rows, last, wanted, i);
    }
    if Tells(updates, panel) {
      var i :| 0 <= i < |updates| && updates[i].panel == panel;
      var j := RowFor(l.rows, last, wanted, i);
    }
  }

  lemma NoNewsNothingTold(w: World, wanted: seq<string>)
    ensures EventsSince(w.log, w.page.last, wanted) == [] <==> NoNews(w, wanted)
  {
    var updates := EventsSince(w.log, w.page.last, wanted);
    forall panel | panel in wanted ensures Tells(updates, panel) <==> HasNews(w.log, panel, w.page.last) {
      NewsIsTold(w.log, w.page.last, wanted, panel);
    }
    if updates != [] {
      var j := RowFor(w.log.rows, w.page.last, wanted, 0);
      assert Tells(updates, updates[0].panel);
    }
  }

  /** A poll leaves the page's last id true exactly when, before it, either no wanted panel has news or each of them
  that the page is behind on has. */
  lemma PollKeepsCoveredExactlyWhen(w: World, wanted: seq<string>)
    requires Contiguous(w.log) && Covered(w, wanted)
    ensures Covered(Do(w, wanted, Poll), wanted) <==> TellsInTime(w, wanted)
  {
    NoNewsNothingTold(w, wanted);
    if !NoNews(w, wanted) {
      if NewsOfAll(w, wanted) {
        TellingKeepsCovered(w, wanted);
      } else {
        var i: nat :| i < |w.log.history| && Behind(w, wanted, i)
          && !HasNews(w.log, w.log.history[i].panel, w.page.last);
        UntoldSpoils(w, wanted, i);
      }
    }
  }

  lemma TellingKeepsCovered(w: World, wanted: seq<string>)
    requires Contiguous(w.log) && Covered(w, wanted) && NewsOfAll(w, wanted)
    ensures Covered(Do(w, wanted, Poll), wanted) && UpToDate(Do(w, wanted, Poll), wanted)
  {
    var updates, changes := EventsSince(w.log, w.page.last, wanted), |w.log.history|;
    UpdateIds(w.log, w.page.last, wanted);
    DeliveredLast(w.page, updates, changes, changes);
    forall i | 0 <= i < changes && w.log.history[i].panel in wanted
      ensures w.log.history[i].id <= FetchedAt(Delivered(w.page, updates, changes), w.log.history[i].panel)
    {
      NewsIsFetched(w, wanted, i);
    }
    FetchedIsUpToDate(w, wanted, Delivered(w.page, updates, changes));
  }

  lemma NewsIsFetched(w: World, wanted: seq<string>, i: nat)
    requires Numbered(w.log) && i < |w.log.history| && w.log.history[i].panel in wanted
    requires Behind(w, wanted, i) ==> HasNews(w.log, w.log.history[i].panel, w.page.last)
    ensures var page := Delivered(w.page, EventsSince(w.log, w.page.last, wanted), |w.log.history|);
      w.log.history[i].id <= FetchedAt(page, w.log.history[i].panel)
  {
    var updates := EventsSince(w.log, w.page.last, wanted);
    NewsIsTold(w.log, w.page.last, wanted, w.log.history[i].panel);
    DeliveredFetches(w.page, updates, |w.log.history|, w.log.history[i].panel);
  }

  lemma FetchedIsUpToDate(w: World, wanted: seq<string>, page: Page)
    requires page.last <= |w.log.history|
    requires forall i | 0 <= i < |w.log.history| && w.log.history[i].panel in wanted ::
               w.log.history[i].id <= FetchedAt(page, w.log.history[i].panel)
    ensures Covered(w.(page := page), wanted) && UpToDate(w.(page := page), wanted)
  {
  }

  lemma UntoldSpoils(w: World, wanted: seq<string>, i: nat)
    requires Contiguous(w.log) && Covered(w, wanted) && !NoNews(w, wanted)
    requires Behind(w, wanted, i) && !HasNews(w.log, w.log.history[i].panel, w.page.last)
    ensures !Covered(Do(w, wanted, Poll), wanted)
  {
    var updates, row := EventsSince(w.log, w.page.last, wanted), w.log.history[i];
    NoNewsNothingTold(w, wanted);
    NewsIsTold(w.log, w.page.last, wanted, row.panel);
    UntoldIsPassed(w, wanted, i);
    DeliveredFetches(w.page, updates, |w.log.history|, row.panel);
  }

  /** An untold row is one that was pruned, so whatever a poll does tell is newer, and the page's last id passes it. */
  lemma UntoldIsPassed(w: World, wanted: seq<string>, i: nat)
    requires Contiguous(w.log) && Covered(w, wanted) && i < |w.log.history| && w.log.history[i].panel in wanted
    requires w.log.history[i].id > FetchedAt(w.page, w.log.history[i].panel)
    requires var updates := EventsSince(w.log, w.page.last, wanted);
      updates != [] && !Tells(updates, w.log.history[i].panel)
    ensures w.log.history[i].id <= Do(w, wanted, Poll).page.last
  {
    UntoldIsOlder(w.log, w.page.last, wanted, i);
    LastReaches(w.page, EventsSince(w.log, w.page.last, wanted), |w.log.history|, 0);
  }

  lemma UntoldIsOlder(l: Log, last: int, wanted: seq<string>, i: nat)
    requires Contiguous(l) && i < |l.history| && l.history[i].panel in wanted && l.history[i].id > last
    requires EventsSince(l, last, wanted) != [] && !Tells(EventsSince(l, last, wanted), l.history[i].panel)
    ensures l.history[i].id < EventsSince(l, last, wanted)[0].id
  {
    var k := |l.history| - |l.rows|;
    if i >= k {
      assert l.rows[i - k] == l.history[i];
      UpdateFor(l.rows, last, wanted, i - k);
      assert false;
    }
    var j := RowFor(l.rows, last, wanted, 0);
    KeptIds(l, j);
  }

  lemma KeptIds(l: Log, j: nat)
    requires Numbered(l) && IsSuffix(l) && j < |l.rows|
    ensures l.rows[j].id == |l.history| - |l.rows| + j + 1
  {
    assert l.rows[j] == l.history[|l.history| - |l.rows| + j];
  }

  lemma {:induction false} LastReaches(p: Page, updates: seq<Update>, changes: int, i: nat)
    requires i < |updates|
    ensures updates[i].id <= Delivered(p, updates, changes).last
  {
    if i < |updates| - 1 {
      LastReaches(p, updates[..|updates| - 1], changes, i);
    }
  }

  // --- prunes that spare what a page has not been told ---

  /** Every row a page has still to be told is kept. */
  predicate UntoldIsKept(w: World, wanted: seq<string>) {
    forall i | 0 <= i < |w.log.history| && w.log.history[i].panel in wanted && w.log.history[i].id > w.page.last ::
      w.log.history[i] in w.log.rows
  }

  /** In particular a poll tells in time while they are. */
  lemma KeptRowsAreToldInTime(w: World, wanted: seq<string>)
    requires Contiguous(w.log) && Covered(w, wanted) && UntoldIsKept(w, wanted)
    ensures TellsInTime(w, wanted) && UpToDate(Do(w, wanted, Poll), wanted)
  {
    forall i | Behind(w, wanted, i) ensures HasNews(w.log, w.log.history[i].panel, w.page.last) {
      var row := w.log.history[i];
      assert row.id > w.page.last && row in w.log.rows;
      var j :| 0 <= j < |w.log.rows| && w.log.rows[j] == row;
    }
    TellingKeepsCovered(w, wanted);
  }

  /** A prune takes no kept row that the page has still to be told. */
  predicate Spares(w: World, wanted: seq<string>, cutoff: int) {
    forall i | 0 <= i < |w.log.rows| && w.log.rows[i].panel in wanted && w.log.rows[i].id > w.page.last ::
      w.log.rows[i].at >= cutoff
  }

  predicate PrunesSpare(wanted: seq<string>, steps: seq<Step>) {
    forall i :: 0 <= i < |steps| && steps[i].Prune? ==> Spares(Run(wanted, steps[..i]), wanted, steps[i].cutoff)
  }

  ghost predicate AlwaysUntoldKept(wanted: seq<string>, steps: seq<Step>) {
    Always((w: World) => UntoldIsKept(w, wanted), wanted, steps)
  }

  lemma PruneKeepsUntoldExactlyWhen(w: World, wanted: seq<string>, cutoff: int)
    requires Numbered(w.log) && UntoldIsKept(w, wanted)
    ensures UntoldIsKept(Do(w, wanted, Prune(cutoff)), wanted) <==> Spares(w, wanted, cutoff)
  {
    KeptAre(w.log.rows, cutoff);
    forall i | 0 <= i < |w.log.rows| ensures w.log.rows[i] == w.log.history[w.log.rows[i].id - 1] {
      assert w.log.rows[i] in w.log.rows;
    }
  }

  /** A step other than a prune takes no row, and a page's last id never goes back. */
  lemma OthersKeepUntold(w: World, wanted: seq<string>, step: Step)
    requires Numbered(w.log) && UntoldIsKept(w, wanted) && w.page.last <= |w.log.history| && !step.Prune?
    ensures UntoldIsKept(Do(w, wanted, step), wanted)
  {
    match step
    case Change(panel, at) => AppendedIsKept(w, wanted, panel, at);
    case Connect => LastGoesOn(w, ReplayOrRefetch(w.log, w.page.last, wanted));
    case Poll => LastGoesOn(w, EventsSince(w.log, w.page.last, wanted));
  }

  lemma AppendedIsKept(w: World, wanted: seq<string>, panel: string, at: int)
    requires UntoldIsKept(w, wanted)
    ensures UntoldIsKept(Do(w, wanted, Change(panel, at)), wanted)
  {
    var row := Row(|w.log.history| + 1, panel, at);
    assert row in w.log.rows + [row];
    assert forall r :: r in w.log.rows ==> r in w.log.rows + [row];
  }

  lemma {:induction false} LastGoesOn(w: World, updates: seq<Update>)
    ensures w.page.last <= Delivered(w.page, updates, |w.log.history|).last
  {
    if updates != [] {
      LastGoesOn(w, updates[..|updates| - 1]);
    }
  }

  lemma SpareOneMore(wanted: seq<string>, steps: seq<Step>)
    requires steps != []
    ensures var n := |steps| - 1;
      var before := PrunesSpare(wanted, steps[..n]);
      var spared := steps[n].Prune? ==> Spares(Run(wanted, steps[..n]), wanted, steps[n].cutoff);
      PrunesSpare(wanted, steps) <==> before && spared
  {
    var n := |steps| - 1;
    assert forall i :: 0 <= i < n ==> steps[..n][..i] == steps[..i];
    var spared := steps[n].Prune? ==> Spares(Run(wanted, steps[..n]), wanted, steps[n].cutoff);
    if PrunesSpare(wanted, steps[..n]) && spared {
      forall i | 0 <= i < |steps| && steps[i].Prune?
        ensures Spares(Run(wanted, steps[..i]), wanted, steps[i].cutoff)
      {
        if i < n {
          assert steps[..n][i].Prune? && Spares(Run(wanted, steps[..n][..i]), wanted, steps[..n][i].cutoff);
        }
      }
    }
  }

  /** Over a run, every row a page has still to be told is kept at every moment if and only if every prune spares them;
  and then the page's last id is true at every moment. Rows of other panels may be pruned at any time. */
  lemma {:induction false} LastIdIsTrueWhilePrunesSpare(wanted: seq<string>, steps: seq<Step>)
    requires AllInTurn(wanted, steps)
    ensures AlwaysUntoldKept(wanted, steps) <==> PrunesSpare(wanted, steps)
    ensures PrunesSpare(wanted, steps) ==> AlwaysCovered(wanted, steps)
  {
    if steps == [] {
      assert steps[..0] == [];
    } else {
      var n := |steps| - 1;
      var w := Run(wanted, steps[..n]);
      TurnsBefore(wanted, steps, n);
      LastIdIsTrueWhilePrunesSpare(wanted, steps[..n]);
      RunKeepsNewest(wanted, steps[..n]);
      AlwaysOneMore((w: World) => UntoldIsKept(w, wanted), wanted, steps);
      AlwaysOneMore((w: World) => Covered(w, wanted), wanted, steps);
      SpareOneMore(wanted, steps);
      if PrunesSpare(wanted, steps[..n]) {
        SparedStep(w, wanted, steps[n]);
      }
    }
  }

  lemma SparedStep(w: World, wanted: seq<string>, step: Step)
    requires Contiguous(w.log) && Covered(w, wanted) && UntoldIsKept(w, wanted)
    ensures UntoldIsKept(Do(w, wanted, step), wanted) <==> (step.Prune? ==> Spares(w, wanted, step.cutoff))
    ensures Covered(Do(w, wanted, step), wanted)
  {
    KeptRowsAreToldInTime(w, wanted);
    StepKeepsCoveredExactlyWhen(w, wanted, step);
    if step.Prune? {
      PruneKeepsUntoldExactlyWhen(w, wanted, step.cutoff);
    } else {
      OthersKeepUntold(w, wanted, step);
    }
  }

  // --- reconnecting ---

  /** Every panel the page is behind on has changed after its last id. */
  predicate StillToBeTold(w: World, wanted: seq<string>) {
    forall i | 0 <= i < |w.log.history| && Behind(w, wanted, i) ::
      Changed(w.log, w.log.history[i].panel, w.page.last)
  }

  /** In any run whose changes are dated in turn, whatever its polls missed, a page that reconnects while the log is not
  empty is up to date afterwards exactly when its last id makes it fetch everything, or every panel it is behind on has
  changed after that id. */
  lemma ReconnectIsUpToDateExactlyWhen(wanted: seq<string>, steps: seq<Step>)
    requires AllInTurn(wanted, steps) && Run(wanted, steps).log.rows != []
    ensures var w := Run(wanted, steps);
      UpToDate(Do(w, wanted, Connect), wanted) <==> !InWindow(w.log, w.page.last) || StillToBeTold(w, wanted)
  {
    RunKeepsNewest(wanted, steps);
    ReconnectExactly(Run(wanted, steps), wanted);
  }

  lemma ReconnectExactly(w: World, wanted: seq<string>)
    requires Contiguous(w.log) && w.log.rows != []
    ensures UpToDate(Do(w, wanted, Connect), wanted)
       <==> !InWindow(w.log, w.page.last) || StillToBeTold(w, wanted)
  {
    var v := Do(w, wanted, Connect);
    assert v.log == w.log;
    if !InWindow(w.log, w.page.last) || StillToBeTold(w, wanted) {
      forall i | 0 <= i < |v.log.history| && v.log.history[i].panel in wanted
        ensures v.log.history[i].id <= FetchedAt(v.page, v.log.history[i].panel)
      {
        ReconnectFetches(w, wanted, i);
      }
    } else {
      var i: nat :| i < |w.log.history| && Behind(w, wanted, i)
        && !Changed(w.log, w.log.history[i].panel, w.page.last);
      ReconnectFetches(w, wanted, i);
    }
  }

  lemma ReconnectFetches(w: World, wanted: seq<string>, i: nat)
    requires Contiguous(w.log) && w.log.rows != [] && i < |w.log.history| && w.log.history[i].panel in wanted
    ensures w.log.history[i].id <= FetchedAt(Do(w, wanted, Connect).page, w.log.history[i].panel)
       <==> !Behind(w, wanted, i) || !InWindow(w.log, w.page.last)
              || Changed(w.log, w.log.history[i].panel, w.page.last)
  {
    var l, last, panel := w.log, w.page.last, w.log.history[i].panel;
    DeliveredFetches(w.page, ReplayOrRefetch(l, last, wanted), |l.history|, panel);
    if InWindow(l, last) {
      ReplayIsExact(l, last, wanted);
      MissedTells(l, last, wanted, panel);
    } else {
      assert l.rows[0] in l.rows;
      RefetchTells(l, wanted, panel);
    }
  }

  lemma IdsAreReached(l: Log, last: int, wanted: seq<string>)
    requires Contiguous(l)
    ensures forall i | 0 <= i < |ReplayOrRefetch(l, last, wanted)| ::
      ReplayOrRefetch(l, last, wanted)[i].id <= |l.history|
    ensures forall i | 0 <= i < |EventsSince(l, last, wanted)| :: EventsSince(l, last, wanted)[i].id <= |l.history|
  {
    UpdateIds(l, last, wanted);
    forall i | 0 <= i < |RefetchAll(l, wanted)| ensures RefetchAll(l, wanted)[i].id <= |l.history| {
      RefetchIs(l, wanted, i);
      assert l.rows != [] ==> l.rows[|l.rows| - 1] in l.rows;
    }
  }

  lemma {:induction false} LastIsReached(wanted: seq<string>, steps: seq<Step>)
    requires AllInTurn(wanted, steps)
    ensures Run(wanted, steps).page.last <= |Run(wanted, steps).log.history|
  {
    if steps != [] {
      var n := |steps| - 1;
      TurnsBefore(wanted, steps, n);
      LastIsReached(wanted, steps[..n]);
      RunKeepsNewest(wanted, steps[..n]);
      var w := Run(wanted, steps[..n]);
      IdsAreReached(w.log, w.page.last, wanted);
      if steps[n].Connect? {
        DeliveredLast(w.page, ReplayOrRefetch(w.log, w.page.last, wanted), |w.log.history|, |w.log.history|);
      } else if steps[n].Poll? {
        DeliveredLast(w.page, EventsSince(w.log, w.page.last, wanted), |w.log.history|, |w.log.history|);
      }
    }
  }

  lemma RefetchDelivered(w: World, wanted: seq<string>, i: nat)
    requires Contiguous(w.log) && w.log.rows != [] && 0 < i <= |wanted| && w.page.last <= |w.log.history|
    ensures Delivered(w.page, RefetchAll(w.log, wanted)[..i], |w.log.history|).last == |w.log.history|
  {
    var updates, n := RefetchAll(w.log, wanted), i - 1;
    RefetchIsAtTheHead(w.log, wanted, n);
    assert updates[..i][..n] == updates[..n] && updates[..i][n] == updates[n];
    if n > 0 {
      RefetchDelivered(w, wanted, n);
    } else {
      assert updates[..n] == [];
    }
  }

  /** In any run whose changes are dated in turn, a page's last id is never past the newest change, and a page that
  fetches everything on reconnecting goes on from that change. */
  lemma RefetchGoesToTheHead(wanted: seq<string>, steps: seq<Step>)
    requires AllInTurn(wanted, steps)
    ensures Run(wanted, steps).page.last <= |Run(wanted, steps).log.history|
    ensures var w := Run(wanted, steps);
      wanted != [] && w.log.rows != [] && !InWindow(w.log, w.page.last) ==>
        Do(w, wanted, Connect).page.last == |w.log.history|
  {
    var w := Run(wanted, steps);
    LastIsReached(wanted, steps);
    RunKeepsNewest(wanted, steps);
    if wanted != [] && w.log.rows != [] && !InWindow(w.log, w.page.last) {
      RefetchDelivered(w, wanted, |wanted|);
      assert RefetchAll(w.log, wanted)[..|wanted|] == RefetchAll(w.log, wanted);
      assert w.log.rows[0] in w.log.rows;
    }
  }

  /** In any run whose changes are dated in turn and whose polls told in time, a page that reconnects while the log is
  not empty is up to date afterwards, however long it was away. */
  lemma ReconnectIsUpToDate(wanted: seq<string>, steps: seq<Step>)
    requires AllInTurn(wanted, steps) && PollsInTime(wanted, steps) && Run(wanted, steps).log.rows != []
    ensures UpToDate(Do(Run(wanted, steps), wanted, Connect), wanted)
  {
    var w := Run(wanted, steps);
    RunKeepsNewest(wanted, steps);
    LastIdIsTrueIffPollsInTime(wanted, steps);
    assert steps[..|steps|] == steps;
    ConnectTellsAll(w.log, w.page.last, wanted);
    ToldIsUpToDate(w, wanted, ReplayOrRefetch(w.log, w.page.last, wanted));
  }

  /** In any run whose changes are dated in turn and whose prunes spare what the page has still to be told, the page is
  up to date after reconnecting, even to an empty log, and after every poll. */
  lemma UpToDateWhilePrunesSpare(wanted: seq<string>, steps: seq<Step>)
    requires AllInTurn(wanted, steps) && PrunesSpare(wanted, steps)
    ensures UpToDate(Do(Run(wanted, steps), wanted, Connect), wanted)
    ensures UpToDate(Do(Run(wanted, steps), wanted, Poll), wanted)
  {
    var w := Run(wanted, steps);
    RunKeepsNewest(wanted, steps);
    LastIdIsTrueWhilePrunesSpare(wanted, steps);
    assert steps[..|steps|] == steps;
    KeptRowsAreToldInTime(w, wanted);
    if w.log.rows != [] {
      ConnectTellsAll(w.log, w.page.last, wanted);
      ToldIsUpToDate(w, wanted, ReplayOrRefetch(w.log, w.page.last, wanted));
    } else {
      NothingLeftToTell(w, wanted);
    }
  }

  /** When the log is empty and no row was left untold, there is nothing to fetch. */
  lemma NothingLeftToTell(w: World, wanted: seq<string>)
    requires Numbered(w.log) && Covered(w, wanted) && UntoldIsKept(w, wanted) && w.log.rows == []
    ensures UpToDate(Do(w, wanted, Connect), wanted)
  {
    var updates := ReplayOrRefetch(w.log, w.page.last, wanted);
    forall i | 0 <= i < |w.log.history| && w.log.history[i].panel in wanted
      ensures w.log.history[i].id <= FetchedAt(Do(w, wanted, Connect).page, w.log.history[i].panel)
    {
      DeliveredFetches(w.page, updates, |w.log.history|, w.log.history[i].panel);
    }
  }

  /** An empty log makes a new page fetch everything, and leaves another as it was. */
  lemma EmptyConnect(w: World, wanted: seq<string>)
    requires Numbered(w.log) && Covered(w, wanted) && w.log.rows == []
    ensures Covered(Do(w, wanted, Connect), wanted)
  {
    if w.page.last <= 0 {
      var updates := RefetchAll(w.log, wanted);
      forall i | 0 <= i < |updates| ensures updates[i].id <= 0 {
        RefetchIs(w.log, wanted, i);
      }
      DeliveredLast(w.page, updates, |w.log.history|, 0);
    }
  }

  /** A page follows two panels. The one changes, and its row is pruned before the page polls; the other changes, and
  the poll tells that. */
  function LatePoll(first: string, second: string): seq<Step> {
    [Connect, Change(first, 0), Prune(5), Change(second, 10)]
  }

  /** What is left just before the poll: the second change is kept, and the page has fetched neither. */
  predicate BeforeLatePoll(w: World, first: string, second: string) {
    && w.log == Log([Row(2, second, 10)], [Row(1, first, 0), Row(2, second, 10)])
    && w.page.last == 0 && FetchedAt(w.page, first) == 0
  }

  lemma NextIs(wanted: seq<string>, steps: seq<Step>, i: nat)
    requires i < |steps|
    ensures Run(wanted, steps[..i + 1]) == Do(Run(wanted, steps[..i]), wanted, steps[i])
  {
    assert steps[..i + 1][..i] == steps[..i];
  }

  lemma FirstConnect(wanted: seq<string>, panel: string)
    ensures var w := Do(Run(wanted, []), wanted, Connect);
      w.log == EMPTY && w.page.last == 0 && FetchedAt(w.page, panel) == 0
  {
    var w := Run(wanted, []);
    var updates := RefetchAll(w.log, wanted);
    forall i | 0 <= i < |updates| ensures updates[i].id <= 0 {
      RefetchIs(w.log, wanted, i);
    }
    DeliveredLast(w.page, updates, 0, 0);
    DeliveredFetches(w.page, updates, 0, panel);
  }

  lemma ThreeSteps(wanted: seq<string>, w: World, first: string, second: string)
    requires w.log == EMPTY
    ensures var two := Do(w, wanted, Change(first, 0));
      var three := Do(two, wanted, Prune(5));
      && two.log.rows == [Row(1, first, 0)]
      && three == w.(log := Log([], [Row(1, first, 0)]))
      && Do(three, wanted, Change(second, 10)).log
           == Log([Row(2, second, 10)], [Row(1, first, 0), Row(2, second, 10)])
      && Do(three, wanted, Change(second, 10)).page == w.page
  {
    OnePruned(Row(1, first, 0));
    assert Appended(EMPTY, first, 0) == Log([Row(1, first, 0)], [Row(1, first, 0)]);
  }

  lemma LatePollLeaves(wanted: seq<string>, first: string, second: string)
    ensures var steps := LatePoll(first, second);
      && Run(wanted, steps[..1]).log == EMPTY && Run(wanted, steps[..3]).log.rows == []
      && BeforeLatePoll(Run(wanted, steps), first, second)
  {
    var steps := LatePoll(first, second);
    assert steps[..0] == [] && steps[..4] == steps;
    FirstConnect(wanted, first);
    NextIs(wanted, steps, 0);
    NextIs(wanted, steps, 1);
    NextIs(wanted, steps, 2);
    NextIs(wanted, steps, 3);
    ThreeSteps(wanted, Run(wanted, steps[..1]), first, second);
  }

  lemma LatePollInTurn(wanted: seq<string>, first: string, second: string)
    ensures AllInTurn(wanted, LatePoll(first, second))
  {
    LatePollLeaves(wanted, first, second);
  }

  lemma OnePruned(row: Row)
    requires row.at < 5
    ensures KeptFrom([row], 5) == []
  {
    NoneKept([row], 5);
  }

  /** After that poll the page's last id is past a change that it was never told, and reconnecting does not tell it
  either. */
  lemma ALatePoll(first: string, second: string)
    requires first != second
    ensures var wanted := [first, second];
      var w := Run(wanted, LatePoll(first, second));
      var v := Do(w, wanted, Poll);
      && AllInTurn(wanted, LatePoll(first, second))
      && Contiguous(w.log) && Covered(w, wanted) && !TellsInTime(w, wanted)
      && !Covered(v, wanted) && !UpToDate(Do(v, wanted, Connect), wanted)
  {
    var wanted := [first, second];
    var w := Run(wanted, LatePoll(first, second));
    LatePollLeaves(wanted, first, second);
    LatePollInTurn(wanted, first, second);
    LatePollIsLate(w, wanted, first, second);
    RunKeepsNewest(wanted, LatePoll(first, second));
    UntoldSpoils(w, wanted, 0);
    NeverToldAgain(w, wanted, first, second);
  }

  lemma LatePollIsLate(w: World, wanted: seq<string>, first: string, second: string)
    requires first != second && wanted == [first, second] && BeforeLatePoll(w, first, second)
    ensures Covered(w, wanted) && Behind(w, wanted, 0) && !NoNews(w, wanted)
    ensures !HasNews(w.log, first, w.page.last) && !TellsInTime(w, wanted)
  {
    assert w.log.rows[0].panel == second && wanted[0] == first && wanted[1] == second;
    assert HasNews(w.log, second, w.page.last);
  }

  lemma NeverToldAgain(w: World, wanted: seq<string>, first: string, second: string)
    requires first != second && wanted == [first, second] && BeforeLatePoll(w, first, second)
    ensures !UpToDate(Do(Do(w, wanted, Poll), wanted, Connect), wanted)
  {
    var row := Row(2, second, 10);
    var updates := EventsSince(w.log, 0, wanted);
    assert wanted[0] == first && wanted[1] == second;
    OneRowTold(row, 0, wanted);
    DeliveredFetches(w.page, updates, 2, first);
    var v := Do(w, wanted, Poll);
    assert updates[..0] == [];
    assert v.page.last == 2 && v.log == w.log;
    OneRowTold(row, 2, wanted);
    assert Do(v, wanted, Connect) == v;
    assert w.log.history[0].panel in wanted;
  }

  lemma OneRowTold(row: Row, last: int, wanted: seq<string>)
    requires row.panel in wanted
    ensures UpdatesAfter([row], last, wanted) == if row.id > last then [Update(row.id, row.panel)] else []
  {
    assert [row][..0] == [];
  }
}
