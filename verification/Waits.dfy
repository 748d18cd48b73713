/** Waiting for a person (backend/readmodel/factory.py): how waits are paired from the record's rows, and machine
time as what is left of a stretch of work without them. */
module Waits {
  import opened Basics
  import Timing

  /** One row of the record: whether it opens a wait, closes one, and is a gate's row. */
  datatype Row = Row(at: int, opens: bool, closes: bool, gated: bool)

  datatype Wait = Wait(start: int, end: Option<int>)

  // --- pairing: what the loop over the rows remembers ---

  datatype Walker = Walker(waits: seq<Wait>, since: Option<int>, lastSeen: Option<int>, worked: bool)

  const FRESH := Walker([], None, None, false)

  function LastMoment(w: Walker): int
    requires w.since.Some?
  {
    if w.lastSeen.Some? then w.lastSeen.value else w.since.value
  }

  function Step(w: Walker, row: Row): Walker {
    if row.opens then
      var u := if w.since.Some? && w.worked
               then w.(waits := w.waits + [Wait(w.since.value, Some(LastMoment(w)))], since := None) else w;
      u.(since := if u.since.None? then Some(row.at) else u.since, lastSeen := Some(row.at), worked := false)
    else
      var u := if row.gated then w else w.(worked := true);
      if row.closes && u.since.Some?
      then u.(waits := u.waits + [Wait(u.since.value, Some(row.at))], since := None) else u
  }

  function WalkOn(w: Walker, rows: seq<Row>): Walker
    decreases |rows|
  {
    if rows == [] then w else WalkOn(Step(w, rows[0]), rows[1..])
  }

  function Finish(w: Walker, stillWaiting: bool): seq<Wait> {
    if w.since.None? then w.waits
    else w.waits + [Wait(w.since.value, if stillWaiting then None else Some(LastMoment(w)))]
  }

  function WaitsOf(rows: seq<Row>, stillWaiting: bool): seq<Wait> {
    Finish(WalkOn(FRESH, rows), stillWaiting)
  }

  /** `_walk`. */
  method Walk(rows: seq<Row>, stillWaiting: bool) returns (waits: seq<Wait>)
    ensures waits == WaitsOf(rows, stillWaiting)
  {
    waits := [];
    var since: Option<int>, lastSeen: Option<int>, worked := None, None, false;
    for i := 0 to |rows|
      invariant WalkOn(Walker(waits, since, lastSeen, worked), rows[i..]) == WalkOn(FRESH, rows)
    {
      var row := rows[i];
      assert rows[i..][1..] == rows[i + 1..];
      if row.opens {
        if since.Some? && worked {
          waits := waits + [Wait(since.value, Some(if lastSeen.Some? then lastSeen.value else since.value))];
          since := None;
        }
        if since.None? {
          since := Some(row.at);
        }
        lastSeen := Some(row.at);
        worked := false;
        continue;
      }
      if !row.gated {
        worked := true;
      }
      if row.closes && since.Some? {
        waits := waits + [Wait(since.value, Some(row.at))];
        since := None;
      }
    }
    if since.Some? {
      var last := if lastSeen.Some? then lastSeen.value else since.value;
      waits := waits + [Wait(since.value, if stillWaiting then None else Some(last))];
    }
  }

  // --- the waits are orderly ---

  ghost predicate OldestFirst(rows: seq<Row>) {
    forall i, j :: 0 <= i < j < |rows| ==> rows[i].at <= rows[j].at
  }

  /** Well formed, one after the other, and none but the last open. */
  ghost predicate Orderly(waits: seq<Wait>) {
    && (forall i :: 0 <= i < |waits| && waits[i].end.Some? ==> waits[i].start <= waits[i].end.value)
    && (forall i, j :: 0 <= i < j < |waits| ==> waits[i].end.Some? && waits[i].end.value <= waits[j].start)
  }

  /** The walker has seen nothing later than `now`. */
  ghost predicate Settled(w: Walker, now: int) {
    && Orderly(w.waits)
    && (forall i :: 0 <= i < |w.waits| ==> w.waits[i].end.Some? && w.waits[i].end.value <= now)
    && (w.since.Some? ==>
          && w.lastSeen.Some? && w.since.value <= w.lastSeen.value <= now
          && forall i :: 0 <= i < |w.waits| ==> w.waits[i].end.value <= w.since.value)
  }

  lemma StepSettles(w: Walker, row: Row, now: int)
    requires Settled(w, now) && now <= row.at
    ensures Settled(Step(w, row), row.at)
  {
  }

  lemma {:induction false} WalkStaysSettled(w: Walker, rows: seq<Row>, now: int)
    requires Settled(w, now) && OldestFirst(rows) && (rows != [] ==> now <= rows[0].at)
    ensures Settled(WalkOn(w, rows), if rows == [] then now else rows[|rows| - 1].at)
    decreases |rows|
  {
    if rows != [] {
      StepSettles(w, rows[0], now);
      WalkStaysSettled(Step(w, rows[0]), rows[1..], rows[0].at);
    }
  }

  /** The waits of rows in time order are well formed, in order and do not overlap; only the last can be open, and
  only while still waiting. */
  lemma WaitsAreOrderly(rows: seq<Row>, stillWaiting: bool)
    requires OldestFirst(rows)
    ensures Orderly(WaitsOf(rows, stillWaiting))
    ensures forall w :: w in WaitsOf(rows, stillWaiting) && w.end.None? ==> stillWaiting
  {
    WalkStaysSettled(FRESH, rows, if rows == [] then 0 else rows[0].at);
  }

  // --- later rows do not disturb earlier waits ---

  lemma {:induction false} WalkConcat(w: Walker, rows: seq<Row>, more: seq<Row>)
    ensures WalkOn(w, rows + more) == WalkOn(WalkOn(w, rows), more)
    decreases |rows|
  {
    if rows == [] {
      assert rows + more == more;
    } else {
      assert (rows + more)[1..] == rows[1..] + more;
      WalkConcat(Step(w, rows[0]), rows[1..], more);
    }
  }

  lemma {:induction false} WalkOnlyAdds(w: Walker, rows: seq<Row>)
    ensures w.waits <= WalkOn(w, rows).waits
    decreases |rows|
  {
    if rows != [] {
      WalkOnlyAdds(Step(w, rows[0]), rows[1..]);
    }
  }

  /** Whatever rows follow, every wait but the last is as it was. */
  lemma EarlierWaitsStand(rows: seq<Row>, more: seq<Row>, stillWaiting: bool, stillLater: bool)
    ensures var waits := WaitsOf(rows, stillWaiting);
      waits == [] || waits[..|waits| - 1] <= WaitsOf(rows + more, stillLater)
  {
    var w := WalkOn(FRESH, rows);
    WalkConcat(FRESH, rows, more);
    WalkOnlyAdds(w, more);
    var waits := WaitsOf(rows, stillWaiting);
    if waits != [] {
      assert waits[..|waits| - 1] <= w.waits;
    }
  }

  // --- no gate goes unwaited ---

  predicate Spans(w: Wait, t: int) {
    w.start <= t && (w.end.Some? ==> t <= w.end.value)
  }

  ghost predicate Noticed(w: Walker, t: int) {
    || (exists x :: x in w.waits && Spans(x, t))
    || (w.since.Some? && w.lastSeen.Some? && w.since.value <= t <= w.lastSeen.value)
  }

  lemma StepKeepsNoticed(w: Walker, row: Row, now: int, t: int)
    requires Settled(w, now) && now <= row.at && Noticed(w, t)
    ensures Noticed(Step(w, row), t)
  {
    var u := Step(w, row);
    if exists x :: x in w.waits && Spans(x, t) {
      var x :| x in w.waits && Spans(x, t);
      assert x in u.waits;
    } else if |u.waits| > |w.waits| {
      assert Spans(u.waits[|w.waits|], t);
    }
  }

  lemma {:induction false} StaysNoticed(w: Walker, rows: seq<Row>, now: int, t: int)
    requires Settled(w, now) && OldestFirst(rows) && (rows != [] ==> now <= rows[0].at)
    requires Noticed(w, t)
    ensures Noticed(WalkOn(w, rows), t)
    decreases |rows|
  {
    if rows != [] {
      StepKeepsNoticed(w, rows[0], now, t);
      StepSettles(w, rows[0], now);
      StaysNoticed(Step(w, rows[0]), rows[1..], rows[0].at, t);
    }
  }

  /** Every moment the record was seen waiting lies inside one of the waits. */
  lemma EveryGateIsWaited(rows: seq<Row>, stillWaiting: bool, i: nat)
    requires OldestFirst(rows) && i < |rows| && rows[i].opens
    ensures exists w :: w in WaitsOf(rows, stillWaiting) && Spans(w, rows[i].at)
  {
    var t := rows[i].at;
    var before := WalkOn(FRESH, rows[..i]);
    SettledBefore(rows, i);
    assert rows == rows[..i] + rows[i..];
    WalkConcat(FRESH, rows[..i], rows[i..]);
    OpeningIsNoticed(before, rows[i]);
    StaysNoticed(Step(before, rows[i]), rows[i..][1..], t, t);
    NoticedIsWaited(WalkOn(FRESH, rows), stillWaiting, t);
  }

  lemma SettledBefore(rows: seq<Row>, i: nat)
    requires OldestFirst(rows) && i < |rows|
    ensures Settled(Step(WalkOn(FRESH, rows[..i]), rows[i]), rows[i].at)
  {
    WalkStaysSettled(FRESH, rows[..i], rows[0].at);
    StepSettles(WalkOn(FRESH, rows[..i]), rows[i], if i == 0 then rows[0].at else rows[i - 1].at);
  }

  lemma OpeningIsNoticed(w: Walker, row: Row)
    requires row.opens && Settled(Step(w, row), row.at)
    ensures Noticed(Step(w, row), row.at)
  {
  }

  lemma NoticedIsWaited(w: Walker, stillWaiting: bool, t: int)
    requires Noticed(w, t)
    ensures exists x :: x in Finish(w, stillWaiting) && Spans(x, t)
  {
    var waits := Finish(w, stillWaiting);
    if exists x :: x in w.waits && Spans(x, t) {
      var x :| x in w.waits && Spans(x, t);
      assert x in waits;
    } else {
      assert Spans(waits[|waits| - 1], t);
    }
  }

  // --- which waits the rows give ---

  /** The next row, from `i` on, that opens a wait or closes one. */
  function NextMark(rows: seq<Row>, i: nat): (n: nat)
    requires i <= |rows|
    ensures i <= n <= |rows| && (n < |rows| ==> rows[n].opens || rows[n].closes)
    ensures forall k :: i <= k < n ==> !rows[k].opens && !rows[k].closes
    decreases |rows| - i
  {
    if i == |rows| || rows[i].opens || rows[i].closes then i else NextMark(rows, i + 1)
  }

  /** The next row, from `i` on, that opens a wait. */
  function NextOpening(rows: seq<Row>, i: nat): (n: nat)
    requires i <= |rows|
    ensures i <= n <= |rows| && (n < |rows| ==> rows[n].opens)
    ensures forall k :: i <= k < n ==> !rows[k].opens
    decreases |rows| - i
  {
    if i == |rows| || rows[i].opens then i else NextOpening(rows, i + 1)
  }

  /** Between the two places the record shows work. */
  predicate Work(rows: seq<Row>, from: nat, to: nat)
    requires from <= to <= |rows|
  {
    exists k :: from <= k < to && !rows[k].opens && !rows[k].gated
  }

  /** The last opening row of the group that the one at `i` begins: as long as the next row to open or to close opens,
  with no work in between, it belongs to the group. */
  function LastSeen(rows: seq<Row>, i: nat): (n: nat)
    requires i < |rows| && rows[i].opens
    ensures i <= n < |rows| && rows[n].opens
    decreases |rows| - i
  {
    var next := NextMark(rows, i + 1);
    if next < |rows| && rows[next].opens && !Work(rows, i + 1, next) then LastSeen(rows, next) else i
  }

  /** A wait runs from an opening row to the row that closes it or, when work is shown before the next opening row or
  nothing follows, to the last opening row of its group; at the end of the rows it may still be open. */
  function GroupWait(rows: seq<Row>, first: nat, stillWaiting: bool): Wait
    requires first < |rows| && rows[first].opens
  {
    var last := LastSeen(rows, first);
    var next := NextMark(rows, last + 1);
    if next == |rows| then Wait(rows[first].at, if stillWaiting then None else Some(rows[last].at))
    else Wait(rows[first].at, Some(if rows[next].opens then rows[last].at else rows[next].at))
  }

  /** Where the rows after a group and its closing row begin. */
  function AfterGroup(rows: seq<Row>, first: nat): (n: nat)
    requires first < |rows| && rows[first].opens
    ensures first < n <= |rows|
  {
    var next := NextMark(rows, LastSeen(rows, first) + 1);
    if next == |rows| || rows[next].opens then next else next + 1
  }

  function Groups(rows: seq<Row>, i: nat, stillWaiting: bool): seq<Wait>
    requires i <= |rows|
    decreases |rows| - i
  {
    var first := NextOpening(rows, i);
    if first == |rows| then []
    else [GroupWait(rows, first, stillWaiting)] + Groups(rows, AfterGroup(rows, first), stillWaiting)
  }

  lemma WalkAt(w: Walker, rows: seq<Row>, i: nat)
    requires i < |rows|
    ensures WalkOn(w, rows[i..]) == WalkOn(Step(w, rows[i]), rows[i + 1..])
  {
    assert rows[i..][1..] == rows[i + 1..];
  }

  lemma {:induction false} WalkUnopened(w: Walker, rows: seq<Row>, i: nat, to: nat) returns (u: Walker)
    requires i <= to <= |rows| && w.since.None? && forall k :: i <= k < to ==> !rows[k].opens
    ensures u.waits == w.waits && u.since.None? && WalkOn(w, rows[i..]) == WalkOn(u, rows[to..])
    decreases |rows| - i
  {
    if i == to {
      u := w;
    } else {
      WalkAt(w, rows, i);
      u := WalkUnopened(Step(w, rows[i]), rows, i + 1, to);
    }
  }

  lemma {:induction false} WalkUnmarked(w: Walker, rows: seq<Row>, i: nat, to: nat)
    requires i <= to <= |rows| && forall k :: i <= k < to ==> !rows[k].opens && !rows[k].closes
    ensures WalkOn(w, rows[i..]) == WalkOn(w.(worked := w.worked || Work(rows, i, to)), rows[to..])
    decreases |rows| - i
  {
    if i < to {
      WalkAt(w, rows, i);
      WalkUnmarked(Step(w, rows[i]), rows, i + 1, to);
      WorkFirst(rows, i, to);
    } else {
      assert !Work(rows, i, to);
      assert w.(worked := w.worked) == w;
    }
  }

  lemma WorkFirst(rows: seq<Row>, i: nat, to: nat)
    requires i < to <= |rows|
    ensures Work(rows, i, to) <==> (!rows[i].opens && !rows[i].gated) || Work(rows, i + 1, to)
  {
  }

  /** From an opening row to the last of its group the walker waits since the first. */
  lemma {:induction false} WalkGroup(w: Walker, rows: seq<Row>, i: nat)
    requires i < |rows| && rows[i].opens && (w.since.Some? ==> !w.worked)
    ensures var since := if w.since.Some? then w.since else Some(rows[i].at);
      var last := LastSeen(rows, i);
      WalkOn(w, rows[i..]) == WalkOn(Walker(w.waits, since, Some(rows[last].at), false), rows[last + 1..])
    decreases |rows| - i
  {
    WalkAt(w, rows, i);
    if LastSeen(rows, i) > i {
      var next := NextMark(rows, i + 1);
      var u := Step(w, rows[i]);
      WalkIdle(u, rows, i + 1, next);
      WalkGroup(u, rows, next);
    }
  }

  lemma WalkIdle(w: Walker, rows: seq<Row>, i: nat, to: nat)
    requires i <= to <= |rows| && (forall k :: i <= k < to ==> !rows[k].opens && !rows[k].closes) && !Work(rows, i, to)
    ensures WalkOn(w, rows[i..]) == WalkOn(w, rows[to..])
  {
    WalkUnmarked(w, rows, i, to);
    assert w.(worked := w.worked) == w;
  }

  /** An opening row that follows a group does so because work was shown before it. */
  lemma {:induction false} GroupEndsAtWork(rows: seq<Row>, i: nat)
    requires i < |rows| && rows[i].opens
    ensures var last := LastSeen(rows, i);
      var next := NextMark(rows, last + 1);
      next < |rows| && rows[next].opens ==> Work(rows, last + 1, next)
    decreases |rows| - i
  {
    var next := NextMark(rows, i + 1);
    if LastSeen(rows, i) > i {
      GroupEndsAtWork(rows, next);
    }
  }

  lemma {:induction false} WalkFindsGroups(w: Walker, rows: seq<Row>, i: nat, stillWaiting: bool)
    requires i <= |rows| && w.since.None?
    ensures Finish(WalkOn(w, rows[i..]), stillWaiting) == w.waits + Groups(rows, i, stillWaiting)
    decreases |rows| - i, 1
  {
    var first := NextOpening(rows, i);
    var u := WalkUnopened(w, rows, i, first);
    if first < |rows| {
      WalkFindsGroup(u, rows, first, stillWaiting);
    }
  }

  lemma {:induction false} WalkFindsGroup(w: Walker, rows: seq<Row>, first: nat, stillWaiting: bool)
    requires first < |rows| && rows[first].opens && w.since.None?
    ensures Finish(WalkOn(w, rows[first..]), stillWaiting)
         == w.waits + ([GroupWait(rows, first, stillWaiting)] + Groups(rows, AfterGroup(rows, first), stillWaiting))
    decreases |rows| - first, 0
  {
    if NextMark(rows, LastSeen(rows, first) + 1) < |rows| {
      var v := WalkOneGroup(w, rows, first, stillWaiting);
      WalkFindsGroups(v, rows, AfterGroup(rows, first), stillWaiting);
      OneThenRest(w.waits, GroupWait(rows, first, stillWaiting), Groups(rows, AfterGroup(rows, first), stillWaiting));
    } else {
      WalkLastGroup(w, rows, first, stillWaiting);
      OneThenRest(w.waits, GroupWait(rows, first, stillWaiting), []);
    }
  }

  lemma OneThenRest(waits: seq<Wait>, w: Wait, rest: seq<Wait>)
    ensures waits + [w] + rest == waits + ([w] + rest)
  {
  }

  lemma WalkOneGroup(w: Walker, rows: seq<Row>, first: nat, stillWaiting: bool) returns (v: Walker)
    requires first < |rows| && rows[first].opens && w.since.None? && NextMark(rows, LastSeen(rows, first) + 1) < |rows|
    ensures v.since.None? && v.waits == w.waits + [GroupWait(rows, first, stillWaiting)]
    ensures WalkOn(w, rows[first..]) == WalkOn(v, rows[AfterGroup(rows, first)..])
  {
    var last := LastSeen(rows, first);
    var next := NextMark(rows, last + 1);
    WalkPastGroup(w, rows, first, last, next);
    var u := Walker(w.waits, Some(rows[first].at), Some(rows[last].at), Work(rows, last + 1, next));
    if rows[next].opens {
      GroupEndsAtWork(rows, first);
      v := u.(waits := w.waits + [Wait(rows[first].at, Some(rows[last].at))], since := None);
      ClosedAtWork(u, v, rows, next);
    } else {
      WalkAt(u, rows, next);
      v := Step(u, rows[next]);
    }
  }

  /** An opening row that comes after work ends the wait where it was last seen. */
  lemma ClosedAtWork(u: Walker, closed: Walker, rows: seq<Row>, i: nat)
    requires u.since.Some? && u.lastSeen.Some? && u.worked && i < |rows| && rows[i].opens
    requires closed == u.(waits := u.waits + [Wait(u.since.value, Some(u.lastSeen.value))], since := None)
    ensures WalkOn(u, rows[i..]) == WalkOn(closed, rows[i..])
  {
    WalkAt(u, rows, i);
    WalkAt(closed, rows, i);
  }

  lemma WalkLastGroup(w: Walker, rows: seq<Row>, first: nat, stillWaiting: bool)
    requires first < |rows| && rows[first].opens && w.since.None? && NextMark(rows, LastSeen(rows, first) + 1) == |rows|
    ensures Finish(WalkOn(w, rows[first..]), stillWaiting) == w.waits + [GroupWait(rows, first, stillWaiting)]
    ensures Groups(rows, AfterGroup(rows, first), stillWaiting) == []
  {
    WalkPastGroup(w, rows, first, LastSeen(rows, first), |rows|);
    assert rows[|rows|..] == [];
  }

  lemma WalkPastGroup(w: Walker, rows: seq<Row>, first: nat, last: nat, next: nat)
    requires first < |rows| && rows[first].opens && last == LastSeen(rows, first) && w.since.None?
    requires next == NextMark(rows, last + 1)
    ensures var v := Walker(w.waits, Some(rows[first].at), Some(rows[last].at), Work(rows, last + 1, next));
      WalkOn(w, rows[first..]) == WalkOn(v, rows[next..])
  {
    WalkGroup(w, rows, first);
    WalkUnmarked(Walker(w.waits, Some(rows[first].at), Some(rows[last].at), false), rows, last + 1, next);
  }

  /** For any rows, the waits are exactly those of the groups. */
  lemma WaitsAreGroups(rows: seq<Row>, stillWaiting: bool)
    ensures WaitsOf(rows, stillWaiting) == Groups(rows, 0, stillWaiting)
  {
    assert rows[0..] == rows;
    WalkFindsGroups(FRESH, rows, 0, stillWaiting);
  }

  // --- planning gates ---

  /** Rows of one gate's stage label: each is the gate's own, or any other status, which closes it. */
  ghost predicate GateOrClose(rows: seq<Row>) {
    forall i :: 0 <= i < |rows| ==> rows[i].gated == rows[i].opens && rows[i].closes == !rows[i].opens
  }

  /** How many of the first rows are the gate's. */
  function LeadingGates(rows: seq<Row>): (n: nat)
    ensures n <= |rows|
    ensures forall i :: 0 <= i < n ==> rows[i].opens
    ensures n < |rows| ==> !rows[n].opens
    ensures rows != [] && rows[0].opens ==> n > 0
  {
    if rows == [] || !rows[0].opens then 0 else 1 + LeadingGates(rows[1..])
  }

  /** The maximal runs of the gate, each from its first row to the row that ends it. */
  function GateRuns(rows: seq<Row>, stillWaiting: bool): seq<Wait>
    decreases |rows|
  {
    if rows == [] then []
    else if !rows[0].opens then GateRuns(rows[1..], stillWaiting)
    else
      var n := LeadingGates(rows);
      if n == |rows| then [Wait(rows[0].at, if stillWaiting then None else Some(rows[n - 1].at))]
      else [Wait(rows[0].at, Some(rows[n].at))] + GateRuns(rows[n + 1..], stillWaiting)
  }

  /** Inside a run of the gate only the last moment seen changes. */
  lemma {:induction false} WalkThroughRun(w: Walker, rows: seq<Row>)
    requires w.since.Some? && w.lastSeen.Some? && !w.worked && forall i :: 0 <= i < |rows| ==> rows[i].opens
    ensures WalkOn(w, rows) == if rows == [] then w else w.(lastSeen := Some(rows[|rows| - 1].at))
    decreases |rows|
  {
    if rows != [] {
      WalkThroughRun(Step(w, rows[0]), rows[1..]);
    }
  }

  /** One whole run, closed by the row after it. */
  lemma WalkThroughClosedRun(w: Walker, rows: seq<Row>)
    requires GateOrClose(rows) && w.since.None? && rows != [] && rows[0].opens && LeadingGates(rows) < |rows|
    ensures var n := LeadingGates(rows);
      var closed := WalkOn(w, rows[..n + 1]);
      closed.since.None? && closed.waits == w.waits + [Wait(rows[0].at, Some(rows[n].at))]
  {
    var n := LeadingGates(rows);
    var begun := Step(w, rows[0]);
    WalkThroughRun(begun, rows[1..n]);
    WalkConcat(begun, rows[1..n], [rows[n]]);
    assert rows[..n + 1][1..] == rows[1..n] + [rows[n]];
    assert [rows[n]][1..] == [];
  }

  lemma {:induction false} WalkFindsRuns(w: Walker, rows: seq<Row>, stillWaiting: bool)
    requires GateOrClose(rows) && w.since.None?
    ensures Finish(WalkOn(w, rows), stillWaiting) == w.waits + GateRuns(rows, stillWaiting)
    decreases |rows|
  {
    if rows == [] {
    } else if !rows[0].opens {
      WalkFindsRuns(Step(w, rows[0]), rows[1..], stillWaiting);
    } else {
      var n := LeadingGates(rows);
      if n == |rows| {
        WalkThroughRun(Step(w, rows[0]), rows[1..]);
      } else {
        assert rows == rows[..n + 1] + rows[n + 1..];
        WalkThroughClosedRun(w, rows);
        WalkConcat(w, rows[..n + 1], rows[n + 1..]);
        WalkFindsRuns(WalkOn(w, rows[..n + 1]), rows[n + 1..], stillWaiting);
      }
    }
  }

  /** For a planning gate the waits are exactly the runs of its rows, each closed by the next other row: the branch
  that splits a wait because work was seen never fires. */
  lemma PlanningWaitsAreGateRuns(rows: seq<Row>, stillWaiting: bool)
    requires GateOrClose(rows)
    ensures WaitsOf(rows, stillWaiting) == GateRuns(rows, stillWaiting)
  {
    WalkFindsRuns(FRESH, rows, stillWaiting);
  }

  // --- machine time ---

  predicate During(w: Wait, now: int, t: int) {
    w.start <= t < if w.end.Some? then w.end.value else now
  }

  predicate Waiting(waits: seq<Wait>, now: int, t: int) {
    exists w :: w in waits && During(w, now, t)
  }

  /** The instants of [start, stop) spent working: not inside any wait. */
  ghost function Working(waits: seq<Wait>, now: int, start: int, stop: int): set<int> {
    set t | t in Timing.Instants(start, stop) && !Waiting(waits, now, t)
  }

  function Overlap(w: Wait, now: int, start: int, stop: int): int {
    Max(0, Min(if w.end.Some? then w.end.value else now, stop) - Max(w.start, start))
  }

  function Overlaps(waits: seq<Wait>, now: int, start: int, stop: int): int {
    if waits == [] then 0
    else Overlaps(waits[..|waits| - 1], now, start, stop) + Overlap(waits[|waits| - 1], now, start, stop)
  }

  ghost function WaitingInside(w: Wait, now: int, start: int, stop: int): (r: set<int>)
    ensures |r| == Overlap(w, now, start, stop)
    ensures forall t :: t in r <==> start <= t < stop && During(w, now, t)
  {
    Timing.Instants(Max(w.start, start), Min(if w.end.Some? then w.end.value else now, stop))
  }

  lemma OneMoreWait(waits: seq<Wait>, w: Wait, now: int, start: int, stop: int)
    ensures Working(waits + [w], now, start, stop)
         == Working(waits, now, start, stop) - WaitingInside(w, now, start, stop)
  {
    forall t ensures Waiting(waits + [w], now, t) <==> Waiting(waits, now, t) || During(w, now, t) {
      assert forall x :: x in waits + [w] <==> x in waits || x == w;
    }
  }

  lemma Removed(a: set<int>, b: set<int>)
    ensures |a - b| >= |a| - |b|
    ensures |a - b| == |a| - |b| <==> b <= a
  {
    assert a == (a - b) + (a * b);
    assert b == (b - a) + (a * b);
    assert |b - a| == 0 <==> b - a == {};
  }

  /** No instant of [start, stop) lies in two of the waits. */
  ghost predicate Apart(waits: seq<Wait>, now: int, start: int, stop: int) {
    forall i, j, t | 0 <= i < j < |waits| && start <= t < stop ::
      !(During(waits[i], now, t) && During(waits[j], now, t))
  }

  lemma ApartWithOneMore(waits: seq<Wait>, w: Wait, now: int, start: int, stop: int)
    ensures Apart(waits + [w], now, start, stop)
       <==> Apart(waits, now, start, stop) && WaitingInside(w, now, start, stop) <= Working(waits, now, start, stop)
  {
    var all := waits + [w];
    if Apart(all, now, start, stop) {
      forall t | t in WaitingInside(w, now, start, stop) ensures t in Working(waits, now, start, stop) {
        assert During(all[|waits|], now, t);
        forall x | x in waits ensures !During(x, now, t) {
          var i :| 0 <= i < |waits| && waits[i] == x;
          assert all[i] == x;
        }
      }
      forall i, j, t | 0 <= i < j < |waits| && start <= t < stop
        ensures !(During(waits[i], now, t) && During(waits[j], now, t))
      {
        assert all[i] == waits[i] && all[j] == waits[j];
      }
    } else if WaitingInside(w, now, start, stop) <= Working(waits, now, start, stop) {
      var i, j, t :| 0 <= i < j < |all| && start <= t < stop && During(all[i], now, t) && During(all[j], now, t);
      assert all[i] == waits[i] && waits[i] in waits;
      assert j == |waits| ==> t in WaitingInside(w, now, start, stop);
      assert j < |waits|;
      assert all[j] == waits[j];
    }
  }

  /** What is subtracted is never less than the time spent waiting, and is that time exactly when no moment of the
  stretch lies in two waits. */
  lemma {:induction false} OverlapsCoverWaiting(waits: seq<Wait>, now: int, start: int, stop: int)
    requires start <= stop
    ensures |Working(waits, now, start, stop)| >= stop - start - Overlaps(waits, now, start, stop)
    ensures |Working(waits, now, start, stop)| == stop - start - Overlaps(waits, now, start, stop)
       <==> Apart(waits, now, start, stop)
  {
    if waits == [] {
      assert Working(waits, now, start, stop) == Timing.Instants(start, stop);
    } else {
      var init, w := waits[..|waits| - 1], waits[|waits| - 1];
      OverlapsCoverWaiting(init, now, start, stop);
      assert waits == init + [w];
      OneMoreWait(init, w, now, start, stop);
      Removed(Working(init, now, start, stop), WaitingInside(w, now, start, stop));
      ApartWithOneMore(init, w, now, start, stop);
    }
  }

  lemma OrderlyWaitsAreApart(waits: seq<Wait>, now: int, start: int, stop: int)
    requires Orderly(waits)
    ensures Apart(waits, now, start, stop)
  {
  }

  /** `machine_seconds`. A moment inside two waits is subtracted twice: the answer is the time spent working exactly
  when there is no such moment (or no time was spent working at all), and falls short of it otherwise. The cut-off at
  zero plays no part while the waits are apart. */
  method MachineSeconds(start: Option<int>, end: Option<int>, waits: seq<Wait>, now: int)
    returns (seconds: Option<int>)
    ensures seconds.None? <==> start.None?
    ensures start.Some? ==>
      var stop := if end.Some? then end.value else now;
      seconds.value == Max(0, stop - start.value - Overlaps(waits, now, start.value, stop))
    ensures start.Some? ==>
      var stop := if end.Some? then end.value else now;
      start.value <= stop ==>
        var working := |Working(waits, now, start.value, stop)|;
        && 0 <= seconds.value <= working
        && (seconds.value == working <==> Apart(waits, now, start.value, stop) || working == 0)
        && (Apart(waits, now, start.value, stop) ==>
              seconds.value == stop - start.value - Overlaps(waits, now, start.value, stop))
  {
    if start.None? {
      return None;
    }
    var stop := if end.Some? then end.value else now;
    var total := stop - start.value;
    for i := 0 to |waits|
      invariant total == stop - start.value - Overlaps(waits[..i], now, start.value, stop)
    {
      var w := waits[i];
      assert waits[..i + 1][..i] == waits[..i];
      var wEnd := if w.end.Some? then w.end.value else now;
      var lo, hi := Max(w.start, start.value), Min(wEnd, stop);
      if hi > lo {
        total := total - (hi - lo);
      }
    }
    assert waits[..|waits|] == waits;
    if start.value <= stop {
      OverlapsCoverWaiting(waits, now, start.value, stop);
    }
    return Some(Max(0, total));
  }

  // --- the sweep's figure for the same stretch ---

  function AsApprovals(waits: seq<Wait>): (spans: seq<Timing.Span>)
    ensures |spans| == |waits|
    ensures forall i :: 0 <= i < |waits| ==>
      spans[i] == Timing.Span(Timing.Approvals, waits[i].start, waits[i].end, waits[i].end.None?)
  {
    seq(|waits|, i requires 0 <= i < |waits| =>
      Timing.Span(Timing.Approvals, waits[i].start, waits[i].end, waits[i].end.None?))
  }

  /** One stretch of work, a planning run or a build, and its approval waits. */
  function OneStretch(period: Timing.Placed, start: int, end: Option<int>, waits: seq<Wait>): seq<Timing.Span> {
    [Timing.Span(period, start, end, end.None?)] + AsApprovals(waits)
  }

  /** The approvals cover exactly the moments inside a wait. */
  lemma CoveredByApprovals(period: Timing.Placed, start: int, end: Option<int>, waits: seq<Wait>, now: int, t: int)
    requires period != Timing.Approvals && t < now
    ensures Timing.Covered(OneStretch(period, start, end, waits), Timing.Approvals, t) <==> Waiting(waits, now, t)
  {
    var spans := OneStretch(period, start, end, waits);
    if Waiting(waits, now, t) {
      var w :| w in waits && During(w, now, t);
      var i :| 0 <= i < |waits| && waits[i] == w;
      assert spans[i + 1] in spans && Timing.Covers(spans[i + 1], t);
    }
    if Timing.Covered(spans, Timing.Approvals, t) {
      var s :| s in spans && s.period == Timing.Approvals && Timing.Covers(s, t);
      var i :| 0 <= i < |spans| && spans[i] == s;
      assert waits[i - 1] in waits && During(waits[i - 1], now, t);
    }
  }

  /** The work covers exactly its own stretch, and nothing else is there. */
  lemma CoveredByWork(period: Timing.Placed, start: int, end: Option<int>, waits: seq<Wait>, q: Timing.Placed, t: int)
    requires period != Timing.Approvals && q != Timing.Approvals
    ensures Timing.Covered(OneStretch(period, start, end, waits), q, t)
       <==> q == period && start <= t && (end.Some? ==> t < end.value)
  {
    var spans := OneStretch(period, start, end, waits);
    assert spans[0] in spans;
    if Timing.Covered(spans, q, t) {
      var s :| s in spans && s.period == q && Timing.Covers(s, t);
      var i :| 0 <= i < |spans| && spans[i] == s;
    }
    if q == period && start <= t && (end.Some? ==> t < end.value) {
      assert Timing.Covers(spans[0], t);
    }
  }

  lemma CountedAsWork(period: Timing.Placed, start: int, end: Option<int>, waits: seq<Wait>, now: int, hi: int, t: int)
    requires period != Timing.Approvals && t < hi <= now && (end.None? ==> hi == now)
    ensures Timing.PeriodAt(OneStretch(period, start, end, waits), t) == period
       <==> start <= t && (end.Some? ==> t < end.value) && !Waiting(waits, now, t)
  {
    CoveredByApprovals(period, start, end, waits, now, t);
    forall q: Timing.Placed | q != Timing.Approvals
      ensures Timing.Covered(OneStretch(period, start, end, waits), q, t)
         <==> q == period && start <= t && (end.Some? ==> t < end.value)
    {
      CoveredByWork(period, start, end, waits, q, t);
    }
  }

  /** What the sweep gives a stretch of work is always the time spent working, and it is what `machine_seconds` is left
  with exactly when no moment of the stretch lies in two waits. */
  lemma SweepAgreesWithMachineSeconds(period: Timing.Placed, start: int, end: Option<int>, waits: seq<Wait>, now: int,
                                      lo: int, hi: int)
    requires period != Timing.Approvals
    requires var stop := if end.Some? then end.value else now; lo <= start <= stop <= hi <= now
    ensures var stop := if end.Some? then end.value else now;
      var swept := Timing.Measure(OneStretch(period, start, end, waits), period, lo, hi);
      && swept == |Working(waits, now, start, stop)|
      && (swept == stop - start - Overlaps(waits, now, start, stop) <==> Apart(waits, now, start, stop))
  {
    var stop := if end.Some? then end.value else now;
    forall t | t < hi
      ensures Timing.PeriodAt(OneStretch(period, start, end, waits), t) == period
         <==> start <= t && (end.Some? ==> t < end.value) && !Waiting(waits, now, t)
    {
      CountedAsWork(period, start, end, waits, now, hi, t);
    }
    assert Timing.InstantsOf(OneStretch(period, start, end, waits), period, lo, hi)
        == Working(waits, now, start, stop);
    OverlapsCoverWaiting(waits, now, start, stop);
  }

  // --- the waits of one feature ---

  /** Rows that are paired on their own: one build's, or those of one gate of a planning run. */
  datatype Source = Source(rows: seq<Row>, stillWaiting: bool)

  function WaitsOfSource(s: Source): seq<Wait> {
    WaitsOf(s.rows, s.stillWaiting)
  }

  /** The waits of all of them, one after the other. */
  function WaitsOfAll(sources: seq<Source>): seq<Wait> {
    if sources == [] then []
    else WaitsOfAll(sources[..|sources| - 1]) + WaitsOfSource(sources[|sources| - 1])
  }

  ghost predicate AllOldestFirst(sources: seq<Source>) {
    forall i :: 0 <= i < |sources| ==> OldestFirst(sources[i].rows)
  }

  /** At some moment of the stretch the record shows two of them waiting at once. */
  ghost predicate TwoWaitAtOnce(sources: seq<Source>, now: int, start: int, stop: int) {
    exists i, j, t :: 0 <= i < j < |sources| && start <= t < stop
      && Waiting(WaitsOfSource(sources[i]), now, t) && Waiting(WaitsOfSource(sources[j]), now, t)
  }

  lemma {:induction false} SomeSourceWaits(sources: seq<Source>, now: int, t: int)
    ensures Waiting(WaitsOfAll(sources), now, t)
       <==> exists i :: 0 <= i < |sources| && Waiting(WaitsOfSource(sources[i]), now, t)
  {
    if sources != [] {
      var n := |sources| - 1;
      SomeSourceWaits(sources[..n], now, t);
      EitherWaits(WaitsOfAll(sources[..n]), WaitsOfSource(sources[n]), now, t);
      assert forall i :: 0 <= i < n ==> sources[..n][i] == sources[i];
    }
  }

  lemma EitherWaits(a: seq<Wait>, b: seq<Wait>, now: int, t: int)
    ensures Waiting(a + b, now, t) <==> Waiting(a, now, t) || Waiting(b, now, t)
  {
    assert forall w :: w in a + b <==> w in a || w in b;
  }

  lemma ApartTogether(a: seq<Wait>, b: seq<Wait>, now: int, start: int, stop: int)
    ensures Apart(a + b, now, start, stop)
       <==> Apart(a, now, start, stop) && Apart(b, now, start, stop)
              && forall t | start <= t < stop :: !(Waiting(a, now, t) && Waiting(b, now, t))
  {
    var all := a + b;
    if Apart(all, now, start, stop) {
      PartsAreApart(a, b, now, start, stop);
      forall t | start <= t < stop ensures !(Waiting(a, now, t) && Waiting(b, now, t)) {
        if Waiting(a, now, t) && Waiting(b, now, t) {
          NotApart(a, b, now, start, stop, t);
        }
      }
    } else {
      var i, j, t :| 0 <= i < j < |all| && start <= t < stop && During(all[i], now, t) && During(all[j], now, t);
      if j < |a| {
        assert During(a[i], now, t) && During(a[j], now, t);
      } else if i >= |a| {
        assert During(b[i - |a|], now, t) && During(b[j - |a|], now, t);
      } else {
        assert a[i] in a && During(a[i], now, t) && b[j - |a|] in b && During(b[j - |a|], now, t);
        assert Waiting(a, now, t) && Waiting(b, now, t);
      }
    }
  }

  lemma NotApart(a: seq<Wait>, b: seq<Wait>, now: int, start: int, stop: int, t: int)
    requires start <= t < stop && Waiting(a, now, t) && Waiting(b, now, t)
    ensures !Apart(a + b, now, start, stop)
  {
    var v, w :| v in a && w in b && During(v, now, t) && During(w, now, t);
    var i :| 0 <= i < |a| && a[i] == v;
    var j :| 0 <= j < |b| && b[j] == w;
    assert During((a + b)[i], now, t) && During((a + b)[|a| + j], now, t);
  }

  lemma PartsAreApart(a: seq<Wait>, b: seq<Wait>, now: int, start: int, stop: int)
    requires Apart(a + b, now, start, stop)
    ensures Apart(a, now, start, stop) && Apart(b, now, start, stop)
  {
    var all := a + b;
    assert forall i :: 0 <= i < |a| ==> all[i] == a[i];
    forall i, j, t | 0 <= i < j < |b| && start <= t < stop ensures !(During(b[i], now, t) && During(b[j], now, t)) {
      assert all[|a| + i] == b[i] && all[|a| + j] == b[j];
    }
  }

  /** Each source's own waits are apart, so all of them are unless two sources wait at once. */
  lemma {:induction false} ApartUnlessTwoWait(sources: seq<Source>, now: int, start: int, stop: int)
    requires AllOldestFirst(sources)
    ensures Apart(WaitsOfAll(sources), now, start, stop) <==> !TwoWaitAtOnce(sources, now, start, stop)
  {
    if sources != [] {
      var n := |sources| - 1;
      var init, last := sources[..n], sources[n];
      ApartUnlessTwoWait(init, now, start, stop);
      WaitsAreOrderly(last.rows, last.stillWaiting);
      OrderlyWaitsAreApart(WaitsOfSource(last), now, start, stop);
      ApartTogether(WaitsOfAll(init), WaitsOfSource(last), now, start, stop);
      OneMoreSource(init, last, now, start, stop);
      assert sources == init + [last];
    }
  }

  lemma OneMoreSource(init: seq<Source>, last: Source, now: int, start: int, stop: int)
    ensures TwoWaitAtOnce(init + [last], now, start, stop)
       <==> TwoWaitAtOnce(init, now, start, stop)
              || exists t :: start <= t < stop && Waiting(WaitsOfAll(init), now, t)
                   && Waiting(WaitsOfSource(last), now, t)
  {
    var all := init + [last];
    assert forall i :: 0 <= i < |init| ==> all[i] == init[i];
    if TwoWaitAtOnce(all, now, start, stop) {
      var i, j, t :| 0 <= i < j < |all| && start <= t < stop
        && Waiting(WaitsOfSource(all[i]), now, t) && Waiting(WaitsOfSource(all[j]), now, t);
      SomeSourceWaits(init, now, t);
    }
    if t :| start <= t < stop && Waiting(WaitsOfAll(init), now, t) && Waiting(WaitsOfSource(last), now, t) {
      SomeSourceWaits(init, now, t);
      var i :| 0 <= i < |init| && Waiting(WaitsOfSource(init[i]), now, t);
      assert Waiting(WaitsOfSource(all[i]), now, t) && Waiting(WaitsOfSource(all[|init|]), now, t);
    }
  }

  // --- a feature's waits are sorted by when they began, which changes nothing ---

  lemma {:induction false} OverlapsWithout(waits: seq<Wait>, i: nat, now: int, start: int, stop: int)
    requires i < |waits|
    ensures Overlaps(waits, now, start, stop)
         == Overlaps(waits[..i] + waits[i + 1..], now, start, stop) + Overlap(waits[i], now, start, stop)
  {
    var n := |waits| - 1;
    if i == n {
      assert waits[..i] + waits[i + 1..] == waits[..n];
    } else {
      var less := waits[..i] + waits[i + 1..];
      assert less[|less| - 1] == waits[n];
      assert less[..|less| - 1] == waits[..n][..i] + waits[..n][i + 1..];
      OverlapsWithout(waits[..n], i, now, start, stop);
    }
  }

  lemma LastAmong(a: seq<Wait>, b: seq<Wait>) returns (i: nat)
    requires a != [] && multiset(a) == multiset(b)
    ensures i < |b| && b[i] == a[|a| - 1]
    ensures multiset(a[..|a| - 1]) == multiset(b[..i] + b[i + 1..])
  {
    var n := |a| - 1;
    assert a[n] in multiset(a) && a[n] in multiset(b);
    i :| 0 <= i < |b| && b[i] == a[n];
    WithoutOne(a, n);
    WithoutOne(b, i);
    assert a[..n] + a[n + 1..] == a[..n];
  }

  lemma WithoutOne(a: seq<Wait>, i: nat)
    requires i < |a|
    ensures multiset(a[..i] + a[i + 1..]) == multiset(a) - multiset{a[i]}
  {
    assert a == a[..i] + ([a[i]] + a[i + 1..]);
  }

  lemma {:induction false} OverlapsInAnyOrder(a: seq<Wait>, b: seq<Wait>, now: int, start: int, stop: int)
    requires multiset(a) == multiset(b)
    ensures Overlaps(a, now, start, stop) == Overlaps(b, now, start, stop)
    decreases |a|
  {
    if a == [] {
      assert multiset(b) == multiset{} && b == [];
    } else {
      var i := LastAmong(a, b);
      OverlapsInAnyOrder(a[..|a| - 1], b[..i] + b[i + 1..], now, start, stop);
      OverlapsWithout(b, i, now, start, stop);
    }
  }

  lemma SameInAnyOrder(a: seq<Wait>, b: seq<Wait>, now: int, start: int, stop: int)
    requires multiset(a) == multiset(b) && start <= stop
    ensures Working(a, now, start, stop) == Working(b, now, start, stop)
    ensures Apart(a, now, start, stop) <==> Apart(b, now, start, stop)
  {
    forall w ensures w in a <==> w in b {
      assert w in multiset(a) <==> w in multiset(b);
    }
    assert forall t :: Waiting(a, now, t) <==> Waiting(b, now, t);
    OverlapsInAnyOrder(a, b, now, start, stop);
    OverlapsCoverWaiting(a, now, start, stop);
    OverlapsCoverWaiting(b, now, start, stop);
  }

  /** `planning_seconds` and `build_seconds`: the stretch of the planning run or of the latest build, and the waits of
  its kind out of all the feature's waits, whichever gate or build each came from. The figure never exceeds the time
  spent working, which is what the sweep gives the stretch; it falls short of it exactly when at some moment of the
  stretch two gates, or two builds, wait at once (and any time was spent working). */
  method StretchSeconds(ghost sources: seq<Source>, waits: seq<Wait>, period: Timing.Placed, start: Option<int>,
                        end: Option<int>, now: int)
    returns (seconds: Option<int>)
    requires AllOldestFirst(sources) && multiset(waits) == multiset(WaitsOfAll(sources))
    requires period == Timing.Planning || period == Timing.Building
    ensures seconds.None? <==> start.None?
    ensures start.Some? ==>
      var stop := if end.Some? then end.value else now;
      start.value <= stop ==>
        var working := |Working(WaitsOfAll(sources), now, start.value, stop)|;
        && 0 <= seconds.value <= working
        && (seconds.value < working <==> TwoWaitAtOnce(sources, now, start.value, stop) && working > 0)
        && (stop <= now ==>
              working == Timing.Measure(OneStretch(period, start.value, end, waits), period, start.value, now))
  {
    seconds := MachineSeconds(start, end, waits, now);
    var stop := if end.Some? then end.value else now;
    if start.Some? && start.value <= stop {
      SameInAnyOrder(waits, WaitsOfAll(sources), now, start.value, stop);
      ApartUnlessTwoWait(sources, now, start.value, stop);
      if stop <= now {
        SweepAgreesWithMachineSeconds(period, start.value, end, waits, now, start.value, now);
      }
    }
  }

  // --- the two gates of a planning run ---

  datatype Gate = DigestReview | ProductDocs

  /** An event of a planning run: the gate whose label it carries, if any, and whether it is held there. */
  datatype Event = Event(gate: Option<Gate>, at: int, held: bool)

  function RowsAt(events: seq<Event>, gate: Gate): seq<Row> {
    if events == [] then []
    else
      var e := events[|events| - 1];
      RowsAt(events[..|events| - 1], gate) + if e.gate == Some(gate) then [Row(e.at, e.held, !e.held, e.held)] else []
  }

  function GateSources(events: seq<Event>, active: bool): seq<Source> {
    [Source(RowsAt(events, DigestReview), active), Source(RowsAt(events, ProductDocs), active)]
  }

  /** `planning_waits`. */
  method PlanningWaits(events: seq<Event>, active: bool) returns (out: seq<Wait>)
    ensures out == WaitsOfAll(GateSources(events, active))
  {
    out := [];
    var gates := [DigestReview, ProductDocs];
    var sources := GateSources(events, active);
    for g := 0 to |gates|
      invariant out == WaitsOfAll(sources[..g])
    {
      var rows: seq<Row> := [];
      for i := 0 to |events|
        invariant rows == RowsAt(events[..i], gates[g])
      {
        assert events[..i + 1][..i] == events[..i];
        var e := events[i];
        if e.gate == Some(gates[g]) {
          rows := rows + [Row(e.at, e.held, !e.held, e.held)];
        }
      }
      assert events[..|events|] == events;
      assert sources[..g + 1][..g] == sources[..g];
      if rows == [] {
        continue;
      }
      var waits := Walk(rows, active);
      out := out + waits;
    }
    assert sources[..|gates|] == sources;
  }

  /** Rows of one gate are paired by the simple rule, and in time order if the run's events are. */
  lemma {:induction false} GateRowsAreInOrder(events: seq<Event>, gate: Gate)
    requires forall i, j :: 0 <= i < j < |events| ==> events[i].at <= events[j].at
    ensures OldestFirst(RowsAt(events, gate)) && GateOrClose(RowsAt(events, gate))
    ensures forall row :: row in RowsAt(events, gate) ==> exists i :: 0 <= i < |events| && events[i].at == row.at
  {
    if events != [] {
      var n := |events| - 1;
      GateRowsAreInOrder(events[..n], gate);
      var init := RowsAt(events[..n], gate);
      forall row | row in init ensures row.at <= events[n].at {
        var i :| 0 <= i < |events[..n]| && events[..n][i].at == row.at;
      }
      assert forall i :: 0 <= i < |init| ==> init[i] in init;
      forall row | row in RowsAt(events, gate) ensures exists i :: 0 <= i < |events| && events[i].at == row.at {
        if row in init {
          var i :| 0 <= i < |events[..n]| && events[..n][i].at == row.at;
          assert events[i].at == row.at;
        } else {
          assert events[n].at == row.at;
        }
      }
    }
  }

  /** `planning_seconds`, over a run's events in time order: the time spent working, or less exactly when both gates are
  waited at in one moment of the run (and any time was worked). */
  method PlanningSeconds(events: seq<Event>, active: bool, start: Option<int>, end: Option<int>, now: int)
    returns (seconds: Option<int>)
    requires forall i, j :: 0 <= i < j < |events| ==> events[i].at <= events[j].at
    ensures seconds.None? <==> start.None?
    ensures start.Some? ==>
      var stop := if end.Some? then end.value else now;
      var first, second := WaitsOf(RowsAt(events, DigestReview), active), WaitsOf(RowsAt(events, ProductDocs), active);
      var both := exists t :: start.value <= t < stop && Waiting(first, now, t) && Waiting(second, now, t);
      start.value <= stop ==>
        var working := |Working(first + second, now, start.value, stop)|;
        0 <= seconds.value <= working && (seconds.value < working <==> both && working > 0)
  {
    var waits := PlanningWaits(events, active);
    ghost var sources := GateSources(events, active);
    GateRowsAreInOrder(events, DigestReview);
    GateRowsAreInOrder(events, ProductDocs);
    TwoSources(sources, now);
    seconds := StretchSeconds(sources, waits, Timing.Planning, start, end, now);
  }

  lemma TwoSources(sources: seq<Source>, now: int)
    requires |sources| == 2
    ensures WaitsOfAll(sources) == WaitsOfSource(sources[0]) + WaitsOfSource(sources[1])
    ensures forall start: int, stop: int ::
      TwoWaitAtOnce(sources, now, start, stop)
      <==> exists t :: start <= t < stop && Waiting(WaitsOfSource(sources[0]), now, t)
             && Waiting(WaitsOfSource(sources[1]), now, t)
  {
    assert sources[..1] == [sources[0]] && sources[..1][..0] == [];
    assert WaitsOfAll(sources[..1]) == WaitsOfSource(sources[0]);
  }

  /** A planning run held at both its gates at once: two waits that are both still open, so the planning time falls
  short of the time spent working, by all the time the second was held. */
  lemma BothGatesAtOnce(start: int, first: int, second: int, now: int)
    requires start < first <= second < now
    ensures var events := [Event(Some(DigestReview), first, true), Event(Some(ProductDocs), second, true)];
      var sources := GateSources(events, true);
      && WaitsOfAll(sources) == [Wait(first, None), Wait(second, None)]
      && TwoWaitAtOnce(sources, now, start, now)
      && |Working(WaitsOfAll(sources), now, start, now)| == first - start
      && now - start - Overlaps(WaitsOfAll(sources), now, start, now) == (first - start) - (now - second)
  {
    var events := [Event(Some(DigestReview), first, true), Event(Some(ProductDocs), second, true)];
    OneHeldRow(events, first, second);
    TwoOpenWaits(GateSources(events, true), start, first, second, now);
  }

  lemma TwoOpenWaits(sources: seq<Source>, start: int, first: int, second: int, now: int)
    requires |sources| == 2 && start < first <= second < now
    requires WaitsOfSource(sources[0]) == [Wait(first, None)] && WaitsOfSource(sources[1]) == [Wait(second, None)]
    ensures var waits := WaitsOfAll(sources);
      && waits == [Wait(first, None), Wait(second, None)]
      && TwoWaitAtOnce(sources, now, start, now)
      && |Working(waits, now, start, now)| == first - start
      && now - start - Overlaps(waits, now, start, now) == (first - start) - (now - second)
  {
    assert sources[..1] == [sources[0]] && sources[..1][..0] == [];
    assert WaitsOfAll(sources[..1]) == [Wait(first, None)];
    assert WaitsOfAll(sources) == [Wait(first, None)] + [Wait(second, None)];
    OpenWaitIs(first, now, second);
    OpenWaitIs(second, now, second);
    TwoOpenOverlaps([Wait(first, None), Wait(second, None)], start, first, second, now);
  }

  lemma OpenWaitIs(at: int, now: int, t: int)
    ensures Waiting([Wait(at, None)], now, t) <==> at <= t < now
  {
    assert [Wait(at, None)][0] == Wait(at, None);
    assert During(Wait(at, None), now, t) <==> at <= t < now;
  }

  lemma TwoOpenOverlaps(waits: seq<Wait>, start: int, first: int, second: int, now: int)
    requires waits == [Wait(first, None), Wait(second, None)] && start < first <= second < now
    ensures |Working(waits, now, start, now)| == first - start
    ensures Overlaps(waits, now, start, now) == (now - first) + (now - second)
  {
    assert waits[..1] == [Wait(first, None)] && waits[..1][..0] == [];
    assert Overlaps(waits[..1], now, start, now) == now - first;
    forall t ensures Waiting(waits, now, t) <==> first <= t < now {
      TwoOpenWaiting(waits, first, second, now, t);
    }
    assert Working(waits, now, start, now) == Timing.Instants(start, first);
  }

  lemma TwoOpenWaiting(waits: seq<Wait>, first: int, second: int, now: int, t: int)
    requires waits == [Wait(first, None), Wait(second, None)] && first <= second
    ensures Waiting(waits, now, t) <==> first <= t < now
  {
    assert waits == [Wait(first, None)] + [Wait(second, None)];
    EitherWaits([Wait(first, None)], [Wait(second, None)], now, t);
    OpenWaitIs(first, now, t);
    OpenWaitIs(second, now, t);
  }

  lemma OneHeldRow(events: seq<Event>, first: int, second: int)
    requires events == [Event(Some(DigestReview), first, true), Event(Some(ProductDocs), second, true)]
    ensures WaitsOf(RowsAt(events, DigestReview), true) == [Wait(first, None)]
    ensures WaitsOf(RowsAt(events, ProductDocs), true) == [Wait(second, None)]
  {
    assert events[..1] == [events[0]] && events[..1][..0] == [];
    assert RowsAt(events[..1], DigestReview) == [Row(first, true, false, true)];
    assert RowsAt(events[..1], ProductDocs) == [];
    assert RowsAt(events, DigestReview) == [Row(first, true, false, true)];
    assert RowsAt(events, ProductDocs) == [Row(second, true, false, true)];
    HeldOnce(first);
    HeldOnce(second);
  }

  lemma HeldOnce(at: int)
    ensures WaitsOf([Row(at, true, false, true)], true) == [Wait(at, None)]
  {
    var rows := [Row(at, true, false, true)];
    assert rows[1..] == [];
    assert WalkOn(FRESH, rows) == WalkOn(Step(FRESH, rows[0]), []);
  }
}
