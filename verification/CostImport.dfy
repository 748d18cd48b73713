/** The copy of LiteLLM's spend log (backend/projector/cost_import.py): overlapping keyset pages, each stored in
its own transaction, and once a day a recount. Times are microseconds from 1970; a request id is a positive
number, and 0 is the empty text that comes before every id. */
module CostImport {
  import opened Basics

  type Id = n: nat | n > 0 witness 1

  datatype Call = Call(id: Id, start: int)

  const HOUR: int := 3_600_000_000
  const DAY: int := 24 * HOUR
  const OVERLAP: int := 3 * HOUR
  const BATCH: nat := 5000
  const RECONCILE_DAYS: int := 3

  // --- the source ---

  predicate Before(start: int, id: nat, c: Call) {
    start < c.start || (start == c.start && id < c.id)
  }

  /** The spend log as one query sees it: in order of start time and request id, each id once. */
  ghost predicate Ordered(log: seq<Call>) {
    && (forall i, j :: 0 <= i < j < |log| ==> Before(log[i].start, log[i].id, log[j]))
    && DistinctIds(log)
  }

  ghost predicate DistinctIds(calls: seq<Call>) {
    forall i, j :: 0 <= i < j < |calls| ==> calls[i].id != calls[j].id
  }

  predicate Wanted(c: Call, start: int, id: nat, before: Option<int>) {
    Before(start, id, c) && (before.Some? ==> c.start < before.value)
  }

  /** Every row after the cursor, oldest first. */
  function Matching(log: seq<Call>, start: int, id: nat, before: Option<int>): seq<Call> {
    if log == [] then []
    else
      var n := |log| - 1;
      Matching(log[..n], start, id, before) + if Wanted(log[n], start, id, before) then [log[n]] else []
  }

  lemma {:induction false} MatchingIs(log: seq<Call>, start: int, id: nat, before: Option<int>)
    ensures forall c :: c in Matching(log, start, id, before) <==> c in log && Wanted(c, start, id, before)
  {
    if log != [] {
      var n := |log| - 1;
      MatchingIs(log[..n], start, id, before);
      assert log == log[..n] + [log[n]];
    }
  }

  /** One page: the first rows after the cursor. */
  function RowsAfter(log: seq<Call>, start: int, id: nat, limit: nat, before: Option<int>): seq<Call> {
    var m := Matching(log, start, id, before);
    if |m| <= limit then m else m[..limit]
  }

  lemma {:induction false} MatchingIsOrdered(log: seq<Call>, start: int, id: nat, before: Option<int>)
    requires Ordered(log)
    ensures Ordered(Matching(log, start, id, before))
  {
    if log != [] {
      var n := |log| - 1;
      MatchingIsOrdered(log[..n], start, id, before);
      MatchingIs(log[..n], start, id, before);
      var m := Matching(log[..n], start, id, before);
      forall i | 0 <= i < |m| ensures Before(m[i].start, m[i].id, log[n]) && m[i].id != log[n].id {
        assert m[i] in log[..n];
        LastIsBehind(log, n, m[i]);
      }
      OneMoreIsOrdered(m, log[n]);
    }
  }

  lemma LastIsBehind(log: seq<Call>, n: nat, c: Call)
    requires Ordered(log) && n + 1 == |log| && c in log[..n]
    ensures Before(c.start, c.id, log[n]) && c.id != log[n].id
  {
    var i :| 0 <= i < n && log[i] == c;
  }

  lemma OneMoreIsOrdered(m: seq<Call>, c: Call)
    requires Ordered(m) && forall i :: 0 <= i < |m| ==> Before(m[i].start, m[i].id, c) && m[i].id != c.id
    ensures Ordered(m + [c]) && Ordered(m + [])
  {
    assert m + [] == m;
  }

  /** The order leaves only one way to list the same rows. */
  lemma {:induction false} OneWayToList(a: seq<Call>, b: seq<Call>)
    requires Ordered(a) && Ordered(b) && forall c :: c in a <==> c in b
    ensures a == b
  {
    assert a != [] ==> a[0] in a;
    assert b != [] ==> b[0] in b;
    if a != [] && b != [] {
      FirstIsFirst(a, b);
      assert a == [a[0]] + a[1..] && b == [b[0]] + b[1..];
      assert a[0] !in a[1..] && b[0] !in b[1..];
      forall c ensures c in a[1..] <==> c in b[1..] {
        assert c in a[1..] <==> c in a && c != a[0];
        assert c in b[1..] <==> c in b && c != b[0];
      }
      OneWayToList(a[1..], b[1..]);
    }
  }

  lemma FirstIsFirst(a: seq<Call>, b: seq<Call>)
    requires Ordered(a) && Ordered(b) && a != [] && b != [] && forall c :: c in a <==> c in b
    ensures a[0] == b[0]
  {
    assert a[0] in a && b[0] in b;
    var i :| 0 <= i < |b| && b[i] == a[0];
    var j :| 0 <= j < |a| && a[j] == b[0];
  }

  /** Moving the cursor to a row leaves exactly the rows after it. */
  lemma MatchingFrom(log: seq<Call>, start: int, id: nat, before: Option<int>, k: nat)
    requires Ordered(log) && k < |Matching(log, start, id, before)|
    ensures var m := Matching(log, start, id, before);
      Matching(log, m[k].start, m[k].id, before) == m[k + 1..]
  {
    var m := Matching(log, start, id, before);
    MatchingIs(log, start, id, before);
    MatchingIsOrdered(log, start, id, before);
    var rest := Matching(log, m[k].start, m[k].id, before);
    MatchingIs(log, m[k].start, m[k].id, before);
    MatchingIsOrdered(log, m[k].start, m[k].id, before);
    assert m[k] in m;
    forall c ensures c in rest <==> c in m[k + 1..] {
      LaterInOrder(m, k, c);
    }
    TailIsOrdered(m, k + 1);
    OneWayToList(rest, m[k + 1..]);
  }

  /** In an ordered list, the calls after one are those that stand behind it. */
  lemma LaterInOrder(m: seq<Call>, k: nat, c: Call)
    requires Ordered(m) && k < |m|
    ensures c in m[k + 1..] <==> c in m && Before(m[k].start, m[k].id, c)
  {
    if c in m {
      var i :| 0 <= i < |m| && m[i] == c;
      if i > k {
        assert m[k + 1..][i - k - 1] == c;
      }
    }
  }

  lemma TailIsOrdered(m: seq<Call>, k: nat)
    requires Ordered(m) && k <= |m|
    ensures Ordered(m[k..])
  {
  }

  // --- storing a page ---

  predicate HasId(calls: seq<Call>, id: nat) {
    exists c :: c in calls && c.id == id
  }

  /** Insert, or ignore when the request id is there already. */
  function Stored(calls: seq<Call>, rows: seq<Call>): seq<Call> {
    if rows == [] then calls
    else
      var n := |rows| - 1;
      var s := Stored(calls, rows[..n]);
      if HasId(s, rows[n].id) then s else s + [rows[n]]
  }

  lemma {:induction false} StoredConcat(calls: seq<Call>, rows: seq<Call>, more: seq<Call>)
    ensures Stored(calls, rows + more) == Stored(Stored(calls, rows), more)
  {
    if more == [] {
      assert rows + more == rows;
    } else {
      var n := |more| - 1;
      assert (rows + more)[..|rows + more| - 1] == rows + more[..n];
      StoredConcat(calls, rows, more[..n]);
    }
  }

  /** A store that holds rows of the log, each once. */
  ghost predicate CopyOf(calls: seq<Call>, log: seq<Call>) {
    DistinctIds(calls) && forall c :: c in calls ==> c in log
  }

  lemma SameIdSameCall(log: seq<Call>, a: Call, b: Call)
    requires DistinctIds(log) && a in log && b in log && a.id == b.id
    ensures a == b
  {
  }

  lemma {:induction false} StoredIs(calls: seq<Call>, rows: seq<Call>, log: seq<Call>)
    requires Ordered(log) && CopyOf(calls, log) && forall c :: c in rows ==> c in log
    ensures CopyOf(Stored(calls, rows), log)
    ensures forall c :: c in Stored(calls, rows) <==> c in calls || c in rows
  {
    if rows != [] {
      var n := |rows| - 1;
      assert rows == rows[..n] + [rows[n]];
      StoredIs(calls, rows[..n], log);
      var s := Stored(calls, rows[..n]);
      if HasId(s, rows[n].id) {
        var c :| c in s && c.id == rows[n].id;
        SameIdSameCall(log, c, rows[n]);
      }
    }
  }

  // --- paging, and what it reaches when the source stops answering ---

  /** The rows read before the source fails, if it answers `answers` more queries. */
  function Reached(m: seq<Call>, answers: nat): seq<Call> {
    if answers * BATCH > |m| then m else m[..answers * BATCH]
  }

  /** What one database holds, and how many more queries the source answers; `ok` is false once it has failed. */
  datatype Progress = Progress(calls: seq<Call>, answers: nat, ok: bool)

  function Paged(calls: seq<Call>, log: seq<Call>, start: int, before: Option<int>, answers: nat): Progress {
    var m := Matching(log, start, 0, before);
    var ok := answers * BATCH > |m|;
    Progress(Stored(calls, Reached(m, answers)), if ok then answers - |m| / BATCH - 1 else 0, ok)
  }

  class Dash {
    var calls: seq<Call>

    constructor ()
      ensures calls == []
    {
      calls := [];
    }

    /** `_store`: one page in one transaction. */
    method Store(rows: seq<Call>) returns (inserted: nat)
      modifies this
      ensures calls == Stored(old(calls), rows)
      ensures inserted == |calls| - |old(calls)|
    {
      inserted := 0;
      for i := 0 to |rows|
        invariant calls == Stored(old(calls), rows[..i])
        invariant inserted == |calls| - |old(calls)|
      {
        assert rows[..i + 1][..i] == rows[..i];
        if !HasId(calls, rows[i].id) {
          calls := calls + [rows[i]];
          inserted := inserted + 1;
        }
      }
      assert rows[..|rows|] == rows;
    }

    /** `_newest_start`. */
    method NewestStart() returns (newest: Option<int>)
      ensures newest == Newest(calls)
    {
      newest := None;
      for i := 0 to |calls|
        invariant newest == Newest(calls[..i])
      {
        assert calls[..i + 1][..i] == calls[..i];
        newest := Some(if newest.None? then calls[i].start else Max(newest.value, calls[i].start));
      }
      assert calls[..|calls|] == calls;
    }

    /** One page after the cursor, stored. */
    method NextPage(log: seq<Call>, cursorStart: int, cursorId: nat, before: Option<int>)
      returns (rows: seq<Call>, inserted: nat)
      modifies this
      ensures rows == PageOf(Matching(log, cursorStart, cursorId, before))
      ensures calls == Stored(old(calls), rows)
      ensures inserted == |calls| - |old(calls)|
    {
      rows := RowsAfter(log, cursorStart, cursorId, BATCH, before);
      inserted := Store(rows);
    }

    method Pages(log: seq<Call>, start: int, before: Option<int>, answers: nat)
      returns (ok: bool, inserted: nat, left: nat)
      requires Ordered(log)
      modifies this
      ensures Progress(calls, left, ok) == PagesFrom(old(calls), Matching(log, start, 0, before), answers)
      ensures inserted == |calls| - |old(calls)|
    {
      var cursorStart, cursorId: nat := start, 0;
      ghost var rest := Matching(log, start, 0, before);
      ghost var goal := PagesFrom(calls, rest, answers);
      inserted, left := 0, answers;
      while true
        invariant rest == Matching(log, cursorStart, cursorId, before)
        invariant PagesFrom(calls, rest, left) == goal
        invariant inserted == |calls| - |old(calls)|
        decreases left
      {
        if left == 0 {
          return false, inserted, 0;
        }
        left := left - 1;
        var rows, n := NextPage(log, cursorStart, cursorId, before);
        inserted := inserted + n;
        if |rows| < BATCH {
          return true, inserted, left;
        }
        MatchingFrom(log, cursorStart, cursorId, before, BATCH - 1);
        rest := rest[BATCH..];
        cursorStart, cursorId := rows[|rows| - 1].start, rows[|rows| - 1].id;
      }
    }

    /** `_page_through`. */
    method PageThrough(log: seq<Call>, start: int, before: Option<int>, answers: nat)
      returns (ok: bool, inserted: nat, left: nat)
      requires Ordered(log)
      modifies this
      ensures Progress(calls, left, ok) == Paged(old(calls), log, start, before, answers)
      ensures inserted == |calls| - |old(calls)|
    {
      PagesReach(calls, Matching(log, start, 0, before), answers);
      ok, inserted, left := Pages(log, start, before, answers);
    }

    /** The days whose counts differ from LiteLLM's. */
    method FindDiffering(log: seq<Call>, days: seq<int>) returns (differing: seq<int>)
      ensures differing == Differing(calls, log, days)
    {
      differing := [];
      for i := 0 to |days|
        invariant differing == Differing(calls, log, days[..i])
      {
        assert days[..i + 1][..i] == days[..i];
        if CountOn(calls, days[i]) != CountOn(log, days[i]) {
          differing := differing + [days[i]];
        }
      }
      assert days[..|days|] == days;
    }

    /** Each of these days, read again from its first moment up to the next day's. */
    method RereadAll(log: seq<Call>, days: seq<int>, answers: nat) returns (ok: bool, inserted: nat, left: nat)
      requires Ordered(log)
      modifies this
      ensures Progress(calls, left, ok) == Reread(old(calls), log, days, answers)
      ensures inserted == |calls| - |old(calls)|
    {
      inserted, left := 0, answers;
      ghost var goal := Reread(calls, log, days, answers);
      assert days[0..] == days;
      for i := 0 to |days|
        invariant Reread(calls, log, days[i..], left) == goal
        invariant inserted == |calls| - |old(calls)|
      {
        RereadOne(calls, log, days, i, left);
        var n: nat;
        ok, n, left := PageThrough(log, days[i] * DAY, Some((days[i] + 1) * DAY), left);
        inserted := inserted + n;
        if !ok {
          return false, inserted, left;
        }
      }
      return true, inserted, left;
    }

    /** `reconcile`: recount the last full days, and read again each day whose count differs. */
    method Reconcile(log: seq<Call>, today: int, answers: nat) returns (ok: bool, inserted: nat, left: nat)
      requires Ordered(log)
      modifies this
      ensures Progress(calls, left, ok) == Reconciled(old(calls), log, today, answers)
      ensures inserted == |calls| - |old(calls)|
    {
      if answers == 0 {
        return false, 0, 0;
      }
      var days := Days(log, today - RECONCILE_DAYS);
      var differing := FindDiffering(log, days);
      ReconciledIs(calls, log, today, answers, differing);
      ok, inserted, left := RereadAll(log, differing, answers - 1);
    }

    /** `import_once`; `due` is today's day number when a recount is due. */
    method ImportOnce(log: seq<Call>, due: Option<int>, answers: nat) returns (ok: bool, inserted: nat)
      requires Ordered(log)
      modifies this
      ensures calls == Passed(old(calls), log, due, answers).calls && ok == Passed(old(calls), log, due, answers).ok
      ensures inserted == |calls| - |old(calls)|
      ensures ok && CopyOf(old(calls), log) ==>
        forall c :: c in calls <==> c in log && (c in old(calls) || InReach(c, old(calls), due))
    {
      if CopyOf(calls, log) {
        PassStoresInReach(calls, log, due, answers);
      }
      ghost var imported := Imported(calls, log, answers);
      var newest := NewestStart();
      var start := if newest.Some? then newest.value - OVERLAP else 0;
      var left: nat;
      ok, inserted, left := PageThrough(log, start, None, answers);
      assert Progress(calls, left, ok) == imported;
      if ok && due.Some? {
        var reconciled: nat;
        ok, reconciled, left := Reconcile(log, due.value, left);
        inserted := inserted + reconciled;
      }
    }
  }

  function PageOf(m: seq<Call>): seq<Call> {
    if |m| <= BATCH then m else m[..BATCH]
  }

  /** Page after page of the rows `m`, until one is short or the source fails. */
  function PagesFrom(calls: seq<Call>, m: seq<Call>, answers: nat): Progress
    decreases answers
  {
    if answers == 0 then Progress(calls, 0, false)
    else if |m| < BATCH then Progress(Stored(calls, m), answers - 1, true)
    else PagesFrom(Stored(calls, PageOf(m)), m[BATCH..], answers - 1)
  }

  lemma ReachedPageByPage(m: seq<Call>, answers: nat)
    requires answers > 0 && |m| >= BATCH
    ensures Reached(m, answers) == PageOf(m) + Reached(m[BATCH..], answers - 1)
  {
  }

  lemma PageCount(answers: nat, n: nat)
    ensures n < BATCH ==> n / BATCH == 0 && (answers * BATCH > n <==> answers > 0)
    ensures n >= BATCH && answers > 0 ==>
      && (answers * BATCH > n <==> (answers - 1) * BATCH > n - BATCH) && n / BATCH == (n - BATCH) / BATCH + 1
  {
  }

  lemma {:induction false} PagesStore(calls: seq<Call>, m: seq<Call>, answers: nat)
    ensures PagesFrom(calls, m, answers).calls == Stored(calls, Reached(m, answers))
    decreases answers
  {
    if answers > 0 && |m| >= BATCH {
      PagesStore(Stored(calls, PageOf(m)), m[BATCH..], answers - 1);
      StoredPageByPage(calls, m, answers);
    } else {
      LastPage(calls, m, answers);
    }
  }

  lemma StoredPageByPage(calls: seq<Call>, m: seq<Call>, answers: nat)
    requires answers > 0 && |m| >= BATCH
    ensures Stored(calls, Reached(m, answers)) == Stored(Stored(calls, PageOf(m)), Reached(m[BATCH..], answers - 1))
  {
    ReachedPageByPage(m, answers);
    StoredConcat(calls, PageOf(m), Reached(m[BATCH..], answers - 1));
  }

  lemma LastPage(calls: seq<Call>, m: seq<Call>, answers: nat)
    requires answers == 0 || |m| < BATCH
    ensures PagesFrom(calls, m, answers).calls == Stored(calls, Reached(m, answers))
  {
    PageCount(answers, |m|);
    assert m[..0] == [];
  }

  lemma {:induction false} PagesLast(calls: seq<Call>, m: seq<Call>, answers: nat)
    ensures PagesFrom(calls, m, answers).ok == (answers * BATCH > |m|)
    ensures PagesFrom(calls, m, answers).answers == if answers * BATCH > |m| then answers - |m| / BATCH - 1 else 0
    decreases answers
  {
    PageCount(answers, |m|);
    if answers > 0 && |m| >= BATCH {
      PagesLast(Stored(calls, PageOf(m)), m[BATCH..], answers - 1);
    }
  }

  /** The pages together are one prefix of the rows: all of them unless the source failed first. */
  lemma PagesReach(calls: seq<Call>, m: seq<Call>, answers: nat)
    ensures PagesFrom(calls, m, answers)
         == Progress(Stored(calls, Reached(m, answers)),
                     if answers * BATCH > |m| then answers - |m| / BATCH - 1 else 0, answers * BATCH > |m|)
  {
    PagesStore(calls, m, answers);
    PagesLast(calls, m, answers);
  }

  function Newest(calls: seq<Call>): Option<int> {
    if calls == [] then None
    else
      var n := |calls| - 1;
      var r := Newest(calls[..n]);
      Some(if r.None? then calls[n].start else Max(r.value, calls[n].start))
  }

  lemma {:induction false} NewestIs(calls: seq<Call>)
    ensures Newest(calls).None? <==> calls == []
    ensures calls != [] ==>
      && (forall c :: c in calls ==> c.start <= Newest(calls).value)
      && (exists c :: c in calls && c.start == Newest(calls).value)
  {
    if calls != [] {
      var n := |calls| - 1;
      NewestIs(calls[..n]);
      assert calls == calls[..n] + [calls[n]];
      if n > 0 {
        var c :| c in calls[..n] && c.start == Newest(calls[..n]).value;
        assert c in calls && calls[n] in calls;
      }
    }
  }

  // --- one pass ---

  function PassStart(calls: seq<Call>): int {
    if Newest(calls).Some? then Newest(calls).value - OVERLAP else 0
  }

  /** No more than three hours before the newest of the calls, or from 1970 on when there are none. */
  predicate NotTooOld(c: Call, calls: seq<Call>) {
    if calls == [] then c.start >= 0 else forall x :: x in calls ==> c.start >= x.start - 10_800_000_000
  }

  lemma PassStartIs(calls: seq<Call>, c: Call)
    ensures NotTooOld(c, calls) <==> c.start >= PassStart(calls)
  {
    NewestIs(calls);
  }

  /** The first half of a pass: read from the newest stored start time minus three hours. */
  function Imported(calls: seq<Call>, log: seq<Call>, answers: nat): Progress {
    Paged(calls, log, PassStart(calls), None, answers)
  }

  /** Nothing the store lacks starts more than three hours before its newest call. */
  ghost predicate CaughtUp(calls: seq<Call>, log: seq<Call>) {
    && CopyOf(calls, log)
    && forall c :: c in log && c !in calls ==> c.start >= PassStart(calls)
  }

  lemma ReachedIsPrefix(m: seq<Call>, answers: nat)
    ensures Reached(m, answers) <= m
    ensures forall c :: c in Reached(m, answers) ==> c in m
  {
  }

  /** A pass that got through copies every row it could see; one that failed at any page leaves nothing behind
  that the next pass would skip. */
  lemma ImportKeepsUp(calls: seq<Call>, log: seq<Call>, answers: nat)
    requires Ordered(log) && CaughtUp(calls, log)
    ensures var p := Imported(calls, log, answers);
      && CaughtUp(p.calls, log)
      && (forall c :: c in calls ==> c in p.calls)
      && (p.ok ==> forall c :: c in log ==> c in p.calls)
  {
    var start := PassStart(calls);
    var m := Matching(log, start, 0, None);
    var reached := Reached(m, answers);
    MatchingIs(log, PassStart(calls), 0, None);
    ReachedIsPrefix(m, answers);
    StoredIs(calls, reached, log);
    var after := Stored(calls, reached);
    MatchingIsOrdered(log, start, 0, None);
    forall c | c in log && c !in after ensures c in m && c.start >= PassStart(after) {
      MissedStartsLater(calls, log, answers, c);
    }
  }

  lemma MissedStartsLater(calls: seq<Call>, log: seq<Call>, answers: nat, c: Call)
    requires Ordered(log) && CaughtUp(calls, log)
    requires c in log && c !in Imported(calls, log, answers).calls
    ensures !Imported(calls, log, answers).ok
    ensures c.start >= PassStart(Imported(calls, log, answers).calls)
  {
    var m := Matching(log, PassStart(calls), 0, None);
    var reached := Reached(m, answers);
    var after := Stored(calls, reached);
    MatchingIs(log, PassStart(calls), 0, None);
    ReachedIsPrefix(m, answers);
    StoredIs(calls, reached, log);
    MatchingIsOrdered(log, PassStart(calls), 0, None);
    NewestIs(calls);
    NewestIs(after);
    if after != [] {
      var newest :| newest in after && newest.start == Newest(after).value;
      if newest in reached {
        ReachedComesFirst(m, answers, newest, c);
      }
    }
  }

  /** The rows that were reached come before those that were not. */
  lemma ReachedComesFirst(m: seq<Call>, answers: nat, early: Call, late: Call)
    requires Ordered(m) && early in Reached(m, answers) && late in m && late !in Reached(m, answers)
    ensures early.start <= late.start
  {
    var reached := Reached(m, answers);
    var j :| 0 <= j < |reached| && reached[j] == early;
    var i :| 0 <= i < |m| && m[i] == late;
    assert m[j] == early && (i < |reached| ==> reached[i] == late);
  }

  /** Without a recount, a pass that gets through picks up a missing row exactly when the row starts no more than
  three hours before the newest stored call. */
  lemma LateRowsAreMissed(calls: seq<Call>, log: seq<Call>, answers: nat, c: Call)
    requires Ordered(log) && CopyOf(calls, log) && c in log && c !in calls
    requires Imported(calls, log, answers).ok
    ensures c in Imported(calls, log, answers).calls <==> NotTooOld(c, calls)
  {
    PassStartIs(calls, c);
    var m := Matching(log, PassStart(calls), 0, None);
    MatchingIs(log, PassStart(calls), 0, None);
    StoredIs(calls, m, log);
  }

  // --- the daily recount ---

  function DayOf(c: Call): int {
    c.start / DAY
  }

  function CountOn(calls: seq<Call>, day: int): nat {
    if calls == [] then 0
    else CountOn(calls[..|calls| - 1], day) + if DayOf(calls[|calls| - 1]) == day then 1 else 0
  }

  /** The days, from `since` on, that the log has rows for. */
  function Days(log: seq<Call>, since: int): seq<int> {
    if log == [] then []
    else
      var n := |log| - 1;
      var days := Days(log[..n], since);
      if DayOf(log[n]) < since || DayOf(log[n]) in days then days else days + [DayOf(log[n])]
  }

  lemma {:induction false} DaysAre(log: seq<Call>, since: int)
    ensures forall c :: c in log && DayOf(c) >= since ==> DayOf(c) in Days(log, since)
  {
    if log != [] {
      var n := |log| - 1;
      DaysAre(log[..n], since);
      assert log == log[..n] + [log[n]];
    }
  }

  function Differing(calls: seq<Call>, log: seq<Call>, days: seq<int>): seq<int> {
    if days == [] then []
    else
      var n := |days| - 1;
      Differing(calls, log, days[..n]) + if CountOn(calls, days[n]) != CountOn(log, days[n]) then [days[n]] else []
  }

  lemma {:induction false} DifferingAre(calls: seq<Call>, log: seq<Call>, days: seq<int>)
    ensures forall d :: d in Differing(calls, log, days) <==> d in days && CountOn(calls, d) != CountOn(log, d)
  {
    if days != [] {
      var n := |days| - 1;
      DifferingAre(calls, log, days[..n]);
      assert days == days[..n] + [days[n]];
    }
  }

  lemma {:induction false} NoneDiffer(calls: seq<Call>, log: seq<Call>, days: seq<int>)
    requires forall d :: d in days ==> CountOn(calls, d) == CountOn(log, d)
    ensures Differing(calls, log, days) == []
  {
    if days != [] {
      NoneDiffer(calls, log, days[..|days| - 1]);
    }
  }

  function Reread(calls: seq<Call>, log: seq<Call>, days: seq<int>, answers: nat): Progress
    decreases |days|
  {
    if days == [] then Progress(calls, answers, true)
    else
      var p := Paged(calls, log, days[0] * DAY, Some((days[0] + 1) * DAY), answers);
      if p.ok then Reread(p.calls, log, days[1..], p.answers) else p
  }

  lemma RereadOne(calls: seq<Call>, log: seq<Call>, days: seq<int>, i: nat, answers: nat)
    requires i < |days|
    ensures var p := Paged(calls, log, days[i] * DAY, Some((days[i] + 1) * DAY), answers);
      Reread(calls, log, days[i..], answers) == if p.ok then Reread(p.calls, log, days[i + 1..], p.answers) else p
  {
    assert days[i..][1..] == days[i + 1..];
  }

  function Reconciled(calls: seq<Call>, log: seq<Call>, today: int, answers: nat): Progress {
    if answers == 0 then Progress(calls, 0, false)
    else Reread(calls, log, Differing(calls, log, Days(log, today - RECONCILE_DAYS)), answers - 1)
  }

  lemma ReconciledIs(calls: seq<Call>, log: seq<Call>, today: int, answers: nat, differing: seq<int>)
    requires answers > 0 && differing == Differing(calls, log, Days(log, today - RECONCILE_DAYS))
    ensures Reconciled(calls, log, today, answers) == Reread(calls, log, differing, answers - 1)
  {
  }

  /** One whole pass. */
  function Passed(calls: seq<Call>, log: seq<Call>, due: Option<int>, answers: nat): Progress {
    var p := Imported(calls, log, answers);
    if p.ok && due.Some? then Reconciled(p.calls, log, due.value, p.answers) else p
  }

  ghost function OnDay(calls: seq<Call>, day: int): set<Call> {
    set c | c in calls && DayOf(c) == day
  }

  lemma {:induction false} CountIs(calls: seq<Call>, day: int)
    requires DistinctIds(calls)
    ensures CountOn(calls, day) == |OnDay(calls, day)|
  {
    if calls != [] {
      var n := |calls| - 1;
      var c := calls[n];
      CountIs(calls[..n], day);
      assert calls == calls[..n] + [c];
      assert c !in calls[..n];
      assert OnDay(calls, day) == OnDay(calls[..n], day) + if DayOf(c) == day then {c} else {};
    }
  }

  lemma {:induction false} SameSizeSubset<T>(a: set<T>, b: set<T>)
    requires a <= b && |a| == |b|
    ensures a == b
  {
    assert b == a + (b - a);
    assert |b - a| == 0;
  }

  /** The store never holds a row the log lacks, so equal counts for a day mean equal rows. */
  lemma EqualCountsMeanEqualRows(calls: seq<Call>, log: seq<Call>, day: int)
    requires DistinctIds(log) && CopyOf(calls, log)
    ensures CountOn(calls, day) == CountOn(log, day) <==> HasDay(calls, log, day)
  {
    CountIs(calls, day);
    CountIs(log, day);
    var ours, theirs := OnDay(calls, day), OnDay(log, day);
    assert ours <= theirs;
    if |ours| == |theirs| {
      SameSizeSubset(ours, theirs);
      forall c | c in log && DayOf(c) == day ensures c in calls {
        assert c in theirs;
      }
    }
    if HasDay(calls, log, day) {
      assert ours == theirs;
    }
  }

  ghost predicate HasDay(calls: seq<Call>, log: seq<Call>, day: int) {
    forall c :: c in log && DayOf(c) == day ==> c in calls
  }

  /** Paging up to a bound only adds rows of the log, and reads the whole day if the source keeps answering. */
  lemma PagedIs(calls: seq<Call>, log: seq<Call>, start: int, before: Option<int>, answers: nat)
    requires Ordered(log) && CopyOf(calls, log)
    ensures var p := Paged(calls, log, start, before, answers);
      && CopyOf(p.calls, log)
      && (forall c :: c in calls ==> c in p.calls)
      && (p.ok ==> forall c :: c in log && Wanted(c, start, 0, before) ==> c in p.calls)
  {
    var m := Matching(log, start, 0, before);
    MatchingIs(log, start, 0, before);
    ReachedIsPrefix(m, answers);
    StoredIs(calls, Reached(m, answers), log);
  }

  lemma DayIsWanted(c: Call, day: int)
    ensures Wanted(c, day * DAY, 0, Some((day + 1) * DAY)) <==> DayOf(c) == day
  {
  }

  lemma {:induction false} RereadDays(calls: seq<Call>, log: seq<Call>, days: seq<int>, answers: nat)
    requires Ordered(log) && CopyOf(calls, log)
    ensures var p := Reread(calls, log, days, answers);
      && CopyOf(p.calls, log)
      && (forall c :: c in calls ==> c in p.calls)
      && (p.ok ==> forall d :: d in days ==> HasDay(p.calls, log, d))
    decreases |days|
  {
    if days != [] {
      var d := days[0];
      PagedIs(calls, log, d * DAY, Some((d + 1) * DAY), answers);
      forall c ensures Wanted(c, d * DAY, 0, Some((d + 1) * DAY)) <==> DayOf(c) == d {
        DayIsWanted(c, d);
      }
      var p := Paged(calls, log, d * DAY, Some((d + 1) * DAY), answers);
      if p.ok {
        RereadDays(p.calls, log, days[1..], p.answers);
        assert days == [d] + days[1..];
      }
    }
  }

  lemma DayIsWhole(calls: seq<Call>, after: seq<Call>, log: seq<Call>, day: int, differs: bool, c: Call)
    requires DistinctIds(log) && CopyOf(calls, log) && c in log && DayOf(c) == day
    requires differs <==> CountOn(calls, day) != CountOn(log, day)
    requires if differs then HasDay(after, log, day) else forall x :: x in calls ==> x in after
    ensures c in after
  {
    EqualCountsMeanEqualRows(calls, log, day);
  }

  /** A recount that got through leaves every day of its window exactly as LiteLLM has it, however far behind the
  store was. */
  lemma RecountIsExact(calls: seq<Call>, log: seq<Call>, today: int, answers: nat)
    requires Ordered(log) && CopyOf(calls, log)
    ensures var p := Reconciled(calls, log, today, answers);
      && CopyOf(p.calls, log)
      && (forall c :: c in calls ==> c in p.calls)
      && (p.ok ==> forall c :: c in log && DayOf(c) >= today - RECONCILE_DAYS ==> c in p.calls)
  {
    if answers > 0 {
      var days := Days(log, today - RECONCILE_DAYS);
      var differing := Differing(calls, log, days);
      DaysAre(log, today - RECONCILE_DAYS);
      DifferingAre(calls, log, days);
      RereadDays(calls, log, differing, answers - 1);
      var p := Reread(calls, log, differing, answers - 1);
      if p.ok {
        forall c | c in log && DayOf(c) >= today - RECONCILE_DAYS ensures c in p.calls {
          DayIsWhole(calls, p.calls, log, DayOf(c), DayOf(c) in differing, c);
        }
      }
    }
  }

  // --- one pass, with or without a recount ---

  /** The rows that a pass looks at: those from three hours before the newest stored call on and, when it recounts,
  those of the last three full days and of today. */
  predicate InReach(c: Call, calls: seq<Call>, due: Option<int>) {
    NotTooOld(c, calls) || (due.Some? && c.start >= (due.value - 3) * 86_400_000_000)
  }

  lemma {:induction false} RereadOnly(calls: seq<Call>, log: seq<Call>, days: seq<int>, answers: nat)
    requires Ordered(log) && CopyOf(calls, log)
    ensures forall c :: c in Reread(calls, log, days, answers).calls ==> c in calls || DayOf(c) in days
    decreases |days|
  {
    if days != [] {
      var p := Paged(calls, log, days[0] * DAY, Some((days[0] + 1) * DAY), answers);
      PagedIs(calls, log, days[0] * DAY, Some((days[0] + 1) * DAY), answers);
      PagedOnly(calls, log, days[0], answers);
      if p.ok {
        RereadOnly(p.calls, log, days[1..], p.answers);
      }
    }
  }

  lemma PagedOnly(calls: seq<Call>, log: seq<Call>, day: int, answers: nat)
    requires Ordered(log) && CopyOf(calls, log)
    ensures forall c | c in Paged(calls, log, day * DAY, Some((day + 1) * DAY), answers).calls ::
              c in calls || DayOf(c) == day
  {
    var m := Matching(log, day * DAY, 0, Some((day + 1) * DAY));
    MatchingIs(log, day * DAY, 0, Some((day + 1) * DAY));
    ReachedIsPrefix(m, answers);
    StoredIs(calls, Reached(m, answers), log);
    forall c | c in m ensures DayOf(c) == day {
      DayIsWanted(c, day);
    }
  }

  lemma RecountStaysInWindow(calls: seq<Call>, log: seq<Call>, today: int, answers: nat)
    requires Ordered(log) && CopyOf(calls, log)
    ensures forall c :: c in Reconciled(calls, log, today, answers).calls ==>
      c in calls || DayOf(c) >= today - RECONCILE_DAYS
  {
    if answers > 0 {
      var days := Days(log, today - RECONCILE_DAYS);
      RereadOnly(calls, log, Differing(calls, log, days), answers - 1);
      DifferingAre(calls, log, days);
      DaysAreLater(log, today - RECONCILE_DAYS);
    }
  }

  lemma {:induction false} DaysAreLater(log: seq<Call>, since: int)
    ensures forall d :: d in Days(log, since) ==> d >= since
  {
    if log != [] {
      DaysAreLater(log[..|log| - 1], since);
    }
  }

  lemma DayIsFrom(c: Call, day: int)
    ensures DayOf(c) >= day <==> c.start >= day * 86_400_000_000
  {
  }

  /** Whatever the store lacked before: a pass that gets through leaves it with exactly what it had and the rows in
  reach, the recounted days included. */
  lemma PassStoresInReach(calls: seq<Call>, log: seq<Call>, due: Option<int>, answers: nat)
    requires Ordered(log) && CopyOf(calls, log)
    ensures var p := Passed(calls, log, due, answers);
      && CopyOf(p.calls, log)
      && (forall c :: c in calls ==> c in p.calls)
      && (p.ok ==> forall c :: c in p.calls <==> c in log && (c in calls || InReach(c, calls, due)))
  {
    var p := Imported(calls, log, answers);
    ImportStoresInReach(calls, log, answers);
    forall c
      ensures InReach(c, calls, due)
         <==> c.start >= PassStart(calls) || (due.Some? && DayOf(c) >= due.value - RECONCILE_DAYS)
    {
      PassStartIs(calls, c);
      DayIsFrom(c, if due.Some? then due.value - 3 else 0);
    }
    if p.ok && due.Some? {
      RecountIsExact(p.calls, log, due.value, p.answers);
      RecountStaysInWindow(p.calls, log, due.value, p.answers);
    }
  }

  lemma ImportStoresInReach(calls: seq<Call>, log: seq<Call>, answers: nat)
    requires Ordered(log) && CopyOf(calls, log)
    ensures var p := Imported(calls, log, answers);
      && CopyOf(p.calls, log)
      && (forall c :: c in calls ==> c in p.calls)
      && (forall c :: c in p.calls ==> c in calls || c.start >= PassStart(calls))
      && (p.ok ==> forall c :: c in log && c.start >= PassStart(calls) ==> c in p.calls)
  {
    var m := Matching(log, PassStart(calls), 0, None);
    MatchingIs(log, PassStart(calls), 0, None);
    ReachedIsPrefix(m, answers);
    StoredIs(calls, Reached(m, answers), log);
  }

  // --- whole runs ---

  datatype Event = Arrive(log: seq<Call>) | Pass(due: Option<int>, answers: nat)

  datatype World = World(log: seq<Call>, calls: seq<Call>)

  function Do(w: World, e: Event): World {
    match e
    case Arrive(log) => w.(log := log)
    case Pass(due, answers) => w.(calls := Passed(w.calls, w.log, due, answers).calls)
  }

  function Run(w: World, events: seq<Event>): World {
    if events == [] then w else Do(Run(w, events[..|events| - 1]), events[|events| - 1])
  }

  /** Rows are only ever added, and none arrives more than three hours behind the newest stored call. */
  ghost predicate ArrivesInTime(w: World, log: seq<Call>) {
    && Ordered(log)
    && (forall c :: c in w.log ==> c in log)
    && (forall c :: c in log && c !in w.log ==> c.start >= PassStart(w.calls))
  }

  ghost predicate InTime(events: seq<Event>) {
    forall i :: 0 <= i < |events| && events[i].Arrive? ==>
      ArrivesInTime(Run(World([], []), events[..i]), events[i].log)
  }

  ghost predicate Whole(w: World) {
    DistinctIds(w.calls) && forall c :: c in w.calls <==> c in w.log
  }

  lemma PassKeepsUp(calls: seq<Call>, log: seq<Call>, due: Option<int>, answers: nat)
    requires Ordered(log) && CaughtUp(calls, log)
    ensures var p := Passed(calls, log, due, answers);
      && CaughtUp(p.calls, log)
      && (forall c :: c in calls ==> c in p.calls)
      && (p.ok ==> forall c :: c in log ==> c in p.calls)
  {
    ImportKeepsUp(calls, log, answers);
    var p := Imported(calls, log, answers);
    if p.ok && due.Some? {
      RecountIsExact(p.calls, log, due.value, p.answers);
    }
  }

  lemma {:induction false} RunKeepsUp(events: seq<Event>)
    requires InTime(events)
    ensures var w := Run(World([], []), events); Ordered(w.log) && CaughtUp(w.calls, w.log)
  {
    if events != [] {
      var n := |events| - 1;
      assert forall i :: 0 <= i < n ==> events[..n][..i] == events[..i];
      RunKeepsUp(events[..n]);
      var w := Run(World([], []), events[..n]);
      match events[n]
      case Arrive(log) =>
      case Pass(due, answers) => PassKeepsUp(w.calls, w.log, due, answers);
    }
  }

  /** Over any run, however many passes failed and wherever they failed, a pass that gets through leaves the store
  equal to the visible log, each row once. */
  lemma EveryGoodPassIsWhole(events: seq<Event>, due: Option<int>, answers: nat)
    requires InTime(events)
    ensures var w := Run(World([], []), events);
      Passed(w.calls, w.log, due, answers).ok ==> Whole(Do(w, Pass(due, answers)))
  {
    var w := Run(World([], []), events);
    RunKeepsUp(events);
    PassKeepsUp(w.calls, w.log, due, answers);
  }

  lemma {:induction false} NothingNew(calls: seq<Call>, rows: seq<Call>)
    requires forall c :: c in rows ==> c in calls
    ensures Stored(calls, rows) == calls
  {
    if rows != [] {
      var n := |rows| - 1;
      assert rows == rows[..n] + [rows[n]];
      NothingNew(calls, rows[..n]);
    }
  }

  /** A second pass straight after adds nothing at all, whether or not it gets through. */
  lemma SecondPassAddsNothing(w: World, due: Option<int>, answers: nat)
    requires Ordered(w.log) && Whole(w)
    ensures Do(w, Pass(due, answers)) == w
  {
    var m := Matching(w.log, PassStart(w.calls), 0, None);
    MatchingIs(w.log, PassStart(w.calls), 0, None);
    ReachedIsPrefix(m, answers);
    NothingNew(w.calls, Reached(m, answers));
    var p := Imported(w.calls, w.log, answers);
    if p.ok && due.Some? {
      var days := Days(w.log, due.value - RECONCILE_DAYS);
      forall d | d in days ensures CountOn(w.calls, d) == CountOn(w.log, d) {
        EqualCountsMeanEqualRows(w.calls, w.log, d);
      }
      NoneDiffer(w.calls, w.log, days);
    }
  }

  // --- a row that comes too late ---

  lemma {:induction false} NewestGrows(calls: seq<Call>, rows: seq<Call>)
    ensures calls != [] ==>
      var after := Stored(calls, rows);
      after != [] && Newest(after).Some? && Newest(after).value >= Newest(calls).value
  {
    NewestIs(calls);
    if rows != [] {
      var n := |rows| - 1;
      NewestGrows(calls, rows[..n]);
      var s := Stored(calls, rows[..n]);
      assert (s + [rows[n]])[..|s|] == s;
    }
  }

  /** The row is there, the store lacks it, and it starts more than three hours before the newest stored call. */
  ghost predicate TooLate(w: World, c: Call) {
    && Ordered(w.log) && CopyOf(w.calls, w.log)
    && c in w.log && c !in w.calls && w.calls != [] && c.start < PassStart(w.calls)
  }

  /** Rows are only ever added. */
  ghost predicate AddsOnly(w: World, e: Event) {
    e.Arrive? ==> Ordered(e.log) && forall c :: c in w.log ==> c in e.log
  }

  ghost predicate AllAddOnly(w: World, events: seq<Event>) {
    forall i :: 0 <= i < |events| ==> AddsOnly(Run(w, events[..i]), events[i])
  }

  /** No pass recounts. */
  predicate NoneRecounts(events: seq<Event>) {
    forall i :: 0 <= i < |events| && events[i].Pass? ==> events[i].due.None?
  }

  lemma AddOnlyBefore(w: World, events: seq<Event>)
    requires events != [] && AllAddOnly(w, events)
    ensures AllAddOnly(w, events[..|events| - 1])
    ensures AddsOnly(Run(w, events[..|events| - 1]), events[|events| - 1])
  {
    var n := |events| - 1;
    forall i | 0 <= i < n ensures AddsOnly(Run(w, events[..n][..i]), events[..n][i]) {
      assert events[..n][..i] == events[..i];
    }
  }

  lemma EventLeavesTooLate(w: World, e: Event, c: Call)
    requires TooLate(w, c) && AddsOnly(w, e) && (e.Pass? ==> e.due.None?)
    ensures TooLate(Do(w, e), c)
  {
    if e.Pass? {
      PassLeavesTooLate(w, e.answers, c);
    }
  }

  lemma PassLeavesTooLate(w: World, answers: nat, c: Call)
    requires TooLate(w, c)
    ensures TooLate(Do(w, Pass(None, answers)), c)
  {
    var m := Matching(w.log, PassStart(w.calls), 0, None);
    MatchingIs(w.log, PassStart(w.calls), 0, None);
    ReachedIsPrefix(m, answers);
    StoredIs(w.calls, Reached(m, answers), w.log);
    NewestGrows(w.calls, Reached(m, answers));
  }

  /** A row that arrives too late stays out of the store through every later pass without a recount, whatever else
  arrives and wherever the passes stop. */
  lemma {:induction false} TooLateStaysMissed(w: World, events: seq<Event>, c: Call)
    requires TooLate(w, c)
    requires AllAddOnly(w, events) && NoneRecounts(events)
    ensures TooLate(Run(w, events), c)
  {
    if events != [] {
      var n := |events| - 1;
      AddOnlyBefore(w, events);
      TooLateStaysMissed(w, events[..n], c);
      EventLeavesTooLate(Run(w, events[..n]), events[n], c);
    }
  }

  /** Over any run in which rows are only added, however late, the store is a copy of part of the log. */
  lemma {:induction false} RunIsCopy(w: World, events: seq<Event>)
    requires Ordered(w.log) && CopyOf(w.calls, w.log) && AllAddOnly(w, events)
    ensures var v := Run(w, events);
      Ordered(v.log) && CopyOf(v.calls, v.log) && forall c :: c in w.calls ==> c in v.calls
  {
    if events != [] {
      var n := |events| - 1;
      AddOnlyBefore(w, events);
      RunIsCopy(w, events[..n]);
      var u := Run(w, events[..n]);
      if events[n].Pass? {
        PassStoresInReach(u.calls, u.log, events[n].due, events[n].answers);
      }
    }
  }

  lemma PassRecounts(calls: seq<Call>, log: seq<Call>, day: int, answers: nat, c: Call)
    requires Ordered(log) && CopyOf(calls, log) && Passed(calls, log, Some(day), answers).ok
    requires c in log && DayOf(c) >= day - 3
    ensures c in Passed(calls, log, Some(day), answers).calls
    ensures CopyOf(Passed(calls, log, Some(day), answers).calls, log)
  {
    PassStoresInReach(calls, log, Some(day), answers);
    DayIsFrom(c, day - 3);
  }

  /** The daily recount brings in what came too late: once a pass that recounts gets through, every row of its three
  full days and of today is stored, and stays stored. */
  lemma RecountBringsIn(events: seq<Event>, day: int, answers: nat, more: seq<Event>, c: Call)
    requires AllAddOnly(World([], []), events)
    requires var w := Run(World([], []), events);
      && Passed(w.calls, w.log, Some(day), answers).ok
      && AllAddOnly(Do(w, Pass(Some(day), answers)), more)
      && c in w.log && DayOf(c) >= day - 3
    ensures c in Run(Do(Run(World([], []), events), Pass(Some(day), answers)), more).calls
  {
    RunIsCopy(World([], []), events);
    var w := Run(World([], []), events);
    PassRecounts(w.calls, w.log, day, answers, c);
    RunIsCopy(Do(w, Pass(Some(day), answers)), more);
  }

  /** Two calls are enough: the later one is stored first, and the earlier one, more than three hours behind it, is not
  picked up by a pass that gets through. */
  lemma ALateRow(x: Call, y: Call)
    requires x.id != y.id && y.start >= 0 && x.start < y.start - OVERLAP
    ensures var before := [Arrive([y]), Pass(None, 1), Arrive([x, y])];
      var w := Run(World([], []), before);
      && TooLate(w, x) && w == World([x, y], [y])
      && Passed(w.calls, w.log, None, 1).ok
      && Run(World([], []), before + [Pass(None, 1)]) == w
  {
    var before := [Arrive([y]), Pass(None, 1), Arrive([x, y])];
    FirstPassStores(y);
    ThreeEvents(World([], []), Arrive([y]), Pass(None, 1), Arrive([x, y]));
    TwoCalls(x, y);
    NothingMore(x, y);
    assert (before + [Pass(None, 1)])[..3] == before;
  }

  lemma ThreeEvents(w: World, a: Event, b: Event, c: Event)
    ensures Run(w, [a, b, c]) == Do(Do(Do(w, a), b), c)
  {
    assert [a, b, c][..2] == [a, b] && [a, b][..1] == [a] && [a][..0] == [];
    assert Run(w, [a]) == Do(w, a);
    assert Run(w, [a, b]) == Do(Do(w, a), b);
  }

  lemma NewestOfOne(y: Call)
    ensures Newest([y]) == Some(y.start) && PassStart([y]) == y.start - OVERLAP
  {
    assert [y][..0] == [];
  }

  lemma TwoCalls(x: Call, y: Call)
    requires x.id != y.id && y.start >= 0 && x.start < y.start - OVERLAP
    ensures TooLate(World([x, y], [y]), x)
  {
    NewestOfOne(y);
    assert [x, y][0] == x && [x, y][1] == y;
  }

  lemma FirstPassStores(y: Call)
    requires y.start >= 0
    ensures Do(World([y], []), Pass(None, 1)) == World([y], [y])
  {
    assert [y][..0] == [];
    assert Matching([y], 0, 0, None) == [y];
    assert Reached([y], 1) == [y] && Stored([], [y]) == [y];
    assert PassStart([]) == 0;
  }

  lemma NothingMore(x: Call, y: Call)
    requires y.start >= 0 && x.start < y.start - OVERLAP
    ensures Passed([y], [x, y], None, 1).ok && Passed([y], [x, y], None, 1).calls == [y]
  {
    var start := y.start - OVERLAP;
    NewestOfOne(y);
    assert [x, y][..1] == [x] && [x][..0] == [];
    assert Matching([x], start, 0, None) == [];
    assert Matching([x, y], start, 0, None) == [y];
    assert [y][0] in [y] && Reached([y], 1) == [y];
    NothingNew([y], [y]);
  }
}
