/** The copy of Forge's record (backend/projector/forge_mirror.py): small tables are replaced when their content
changed, and rows that are only ever added are read from the last id already copied. A content hash is modelled
by the content it stands for. */
module ForgeMirror {
  import opened Basics

  type Row = string

  type Id = n: nat | n > 0 witness 1

  datatype Replaced = Builds | PublicationRecords | PlanningRuns | Queue | Missions | MissionFeatures | MissionNeeds

  datatype Appended = StageLog | PlanningEvents

  const REPLACED: seq<Replaced> :=
    [Builds, PublicationRecords, PlanningRuns, Queue, Missions, MissionFeatures, MissionNeeds]

  const APPENDED: seq<Appended> := [StageLog, PlanningEvents]

  type Rows = map<Id, Row>

  /** Forge's own record; a table an older ledger lacks is missing here too. */
  datatype Forge = Forge(replaced: map<Replaced, seq<Row>>, appended: map<Appended, Rows>)

  function ReplacedRows(forge: Forge, t: Replaced): seq<Row> {
    if t in forge.replaced then forge.replaced[t] else []
  }

  function AppendedRows(forge: Forge, t: Appended): Rows {
    if t in forge.appended then forge.appended[t] else map[]
  }

  // --- the newest id ---

  ghost predicate IsMaxId(rows: Rows, m: nat) {
    && (forall id :: id in rows ==> id <= m)
    && (m == 0 || m in rows)
  }

  lemma {:induction false} HasMaxId(ids: set<Id>, rows: Rows) returns (m: nat)
    requires ids <= rows.Keys
    ensures (forall id :: id in ids ==> id <= m) && (m == 0 || m in ids)
  {
    m := 0;
    if ids != {} {
      var id :| id in ids;
      var rest := HasMaxId(ids - {id}, rows);
      m := if rest >= id then rest else id;
      assert forall x :: x in ids ==> x == id || x in ids - {id};
    }
  }

  /** The highest id, or 0. */
  ghost function MaxId(rows: Rows): (m: nat)
    ensures IsMaxId(rows, m)
  {
    MaxIdExists(rows);
    var m: nat :| IsMaxId(rows, m);
    m
  }

  lemma MaxIdExists(rows: Rows)
    ensures exists m: nat :: IsMaxId(rows, m)
  {
    var m := HasMaxId(rows.Keys, rows);
    assert IsMaxId(rows, m);
  }

  method FindMaxId(rows: Rows) returns (m: nat)
    ensures m == MaxId(rows)
  {
    m := 0;
    var rest := rows.Keys;
    while rest != {}
      invariant rest <= rows.Keys
      invariant forall id :: id in rows && id !in rest ==> id <= m
      invariant m == 0 || m in rows
      decreases |rest|
    {
      var id :| id in rest;
      m := Max(m, id);
      rest := rest - {id};
    }
    assert IsMaxId(rows, m);
  }

  function RowsAfter(rows: Rows, after: nat): Rows {
    map id | id in rows && id > after :: rows[id]
  }

  // --- one table's copy ---

  /** What the pass leaves in an appended table's copy. */
  ghost function Copied(local: Rows, forge: Rows): Rows {
    if MaxId(forge) < MaxId(local) then forge else local + RowsAfter(forge, MaxId(local))
  }

  /** Forge's table holds what was copied, and nothing else up to the newest id copied. */
  ghost predicate OnlyAppendedTo(local: Rows, forge: Rows) {
    && (forall id :: id in local ==> id in forge && forge[id] == local[id])
    && (forall id :: id in forge && id <= MaxId(local) ==> id in local)
  }

  /** The incremental copy is a full copy exactly when Forge's table was only appended to, or was replaced by one
  with a lower newest id. */
  lemma CopyIsFullExactlyWhen(local: Rows, forge: Rows)
    ensures Copied(local, forge) == forge <==> OnlyAppendedTo(local, forge) || MaxId(forge) < MaxId(local)
  {
    var copy := Copied(local, forge);
    if OnlyAppendedTo(local, forge) && MaxId(forge) >= MaxId(local) {
      assert forall id :: id in copy <==> id in forge;
    }
    if copy == forge && MaxId(forge) >= MaxId(local) {
      assert forall id :: id in local ==> id in copy;
      assert forall id :: id in forge ==> id in copy;
    }
  }

  // --- one pass ---

  datatype Snapshot = Snapshot(replaced: map<Replaced, seq<Row>>, appended: map<Appended, Rows>,
                               maxIds: map<Appended, nat>)

  /** Where a pass stops, if it does: Forge cannot be read, the write is rolled back, or the feed stops between the
  write and the stamp. */
  datatype Fault = NoFault | Unreadable | WriteFails | StopsBeforeStamp

  /** The whole of every replaced table. */
  function FullReplaced(forge: Forge): map<Replaced, seq<Row>> {
    map t | t in REPLACED :: ReplacedRows(forge, t)
  }

  function FullAppended(forge: Forge): map<Appended, Rows> {
    map t | t in APPENDED :: AppendedRows(forge, t)
  }

  /** The dashboard's store of the record. */
  datatype Copy = Copy(replaced: map<Replaced, seq<Row>>, appended: map<Appended, Rows>,
                       contentHash: Option<map<Replaced, seq<Row>>>, readCount: nat)

  const EMPTY: Copy := Copy(FullReplaced(Forge(map[], map[])), FullAppended(Forge(map[], map[])), None, 0)

  ghost predicate Complete(copy: Copy) {
    (forall t :: t in APPENDED ==> t in copy.appended) && (forall t :: t in REPLACED ==> t in copy.replaced)
  }

  ghost function Written(copy: Copy, forge: Forge): Copy
    requires Complete(copy)
  {
    var replaced := FullReplaced(forge);
    Copy(if copy.contentHash == Some(replaced) then copy.replaced else replaced,
         map t | t in APPENDED :: Copied(copy.appended[t], AppendedRows(forge, t)),
         Some(replaced),
         copy.readCount)
  }

  ghost function Mirrored(copy: Copy, forge: Forge, fault: Fault): Copy
    requires Complete(copy)
  {
    match fault
    case Unreadable | WriteFails => copy
    case StopsBeforeStamp => Written(copy, forge)
    case NoFault => Written(copy, forge).(readCount := copy.readCount + 1)
  }

  ghost predicate Reads(rows: map<Appended, Rows>, maxIds: map<Appended, nat>, forge: Forge, t: Appended, after: nat) {
    && t in rows && t in maxIds
    && maxIds[t] == MaxId(AppendedRows(forge, t))
    && rows[t] == RowsAfter(AppendedRows(forge, t), if after <= maxIds[t] then after else 0)
  }

  method ReadReplaced(forge: Forge) returns (replaced: map<Replaced, seq<Row>>)
    ensures replaced == FullReplaced(forge)
  {
    replaced := map[];
    for i := 0 to |REPLACED|
      invariant replaced.Keys == set t | t in REPLACED[..i]
      invariant forall t :: t in replaced ==> replaced[t] == ReplacedRows(forge, t)
    {
      assert REPLACED[..i + 1] == REPLACED[..i] + [REPLACED[i]];
      replaced := replaced[REPLACED[i] := ReplacedRows(forge, REPLACED[i])];
    }
    assert REPLACED[..|REPLACED|] == REPLACED;
  }

  /** `_read_forge`: the whole of each replaced table, and of each appended one the rows after the last id copied
  (all of them, if Forge's newest id is lower). */
  method ReadForge(forge: Forge, afterIds: map<Appended, nat>) returns (snap: Snapshot)
    requires forall t :: t in APPENDED ==> t in afterIds
    ensures snap.replaced == FullReplaced(forge)
    ensures forall t :: t in APPENDED ==> Reads(snap.appended, snap.maxIds, forge, t, afterIds[t])
  {
    var replaced := ReadReplaced(forge);
    var appended: map<Appended, Rows>, maxIds: map<Appended, nat> := map[], map[];
    for i := 0 to |APPENDED|
      invariant forall t :: t in APPENDED[..i] ==> Reads(appended, maxIds, forge, t, afterIds[t])
    {
      assert APPENDED[..i + 1] == APPENDED[..i] + [APPENDED[i]];
      var t := APPENDED[i];
      var rows := AppendedRows(forge, t);
      var maxId := FindMaxId(rows);
      maxIds := maxIds[t := maxId];
      appended := appended[t := RowsAfter(rows, if afterIds[t] <= maxId then afterIds[t] else 0)];
    }
    assert APPENDED[..|APPENDED|] == APPENDED;
    return Snapshot(replaced, appended, maxIds);
  }

  /** What the write leaves of one appended table. */
  function Kept(local: Rows, localMax: nat, forgeMax: nat, rows: Rows): Rows {
    (if forgeMax < localMax then map[] else local) + rows
  }

  /** A table is started again, or rows were read for it. */
  predicate Touched(snap: Snapshot, localMax: map<Appended, nat>, t: Appended) {
    && t in snap.maxIds && t in localMax && t in snap.appended
    && (snap.maxIds[t] < localMax[t] || snap.appended[t] != map[])
  }

  ghost predicate IsKept(appended: map<Appended, Rows>, before: map<Appended, Rows>, snap: Snapshot,
                         localMax: map<Appended, nat>, t: Appended)
  {
    && t in appended && t in before && t in localMax && t in snap.maxIds && t in snap.appended
    && appended[t] == Kept(before[t], localMax[t], snap.maxIds[t], snap.appended[t])
  }

  /** Forge has rows that the copy has not, or has fewer than it had. */
  ghost predicate Moved(local: Rows, forge: Rows) {
    MaxId(forge) < MaxId(local) || exists id :: id in forge && id > MaxId(local)
  }

  class Mirror {
    var replaced: map<Replaced, seq<Row>>
    var appended: map<Appended, Rows>
    var contentHash: Option<map<Replaced, seq<Row>>>
    var readCount: nat
    var lastFailed: bool

    function Value(): Copy
      reads this
    {
      Copy(replaced, appended, contentHash, readCount)
    }

    constructor ()
      ensures Value() == EMPTY && Complete(Value())
    {
      replaced, appended := EMPTY.replaced, EMPTY.appended;
      contentHash, readCount, lastFailed := None, 0, false;
    }

    method LocalMaxIds() returns (maxIds: map<Appended, nat>)
      requires Complete(Value())
      ensures forall t :: t in APPENDED ==> t in maxIds && maxIds[t] == MaxId(appended[t])
    {
      maxIds := map[];
      for i := 0 to |APPENDED|
        invariant forall t :: t in APPENDED[..i] ==> t in maxIds && maxIds[t] == MaxId(appended[t])
      {
        assert APPENDED[..i + 1] == APPENDED[..i] + [APPENDED[i]];
        var maxId := FindMaxId(appended[APPENDED[i]]);
        maxIds := maxIds[APPENDED[i] := maxId];
      }
      assert APPENDED[..|APPENDED|] == APPENDED;
    }

    /** The appended tables' half of `_write`. */
    method WriteAppended(snap: Snapshot, localMax: map<Appended, nat>) returns (changed: bool)
      requires forall t :: t in APPENDED ==> t in appended && t in snap.appended && t in snap.maxIds && t in localMax
      modifies this`appended
      ensures appended.Keys == old(appended).Keys
      ensures forall t :: t in APPENDED ==>
        appended[t] == Kept(old(appended)[t], localMax[t], snap.maxIds[t], snap.appended[t])
      ensures !changed ==> forall t :: t in APPENDED ==> appended[t] == old(appended)[t]
      ensures changed <==> exists t :: t in APPENDED && Touched(snap, localMax, t)
    {
      changed := false;
      ghost var before := appended;
      var tables := APPENDED;
      for i := 0 to |tables|
        invariant appended.Keys == before.Keys
        invariant forall j :: i <= j < |tables| ==> appended[tables[j]] == before[tables[j]]
        invariant forall j :: 0 <= j < i ==> IsKept(appended, before, snap, localMax, tables[j])
        invariant !changed ==> appended == before
        invariant changed <==> exists j :: 0 <= j < i && Touched(snap, localMax, tables[j])
      {
        var t := tables[i];
        TablesDiffer(i);
        assert before[t] + map[] == before[t];
        changed := changed || snap.maxIds[t] < localMax[t] || snap.appended[t] != map[];
        appended := appended[t := (if snap.maxIds[t] < localMax[t] then map[] else appended[t]) + snap.appended[t]];
        assert IsKept(appended, before, snap, localMax, t);
      }
      forall t | t in APPENDED ensures IsKept(appended, before, snap, localMax, t) {
        var j :| 0 <= j < |tables| && tables[j] == t;
      }
    }

    /** `_write`, when its transaction commits. */
    method Write(snap: Snapshot, localMax: map<Appended, nat>) returns (changed: bool)
      requires Complete(Value())
      requires forall t :: t in APPENDED ==> t in snap.appended && t in snap.maxIds && t in localMax
      modifies this`replaced, this`appended, this`contentHash
      ensures contentHash == Some(snap.replaced)
      ensures replaced == if old(contentHash) == Some(snap.replaced) then old(replaced) else snap.replaced
      ensures appended.Keys == old(appended).Keys
      ensures forall t :: t in APPENDED ==>
        appended[t] == Kept(old(appended)[t], localMax[t], snap.maxIds[t], snap.appended[t])
      ensures !changed ==> replaced == old(replaced)
      ensures !changed ==> forall t :: t in APPENDED ==> appended[t] == old(appended)[t]
      ensures changed <==>
        old(contentHash) != Some(snap.replaced) || exists t :: t in APPENDED && Touched(snap, localMax, t)
    {
      var replacedChanged := contentHash != Some(snap.replaced);
      if replacedChanged {
        replaced := snap.replaced;
      }
      var appendedChanged := WriteAppended(snap, localMax);
      contentHash := Some(snap.replaced);
      return replacedChanged || appendedChanged;
    }

    /** `mirror_once`, and where it stops. */
    method MirrorOnce(forge: Forge, fault: Fault) returns (changed: bool)
      requires Complete(Value())
      modifies this
      ensures Value() == Mirrored(old(Value()), forge, fault)
      ensures !changed && fault == NoFault ==> replaced == old(replaced)
      ensures !changed && fault == NoFault ==> forall t :: t in APPENDED ==> appended[t] == old(appended)[t]
      ensures fault == NoFault ==>
        (changed <==> old(contentHash) != Some(FullReplaced(forge))
                      || exists t :: t in APPENDED && Moved(old(appended)[t], AppendedRows(forge, t)))
      ensures fault == Unreadable || fault == WriteFails ==> !changed
      ensures fault == NoFault ==> !lastFailed
      ensures fault == Unreadable ==> lastFailed
      ensures fault == WriteFails || fault == StopsBeforeStamp ==> lastFailed == old(lastFailed)
    {
      if fault == Unreadable {
        lastFailed := true;
        return false;
      }
      var afterIds := LocalMaxIds();
      var snap := ReadForge(forge, afterIds);
      if fault == WriteFails {
        return false;
      }
      var localMax := LocalMaxIds();
      ghost var before := Value();
      changed := Write(snap, localMax);
      forall t | t in APPENDED
        ensures Touched(snap, localMax, t) <==> Moved(before.appended[t], AppendedRows(forge, t))
      {
        TouchedIsMoved(snap, localMax, t, before.appended[t], AppendedRows(forge, t));
      }
      forall t | t in APPENDED ensures appended[t] == Copied(before.appended[t], AppendedRows(forge, t)) {
        KeptIsCopied(before.appended[t], AppendedRows(forge, t));
      }
      WriteIsWritten(before, Value(), forge);
      if fault == NoFault {
        readCount := readCount + 1;
        lastFailed := false;
      }
    }
  }

  lemma WriteIsWritten(before: Copy, after: Copy, forge: Forge)
    requires Complete(before) && after.appended.Keys == before.appended.Keys
    requires forall t :: t in APPENDED ==> after.appended[t] == Copied(before.appended[t], AppendedRows(forge, t))
    requires after.contentHash == Some(FullReplaced(forge)) && after.readCount == before.readCount
    requires after.replaced
          == if before.contentHash == after.contentHash then before.replaced else FullReplaced(forge)
    ensures after == Written(before, forge)
  {
    forall t: Appended ensures t in APPENDED {
      match t
      case StageLog => assert APPENDED[0] == t;
      case PlanningEvents => assert APPENDED[1] == t;
    }
    assert after.appended == map t | t in APPENDED :: Copied(before.appended[t], AppendedRows(forge, t));
  }

  lemma TouchedIsMoved(snap: Snapshot, localMax: map<Appended, nat>, t: Appended, local: Rows, forge: Rows)
    requires t in snap.maxIds && t in localMax && t in snap.appended
    requires localMax[t] == MaxId(local) && snap.maxIds[t] == MaxId(forge)
    requires snap.appended[t] == RowsAfter(forge, if localMax[t] <= snap.maxIds[t] then localMax[t] else 0)
    ensures Touched(snap, localMax, t) <==> Moved(local, forge)
  {
    if id :| id in forge && id > MaxId(local) && MaxId(forge) >= MaxId(local) {
      assert id in snap.appended[t];
    }
    if snap.appended[t] != map[] {
      var id :| id in snap.appended[t];
      assert id in forge;
    }
  }

  lemma TablesDiffer(i: nat)
    requires i < |APPENDED|
    ensures forall j :: 0 <= j < |APPENDED| && j != i ==> APPENDED[j] != APPENDED[i]
  {
  }

  lemma KeptIsCopied(local: Rows, forge: Rows)
    ensures var lm, fm := MaxId(local), MaxId(forge);
      Kept(local, lm, fm, RowsAfter(forge, if lm <= fm then lm else 0)) == Copied(local, forge)
  {
    assert RowsAfter(forge, 0) == forge;
  }

  // --- whole runs ---

  datatype Event = ForgeMoves(forge: Forge) | Pass(fault: Fault)

  /** The copy, Forge as it is now, and Forge as it was at the last write of the copy. */
  datatype World = World(copy: Copy, forge: Forge, written: Forge)

  const START: World := World(EMPTY, Forge(map[], map[]), Forge(map[], map[]))

  predicate Writes(fault: Fault) {
    fault.NoFault? || fault.StopsBeforeStamp?
  }

  ghost function Do(w: World, e: Event): World
    requires Complete(w.copy)
  {
    match e
    case ForgeMoves(forge) => w.(forge := forge)
    case Pass(fault) =>
      World(Mirrored(w.copy, w.forge, fault), w.forge, if Writes(fault) then w.forge else w.written)
  }

  ghost function Run(events: seq<Event>): (w: World)
    ensures Complete(w.copy)
  {
    if events == [] then START else Do(Run(events[..|events| - 1]), events[|events| - 1])
  }

  /** Since the last write, each appended table was only appended to or was replaced by one with a lower newest id. */
  ghost predicate Orderly(w: World) {
    forall t :: t in APPENDED ==>
      OnlyAppendedTo(AppendedRows(w.written, t), AppendedRows(w.forge, t))
      || MaxId(AppendedRows(w.forge, t)) < MaxId(AppendedRows(w.written, t))
  }

  /** At every write. */
  ghost predicate OrderlyRun(events: seq<Event>) {
    forall i :: 0 <= i < |events| && events[i].Pass? && Writes(events[i].fault) ==> Orderly(Run(events[..i]))
  }

  ghost predicate FullCopy(copy: Copy, forge: Forge) {
    copy.replaced == FullReplaced(forge) && copy.appended == FullAppended(forge)
  }

  /** A content hash always stands for what the replaced tables hold. */
  lemma {:induction false} HashStandsForTables(events: seq<Event>)
    ensures var copy := Run(events).copy; copy.contentHash.Some? ==> copy.contentHash.value == copy.replaced
  {
    if events != [] {
      HashStandsForTables(events[..|events| - 1]);
    }
  }

  /** After any orderly run the copy is Forge's record as it was at the last write, in full. */
  lemma {:induction false} CopyIsLastWritten(events: seq<Event>)
    requires OrderlyRun(events)
    ensures FullCopy(Run(events).copy, Run(events).written)
  {
    if events != [] {
      var n := |events| - 1;
      assert forall i :: 0 <= i < n ==> events[..n][..i] == events[..i];
      CopyIsLastWritten(events[..n]);
      HashStandsForTables(events[..n]);
      var w := Run(events[..n]);
      if events[n].Pass? && Writes(events[n].fault) {
        assert Orderly(w);
        WriteIsFull(w.copy, w.written, w.forge);
      }
    }
  }

  lemma WriteIsFull(copy: Copy, written: Forge, forge: Forge)
    requires Complete(copy) && FullCopy(copy, written) && Orderly(World(copy, forge, written))
    requires copy.contentHash.Some? ==> copy.contentHash.value == copy.replaced
    ensures FullCopy(Written(copy, forge), forge)
  {
    forall t | t in APPENDED ensures Copied(copy.appended[t], AppendedRows(forge, t)) == AppendedRows(forge, t) {
      CopyIsFullExactlyWhen(copy.appended[t], AppendedRows(forge, t));
    }
  }

  /** So every successful pass leaves the copy equal to Forge's snapshot. */
  lemma GoodPassIsFullCopy(events: seq<Event>)
    requires OrderlyRun(events + [Pass(NoFault)])
    ensures FullCopy(Run(events + [Pass(NoFault)]).copy, Run(events).forge)
  {
    CopyIsLastWritten(events + [Pass(NoFault)]);
    assert (events + [Pass(NoFault)])[..|events|] == events;
  }

  function GoodPasses(events: seq<Event>): nat {
    if events == [] then 0
    else GoodPasses(events[..|events| - 1]) + if events[|events| - 1] == Pass(NoFault) then 1 else 0
  }

  /** The read count is the number of successful passes, over any run at all. */
  lemma {:induction false} ReadCountCountsGoodPasses(events: seq<Event>)
    ensures Run(events).copy.readCount == GoodPasses(events)
  {
    if events != [] {
      ReadCountCountsGoodPasses(events[..|events| - 1]);
    }
  }

  // --- what the read count says about the copy ---

  function WritingPasses(events: seq<Event>): nat {
    if events == [] then 0
    else
      var e := events[|events| - 1];
      WritingPasses(events[..|events| - 1]) + if e.Pass? && Writes(e.fault) then 1 else 0
  }

  /** The passes that wrote outnumber those counted by the ones that stopped in between, so every write is counted if
  and only if no pass stopped there. */
  lemma {:induction false} EveryWriteIsCountedIff(events: seq<Event>)
    ensures Run(events).copy.readCount <= WritingPasses(events)
    ensures Run(events).copy.readCount == WritingPasses(events) <==> Pass(StopsBeforeStamp) !in events
  {
    if events != [] {
      var n := |events| - 1;
      EveryWriteIsCountedIff(events[..n]);
      assert events == events[..n] + [events[n]];
    }
  }

  ghost predicate SameContent(a: Copy, b: Copy) {
    a.replaced == b.replaced && a.appended == b.appended
  }

  /** Whenever the read count is what it was, the copied rows are what they were. */
  ghost predicate CountStandsForCopy(events: seq<Event>) {
    forall i, j | 0 <= i <= j <= |events| ::
      Run(events[..i]).copy.readCount == Run(events[..j]).copy.readCount ==>
        SameContent(Run(events[..i]).copy, Run(events[..j]).copy)
  }

  /** A pass that stopped between the write and the stamp had nothing to write. */
  ghost predicate NothingLost(events: seq<Event>) {
    forall i | 0 <= i < |events| && events[i] == Pass(StopsBeforeStamp) ::
      SameContent(Written(Run(events[..i]).copy, Run(events[..i]).forge), Run(events[..i]).copy)
  }

  lemma NextIs(events: seq<Event>, i: nat)
    requires i < |events|
    ensures Run(events[..i + 1]) == Do(Run(events[..i]), events[i])
  {
    assert events[..i + 1][..i] == events[..i];
  }

  /** While nothing is lost, a stretch of a run over which the read count stands still leaves the copied rows alone. */
  lemma {:induction false} StandsStill(events: seq<Event>, i: nat, j: nat)
    requires NothingLost(events) && i <= j <= |events|
    ensures Run(events[..i]).copy.readCount <= Run(events[..j]).copy.readCount
    ensures Run(events[..i]).copy.readCount == Run(events[..j]).copy.readCount ==>
      SameContent(Run(events[..i]).copy, Run(events[..j]).copy)
  {
    if i < j {
      StandsStill(events, i, j - 1);
      OneStandsStill(events, j - 1);
    }
  }

  lemma OneStandsStill(events: seq<Event>, i: nat)
    requires NothingLost(events) && i < |events|
    ensures Run(events[..i]).copy.readCount <= Run(events[..i + 1]).copy.readCount
    ensures Run(events[..i]).copy.readCount == Run(events[..i + 1]).copy.readCount ==>
      SameContent(Run(events[..i]).copy, Run(events[..i + 1]).copy)
  {
    NextIs(events, i);
  }

  /** The read count tells whether the copy moved if and only if no pass lost its stamp after writing something. */
  lemma CountStandsForCopyIff(events: seq<Event>)
    ensures CountStandsForCopy(events) <==> NothingLost(events)
  {
    if NothingLost(events) {
      forall i, j | 0 <= i <= j <= |events| && Run(events[..i]).copy.readCount == Run(events[..j]).copy.readCount
        ensures SameContent(Run(events[..i]).copy, Run(events[..j]).copy)
      {
        StandsStill(events, i, j);
      }
    } else {
      var i :| 0 <= i < |events| && events[i] == Pass(StopsBeforeStamp)
        && !SameContent(Written(Run(events[..i]).copy, Run(events[..i]).forge), Run(events[..i]).copy);
      NextIs(events, i);
      assert !SameContent(Run(events[..i]).copy, Run(events[..i + 1]).copy);
    }
  }

  /** One row is enough: after a first pass that stops before its stamp, the copy holds it and the count is still 0. */
  lemma ALostStamp(row: Row)
    ensures var forge := Forge(map[], map[StageLog := map[1 := row]]);
      var events := [ForgeMoves(forge), Pass(StopsBeforeStamp)];
      && StageLog in Run(events).copy.appended && Run(events).copy.appended[StageLog] == map[1 := row]
      && Run(events).copy.readCount == 0 && !CountStandsForCopy(events)
  {
    var forge := Forge(map[], map[StageLog := map[1 := row]]);
    var events := [ForgeMoves(forge), Pass(StopsBeforeStamp)];
    TwoEvents(forge, events);
    FirstCopy(forge, row);
    assert events[..0] == [] && events[..2] == events;
    assert !SameContent(Run(events[..0]).copy, Run(events[..2]).copy);
  }

  lemma TwoEvents(forge: Forge, events: seq<Event>)
    requires events == [ForgeMoves(forge), Pass(StopsBeforeStamp)]
    ensures Run(events).copy == Written(EMPTY, forge) && Run([]).copy == EMPTY
  {
    assert events[..0] == [] && events[..2] == events;
    NextIs(events, 0);
    NextIs(events, 1);
  }

  lemma FirstCopy(forge: Forge, row: Row)
    requires forge == Forge(map[], map[StageLog := map[1 := row]])
    ensures StageLog in Written(EMPTY, forge).appended && Written(EMPTY, forge).appended[StageLog] == map[1 := row]
    ensures Written(EMPTY, forge).appended != EMPTY.appended
  {
    var local: Rows := map[];
    assert APPENDED[0] == StageLog;
    assert EMPTY.appended[StageLog] == local;
    CopyIsFullExactlyWhen(local, map[1 := row]);
    assert 1 in Written(EMPTY, forge).appended[StageLog];
  }
}
