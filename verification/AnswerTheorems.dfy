/** What the answer protocol promises, said about every run: any interleaving of any number of submitters and
settlements with the feed. */
module AnswerTheorems {
  import opened Basics
  import opened AnswerStore
  import opened AnswerProtocol
  import opened AnswerInvariant
  import opened AnswerSteps
  import opened AnswerRuns

  function LogOf(cards: Cards, steps: seq<Step>): Log {
    Run(Init(cards), steps).log
  }

  // --- at most one answer ---

  /** A generation is claimed once. */
  lemma ClaimedOnce(cards: Cards, steps: seq<Step>, i: nat, j: nat)
    requires var log := LogOf(cards, steps);
      i < j < |log| && log[i].Granted? && log[j].Granted?
    ensures var log := LogOf(cards, steps); log[i].generation != log[j].generation
  {
    var log := LogOf(cards, steps);
    RunKeeps(cards, steps);
    GrantsDiffer(log, i, j);
  }

  /** Every send belongs to a claim granted before it, for the same card, and no generation is sent twice. */
  lemma PublishedOnceAfterItsClaim(cards: Cards, steps: seq<Step>, i: nat)
    requires i < |LogOf(cards, steps)| && LogOf(cards, steps)[i].Published?
    ensures var log := LogOf(cards, steps);
      && (exists j :: 0 <= j < i && log[j].Granted? && log[j].generation == log[i].generation
            && log[j].key == log[i].key)
      && (forall j :: 0 <= j < |log| && j != i && log[j].Published? ==> log[j].generation != log[i].generation)
  {
    RunKeeps(cards, steps);
    var log := LogOf(cards, steps);
    var j := GrantBefore(log, i);
    forall k | 0 <= k < |log| && k != i && log[k].Published? ensures log[k].generation != log[i].generation {
      SendsDiffer(log, k, i);
    }
  }

  lemma GrantBefore(log: Log, i: nat) returns (j: nat)
    requires LogOk(log) && i < |log| && log[i].Published?
    ensures j < i && log[j].Granted? && log[j].generation == log[i].generation && log[j].key == log[i].key
  {
    assert MayFollow(log[..i], log[i]);
    var n :| Granted(log[i].generation, log[i].key, n) in log[..i];
    j :| 0 <= j < i && log[..i][j] == Granted(log[i].generation, log[i].key, n);
  }

  /** A card's request id is claimed again only after the previous claim on it ended: by its own release, by a
  settlement that removed it, or by a settlement that gave it up (or, for a rebuild, saw it done). */
  lemma NextClaimWaitsForTheLast(cards: Cards, steps: seq<Step>, i: nat, j: nat)
    requires var log := LogOf(cards, steps);
      i < j < |log| && log[i].Granted? && log[j].Granted? && log[i].key == log[j].key
    ensures var log := LogOf(cards, steps);
      exists m :: i < m < j && log[m].Ended? && log[m].generation == log[i].generation && log[m].key == log[i].key
        && EndsOne(log[m].how, log[i].key.table)
  {
    RunKeeps(cards, steps);
    var log := LogOf(cards, steps);
    var m := EndBefore(log, i, j);
    EndFits(log, i, m);
  }

  /** The second claim on a key found the first one ended. */
  lemma EndBefore(log: Log, i: nat, j: nat) returns (m: nat)
    requires LogOk(log) && i < j < |log| && log[i].Granted? && log[j].Granted? && log[i].key == log[j].key
    ensures m < j && log[m].Ended? && log[m].generation == log[i].generation
  {
    assert MayFollow(log[..j], log[j]);
    var g := log[i].generation;
    assert Granted(g, log[j].key, log[i].checkCount) in log[..j] by {
      assert log[..j][i] == log[i];
    }
    var key, how :| Ended(g, key, how) in log[..j];
    m :| 0 <= m < j && log[..j][m] == Ended(g, key, how);
  }

  lemma EndFits(log: Log, i: nat, m: nat)
    requires LogOk(log) && i < |log| && m < |log| && log[i].Granted? && log[m].Ended?
    requires log[m].generation == log[i].generation
    ensures i < m && log[m].key == log[i].key && EndsOne(log[m].how, log[i].key.table)
  {
    EndFollowsGrant(log, i, m);
    assert MayFollow(log[..m], log[m]);
  }

  lemma EndFollowsGrant(log: Log, i: nat, m: nat)
    requires LogOk(log) && i < |log| && m < |log| && log[i].Granted? && log[m].Ended?
    requires log[m].generation == log[i].generation
    ensures i < m && log[m].key == log[i].key
  {
    assert MayFollow(log[..m], log[m]);
    var n :| Granted(log[m].generation, log[m].key, n) in log[..m];
    var k :| 0 <= k < m && log[..m][k] == Granted(log[m].generation, log[m].key, n);
    GrantsDiffer(log, k, i);
  }

  lemma GrantsDiffer(log: Log, i: nat, j: nat)
    requires LogOk(log) && i < |log| && j < |log| && log[i].Granted? && log[j].Granted?
    ensures i != j ==> log[i].generation != log[j].generation
  {
    if i != j {
      var first, second := if i < j then i else j, if i < j then j else i;
      assert MayFollow(log[..second], log[second]);
      assert log[..second][first] == log[first];
    }
  }

  // --- counting the answers for one card ---

  ghost function SendsFor(log: Log, key: Key): set<nat> {
    set i: nat | i < |log| && log[i].Published? && log[i].key == key
  }

  ghost function EndingsFor(log: Log, key: Key): set<nat> {
    set i: nat | i < |log| && log[i].Ended? && log[i].key == key
  }

  /** The sends whose claims have not ended. */
  ghost function OpenSends(log: Log, key: Key): set<nat> {
    set i | i in SendsFor(log, key) && !HasEnded(log, log[i].generation)
  }

  /** A set that `f` maps one-to-one into another is no larger. */
  lemma {:induction false} NoLarger(a: set<nat>, b: set<nat>, f: map<nat, nat>)
    requires a <= f.Keys && forall x :: x in a ==> f[x] in b
    requires forall x, y :: x in a && y in a && x != y ==> f[x] != f[y]
    ensures |a| <= |b|
  {
    if a != {} {
      var x :| x in a;
      NoLarger(a - {x}, b - {f[x]}, f);
    }
  }

  lemma EndedSomewhere(log: Log, g: nat, key: Key)
    requires LogOk(log) && HasEnded(log, g) && exists n :: Granted(g, key, n) in log
    ensures exists m :: m in EndingsFor(log, key) && log[m].generation == g
  {
    var n :| Granted(g, key, n) in log;
    var i :| 0 <= i < |log| && log[i] == Granted(g, key, n);
    var k, how :| Ended(g, k, how) in log;
    var m :| 0 <= m < |log| && log[m] == Ended(g, k, how);
    EndFollowsGrant(log, i, m);
    assert m in EndingsFor(log, key);
  }

  /** However many people press, the answers sent for one card outnumber the ended claims on it by at most one. */
  lemma SendsAreBounded(cards: Cards, steps: seq<Step>, key: Key)
    ensures var log := LogOf(cards, steps); |SendsFor(log, key)| <= 1 + |EndingsFor(log, key)|
  {
    var w := Run(Init(cards), steps);
    RunKeeps(cards, steps);
    var sends, open := SendsFor(w.log, key), OpenSends(w.log, key);
    OpenSendsAgree(w, key);
    ClosedSendsBounded(w, key, sends - open);
    AtMostOneMore(sends, open);
  }

  lemma AtMostOneMore(all: set<nat>, open: set<nat>)
    requires open <= all && forall i, j | i in open && j in open :: i == j
    ensures |all| <= 1 + |all - open|
  {
    if open != {} {
      var i :| i in open;
      assert open == {i};
    }
    assert all == (all - open) + open;
  }

  /** At most one send for a card can belong to a claim that has not ended. */
  lemma OpenSendsAgree(w: World, key: Key)
    requires Inv(w)
    ensures forall i, j | i in OpenSends(w.log, key) && j in OpenSends(w.log, key) :: i == j
  {
    forall i, j | i in OpenSends(w.log, key) && j in OpenSends(w.log, key)
      ensures i == j
    {
      assert w.log[i] in w.log && w.log[j] in w.log;
      assert StillBlocks(w, w.log[i].generation) && StillBlocks(w, w.log[j].generation);
      SendsDiffer(w.log, i, j);
    }
  }

  lemma SendsDiffer(log: Log, i: nat, j: nat)
    requires LogOk(log) && i < |log| && j < |log| && log[i].Published? && log[j].Published?
    ensures i != j ==> log[i].generation != log[j].generation
  {
    if i != j {
      var first, second := if i < j then i else j, if i < j then j else i;
      assert MayFollow(log[..second], log[second]);
      assert log[..second][first] == log[first];
    }
  }

  lemma ClosedSendsBounded(w: World, key: Key, closed: set<nat>)
    requires Inv(w) && closed <= SendsFor(w.log, key)
    requires forall i :: i in closed ==> HasEnded(w.log, w.log[i].generation)
    ensures |closed| <= |EndingsFor(w.log, key)|
  {
    var log := w.log;
    forall i | i in closed
      ensures exists m :: m in EndingsFor(log, key) && log[m].generation == log[i].generation
    {
      assert log[i] in log;
      var g := log[i].generation;
      assert Granted(g, key, w.grants[g].checkCount) in log;
      EndedSomewhere(log, g, key);
    }
    var f := map i | i in closed :: EndOfSend(log, key, i);
    forall i, j | i in closed && j in closed && f[i] == f[j] ensures i == j {
      SendsDiffer(log, i, j);
    }
    NoLarger(closed, EndingsFor(log, key), f);
  }

  ghost function EndOfSend(log: Log, key: Key, i: nat): (m: nat)
    requires i < |log| && log[i].Published?
    requires exists m :: m in EndingsFor(log, key) && log[m].generation == log[i].generation
    ensures m in EndingsFor(log, key) && log[m].generation == log[i].generation
  {
    var m :| m in EndingsFor(log, key) && log[m].generation == log[i].generation;
    m
  }

  // --- counting passes ---

  /** Successful passes in the log that began after position `p`. */
  function BegunAfter(log: Log, p: nat): nat {
    if log == [] then 0
    else
      var e := log[|log| - 1];
      BegunAfter(log[..|log| - 1], p) + if e.PassCounted? && e.began > p then 1 else 0
  }

  lemma {:induction false} NoPassBetween(log: Log, p: nat)
    requires p <= |log| && forall j :: p <= j < |log| ==> !log[j].PassCounted?
    ensures PassCount(log) == PassCount(log[..p])
  {
    if p == |log| {
      assert log[..p] == log;
    } else {
      assert log[..|log| - 1][..p] == log[..p];
      NoPassBetween(log[..|log| - 1], p);
    }
  }

  /** A pass begins only after the one before it was counted. */
  ghost predicate InTurn(log: Log) {
    forall j, k :: 0 <= j < k < |log| && log[j].PassCounted? && log[k].PassCounted? ==> j < log[k].began
  }

  lemma PassesInTurn(log: Log)
    requires LogOk(log)
    ensures InTurn(log)
  {
    forall j, k | 0 <= j < k < |log| && log[j].PassCounted? && log[k].PassCounted? ensures j < log[k].began {
      assert MayFollow(log[..k], log[k]);
      assert log[..k][j] == log[j];
    }
  }

  /** So at most one of the passes counted since `p` can have begun before it. */
  lemma {:induction false} OnePassMayStraddle(log: Log, p: nat)
    requires InTurn(log) && p < |log|
    ensures PassCount(log) <= PassCount(log[..p]) + 1 + BegunAfter(log, p)
  {
    var n := |log| - 1;
    if p < n {
      var init := log[..n];
      assert init[..p] == log[..p];
      OnePassMayStraddle(init, p);
      if log[n].PassCounted? && log[n].began <= p {
        assert forall j :: p <= j < n ==> init[j] == log[j];
        NoPassBetween(init, p);
      }
    }
  }

  /** If a settlement read the rows after a submission's read count was stored, and gives the submission up, then
  two whole successful passes began after the answer was sent (three for a rebuild): one pass may straddle the
  send, and every other one counted since then began after it. */
  lemma GivenUpAfterWholePasses(cards: Cards, steps: seq<Step>, m: nat, p: nat, g: nat, after: nat)
    requires var log := LogOf(cards, steps);
      && p < |log| && m < |log| && log[p].Published? && log[p].generation == g
      && log[m].TimedOut? && log[m].generation == g
      && log[m].readAt <= m && CountSet(g, after) in log[..log[m].readAt]
    ensures var log := LogOf(cards, steps);
      p < m && BegunAfter(log[..m], p) >= Limit(log[m].state) - 1
  {
    RunKeeps(cards, steps);
    GivenUpInLog(LogOf(cards, steps), m, p, g, after);
  }

  lemma GivenUpInLog(log: Log, m: nat, p: nat, g: nat, after: nat)
    requires LogOk(log) && p < |log| && m < |log| && log[p].Published? && log[p].generation == g
    requires log[m].TimedOut? && log[m].generation == g
    requires log[m].readAt <= m && CountSet(g, after) in log[..log[m].readAt]
    ensures p < m && BegunAfter(log[..m], p) >= Limit(log[m].state) - 1
  {
    SendsAllDiffer(log);
    PassesInTurn(log);
    var k :| 0 <= k < log[m].readAt && log[k] == CountSet(g, after);
    SentBeforeCounted(log, k, p);
    PassesSinceCounted(log, m, k);
    StraddledBefore(log, m, p);
  }

  /** No generation is sent twice. */
  ghost predicate OneSendEach(log: Log) {
    forall i, j | 0 <= i < |log| && 0 <= j < |log| && log[i].Published? && log[j].Published? ::
      log[i].generation == log[j].generation ==> i == j
  }

  lemma SendsAllDiffer(log: Log)
    requires LogOk(log)
    ensures OneSendEach(log)
  {
    forall i, j | 0 <= i < |log| && 0 <= j < |log| && log[i].Published? && log[j].Published?
      ensures log[i].generation == log[j].generation ==> i == j
    {
      SendsDiffer(log, i, j);
    }
  }

  /** The count that is stored was read after the send. */
  lemma SentBeforeCounted(log: Log, k: nat, p: nat)
    requires k < |log| && p < |log| && log[k].CountSet? && log[p].Published?
    requires MayFollow(log[..k], log[k]) && OneSendEach(log) && log[k].generation == log[p].generation
    ensures p < k && PassCount(log[..p]) <= log[k].after
  {
    var g := log[k].generation;
    var key :| Published(g, key) in log[..k];
    var q :| 0 <= q < k && log[..k][q] == Published(g, key);
    assert log[q].Published? && p == q;
    assert log[..k][..p] == log[..p];
  }

  /** A settlement that read the stored count gives up only when that count is old enough. */
  lemma PassesSinceCounted(log: Log, m: nat, k: nat)
    requires m < |log| && log[m].TimedOut? && MayFollow(log[..m], log[m])
    requires k < log[m].readAt && log[k].CountSet? && log[k].generation == log[m].generation
    ensures PassCount(log[..m]) >= log[k].after + Limit(log[m].state)
  {
    var seen := log[..m][..log[m].readAt];
    assert seen[k] == CountSet(log[m].generation, log[k].after);
  }

  lemma StraddledBefore(log: Log, m: nat, p: nat)
    requires InTurn(log) && p < m <= |log|
    ensures PassCount(log[..m]) <= PassCount(log[..p]) + 1 + BegunAfter(log[..m], p)
  {
    assert log[..m][..p] == log[..p];
    OnePassMayStraddle(log[..m], p);
  }

  /** `c` is where a check of `key` found the card answerable, `i` where the claim asked for on the strength of a
  check at that read count was granted generation `g`. */
  predicate CheckedAt(log: Log, g: nat, key: Key, c: nat, i: nat) {
    && c < i < |log|
    && log[c].Looked? && log[c].key == key
    && log[i] == Granted(g, key, log[c].readCount)
  }

  /** Whatever settlement gave it up, however stale: since the check behind a given-up row's generation at least
  three passes were counted (four for a rebuild), of which all but one began after it, and some settlement noted
  giving it up. */
  lemma GivenUpRowWaitedLongEnough(cards: Cards, steps: seq<Step>, key: Key)
    requires var w := Run(Init(cards), steps); key in w.rows && GaveUp(w.rows[key].state)
    ensures var w := Run(Init(cards), steps);
      var row := w.rows[key];
      && (exists c: nat, i: nat ::
            && CheckedAt(w.log, row.generation, key, c, i)
            && PassCount(w.log) >= PassCount(w.log[..c]) + Limit(row.state)
            && BegunAfter(w.log, c) >= Limit(row.state) - 1)
      && (exists readAt :: TimedOut(row.generation, row.state, readAt) in w.log)
  {
    var w := Run(Init(cards), steps);
    RunKeeps(cards, steps);
    var row := w.rows[key];
    assert CountKnown(w.log, w.grants, key, row);
    var c, i := CheckBehind(w.log, row.generation, key, w.grants[row.generation].checkCount);
    PassesInTurn(w.log);
    OnePassMayStraddle(w.log, c);
  }

  /** Every claim was granted on a check of its card, and its read count is that of the check. */
  lemma CheckBehind(log: Log, g: nat, key: Key, n: nat) returns (c: nat, i: nat)
    requires LogOk(log) && Granted(g, key, n) in log
    ensures CheckedAt(log, g, key, c, i) && n == PassCount(log[..c])
  {
    i :| 0 <= i < |log| && log[i] == Granted(g, key, n);
    assert MayFollow(log[..i], log[i]);
    c :| 0 <= c < i && log[..i][c] == Looked(key, n);
    assert MayFollow(log[..c], log[c]);
  }

  // --- what a settlement may touch ---

  lemma {:induction false} DropsTouch(rows: Rows, deletes: seq<Target>, key: Key)
    ensures var after := DroppedAll(rows, deletes);
      && (key in after ==> key in rows && after[key] == rows[key])
      && (key in rows && key !in after ==> Target(key, rows[key].generation) in deletes)
  {
    DroppedAllIs(rows, deletes);
  }

  lemma {:induction false} ChangesTouch(rows: Rows, updates: seq<Change>, key: Key)
    ensures var after := ChangedAll(rows, updates);
      && (key in after <==> key in rows)
      && (key in rows ==> after[key].generation == rows[key].generation)
      && (key in rows && after[key] != rows[key] ==>
            exists c :: c in updates && c.target == Target(key, rows[key].generation))
  {
    if updates != [] {
      var n := |updates| - 1;
      ChangesTouch(rows, updates[..n], key);
      assert forall c :: c in updates[..n] ==> c in updates;
      assert updates[n] in updates;
    }
  }

  /** A settlement's write adds no row, and touches a row only if the settlement itself read that row's generation. */
  lemma SettlementTouchesOnlyWhatItRead(w: World, who: nat, key: Key)
    requires who in w.settlers && w.settlers[who].Decided?
    ensures var v := DoSettleWrite(w, who);
      && (key in v.rows ==> key in w.rows && v.rows[key].generation == w.rows[key].generation)
      && (key in w.rows && (key !in v.rows || v.rows[key] != w.rows[key]) ==>
            exists e :: e in Found(w.settlers[who]) && e.key == key && e.row.generation == w.rows[key].generation)
  {
    var s := w.settlers[who];
    var deletes, updates := Deletes(Found(s), s.cards, s.counted), Updates(Found(s), s.cards, s.counted);
    SameSettlers(w, deletes, updates, s);
    DecisionsAre(Found(s), s.cards, s.counted);
    DropsTouch(w.rows, deletes, key);
    ChangesTouch(DroppedAll(w.rows, deletes), updates, key);
  }

  // --- a submission never turns others away again ---

  lemma {:induction false} DropsGrow(w: World, deletes: seq<Target>)
    ensures w.log <= DropRows(w, deletes).log
  {
    if deletes != [] {
      DropsGrow(w, deletes[..|deletes| - 1]);
    }
  }

  lemma {:induction false} ChangesGrow(w: World, updates: seq<Change>, s: Settler)
    requires s.Decided?
    ensures w.log <= ChangeRows(w, updates, s).log
  {
    if updates != [] {
      ChangesGrow(w, updates[..|updates| - 1], s);
    }
  }

  lemma SettlementGrows(w: World, who: nat)
    ensures w.log <= DoSettleWrite(w, who).log
  {
    if who in w.settlers && w.settlers[who].Decided? {
      var s := w.settlers[who];
      var deletes := Deletes(Found(s), s.cards, s.counted);
      DropsGrow(w, deletes);
      ChangesGrow(DropRows(w, deletes), Updates(Found(s), s.cards, s.counted), s);
    }
  }

  lemma StepGrows(w: World, step: Step)
    ensures w.log <= Do(w, step).log
  {
    if step.SettleWrite? {
      SettlementGrows(w, step.who);
    }
  }

  lemma {:induction false} LogGrows(w: World, steps: seq<Step>)
    ensures w.log <= Run(w, steps).log
  {
    if steps != [] {
      LogGrows(w, steps[..|steps| - 1]);
      StepGrows(Run(w, steps[..|steps| - 1]), steps[|steps| - 1]);
    }
  }

  lemma {:induction false} RunConcat(w: World, first: seq<Step>, more: seq<Step>)
    ensures Run(w, first + more) == Run(Run(w, first), more)
  {
    if more == [] {
      assert first + more == first;
    } else {
      assert (first + more)[..|first + more| - 1] == first + more[..|more| - 1];
      RunConcat(w, first, more[..|more| - 1]);
    }
  }

  /** Within one generation, a submission that has stopped waiting never waits again. */
  lemma NeverWaitsAgain(cards: Cards, first: seq<Step>, more: seq<Step>, key: Key)
    requires var w := Run(Init(cards), first); key in w.rows && !Blocks(w.rows[key].state)
    ensures var w, v := Run(Init(cards), first), Run(Init(cards), first + more);
      key in v.rows && v.rows[key].generation == w.rows[key].generation ==> !Blocks(v.rows[key].state)
  {
    var w, v := Run(Init(cards), first), Run(Init(cards), first + more);
    RunKeeps(cards, first);
    RunKeeps(cards, first + more);
    RunConcat(Init(cards), first, more);
    LogGrows(w, more);
    var g := w.rows[key].generation;
    assert CountKnown(w.log, w.grants, key, w.rows[key]);
    assert HasEnded(w.log, g);
    var k, how :| Ended(g, k, how) in w.log;
    assert Ended(g, k, how) in v.log;
    if key in v.rows && v.rows[key].generation == g {
      assert CountKnown(v.log, v.grants, key, v.rows[key]);
      assert !StillBlocks(v, g);
    }
  }
}
