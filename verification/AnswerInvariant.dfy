/** What every step of the answer protocol keeps. */
module AnswerInvariant {
  import opened Basics
  import opened AnswerStore
  import opened AnswerProtocol

  // --- what may be written in the log, given what is there already ---

  ghost predicate HasEnded(log: Log, g: nat) {
    exists key, how :: Ended(g, key, how) in log
  }

  ghost predicate WasGranted(log: Log, g: nat, key: Key) {
    exists n :: Granted(g, key, n) in log
  }

  /** Successful passes in the log. */
  function PassCount(log: Log): nat {
    if log == [] then 0
    else PassCount(log[..|log| - 1]) + if log[|log| - 1].PassCounted? then 1 else 0
  }

  /** The read count stored for `g` is no lower than it was at any send of `g`. */
  ghost predicate CountedAfterSend(log: Log, g: nat, after: nat) {
    forall p, key :: 0 <= p < |log| && log[p] == Published(g, key) ==> PassCount(log[..p]) <= after
  }

  /** The three ways a submission on a table ends: its own release, a settlement's delete, or a settlement's mark that
  no longer turns others away. */
  predicate EndsOne(how: Ending, table: Table) {
    match how
    case ByRelease => true
    case BySettledDelete => true
    case ByMark(state) => Fits(table, state) && (state.NotRecorded? || state.Done? || state.Unconfirmed?)
  }

  ghost predicate MayFollow(before: Log, e: Event) {
    match e
    case Looked(_, n) => n == PassCount(before)
    case Granted(g, key, n) =>
      && (forall k, m :: Granted(g, k, m) !in before)
      && n <= PassCount(before)
      && Looked(key, n) in before
      && (forall h, m :: Granted(h, key, m) in before ==> HasEnded(before, h))
    case Published(g, key) =>
      && WasGranted(before, g, key)
      && (forall k :: Published(g, k) !in before)
    case CountSet(g, after) =>
      && (exists key :: Published(g, key) in before)
      && (forall a :: CountSet(g, a) !in before)
      && after <= PassCount(before)
      && CountedAfterSend(before, g, after)
    case Ended(g, key, how) =>
      && WasGranted(before, g, key)
      && EndsOne(how, key.table)
      && !HasEnded(before, g)
    case TimedOut(g, state, readAt) =>
      && readAt <= |before|
      && GaveUp(state)
      && (exists key :: WasGranted(before, g, key) && Fits(key.table, state))
      && (forall key, n: nat :: Granted(g, key, n) in before ==> PassCount(before) >= n + Limit(state))
      && (forall a: nat :: CountSet(g, a) in before[..readAt] ==> PassCount(before) >= a + Limit(state))
    case PassBegan => true
    case PassCounted(began) =>
      && began < |before|
      && before[began] == PassBegan
      && (forall j :: 0 <= j < |before| && before[j].PassCounted? ==> j < began)
  }

  ghost predicate LogOk(log: Log) {
    forall i :: 0 <= i < |log| ==> MayFollow(log[..i], log[i])
  }

  // --- what the rest of the world knows about the log ---

  ghost predicate GrantsOk(w: World) {
    && (forall g :: 0 <= g < |w.grants| ==>
          Granted(g, w.grants[g].key, w.grants[g].checkCount) in w.log && w.grants[g].checkCount <= w.readCount)
    && (forall g: nat, key, n: nat :: Granted(g, key, n) in w.log ==> g < |w.grants| && w.grants[g] == Grant(key, n))
    && (forall g: nat, key :: Published(g, key) in w.log ==> g < |w.grants| && w.grants[g].key == key)
  }

  ghost predicate StillBlocks(w: World, g: nat)
    requires g < |w.grants|
  {
    Holds(w.rows, Target(w.grants[g].key, g)) && Blocks(w.rows[w.grants[g].key].state)
  }

  /** A submission has ended exactly when its row no longer turns others away. */
  ghost predicate EndingsOk(w: World) {
    forall g :: 0 <= g < |w.grants| ==> (HasEnded(w.log, g) <==> !StillBlocks(w, g))
  }

  /** A row's read count is the stored one if there is one, and never below that of the check. */
  ghost predicate CountKnown(log: Log, grants: seq<Grant>, key: Key, row: Row) {
    && row.generation < |grants|
    && grants[row.generation].key == key
    && grants[row.generation].checkCount <= row.readCount
    && Fits(key.table, row.state)
    && (forall a: nat :: CountSet(row.generation, a) in log ==> row.readCount == a)
  }

  /** A settlement said so, and enough passes were counted since the check. */
  ghost predicate GivenUpFairly(w: World, g: nat, state: State)
    requires g < |w.grants|
  {
    && w.readCount >= w.grants[g].checkCount + Limit(state)
    && exists readAt :: TimedOut(g, state, readAt) in w.log
  }

  ghost predicate RowsOk(w: World) {
    forall key :: key in w.rows ==>
      && CountKnown(w.log, w.grants, key, w.rows[key])
      && (GaveUp(w.rows[key].state) ==> GivenUpFairly(w, w.rows[key].generation, w.rows[key].state))
  }

  predicate Owns(s: Submitter, g: nat) {
    !s.Checked? && s.generation == g
  }

  ghost predicate SubmitterOk(w: World, s: Submitter) {
    if s.Checked? then s.readCount <= w.readCount && Looked(s.key, s.readCount) in w.log
    else
      && s.generation < |w.grants|
      && w.grants[s.generation].key == s.key
      && (if s.Holding? then forall key :: Published(s.generation, key) !in w.log
          else Published(s.generation, s.key) in w.log)
      && (forall a :: CountSet(s.generation, a) !in w.log)
      && (s.Counted? ==>
            && w.grants[s.generation].checkCount <= s.after <= w.readCount
            && CountedAfterSend(w.log, s.generation, s.after))
  }

  ghost predicate SubmittersOk(w: World) {
    && (forall who :: who in w.submitters ==> SubmitterOk(w, w.submitters[who]))
    && forall a, b, g | a in w.submitters && b in w.submitters ::
         Owns(w.submitters[a], g) && Owns(w.submitters[b], g) ==> a == b
  }

  /** A row is read once. */
  ghost predicate DistinctKeys(found: seq<Entry>) {
    forall i, j :: 0 <= i < j < |found| ==> found[i].key != found[j].key
  }

  ghost predicate SeenOk(w: World, seen: Seen) {
    && seen.at <= |w.log|
    && DistinctKeys(seen.entries)
    && forall e :: e in seen.entries ==> CountKnown(w.log[..seen.at], w.grants, e.key, e.row)
  }

  ghost predicate SettlerOk(w: World, s: Settler) {
    && SeenOk(w, s.claims)
    && (forall e :: e in s.claims.entries ==> e.key.table.AnswerClaims?)
    && (!s.ReadClaims? ==> SeenOk(w, s.marks) && forall e :: e in s.marks.entries ==> e.key.table.RebuildMarks?)
    && (s.Decided? && s.counted.Some? ==> s.counted.value <= w.readCount)
  }

  ghost predicate SettlersOk(w: World) {
    forall who :: who in w.settlers ==> SettlerOk(w, w.settlers[who])
  }

  ghost predicate FeedOk(w: World) {
    && w.readCount == PassCount(w.log)
    && (!w.feed.Idle? ==>
          && w.feed.began < |w.log|
          && w.log[w.feed.began] == PassBegan
          && forall j :: 0 <= j < |w.log| && w.log[j].PassCounted? ==> j < w.feed.began)
  }

  ghost predicate Inv(w: World) {
    && LogOk(w.log)
    && GrantsOk(w)
    && EndingsOk(w)
    && RowsOk(w)
    && SubmittersOk(w)
    && SettlersOk(w)
    && FeedOk(w)
  }

  lemma InitInv(cards: Cards)
    ensures Inv(Init(cards))
  {
  }

  // --- growing the log ---

  lemma Append(log: Log, e: Event)
    ensures (log + [e])[..|log|] == log
    ensures PassCount(log + [e]) == PassCount(log) + if e.PassCounted? then 1 else 0
    ensures forall i :: 0 <= i <= |log| ==> (log + [e])[..i] == log[..i]
    ensures forall x :: x in log + [e] <==> x in log || x == e
  {
    assert (log + [e])[..|log|] == log;
  }

  lemma AppendOk(log: Log, e: Event)
    requires LogOk(log) && MayFollow(log, e)
    ensures LogOk(log + [e])
  {
    Append(log, e);
  }

  lemma {:induction false} PassCountGrows(log: Log, i: nat)
    requires i <= |log|
    ensures PassCount(log[..i]) <= PassCount(log)
  {
    if i < |log| {
      assert log[..|log| - 1][..i] == log[..i];
      PassCountGrows(log[..|log| - 1], i);
    } else {
      assert log[..i] == log;
    }
  }

  lemma StillCounted(log: Log, e: Event, g: nat, after: nat)
    requires CountedAfterSend(log, g, after)
    requires forall key :: e != Published(g, key)
    ensures CountedAfterSend(log + [e], g, after)
  {
    Append(log, e);
  }

  lemma CountedNow(log: Log, g: nat)
    ensures CountedAfterSend(log, g, PassCount(log))
  {
    forall p, key | 0 <= p < |log| && log[p] == Published(g, key)
      ensures PassCount(log[..p]) <= PassCount(log)
    {
      PassCountGrows(log, p);
    }
  }
}
