/** Every step of the answer protocol keeps the invariant, so every interleaving does. */
module AnswerSteps {
  import opened Basics
  import opened AnswerStore
  import opened AnswerProtocol
  import opened AnswerInvariant

  ghost predicate Extends(w: World, v: World) {
    && |w.log| <= |v.log| && v.log[..|w.log|] == w.log
    && |w.grants| <= |v.grants| && v.grants[..|w.grants|] == w.grants
    && w.readCount <= v.readCount
  }

  /** What a settlement has read stays true of the log as it was then. */
  lemma SettlerKept(w: World, v: World, s: Settler)
    requires Extends(w, v) && SettlerOk(w, s)
    ensures SettlerOk(v, s)
  {
    SeenKept(w, v, s.claims);
    if !s.ReadClaims? {
      SeenKept(w, v, s.marks);
    }
  }

  lemma SeenKept(w: World, v: World, seen: Seen)
    requires Extends(w, v) && SeenOk(w, seen)
    ensures SeenOk(v, seen)
  {
    assert v.log[..seen.at] == w.log[..seen.at];
    assert forall g :: 0 <= g < |w.grants| ==> v.grants[g] == v.grants[..|w.grants|][g];
  }

  lemma SettlersKept(w: World, v: World)
    requires Extends(w, v) && SettlersOk(w) && v.settlers == w.settlers
    ensures SettlersOk(v)
  {
    forall who | who in v.settlers ensures SettlerOk(v, v.settlers[who]) {
      SettlerKept(w, v, w.settlers[who]);
    }
  }

  // --- what does not move with the rest ---

  lemma SameGrants(w: World, v: World)
    requires GrantsOk(w) && v.log == w.log && v.grants == w.grants && v.readCount == w.readCount
    ensures GrantsOk(v)
  {
  }

  lemma SameFeed(w: World, v: World)
    requires FeedOk(w) && v.log == w.log && v.feed == w.feed && v.readCount == w.readCount
    ensures FeedOk(v)
  {
  }

  lemma SameSubmitters(w: World, v: World)
    requires SubmittersOk(w) && v.submitters == w.submitters
    requires v.log == w.log && v.grants == w.grants && v.readCount == w.readCount
    ensures SubmittersOk(v)
  {
    forall x | x in v.submitters ensures SubmitterOk(v, v.submitters[x]) {
      assert SubmitterOk(w, w.submitters[x]);
    }
  }

  /** What only a submitter's own progress leaves alone. */
  lemma OnlySubmittersMove(w: World, v: World)
    requires Inv(w) && v == w.(submitters := v.submitters) && SubmittersOk(v)
    ensures Inv(v)
  {
    SameGrants(w, v);
    SameFeed(w, v);
    SettlersKept(w, v);
  }

  // --- one more event in the log ---

  ghost predicate Logs(w: World, v: World, e: Event) {
    v.log == w.log + [e]
  }

  lemma LogsExtends(w: World, v: World, e: Event)
    requires Logs(w, v, e) && w.readCount <= v.readCount && v.grants == w.grants
    ensures Extends(w, v)
  {
    Append(w.log, e);
  }

  lemma EndedGrows(log: Log, e: Event, g: nat)
    ensures HasEnded(log + [e], g) <==> HasEnded(log, g) || (e.Ended? && e.generation == g)
  {
    if HasEnded(log, g) {
      var key, how :| Ended(g, key, how) in log;
      assert Ended(g, key, how) in log + [e];
    }
    if e.Ended? && e.generation == g {
      assert Ended(g, e.key, e.how) in log + [e];
    }
  }

  /** Endings stay right when no submission starts or stops turning others away. */
  lemma EndingsKept(w: World, v: World, e: Event)
    requires EndingsOk(w) && Logs(w, v, e) && v.grants == w.grants && !e.Ended?
    requires forall g :: 0 <= g < |w.grants| ==> (StillBlocks(w, g) <==> StillBlocks(v, g))
    ensures EndingsOk(v)
  {
    forall g | 0 <= g < |v.grants| ensures HasEnded(v.log, g) <==> !StillBlocks(v, g) {
      EndedGrows(w.log, e, g);
    }
  }

  lemma GrantsKept(w: World, v: World, e: Event)
    requires GrantsOk(w) && Logs(w, v, e) && v.grants == w.grants && w.readCount <= v.readCount && !e.Granted?
    requires e.Published? ==> e.generation < |w.grants| && w.grants[e.generation].key == e.key
    ensures GrantsOk(v)
  {
    Append(w.log, e);
  }

  lemma SubmitterKept(w: World, v: World, e: Event, s: Submitter)
    requires SubmitterOk(w, s) && Logs(w, v, e) && w.readCount <= v.readCount && Extends(w, v)
    requires (e.Published? || e.CountSet?) ==> !Owns(s, e.generation)
    ensures SubmitterOk(v, s)
  {
    Append(w.log, e);
    if !s.Checked? {
      assert v.grants[..|w.grants|][s.generation] == v.grants[s.generation];
      if s.Counted? {
        StillCounted(w.log, e, s.generation, s.after);
      }
    }
  }

  /** The submitters who took no part in a step. */
  lemma SubmittersKept(w: World, v: World, e: Event, who: nat)
    requires SubmittersOk(w) && Logs(w, v, e) && Extends(w, v)
    requires forall x :: x in v.submitters && x != who ==> x in w.submitters && v.submitters[x] == w.submitters[x]
    requires e.Published? || e.CountSet? ==> who in w.submitters && Owns(w.submitters[who], e.generation)
    requires who in v.submitters ==> SubmitterOk(v, v.submitters[who])
    requires who in v.submitters && !v.submitters[who].Checked? ==>
      (who in w.submitters && Owns(w.submitters[who], v.submitters[who].generation))
      || v.submitters[who].generation >= |w.grants|
    ensures SubmittersOk(v)
  {
    forall x | x in v.submitters ensures SubmitterOk(v, v.submitters[x]) {
      if x != who {
        SubmitterKept(w, v, e, w.submitters[x]);
      }
    }
    forall a, b, g | a in v.submitters && b in v.submitters && Owns(v.submitters[a], g) && Owns(v.submitters[b], g)
      ensures a == b
    {
      assert a in w.submitters ==> SubmitterOk(w, w.submitters[a]);
      assert b in w.submitters ==> SubmitterOk(w, w.submitters[b]);
    }
  }

  // --- the submitter's steps ---

  lemma CheckKeeps(w: World, who: nat, key: Key, current: bool)
    requires Inv(w)
    ensures Inv(DoCheck(w, who, key, current))
  {
    var v := DoCheck(w, who, key, current);
    if v != w {
      CheckLooks(w, v, who, key, Looked(key, w.readCount));
    }
  }

  lemma CheckLooks(w: World, v: World, who: nat, key: Key, e: Event)
    requires Inv(w) && who !in w.submitters && e == Looked(key, w.readCount) && Logs(w, v, e)
    requires v == w.(submitters := v.submitters, log := v.log) && v.submitters.Keys == w.submitters.Keys + {who}
    requires forall x :: x in w.submitters ==> v.submitters[x] == w.submitters[x]
    requires v.submitters[who].Checked? && v.submitters[who].key == key && v.submitters[who].readCount == w.readCount
    ensures Inv(v)
  {
    Append(w.log, e);
    AppendOk(w.log, e);
    LogsExtends(w, v, e);
    GrantsKept(w, v, e);
    EndingsKept(w, v, e);
    RowsKept(w, v, e);
    FeedKept(w, v, e);
    SubmittersKept(w, v, e, who);
    SettlersKept(w, v);
  }

  lemma AskIsFair(w: World, key: Key, n: nat)
    requires Inv(w) && !Blocked(w.rows, key) && n <= w.readCount && Looked(key, n) in w.log
    ensures MayFollow(w.log, Granted(|w.grants|, key, n))
  {
    forall h: nat, m: nat | Granted(h, key, m) in w.log ensures HasEnded(w.log, h) {
      assert h < |w.grants| && w.grants[h].key == key;
      assert !StillBlocks(w, h);
    }
  }

  lemma GrantedRowsOk(w: World, v: World, key: Key, rebuilds: int, n: nat)
    requires LogOk(w.log) && GrantsOk(w) && RowsOk(w) && !Blocked(w.rows, key) && v.readCount == w.readCount
    requires v.grants == w.grants + [Grant(key, n)] && Logs(w, v, Granted(|w.grants|, key, n))
    requires v.rows == Asked(w.rows, key, rebuilds, n, |w.grants|)
    ensures RowsOk(v)
  {
    Append(w.log, Granted(|w.grants|, key, n));
    CountedWasPublished(w.log);
    forall k | k in v.rows
      ensures CountKnown(v.log, v.grants, k, v.rows[k])
      ensures GaveUp(v.rows[k].state) ==> GivenUpFairly(v, v.rows[k].generation, v.rows[k].state)
    {
      assert k != key ==> CountKnown(w.log, w.grants, k, w.rows[k]);
    }
  }

  lemma GrantedGrantsOk(w: World, v: World, key: Key, n: nat)
    requires GrantsOk(w) && n <= w.readCount && v.readCount == w.readCount
    requires v.grants == w.grants + [Grant(key, n)] && Logs(w, v, Granted(|w.grants|, key, n))
    ensures GrantsOk(v)
  {
    Append(w.log, Granted(|w.grants|, key, n));
  }

  lemma GrantedEndingsOk(w: World, v: World, key: Key, rebuilds: int, n: nat)
    requires LogOk(w.log) && GrantsOk(w) && EndingsOk(w) && !Blocked(w.rows, key)
    requires v.grants == w.grants + [Grant(key, n)] && Logs(w, v, Granted(|w.grants|, key, n))
    requires v.rows == Asked(w.rows, key, rebuilds, n, |w.grants|)
    ensures EndingsOk(v)
  {
    forall g | 0 <= g < |v.grants| ensures HasEnded(v.log, g) <==> !StillBlocks(v, g) {
      EndedGrows(w.log, Granted(|w.grants|, key, n), g);
      if g < |w.grants| {
        assert HasEnded(w.log, g) <==> !StillBlocks(w, g);
      } else {
        NoneEndedYet(w);
      }
    }
  }

  /** No generation ends before it is handed out. */
  lemma NoneEndedYet(w: World)
    requires LogOk(w.log) && GrantsOk(w)
    ensures !HasEnded(w.log, |w.grants|)
  {
    if HasEnded(w.log, |w.grants|) {
      EndedWasGranted(w.log, |w.grants|);
    }
  }

  lemma CountedWasPublished(log: Log)
    requires LogOk(log)
    ensures forall g, a :: CountSet(g, a) in log ==> exists key :: Published(g, key) in log
  {
    forall g, a | CountSet(g, a) in log ensures exists key :: Published(g, key) in log {
      var i :| 0 <= i < |log| && log[i] == CountSet(g, a);
      assert MayFollow(log[..i], log[i]);
      var key :| Published(g, key) in log[..i];
      assert Published(g, key) in log;
    }
  }

  lemma EndedWasGranted(log: Log, g: nat)
    requires LogOk(log) && HasEnded(log, g)
    ensures exists key :: WasGranted(log, g, key)
  {
    var key, how :| Ended(g, key, how) in log;
    var i :| 0 <= i < |log| && log[i] == Ended(g, key, how);
    assert MayFollow(log[..i], log[i]);
    var n: nat :| Granted(g, key, n) in log[..i];
    assert Granted(g, key, n) in log;
    assert WasGranted(log, g, key);
  }

  lemma AskGrants(w: World, v: World, s: Submitter, e: Event)
    requires Inv(w) && s.Checked? && SubmitterOk(w, s) && !Blocked(w.rows, s.key)
    requires e == Granted(|w.grants|, s.key, s.readCount) && Logs(w, v, e)
    requires v.grants == w.grants + [Grant(s.key, s.readCount)] && v.readCount == w.readCount
    requires v.rows == Asked(w.rows, s.key, s.rebuilds, s.readCount, |w.grants|)
    requires v.settlers == w.settlers && v.feed == w.feed
    requires SubmittersOk(v)
    ensures Inv(v)
  {
    AskIsFair(w, s.key, s.readCount);
    AppendOk(w.log, e);
    GrantedGrantsOk(w, v, s.key, s.readCount);
    GrantedRowsOk(w, v, s.key, s.rebuilds, s.readCount);
    GrantedEndingsOk(w, v, s.key, s.rebuilds, s.readCount);
    FeedKept(w, v, e);
    Append(w.log, e);
    SettlersKept(w, v);
  }

  lemma AskKeeps(w: World, who: nat)
    requires Inv(w)
    ensures Inv(DoAsk(w, who))
  {
    var v := DoAsk(w, who);
    if who in w.submitters && w.submitters[who].Checked? && !Blocked(w.rows, w.submitters[who].key) {
      var s := w.submitters[who];
      assert SubmitterOk(w, s);
      GrantedSubmittersOk(w, v, who, s);
      AskGrants(w, v, s, Granted(|w.grants|, s.key, s.readCount));
    } else if v != w {
      SubmitterLeaves(w, who);
    }
  }

  lemma GrantedSubmittersOk(w: World, v: World, who: nat, s: Submitter)
    requires LogOk(w.log) && GrantsOk(w) && SubmittersOk(w)
    requires who in w.submitters && w.submitters[who] == s && s.Checked?
    requires v.grants == w.grants + [Grant(s.key, s.readCount)] && v.readCount == w.readCount
    requires Logs(w, v, Granted(|w.grants|, s.key, s.readCount))
    requires v.submitters == w.submitters[who := Holding(s.key, |w.grants|)]
    ensures SubmittersOk(v)
  {
    var e := Granted(|w.grants|, s.key, s.readCount);
    Append(w.log, e);
    NothingYet(w);
    assert SubmitterOk(v, v.submitters[who]);
    SubmittersKept(w, v, e, who);
  }

  /** Nothing is sent or stored for a generation before it is handed out. */
  lemma NothingYet(w: World)
    requires LogOk(w.log) && GrantsOk(w)
    ensures forall key :: Published(|w.grants|, key) !in w.log
    ensures forall a :: CountSet(|w.grants|, a) !in w.log
  {
    CountedWasPublished(w.log);
  }

  lemma PublishSends(w: World, v: World, who: nat, s: Submitter, e: Event)
    requires Inv(w) && who in w.submitters && w.submitters[who] == s && s.Holding?
    requires e == Published(s.generation, s.key) && Logs(w, v, e)
    requires v.grants == w.grants && v.rows == w.rows && v.readCount == w.readCount
    requires v.settlers == w.settlers && v.feed == w.feed
    requires SubmittersOk(v)
    ensures Inv(v)
  {
    assert SubmitterOk(w, s);
    assert MayFollow(w.log, e) by {
      assert Granted(s.generation, s.key, w.grants[s.generation].checkCount) in w.log;
    }
    AppendOk(w.log, e);
    GrantsKept(w, v, e);
    EndingsKept(w, v, e);
    RowsKept(w, v, e);
    FeedKept(w, v, e);
    LogsExtends(w, v, e);
    SettlersKept(w, v);
  }

  lemma PublishSubmitters(w: World, v: World, who: nat, s: Submitter, e: Event, raised: bool)
    requires SubmittersOk(w) && who in w.submitters && w.submitters[who] == s && s.Holding?
    requires e == Published(s.generation, s.key) && Logs(w, v, e)
    requires v.grants == w.grants && v.readCount == w.readCount && Extends(w, v)
    requires v.submitters
          == w.submitters[who := if raised then Unsent(s.key, s.generation) else Sent(s.key, s.generation)]
    ensures SubmittersOk(v)
  {
    assert SubmitterOk(w, s);
    Append(w.log, e);
    assert SubmitterOk(v, v.submitters[who]);
    SubmittersKept(w, v, e, who);
  }

  lemma PublishKeeps(w: World, who: nat, raised: bool)
    requires Inv(w)
    ensures Inv(DoPublish(w, who, raised))
  {
    var v := DoPublish(w, who, raised);
    if who in w.submitters && w.submitters[who].Holding? {
      var s := w.submitters[who];
      var e := Published(s.generation, s.key);
      LogsExtends(w, v, e);
      PublishSubmitters(w, v, who, s, e, raised);
      PublishSends(w, v, who, s, e);
    }
  }

  lemma FeedKept(w: World, v: World, e: Event)
    requires FeedOk(w) && Logs(w, v, e) && !e.PassCounted?
    requires v.feed == w.feed && v.readCount == w.readCount
    ensures FeedOk(v)
  {
    Append(w.log, e);
  }

  lemma RowsKept(w: World, v: World, e: Event)
    requires RowsOk(w) && Logs(w, v, e) && v.grants == w.grants && v.rows == w.rows && w.readCount <= v.readCount
    requires !e.CountSet?
    ensures RowsOk(v)
  {
    Append(w.log, e);
  }

  lemma RowsDropped(w: World, v: World, t: Target, e: Event)
    requires RowsOk(w) && Logs(w, v, e) && v.grants == w.grants && v.rows == Dropped(w.rows, t)
    requires w.readCount <= v.readCount && !e.CountSet?
    ensures RowsOk(v)
  {
    Append(w.log, e);
  }

  lemma DropEnds(w: World, v: World, t: Target, e: Event)
    requires Inv(w) && Holds(w.rows, t) && Blocks(w.rows[t.key].state)
    requires e.Ended? && e.generation == t.generation && e.key == t.key && v == DropRow(w, t, e.how)
    requires EndsOne(e.how, t.key.table)
    ensures Inv(v) && Extends(w, v)
  {
    EndIsFair(w, t, e.how);
    AppendOk(w.log, e);
    LogsExtends(w, v, e);
    GrantsKept(w, v, e);
    DroppedEndingsOk(w, t, e.how);
    RowsDropped(w, v, t, e);
    FeedKept(w, v, e);
    NobodyMoves(w, v, e);
    SettlersKept(w, v);
  }

  lemma NobodyMoves(w: World, v: World, e: Event)
    requires SubmittersOk(w) && Logs(w, v, e) && Extends(w, v) && v.submitters == w.submitters
    requires !e.Published? && !e.CountSet?
    ensures SubmittersOk(v)
  {
    forall x | x in v.submitters ensures SubmitterOk(v, v.submitters[x]) {
      SubmitterKept(w, v, e, w.submitters[x]);
    }
  }

  lemma SameRowsDropped(w: World, v: World, t: Target)
    requires RowsOk(w) && v.log == w.log && v.grants == w.grants && v.rows == Dropped(w.rows, t)
    requires v.readCount == w.readCount
    ensures RowsOk(v)
  {
  }

  lemma DropQuietly(w: World, v: World, t: Target, how: Ending)
    requires Inv(w) && Holds(w.rows, t) && !Blocks(w.rows[t.key].state) && v == DropRow(w, t, how)
    ensures Inv(v) && Extends(w, v)
  {
    assert v.log == w.log;
    DroppedEndingsOk(w, t, how);
    SameRowsDropped(w, v, t);
    SameGrants(w, v);
    SameFeed(w, v);
    SameSubmitters(w, v);
    SettlersKept(w, v);
  }

  lemma DropKeeps(w: World, t: Target, how: Ending)
    requires Inv(w) && EndsOne(how, t.key.table)
    ensures Inv(DropRow(w, t, how)) && Extends(w, DropRow(w, t, how))
  {
    var v := DropRow(w, t, how);
    if !Holds(w.rows, t) {
      assert v == w;
    } else if Blocks(w.rows[t.key].state) {
      DropEnds(w, v, t, Ended(t.generation, t.key, how));
    } else {
      DropQuietly(w, v, t, how);
    }
  }

  lemma EndIsFair(w: World, t: Target, how: Ending)
    requires Inv(w) && Holds(w.rows, t) && Blocks(w.rows[t.key].state) && EndsOne(how, t.key.table)
    ensures MayFollow(w.log, Ended(t.generation, t.key, how))
  {
    var g := t.generation;
    assert CountKnown(w.log, w.grants, t.key, w.rows[t.key]);
    assert Granted(g, t.key, w.grants[g].checkCount) in w.log;
    assert StillBlocks(w, g);
  }

  lemma DroppedEndingsOk(w: World, t: Target, how: Ending)
    requires EndingsOk(w) && RowsOk(w) && Holds(w.rows, t)
    ensures EndingsOk(DropRow(w, t, how))
  {
    var v := DropRow(w, t, how);
    assert CountKnown(w.log, w.grants, t.key, w.rows[t.key]);
    forall g | 0 <= g < |v.grants| ensures HasEnded(v.log, g) <==> !StillBlocks(v, g) {
      assert HasEnded(w.log, g) <==> !StillBlocks(w, g);
      if Blocks(w.rows[t.key].state) {
        EndedGrows(w.log, Ended(t.generation, t.key, how), g);
      }
    }
  }

  lemma SubmitterLeaves(w: World, who: nat)
    requires Inv(w)
    ensures Inv(w.(submitters := w.submitters - {who}))
  {
    var v := w.(submitters := w.submitters - {who});
    forall x | x in v.submitters ensures SubmitterOk(v, v.submitters[x]) {
      assert SubmitterOk(w, w.submitters[x]);
    }
    OnlySubmittersMove(w, v);
  }

  lemma ReleaseKeeps(w: World, who: nat)
    requires Inv(w)
    ensures Inv(DoRelease(w, who))
  {
    if who in w.submitters && w.submitters[who].Unsent? {
      var t := Target(w.submitters[who].key, w.submitters[who].generation);
      DropKeeps(w, t, ByRelease);
      SubmitterLeaves(DropRow(w, t, ByRelease), who);
    }
  }

  lemma ReadCountKeeps(w: World, who: nat)
    requires Inv(w)
    ensures Inv(DoReadCount(w, who))
  {
    if who in w.submitters && w.submitters[who].Sent? {
      CountedNow(w.log, w.submitters[who].generation);
      ReadCountSubmitters(w, DoReadCount(w, who), who, w.submitters[who]);
      OnlySubmittersMove(w, DoReadCount(w, who));
    }
  }

  lemma ReadCountSubmitters(w: World, v: World, who: nat, s: Submitter)
    requires SubmittersOk(w) && who in w.submitters && w.submitters[who] == s && s.Sent?
    requires v == w.(submitters := w.submitters[who := Counted(s.key, s.generation, w.readCount)])
    requires GrantsOk(w) && CountedAfterSend(w.log, s.generation, w.readCount)
    ensures SubmittersOk(v)
  {
    assert SubmitterOk(w, s);
    assert SubmitterOk(v, v.submitters[who]);
    forall x | x in v.submitters ensures SubmitterOk(v, v.submitters[x]) {
      assert x != who ==> SubmitterOk(w, w.submitters[x]);
    }
  }

  lemma SetCountSubmitters(w: World, v: World, who: nat, e: Event)
    requires SubmittersOk(w) && who in w.submitters && e.CountSet? && Owns(w.submitters[who], e.generation)
    requires Logs(w, v, e) && Extends(w, v) && v.submitters == w.submitters - {who}
    ensures SubmittersOk(v)
  {
    SubmittersKept(w, v, e, who);
  }

  lemma SetCountRows(w: World, v: World, t: Target, e: Event)
    requires RowsOk(w) && EndingsOk(w) && e.CountSet? && e.generation == t.generation && Logs(w, v, e)
    requires v.rows == CountSetTo(w.rows, t, e.after) && v.grants == w.grants && v.readCount == w.readCount
    requires t.generation < |w.grants| && w.grants[t.generation].key == t.key
    requires w.grants[t.generation].checkCount <= e.after
    requires forall a :: CountSet(t.generation, a) !in w.log
    ensures RowsOk(v) && EndingsOk(v)
  {
    Append(w.log, e);
    forall key | key in v.rows
      ensures CountKnown(v.log, v.grants, key, v.rows[key])
    {
      assert CountKnown(w.log, w.grants, key, w.rows[key]);
    }
    EndingsKept(w, v, e);
  }

  lemma SetCountStores(w: World, v: World, who: nat, s: Submitter, e: Event)
    requires Inv(w) && who in w.submitters && w.submitters[who] == s && s.Counted?
    requires e == CountSet(s.generation, s.after) && v == DoSetCount(w, who)
    ensures Inv(v)
  {
    assert SubmitterOk(w, s);
    assert Logs(w, v, e);
    AppendOk(w.log, e);
    GrantsKept(w, v, e);
    SetCountRows(w, v, Target(s.key, s.generation), e);
    FeedKept(w, v, e);
    LogsExtends(w, v, e);
    SetCountSubmitters(w, v, who, e);
    SettlersKept(w, v);
  }

  lemma SetCountKeeps(w: World, who: nat)
    requires Inv(w)
    ensures Inv(DoSetCount(w, who))
  {
    if who in w.submitters && w.submitters[who].Counted? {
      var s := w.submitters[who];
      SetCountStores(w, DoSetCount(w, who), who, s, CountSet(s.generation, s.after));
    }
  }
}
