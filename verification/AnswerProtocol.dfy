/** The answer protocol as it really interleaves: any number of submitters (`submit`, backend/answers.py), any
number of settlements (`settle`, backend/claims.py) and the feed (`mirror_once`, backend/projector/forge_mirror.py),
each of whose database transactions, record snapshots and sends is one atomic step. Everything that matters
happens in an append-only log, so that what the protocol promises can be said about the log alone. */
module AnswerProtocol {
  import opened Basics
  import opened AnswerStore

  datatype Ending = ByRelease | BySettledDelete | ByMark(state: State)

  datatype Event =
    | Looked(key: Key, readCount: nat)                      // a check found the card answerable, at this read count
    | Granted(generation: nat, key: Key, checkCount: nat)   // a claim or a rebuild mark was granted
    | Published(generation: nat, key: Key)                  // one attempt to send, whether or not it raised
    | CountSet(generation: nat, after: nat)                 // the read count just after the send was stored
    | Ended(generation: nat, key: Key, how: Ending)         // the submission stopped turning others away
    | TimedOut(generation: nat, state: State, readAt: nat)  // a settlement that read the rows at `readAt` gave up
    | PassBegan
    | PassCounted(began: nat)                               // a successful pass, with the place where it began

  type Log = seq<Event>

  datatype Grant = Grant(key: Key, checkCount: nat)

  /** How far a submission has got. */
  datatype Submitter =
    | Checked(key: Key, rebuilds: int, readCount: nat)
    | Holding(key: Key, generation: nat)
    | Unsent(key: Key, generation: nat)
    | Sent(key: Key, generation: nat)
    | Counted(key: Key, generation: nat, after: nat)

  /** The rows of one table as a settlement read them, and how long the log was at that moment. */
  datatype Seen = Seen(entries: seq<Entry>, at: nat)

  /** How far a settlement has got: it reads the claims, then the marks, and then decides from one snapshot of
  the record. */
  datatype Settler =
    | ReadClaims(claims: Seen)
    | ReadBoth(claims: Seen, marks: Seen)
    | Decided(claims: Seen, marks: Seen, cards: Cards, counted: Option<nat>)

  datatype Feed = Idle | Reading(began: nat) | Written(began: nat)

  datatype World = World(
    rows: Rows,
    grants: seq<Grant>,          // the submission of each generation handed out so far
    cards: Cards,                // the board's copy of the record
    readCount: nat,
    feed: Feed,
    submitters: map<nat, Submitter>,
    settlers: map<nat, Settler>,
    log: Log)

  datatype Step =
    | Check(who: nat, key: Key, current: bool)
    | Ask(who: nat)
    | Publish(who: nat, raised: bool)
    | Release(who: nat)
    | ReadCount(who: nat)
    | SetCount(who: nat)
    | AbandonSubmit(who: nat)                     // refused, unavailable, cancelled, or the board stopped
    | SettleReadClaims(who: nat, found: seq<Entry>)
    | SettleReadMarks(who: nat, found: seq<Entry>)
    | SettleSnapshot(who: nat, current: bool)
    | SettleWrite(who: nat)
    | AbandonSettle(who: nat)
    | PassBegin
    | PassWrite(cards: Cards)
    | PassStamp
    | PassFail                                    // at any point before the stamp

  function Init(cards: Cards): World {
    World(map[], [], cards, 0, Idle, map[], map[], [])
  }

  // --- the submitter ---

  /** `_check` and `decide`: the copy is fresh, the card is open and answerable, a rebuild is on offer. */
  predicate MayAsk(cards: Cards, key: Key, current: bool) {
    && current
    && key.requestId in cards
    && var card := cards[key.requestId];
    && card.open && card.answerable
    && (key.table.RebuildMarks? ==> card.rebuild.Some? && card.rebuild.value.offered)
  }

  function DoCheck(w: World, who: nat, key: Key, current: bool): World {
    if who !in w.submitters && MayAsk(w.cards, key, current) then
      var rebuilds := if key.table.RebuildMarks? then w.cards[key.requestId].rebuild.value.count else 0;
      w.(submitters := w.submitters[who := Checked(key, rebuilds, w.readCount)],
         log := w.log + [Looked(key, w.readCount)])
    else w
  }

  function DoAsk(w: World, who: nat): World {
    if who in w.submitters && w.submitters[who].Checked? then
      var s := w.submitters[who];
      if Blocked(w.rows, s.key) then w.(submitters := w.submitters - {who})
      else
        var g := |w.grants|;
        w.(rows := Asked(w.rows, s.key, s.rebuilds, s.readCount, g),
           grants := w.grants + [Grant(s.key, s.readCount)],
           submitters := w.submitters[who := Holding(s.key, g)],
           log := w.log + [Granted(g, s.key, s.readCount)])
    else w
  }

  function DoPublish(w: World, who: nat, raised: bool): World {
    if who in w.submitters && w.submitters[who].Holding? then
      var s := w.submitters[who];
      w.(submitters := w.submitters[who := if raised then Unsent(s.key, s.generation) else Sent(s.key, s.generation)],
         log := w.log + [Published(s.generation, s.key)])
    else w
  }

  /** The end of a submission that still turns others away, or nothing. */
  function EndOf(rows: Rows, t: Target, how: Ending): Log {
    if Holds(rows, t) && Blocks(rows[t.key].state) then [Ended(t.generation, t.key, how)] else []
  }

  function DropRow(w: World, t: Target, how: Ending): World {
    w.(rows := Dropped(w.rows, t), log := w.log + EndOf(w.rows, t, how))
  }

  function DoRelease(w: World, who: nat): World {
    if who in w.submitters && w.submitters[who].Unsent? then
      var s := w.submitters[who];
      DropRow(w, Target(s.key, s.generation), ByRelease).(submitters := w.submitters - {who})
    else w
  }

  function DoReadCount(w: World, who: nat): World {
    if who in w.submitters && w.submitters[who].Sent? then
      var s := w.submitters[who];
      w.(submitters := w.submitters[who := Counted(s.key, s.generation, w.readCount)])
    else w
  }

  function DoSetCount(w: World, who: nat): World {
    if who in w.submitters && w.submitters[who].Counted? then
      var s := w.submitters[who];
      w.(rows := CountSetTo(w.rows, Target(s.key, s.generation), s.after),
         submitters := w.submitters - {who},
         log := w.log + [CountSet(s.generation, s.after)])
    else w
  }

  // --- the settlement ---

  /** `found` is what selecting everything from one table returns. */
  predicate Selects(found: seq<Entry>, rows: Rows, table: Table) {
    && (forall e :: e in found ==> e.key.table == table && e.key in rows && rows[e.key] == e.row)
    && (forall key :: key in rows && key.table == table ==> Entry(key, rows[key]) in found)
    && (forall i, j :: 0 <= i < j < |found| ==> found[i].key != found[j].key)
  }

  function DoSettleReadClaims(w: World, who: nat, found: seq<Entry>): World {
    if who !in w.settlers && Selects(found, w.rows, AnswerClaims) then
      w.(settlers := w.settlers[who := ReadClaims(Seen(found, |w.log|))])
    else w
  }

  function DoSettleReadMarks(w: World, who: nat, found: seq<Entry>): World {
    if who in w.settlers && w.settlers[who].ReadClaims? && Selects(found, w.rows, RebuildMarks) then
      w.(settlers := w.settlers[who := ReadBoth(w.settlers[who].claims, Seen(found, |w.log|))])
    else w
  }

  function DoSettleSnapshot(w: World, who: nat, current: bool): World {
    if who in w.settlers && w.settlers[who].ReadBoth? then
      var s := w.settlers[who];
      w.(settlers := w.settlers[who :=
        Decided(s.claims, s.marks, w.cards, if current then Some(w.readCount) else None)])
    else w
  }

  function DropRows(w: World, deletes: seq<Target>): World {
    if deletes == [] then w
    else DropRow(DropRows(w, deletes[..|deletes| - 1]), deletes[|deletes| - 1], BySettledDelete)
  }

  function ReadAt(s: Settler, table: Table): nat
    requires s.Decided?
  {
    if table.AnswerClaims? then s.claims.at else s.marks.at
  }

  function ChangeRow(w: World, c: Change, s: Settler): World
    requires s.Decided?
  {
    if Holds(w.rows, c.target) then
      w.(rows := Changed(w.rows, c),
         log := w.log
                + (if GaveUp(c.state)
                   then [TimedOut(c.target.generation, c.state, ReadAt(s, c.target.key.table))] else [])
                + EndOf(w.rows, c.target, ByMark(c.state)))
    else w
  }

  function ChangeRows(w: World, updates: seq<Change>, s: Settler): World
    requires s.Decided?
  {
    if updates == [] then w
    else ChangeRow(ChangeRows(w, updates[..|updates| - 1], s), updates[|updates| - 1], s)
  }

  function Found(s: Settler): seq<Entry>
    requires s.Decided?
  {
    s.claims.entries + s.marks.entries
  }

  /** The one write transaction of a settlement. */
  function DoSettleWrite(w: World, who: nat): World {
    if who in w.settlers && w.settlers[who].Decided? then
      var s := w.settlers[who];
      var dropped := DropRows(w, Deletes(Found(s), s.cards, s.counted));
      ChangeRows(dropped, Updates(Found(s), s.cards, s.counted), s).(settlers := w.settlers - {who})
    else w
  }

  // --- the feed: one pass after another, and only a stamped pass is counted ---

  function DoFeed(w: World, step: Step): World {
    match step
    case PassBegin => if w.feed.Idle? then w.(feed := Reading(|w.log|), log := w.log + [PassBegan]) else w
    case PassWrite(cards) => if w.feed.Reading? then w.(cards := cards, feed := Written(w.feed.began)) else w
    case PassStamp =>
      if w.feed.Written? then
        w.(readCount := w.readCount + 1, feed := Idle, log := w.log + [PassCounted(w.feed.began)])
      else w
    case PassFail => w.(feed := Idle)
    case _ => w
  }

  /** One step; a step whose turn it is not changes nothing. */
  function Do(w: World, step: Step): World {
    match step
    case Check(who, key, current) => DoCheck(w, who, key, current)
    case Ask(who) => DoAsk(w, who)
    case Publish(who, raised) => DoPublish(w, who, raised)
    case Release(who) => DoRelease(w, who)
    case ReadCount(who) => DoReadCount(w, who)
    case SetCount(who) => DoSetCount(w, who)
    case AbandonSubmit(who) => w.(submitters := w.submitters - {who})
    case SettleReadClaims(who, found) => DoSettleReadClaims(w, who, found)
    case SettleReadMarks(who, found) => DoSettleReadMarks(w, who, found)
    case SettleSnapshot(who, current) => DoSettleSnapshot(w, who, current)
    case SettleWrite(who) => DoSettleWrite(w, who)
    case AbandonSettle(who) => w.(settlers := w.settlers - {who})
    case _ => DoFeed(w, step)
  }

  /** Every interleaving is a list of steps. */
  function Run(w: World, steps: seq<Step>): World {
    if steps == [] then w else Do(Run(w, steps[..|steps| - 1]), steps[|steps| - 1])
  }
}
