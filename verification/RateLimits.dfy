/** The sliding-window limits: questions an hour (backend/chat/service.py 75-99, for each account in backend/voice.py
596-607) and sign-in attempts (backend/accounts.py 232-283). The clock's readings are parameters, in microseconds; they
never go back. */
module RateLimits {
  import opened Basics

  const HOUR: int := 3_600_000_000

  // --- times in order ---

  predicate Sorted(times: seq<int>) {
    forall i, j :: 0 <= i < j < |times| ==> times[i] <= times[j]
  }

  predicate AllUpTo(times: seq<int>, most: int) {
    forall t :: t in times ==> t <= most
  }

  /** How many fall in [lo, hi). */
  function CountIn(times: seq<int>, lo: int, hi: int): nat {
    if times == [] then 0
    else CountIn(times[..|times| - 1], lo, hi) + if lo <= times[|times| - 1] < hi then 1 else 0
  }

  /** What is left once the times at the front up to `cutoff` are dropped. */
  function DropUpTo(times: seq<int>, cutoff: int): seq<int> {
    if times != [] && times[0] <= cutoff then DropUpTo(times[1..], cutoff) else times
  }

  /** Any `limit` + 1 in a row span at least `window`. */
  predicate Spaced(times: seq<int>, limit: nat, window: int) {
    forall i :: 0 <= i < |times| - limit ==> times[i + limit] - times[i] >= window
  }

  lemma {:induction false} CountAtMost(times: seq<int>, k: nat, lo: int, hi: int)
    requires k <= |times| && AllUpTo(times[..k], lo - 1)
    ensures CountIn(times, lo, hi) <= |times| - k
  {
    if times != [] {
      var init := times[..|times| - 1];
      if k < |times| {
        assert init[..k] == times[..k];
        CountAtMost(init, k, lo, hi);
      } else {
        assert times[|times| - 1] in times[..k];
        assert AllUpTo(init[..k - 1], lo - 1) by {
          assert init[..k - 1] == init && forall t :: t in init ==> t in times[..k];
        }
        CountAtMost(init, k - 1, lo, hi);
      }
    }
  }

  /** So no half-open window of that length holds more than `limit`. */
  lemma {:induction false} SpacedWindows(times: seq<int>, limit: nat, window: int, lo: int)
    requires Sorted(times) && Spaced(times, limit, window)
    ensures CountIn(times, lo, lo + window) <= limit
  {
    if times != [] {
      var init, last := times[..|times| - 1], times[|times| - 1];
      if lo <= last < lo + window {
        var k := if |times| > limit then |times| - limit else 0;
        forall t | t in times[..k] ensures t <= lo - 1 {
          var i :| 0 <= i < k && times[i] == t;
          assert times[i + limit] <= last;
        }
        CountAtMost(times, k, lo, lo + window);
      } else {
        SpacedWindows(init, limit, window, lo);
      }
    }
  }

  lemma {:induction false} DroppedAre(times: seq<int>, cutoff: int) returns (k: nat)
    ensures k <= |times| && DropUpTo(times, cutoff) == times[k..] && AllUpTo(times[..k], cutoff)
    ensures k < |times| ==> times[k] > cutoff
  {
    if times != [] && times[0] <= cutoff {
      var rest := DroppedAre(times[1..], cutoff);
      k := rest + 1;
      assert times[1..][rest..] == times[k..];
      assert times[..k] == [times[0]] + times[1..][..rest];
    } else {
      k := 0;
    }
  }

  /** Of times in order, what is left after dropping is exactly those after the cutoff. */
  lemma {:induction false} LeftAreLater(times: seq<int>, cutoff: int, hi: int)
    requires Sorted(times) && AllUpTo(times, hi - 1)
    ensures |DropUpTo(times, cutoff)| == CountIn(times, cutoff + 1, hi)
  {
    var k := DroppedAre(times, cutoff);
    CountAtMost(times, k, cutoff + 1, hi);
    forall t | t in times[k..] ensures cutoff < t < hi {
      var i :| k <= i < |times| && times[i] == t;
      assert times[k] <= times[i] && times[i] in times;
    }
    CountAtLeast(times, k, cutoff + 1, hi);
  }

  lemma {:induction false} CountAtLeast(times: seq<int>, k: nat, lo: int, hi: int)
    requires k <= |times| && forall t :: t in times[k..] ==> lo <= t < hi
    ensures CountIn(times, lo, hi) >= |times| - k
  {
    if k < |times| {
      var init := times[..|times| - 1];
      assert times[|times| - 1] in times[k..];
      assert forall t :: t in init[k..] ==> t in times[k..];
      CountAtLeast(init, k, lo, hi);
    }
  }

  // --- questions an hour ---

  /** What `try_take` leaves in the deque, and whether it takes. */
  function Taken(times: seq<int>, limit: nat, now: int): (seq<int>, bool) {
    var recent := DropUpTo(times, now - HOUR);
    if |recent| >= limit then (recent, false) else (recent + [now], true)
  }

  class HourlyLimit {
    const limit: nat
    var times: seq<int>

    constructor (most: nat)
      ensures times == [] && limit == most
    {
      limit, times := most, [];
    }

    method TryTake(now: int) returns (ok: bool)
      modifies this
      ensures (times, ok) == Taken(old(times), limit, now)
    {
      while times != [] && now - times[0] >= HOUR
        invariant DropUpTo(times, now - HOUR) == DropUpTo(old(times), now - HOUR)
        decreases |times|
      {
        times := times[1..];
      }
      if |times| >= limit {
        return false;
      }
      times := times + [now];
      ok := true;
    }

    /** True exactly when `TryTake` would refuse just now. */
    method Full(now: int) returns (full: bool)
      requires Sorted(times) && AllUpTo(times, now)
      ensures full <==> !Taken(times, limit, now).1
    {
      var recent := 0;
      for i := 0 to |times|
        invariant recent == CountIn(times[..i], now - HOUR + 1, now + 1)
      {
        assert times[..i + 1][..i] == times[..i];
        assert times[i] in times;
        if now - times[i] < HOUR {
          recent := recent + 1;
        }
      }
      assert times[..|times|] == times;
      LeftAreLater(times, now - HOUR, now + 1);
      full := recent >= limit;
    }
  }

  /** A limit, and every time it was taken. */
  datatype Record = Record(times: seq<int>, taken: seq<int>)

  /** The calls of `try_take`, at these times. */
  function Calls(nows: seq<int>, limit: nat): Record {
    if nows == [] then Record([], [])
    else
      OneCall(Calls(nows[..|nows| - 1], limit), limit, nows[|nows| - 1])
  }

  /** What is kept is the end of what was taken; the rest is an hour old. */
  predicate KeepsRecent(r: Record, k: nat, clock: int) {
    && k <= |r.taken| && r.times == r.taken[k..] && AllUpTo(r.taken[..k], clock - HOUR)
    && Sorted(r.taken) && AllUpTo(r.taken, clock)
  }

  lemma TakeKeeps(r: Record, k: nat, clock: int, limit: nat, now: int) returns (m: nat)
    requires KeepsRecent(r, k, clock) && clock <= now && Spaced(r.taken, limit, HOUR)
    ensures k <= m <= |r.taken| && DropUpTo(r.times, now - HOUR) == r.taken[m..]
    ensures AllUpTo(r.taken[..m], now - HOUR)
    ensures forall t :: t in r.taken[m..] ==> t > now - HOUR
  {
    var drop := DroppedAre(r.times, now - HOUR);
    m := k + drop;
    assert r.taken[k..][drop..] == r.taken[m..];
    assert r.taken[..m] == r.taken[..k] + r.times[..drop];
    forall t | t in r.taken[m..] ensures t > now - HOUR {
      var i :| m <= i < |r.taken| && r.taken[i] == t;
      assert r.taken[m] == r.times[drop];
    }
  }

  lemma TakenStaysSpaced(taken: seq<int>, m: nat, limit: nat, window: int, now: int)
    requires Spaced(taken, limit, window) && m <= |taken| && |taken| - m < limit && AllUpTo(taken[..m], now - window)
    ensures Spaced(taken + [now], limit, window)
  {
    forall i | 0 <= i < |taken + [now]| - limit
      ensures (taken + [now])[i + limit] - (taken + [now])[i] >= window
    {
      if i + limit == |taken| {
        assert taken[i] in taken[..m];
      }
    }
  }

  function OneCall(before: Record, limit: nat, now: int): Record {
    var r := Taken(before.times, limit, now);
    Record(r.0, if r.1 then before.taken + [now] else before.taken)
  }

  lemma CallKeeps(r: Record, k: nat, limit: nat, now: int) returns (m: nat)
    requires KeepsRecent(r, k, now) && Spaced(r.taken, limit, HOUR)
    ensures KeepsRecent(OneCall(r, limit, now), m, now) && Spaced(OneCall(r, limit, now).taken, limit, HOUR)
  {
    m := TakeKeeps(r, k, now, limit, now);
    if |r.taken| - m < limit {
      TakenStaysSpaced(r.taken, m, limit, HOUR, now);
      assert (r.taken + [now])[..m] == r.taken[..m];
      assert (r.taken + [now])[m..] == r.taken[m..] + [now];
      AppendedInOrder(r.taken, now);
    }
  }

  lemma AppendedInOrder(times: seq<int>, now: int)
    requires Sorted(times) && AllUpTo(times, now)
    ensures Sorted(times + [now]) && AllUpTo(times + [now], now)
  {
    forall i, j | 0 <= i < j < |times + [now]| ensures (times + [now])[i] <= (times + [now])[j] {
      assert times[i] in times;
    }
  }

  lemma {:induction false} CallsKeep(nows: seq<int>, limit: nat, clock: int) returns (k: nat)
    requires Sorted(nows) && AllUpTo(nows, clock)
    ensures KeepsRecent(Calls(nows, limit), k, clock) && Spaced(Calls(nows, limit).taken, limit, HOUR)
  {
    if nows == [] {
      k := 0;
    } else {
      var init, now := nows[..|nows| - 1], nows[|nows| - 1];
      assert now in nows;
      var j := CallsKeep(init, limit, now);
      k := CallKeeps(Calls(init, limit), j, limit, now);
      LaterClock(Calls(nows, limit), k, now, clock);
    }
  }

  lemma LaterClock(r: Record, k: nat, clock: int, later: int)
    requires KeepsRecent(r, k, clock) && clock <= later
    ensures KeepsRecent(r, k, later)
  {
  }

  /** In every half-open window of 3,600 seconds at most `limit` are taken. */
  lemma HourlyBound(nows: seq<int>, limit: nat, lo: int)
    requires Sorted(nows)
    ensures CountIn(Calls(nows, limit).taken, lo, lo + 3_600_000_000) <= limit
  {
    var clock := if nows == [] then 0 else nows[|nows| - 1];
    var k := CallsKeep(nows, limit, clock);
    SpacedWindows(Calls(nows, limit).taken, limit, HOUR, lo);
  }

  /** And none is refused without need: exactly when `limit` were taken in the last 3,600 seconds. */
  lemma RefusedExactlyAtTheLimit(nows: seq<int>, limit: nat, now: int)
    requires Sorted(nows) && AllUpTo(nows, now)
    ensures Taken(Calls(nows, limit).times, limit, now).1
       <==> CountIn(Calls(nows, limit).taken, now - 3_600_000_000 + 1, now + 1) < limit
  {
    var r := Calls(nows, limit);
    var k := CallsKeep(nows, limit, now);
    var m := TakeKeeps(r, k, now, limit, now);
    CountAtMost(r.taken, m, now - HOUR + 1, now + 1);
    assert forall t :: t in r.taken[m..] ==> t in r.taken;
    CountAtLeast(r.taken, m, now - HOUR + 1, now + 1);
  }

  /** One limit for each account. */
  class PerUserHourly {
    const limit: nat
    var perUser: map<string, HourlyLimit>

    ghost predicate Valid()
      reads this, perUser.Values
    {
      && (forall u :: u in perUser ==> perUser[u].limit == limit)
      && (forall u, v :: u in perUser && v in perUser && u != v ==> perUser[u] != perUser[v])
    }

    ghost function TimesOf(user: string): seq<int>
      reads this, perUser.Values
    {
      if user in perUser then perUser[user].times else []
    }

    constructor (most: nat)
      ensures Valid() && perUser == map[] && limit == most
    {
      limit, perUser := most, map[];
    }

    /** Takes from that account's limit and from no other's. */
    method TryTake(user: string, now: int) returns (ok: bool)
      requires Valid()
      modifies this, perUser.Values
      ensures Valid() && (TimesOf(user), ok) == Taken(old(TimesOf(user)), limit, now)
      ensures forall other :: other != user ==> TimesOf(other) == old(TimesOf(other))
    {
      if user !in perUser {
        var mine := new HourlyLimit(limit);
        perUser := perUser[user := mine];
      }
      ok := perUser[user].TryTake(now);
    }
  }

  // --- sign-in attempts ---

  /** `limit`, `window` and `lockout`. */
  datatype Rules = Rules(limit: int, window: int, lockout: int)

  /** The times of each username's counted attempts, and until when each locked one is locked. */
  datatype Throttle = Throttle(attempts: map<string, seq<int>>, lockedUntil: map<string, int>)

  const EMPTY: Throttle := Throttle(map[], map[])

  function Pruned(s: Throttle, r: Rules, now: int): Throttle {
    Throttle(map n | n in s.attempts && DropUpTo(s.attempts[n], now - r.window) != []
               :: DropUpTo(s.attempts[n], now - r.window),
             map n | n in s.lockedUntil && s.lockedUntil[n] > now :: s.lockedUntil[n])
  }

  function AttemptsOf(s: Throttle, user: string): seq<int> {
    if user in s.attempts then s.attempts[user] else []
  }

  function Attempted(s: Throttle, r: Rules, user: string, now: int): (Throttle, bool) {
    var p := Pruned(s, r, now);
    if user in p.lockedUntil then (p, false)
    else
      var times := AttemptsOf(p, user) + [now];
      if |times| >= r.limit then
        (Throttle(p.attempts - {user}, p.lockedUntil[user := now + r.lockout]), true)
      else (p.(attempts := p.attempts[user := times]), true)
  }

  function Cleared(s: Throttle, user: string): Throttle {
    Throttle(s.attempts - {user}, s.lockedUntil - {user})
  }

  class LoginThrottle {
    const rules: Rules
    var attempts: map<string, seq<int>>
    var lockedUntil: map<string, int>

    ghost function Contents(): Throttle
      reads this
    {
      Throttle(attempts, lockedUntil)
    }

    constructor (r: Rules)
      ensures Contents() == EMPTY && rules == r
    {
      rules, attempts, lockedUntil := r, map[], map[];
    }

    method PruneLocks(now: int)
      modifies this`lockedUntil
      ensures lockedUntil == Pruned(old(Contents()), rules, now).lockedUntil
    {
      var names := lockedUntil.Keys;
      ghost var before := lockedUntil;
      while names != {}
        invariant names <= lockedUntil.Keys <= before.Keys
        invariant forall n :: n in lockedUntil ==> lockedUntil[n] == before[n]
        invariant forall n :: n in before && n !in names ==> (n in lockedUntil <==> before[n] > now)
        decreases names
      {
        var name :| name in names;
        names := names - {name};
        if lockedUntil[name] <= now {
          lockedUntil := lockedUntil - {name};
        }
      }
    }

    method PruneAttempts(now: int)
      modifies this`attempts
      ensures attempts == Pruned(old(Contents()), rules, now).attempts
    {
      var names := attempts.Keys;
      ghost var before := attempts;
      while names != {}
        invariant names <= attempts.Keys <= before.Keys
        invariant forall n :: n in names ==> attempts[n] == before[n]
        invariant forall n | n in before && n !in names ::
          var left := DropUpTo(before[n], now - rules.window);
          (n in attempts <==> left != []) && (n in attempts ==> attempts[n] == left)
        decreases names
      {
        var name :| name in names;
        names := names - {name};
        var times := attempts[name];
        while times != [] && times[0] <= now - rules.window
          invariant DropUpTo(times, now - rules.window) == DropUpTo(before[name], now - rules.window)
          decreases |times|
        {
          times := times[1..];
        }
        if times == [] {
          attempts := attempts - {name};
        } else {
          attempts := attempts[name := times];
        }
      }
    }

    /** `_prune`. */
    method Prune(now: int)
      modifies this
      ensures Contents() == Pruned(old(Contents()), rules, now)
    {
      PruneLocks(now);
      PruneAttempts(now);
    }

    method IsLocked(user: string, now: int) returns (locked: bool)
      modifies this
      ensures Contents() == Pruned(old(Contents()), rules, now)
      ensures locked <==> user in Contents().lockedUntil
    {
      Prune(now);
      locked := user in lockedUntil;
    }

    method TryAttempt(user: string, now: int) returns (ok: bool)
      modifies this
      ensures (Contents(), ok) == Attempted(old(Contents()), rules, user, now)
    {
      Prune(now);
      if user in lockedUntil {
        return false;
      }
      var times := (if user in attempts then attempts[user] else []) + [now];
      attempts := attempts[user := times];
      if |times| >= rules.limit {
        lockedUntil := lockedUntil[user := now + rules.lockout];
        attempts := attempts - {user};
        assert attempts == Pruned(old(Contents()), rules, now).attempts - {user};
      }
      ok := true;
    }

    method RecordSuccess(user: string)
      modifies this
      ensures Contents() == Cleared(old(Contents()), user)
    {
      attempts := attempts - {user};
      lockedUntil := lockedUntil - {user};
    }
  }

  // --- what a run of them allows one username ---

  datatype Event = Attempt(user: string, now: int) | Success(user: string) | Look(now: int)

  /** The throttle, and the times of one username's attempts allowed since its last success. */
  datatype Tally = Tally(throttle: Throttle, allowed: seq<int>)

  function OneEvent(t: Tally, r: Rules, user: string, e: Event): Tally {
    match e
    case Attempt(name, now) =>
      var next := Attempted(t.throttle, r, name, now);
      Tally(next.0, if name == user && next.1 then t.allowed + [now] else t.allowed)
    case Success(name) =>
      Tally(Cleared(t.throttle, name), if name == user then [] else t.allowed)
    case Look(now) => t.(throttle := Pruned(t.throttle, r, now))
  }

  /** What is known of `user` after these events. */
  function TallyOf(events: seq<Event>, r: Rules, user: string): Tally {
    if events == [] then Tally(EMPTY, [])
    else OneEvent(TallyOf(events[..|events| - 1], r, user), r, user, events[|events| - 1])
  }

  /** The clock does not go back; its last reading is at most `clock`. */
  predicate InOrder(events: seq<Event>, clock: int)
    decreases |events|
  {
    events == []
    || (var last := events[|events| - 1];
        if last.Success? then InOrder(events[..|events| - 1], clock)
        else last.now <= clock && InOrder(events[..|events| - 1], last.now))
  }

  /** Of the attempts allowed, the counted ones are the last `|allowed| - k`; the others are a window old. A locked
  username has none counted, and its lock ends `lockout` after its last attempt. */
  predicate Accounts(t: Tally, r: Rules, user: string, k: nat, clock: int) {
    && Sorted(t.allowed) && AllUpTo(t.allowed, clock) && k <= |t.allowed|
    && AttemptsOf(t.throttle, user) == t.allowed[k..]
    && if user in t.throttle.lockedUntil then
         k == |t.allowed| > 0 && t.throttle.lockedUntil[user] == t.allowed[k - 1] + r.lockout
       else AllUpTo(t.allowed[..k], clock - r.window) && |t.allowed| - k < Max(r.limit, 1)
  }

  lemma PruneAccounts(t: Tally, r: Rules, user: string, k: nat, clock: int, now: int) returns (m: nat)
    requires Accounts(t, r, user, k, clock) && clock <= now && r.lockout >= r.window
    ensures Accounts(t.(throttle := Pruned(t.throttle, r, now)), r, user, m, now)
  {
    var p := Pruned(t.throttle, r, now);
    var drop := DroppedAre(t.allowed[k..], now - r.window);
    assert AttemptsOf(p, user) == DropUpTo(AttemptsOf(t.throttle, user), now - r.window);
    m := k + drop;
    assert t.allowed[k..][drop..] == t.allowed[m..];
    assert t.allowed[..m] == t.allowed[..k] + t.allowed[k..][..drop];
  }

  lemma AttemptAccounts(t: Tally, r: Rules, user: string, k: nat, now: int) returns (m: nat)
    requires Accounts(t, r, user, k, now) && Pruned(t.throttle, r, now) == t.throttle
    requires Spaced(t.allowed, Max(r.limit, 1), r.window)
    ensures var after := OneEvent(t, r, user, Attempt(user, now));
      Accounts(after, r, user, m, now) && Spaced(after.allowed, Max(r.limit, 1), r.window)
  {
    if user in t.throttle.lockedUntil {
      m := k;
    } else {
      var longer := t.allowed + [now];
      AppendedInOrder(t.allowed, now);
      TakenStaysSpaced(t.allowed, k, Max(r.limit, 1), r.window, now);
      assert longer[k..] == t.allowed[k..] + [now] && longer[..k] == t.allowed[..k];
      m := if |longer[k..]| >= r.limit then |longer| else k;
      assert longer[|longer|..] == [];
    }
  }

  /** Pruning twice at one time is pruning once. */
  lemma PruneTwice(s: Throttle, r: Rules, now: int)
    ensures Pruned(Pruned(s, r, now), r, now) == Pruned(s, r, now)
  {
    var p := Pruned(s, r, now);
    forall n | n in p.attempts ensures DropUpTo(p.attempts[n], now - r.window) == p.attempts[n] {
      var k := DroppedAre(s.attempts[n], now - r.window);
    }
    assert Pruned(p, r, now).attempts == p.attempts;
    assert Pruned(p, r, now).lockedUntil == p.lockedUntil;
  }

  lemma OthersDoNotCount(t: Tally, r: Rules, user: string, name: string, k: nat, now: int)
    requires Accounts(t, r, user, k, now) && Pruned(t.throttle, r, now) == t.throttle && name != user
    ensures Accounts(OneEvent(t, r, user, Attempt(name, now)), r, user, k, now)
  {
  }

  lemma AccountsLater(t: Tally, r: Rules, user: string, k: nat, clock: int, later: int)
    requires Accounts(t, r, user, k, clock) && clock <= later
    ensures Accounts(t, r, user, k, later)
  {
  }

  lemma AnyAttemptAccounts(t: Tally, r: Rules, user: string, k: nat, name: string, now: int) returns (m: nat)
    requires Accounts(t, r, user, k, now) && r.lockout >= r.window && Spaced(t.allowed, Max(r.limit, 1), r.window)
    ensures var after := OneEvent(t, r, user, Attempt(name, now));
      Accounts(after, r, user, m, now) && Spaced(after.allowed, Max(r.limit, 1), r.window)
  {
    var pruned := t.(throttle := Pruned(t.throttle, r, now));
    var j := PruneAccounts(t, r, user, k, now, now);
    PruneTwice(t.throttle, r, now);
    assert OneEvent(t, r, user, Attempt(name, now)) == OneEvent(pruned, r, user, Attempt(name, now));
    if name == user {
      m := AttemptAccounts(pruned, r, user, j, now);
    } else {
      OthersDoNotCount(pruned, r, user, name, j, now);
      m := j;
    }
  }

  lemma SuccessAccounts(t: Tally, r: Rules, user: string, k: nat, name: string, clock: int) returns (m: nat)
    requires Accounts(t, r, user, k, clock)
    ensures Accounts(OneEvent(t, r, user, Success(name)), r, user, m, clock)
  {
    m := if name == user then 0 else k;
  }

  lemma {:induction false} EventsAccount(events: seq<Event>, r: Rules, user: string, clock: int) returns (k: nat)
    requires InOrder(events, clock) && r.lockout >= r.window
    ensures Accounts(TallyOf(events, r, user), r, user, k, clock)
    ensures Spaced(TallyOf(events, r, user).allowed, Max(r.limit, 1), r.window)
    decreases |events|
  {
    if events == [] {
      k := 0;
    } else {
      var init, last := events[..|events| - 1], events[|events| - 1];
      var before := TallyOf(init, r, user);
      if last.Success? {
        var j := EventsAccount(init, r, user, clock);
        k := SuccessAccounts(before, r, user, j, last.user, clock);
      } else {
        var j := EventsAccount(init, r, user, last.now);
        if last.Attempt? {
          k := AnyAttemptAccounts(before, r, user, j, last.user, last.now);
        } else {
          k := PruneAccounts(before, r, user, j, last.now, last.now);
        }
        AccountsLater(TallyOf(events, r, user), r, user, k, last.now, clock);
      }
    }
  }

  predicate WithinLimit(events: seq<Event>, r: Rules, user: string, lo: int) {
    CountIn(TallyOf(events, r, user).allowed, lo, lo + r.window) <= Max(r.limit, 1)
  }

  /** At most `limit` attempts for a username in every half-open window free of a success, however other usernames'
  attempts fall between them (at most one when the limit is not positive). */
  lemma SignInBound(events: seq<Event>, r: Rules, user: string, clock: int, lo: int)
    requires InOrder(events, clock) && r.lockout >= r.window
    ensures WithinLimit(events, r, user, lo)
  {
    var allowed := EventsAreSpaced(events, r, user, clock);
    SpacedWindows(allowed, Max(r.limit, 1), r.window, lo);
  }

  lemma EventsAreSpaced(events: seq<Event>, r: Rules, user: string, clock: int) returns (allowed: seq<int>)
    requires InOrder(events, clock) && r.lockout >= r.window
    ensures allowed == TallyOf(events, r, user).allowed
    ensures Sorted(allowed) && Spaced(allowed, Max(r.limit, 1), r.window)
  {
    allowed := TallyOf(events, r, user).allowed;
    var k := EventsAccount(events, r, user, clock);
  }

  /** An attempt is refused only within `lockout` of one that was allowed. */
  lemma RefusedOnlyWhenLocked(events: seq<Event>, r: Rules, user: string, now: int)
    requires InOrder(events, now) && r.lockout >= r.window
    requires !Attempted(TallyOf(events, r, user).throttle, r, user, now).1
    ensures var allowed := TallyOf(events, r, user).allowed;
      allowed != [] && now < allowed[|allowed| - 1] + r.lockout
  {
    var k := EventsAccount(events, r, user, now);
  }

  function Same(n: nat, t: int): (times: seq<int>)
    ensures |times| == n && forall i :: 0 <= i < n ==> times[i] == t
  {
    if n == 0 then [] else Same(n - 1, t) + [t]
  }

  /** `n` attempts at time 0. */
  function Burst(user: string, n: nat): seq<Event> {
    if n == 0 then [] else Burst(user, n - 1) + [Attempt(user, 0)]
  }

  function Counted(user: string, n: nat): Throttle {
    Throttle(if n == 0 then map[] else map[user := Same(n, 0)], map[])
  }

  lemma CountedIsPruned(user: string, n: nat, r: Rules)
    requires r.window > 0
    ensures Pruned(Counted(user, n), r, 0) == Counted(user, n)
  {
  }

  lemma OneMoreInBurst(user: string, n: nat, r: Rules)
    requires r.window > 0
    ensures n + 1 < r.limit ==>
      OneEvent(Tally(Counted(user, n), Same(n, 0)), r, user, Attempt(user, 0))
      == Tally(Counted(user, n + 1), Same(n + 1, 0))
    ensures n + 1 >= r.limit ==>
      OneEvent(Tally(Counted(user, n), Same(n, 0)), r, user, Attempt(user, 0))
      == Tally(Throttle(map[], map[user := r.lockout]), Same(n + 1, 0))
  {
    CountedIsPruned(user, n, r);
    assert Counted(user, n).attempts - {user} == map[];
  }

  lemma {:induction false} BurstIsCounted(user: string, n: nat, r: Rules)
    requires n < r.limit && r.window > 0
    ensures TallyOf(Burst(user, n), r, user) == Tally(Counted(user, n), Same(n, 0))
  {
    if n > 0 {
      BurstIsCounted(user, n - 1, r);
      OneMoreInBurst(user, n - 1, r);
      LastTally(Burst(user, n - 1), Attempt(user, 0), r, user);
    }
  }

  lemma {:induction false} BurstInOrder(user: string, n: nat)
    ensures InOrder(Burst(user, n), 0)
  {
    if n > 0 {
      BurstInOrder(user, n - 1);
      LastInOrder(Burst(user, n - 1), Attempt(user, 0), 0);
    }
  }

  lemma LastTally(events: seq<Event>, e: Event, r: Rules, user: string)
    ensures TallyOf(events + [e], r, user) == OneEvent(TallyOf(events, r, user), r, user, e)
  {
    assert (events + [e])[..|events|] == events;
  }

  lemma LastInOrder(events: seq<Event>, e: Event, clock: int)
    requires !e.Success? && e.now <= clock && InOrder(events, e.now)
    ensures InOrder(events + [e], clock)
  {
    assert (events + [e])[..|events|] == events;
  }

  /** As many attempts as the limit allows, and another as soon as the lock they cause has ended. */
  function Breach(user: string, r: Rules): seq<Event>
    requires r.limit >= 1
  {
    Burst(user, r.limit - 1) + [Attempt(user, 0)] + [Attempt(user, Max(r.lockout, 0))]
  }

  lemma AfterTheLock(user: string, r: Rules, times: seq<int>, until: int, now: int)
    requires until <= now
    ensures OneEvent(Tally(Throttle(map[], map[user := until]), times), r, user, Attempt(user, now)).allowed
         == times + [now]
  {
  }

  lemma BreachIsAllowed(user: string, r: Rules)
    requires r.limit >= 1 && r.window > 0
    ensures TallyOf(Breach(user, r), r, user).allowed == Same(r.limit, 0) + [Max(r.lockout, 0)]
    ensures InOrder(Breach(user, r), Max(r.lockout, 0))
  {
    BreachIsCounted(user, r);
    BreachInOrder(user, r);
  }

  lemma BreachIsCounted(user: string, r: Rules)
    requires r.limit >= 1 && r.window > 0
    ensures TallyOf(Breach(user, r), r, user).allowed == Same(r.limit, 0) + [Max(r.lockout, 0)]
  {
    BurstLocks(user, r);
    LastTally(Burst(user, r.limit - 1) + [Attempt(user, 0)], Attempt(user, Max(r.lockout, 0)), r, user);
    AfterTheLock(user, r, Same(r.limit, 0), r.lockout, Max(r.lockout, 0));
  }

  lemma BreachInOrder(user: string, r: Rules)
    requires r.limit >= 1
    ensures InOrder(Breach(user, r), Max(r.lockout, 0))
  {
    var again := Max(r.lockout, 0);
    BurstInOrder(user, r.limit - 1);
    LastInOrder(Burst(user, r.limit - 1), Attempt(user, 0), again);
    LastInOrder(Burst(user, r.limit - 1) + [Attempt(user, 0)], Attempt(user, again), again);
  }

  /** A full burst is all allowed, and locks the username. */
  lemma BurstLocks(user: string, r: Rules)
    requires r.limit >= 1 && r.window > 0
    ensures TallyOf(Burst(user, r.limit - 1) + [Attempt(user, 0)], r, user)
         == Tally(Throttle(map[], map[user := r.lockout]), Same(r.limit, 0))
  {
    BurstIsCounted(user, r.limit - 1, r);
    OneMoreInBurst(user, r.limit - 1, r);
    LastTally(Burst(user, r.limit - 1), Attempt(user, 0), r, user);
  }

  lemma ShortLockoutBreaks(r: Rules, user: string)
    requires r.limit >= 1 && r.window > 0 && r.lockout < r.window
    ensures InOrder(Breach(user, r), Max(r.lockout, 0)) && !WithinLimit(Breach(user, r), r, user, 0)
  {
    BreachIsAllowed(user, r);
    var allowed := Same(r.limit, 0) + [Max(r.lockout, 0)];
    forall t | t in allowed[0..] ensures 0 <= t < r.window {
      assert t in Same(r.limit, 0) || t == Max(r.lockout, 0);
    }
    CountAtLeast(allowed, 0, 0, r.window);
  }

  ghost predicate AlwaysWithinLimit(r: Rules, user: string) {
    forall events, clock: int, lo: int :: InOrder(events, clock) ==> WithinLimit(events, r, user, lo)
  }

  /** The promise holds for every run exactly when the lockout is at least as long as the window. */
  lemma BoundNeedsLongLockout(r: Rules, user: string)
    requires r.limit >= 1 && r.window > 0
    ensures AlwaysWithinLimit(r, user) <==> r.lockout >= r.window
  {
    if r.lockout >= r.window {
      forall events, clock: int, lo: int | InOrder(events, clock) ensures WithinLimit(events, r, user, lo) {
        SignInBound(events, r, user, clock, lo);
      }
    } else {
      ShortLockoutBreaks(r, user);
    }
  }
}
