/** One model call handed over between the asking thread and its worker (backend/chat/llm.py 52-92 and 122-144; the
same object in backend/voice.py 127-164). The class is the shared object, each of its methods what runs under the lock;
below it the two threads' steps are interleaved in every order. */
module CallHandover {
  import opened Basics

  datatype Socket = Socket(id: int)

  /** What a worker stores: a text, or the error that is raised instead. */
  datatype Result = Result(text: string, error: Option<string>)

  datatype State = State(done: bool, abandoned: bool, result: Result, sockets: seq<Socket>)

  const NEW: State := State(false, false, Result("", None), [])

  function Finished(c: State, r: Result): State {
    if c.abandoned then c else c.(done := true, result := r)
  }

  function Registered(c: State, sock: Socket): State {
    c.(sockets := c.sockets + [sock])
  }

  function GivenUp(c: State): State {
    if c.done then c else c.(abandoned := true)
  }

  class Call {
    var done: bool
    var abandoned: bool
    var text: string
    var error: Option<string>
    var sockets: seq<Socket>

    ghost function Contents(): State
      reads this
    {
      State(done, abandoned, Result(text, error), sockets)
    }

    constructor ()
      ensures Contents() == NEW
    {
      done, abandoned, text, error, sockets := false, false, "", None, [];
    }

    method Finish(newText: string, newError: Option<string>)
      modifies this
      ensures Contents() == Finished(old(Contents()), Result(newText, newError))
    {
      if abandoned {
        return;
      }
      done, text, error := true, newText, newError;
    }

    /** The part of `trace` under the lock: `late` is whether the socket must be shut at once. */
    method Register(sock: Socket) returns (late: bool)
      modifies this
      ensures Contents() == Registered(old(Contents()), sock) && late == old(abandoned)
    {
      sockets := sockets + [sock];
      late := abandoned;
    }

    /** The part of `give_up` under the lock: None when the worker had finished, else the sockets to shut. */
    method GiveUp() returns (toShut: Option<seq<Socket>>)
      modifies this
      ensures Contents() == GivenUp(old(Contents()))
      ensures toShut == if old(done) then None else Some(old(sockets))
    {
      if done {
        return None;
      }
      abandoned := true;
      toShut := Some(sockets);
    }
  }

  // --- the two threads ---

  datatype Asker =
    | Waiting
    | Shutting(left: seq<Socket>)
    | ReadingError
    | ReadingText
    | TimedOut
    | Raised(message: string)
    | Returned(text: string)

  datatype Worker = Working | MustShut(sock: Socket) | Ended

  datatype Event = Stored(result: Result) | Checked(gaveUp: bool)

  datatype World = World(call: State, asker: Asker, worker: Worker, shut: set<Socket>, log: seq<Event>)

  const START: World := World(NEW, Waiting, Working, {}, [])

  /** What may happen next; a step whose thread is elsewhere does nothing. */
  datatype Step =
    | Connects(sock: Socket)
    | ShutsLate
    | Finishes(result: Result)
    | GivesUp
    | ShutsNext
    | ReadsError
    | ReadsText

  function Do(w: World, step: Step): World {
    match step
    case Connects(sock) =>
      if !w.worker.Working? then w
      else w.(call := Registered(w.call, sock), worker := if w.call.abandoned then MustShut(sock) else Working)
    case ShutsLate =>
      if !w.worker.MustShut? then w else w.(shut := w.shut + {w.worker.sock}, worker := Working)
    case Finishes(r) =>
      if !w.worker.Working? then w
      else w.(call := Finished(w.call, r), worker := Ended,
              log := if w.call.abandoned then w.log else w.log + [Stored(r)])
    case GivesUp =>
      if !w.asker.Waiting? then w
      else w.(call := GivenUp(w.call), asker := if w.call.done then ReadingError else Shutting(w.call.sockets),
              log := w.log + [Checked(!w.call.done)])
    case ShutsNext =>
      if !w.asker.Shutting? then w
      else if w.asker.left == [] then w.(asker := TimedOut)
      else w.(shut := w.shut + {w.asker.left[0]}, asker := Shutting(w.asker.left[1..]))
    case ReadsError =>
      if !w.asker.ReadingError? then w
      else w.(asker := if w.call.result.error.Some? then Raised(w.call.result.error.value) else ReadingText)
    case ReadsText =>
      if !w.asker.ReadingText? then w else w.(asker := Returned(w.call.result.text))
  }

  function Run(w: World, steps: seq<Step>): World {
    if steps == [] then w else Do(Run(w, steps[..|steps| - 1]), steps[|steps| - 1])
  }

  // --- what every step keeps ---

  predicate GaveUp(a: Asker) {
    a.Shutting? || a.TimedOut?
  }

  predicate GotResult(a: Asker) {
    a.ReadingError? || a.ReadingText? || a.Raised? || a.Returned?
  }

  /** The only logs there are: nothing, a result or the giving up alone, or a result and then a check that finds it. */
  predicate LogIs(w: World) {
    || (w.log == [] && w.asker.Waiting? && !w.call.done)
    || (w.log == [Stored(w.call.result)] && w.asker.Waiting? && w.call.done)
    || (w.log == [Checked(true)] && GaveUp(w.asker) && !w.call.done)
    || (w.log == [Stored(w.call.result), Checked(false)] && GotResult(w.asker) && w.call.done)
  }

  predicate ReadRight(w: World) {
    && (w.asker.ReadingText? || w.asker.Returned? ==> w.call.result.error.None?)
    && (w.asker.Raised? ==> w.call.result.error == Some(w.asker.message))
    && (w.asker.Returned? ==> w.call.result.text == w.asker.text)
  }

  predicate ShutOrPending(w: World, sock: Socket) {
    || sock in w.shut
    || (w.asker.Shutting? && sock in w.asker.left)
    || w.worker == MustShut(sock)
  }

  /** Once abandoned, every socket is shut or about to be; before, none is. */
  predicate SocketsAccounted(w: World) {
    && (w.call.abandoned ==> forall sock :: sock in w.call.sockets ==> ShutOrPending(w, sock))
    && (!w.call.abandoned ==> w.shut == {} && !w.worker.MustShut?)
    && (forall sock :: sock in w.shut ==> sock in w.call.sockets)
    && (w.worker.MustShut? ==> w.worker.sock in w.call.sockets)
    && (w.asker.Shutting? ==> forall sock :: sock in w.asker.left ==> sock in w.call.sockets)
  }

  predicate Inv(w: World) {
    && LogIs(w) && ReadRight(w) && SocketsAccounted(w)
    && w.call.abandoned == GaveUp(w.asker)
    && (w.call.done ==> w.worker.Ended?)
  }

  lemma StepKeeps(w: World, step: Step)
    requires Inv(w)
    ensures Inv(Do(w, step))
  {
  }

  lemma {:induction false} RunKeeps(steps: seq<Step>)
    ensures Inv(Run(START, steps))
  {
    if steps != [] {
      RunKeeps(steps[..|steps| - 1]);
      StepKeeps(Run(START, steps[..|steps| - 1]), steps[|steps| - 1]);
    }
  }

  // --- what that means ---

  function StoredIn(log: seq<Event>): seq<Result> {
    if log == [] then []
    else StoredIn(log[..|log| - 1]) + if log[|log| - 1].Stored? then [log[|log| - 1].result] else []
  }

  /** In every order of the two threads' steps: never both finished and abandoned, a result stored at most once, and
  never after the asker gave up. */
  lemma OneOrTheOther(steps: seq<Step>)
    ensures var w := Run(START, steps);
      && !(w.call.done && w.call.abandoned)
      && |StoredIn(w.log)| <= 1
      && (w.call.done <==> StoredIn(w.log) == [w.call.result])
      && (forall i, j :: 0 <= i < j < |w.log| && w.log[i] == Checked(true) ==> !w.log[j].Stored?)
  {
    RunKeeps(steps);
    var w := Run(START, steps);
    if w.log != [] {
      assert w.log[..1] == [w.log[0]] && w.log[..0] == [];
      assert StoredIn(w.log[..1]) == StoredIn([]) + if w.log[0].Stored? then [w.log[0].result] else [];
    }
  }

  /** What `complete` does at last, by what the worker has stored: the asker gets the one result exactly when it was
  stored before the asker's time was up. */
  lemma AskerGetsResultIffFirst(steps: seq<Step>)
    ensures var w := Run(START, steps);
      && (w.asker.TimedOut? ==> w.log == [Checked(true)])
      && (forall text :: w.asker == Returned(text) ==> w.log == [Stored(Result(text, None)), Checked(false)])
      && (forall message :: w.asker == Raised(message) ==>
            |w.log| == 2 && w.log[0].Stored? && w.log[0].result.error == Some(message) && w.log[1] == Checked(false))
  {
    RunKeeps(steps);
  }

  /** Once an abandoned call's two threads have nothing left to do at once, every socket ever registered has been shut,
  early or late. */
  lemma AbandonedSocketsAreShut(steps: seq<Step>)
    ensures var w := Run(START, steps);
      w.asker.TimedOut? && !w.worker.MustShut? ==> forall sock :: sock in w.call.sockets <==> sock in w.shut
  {
    RunKeeps(steps);
  }

  /** A call whose result was taken never has a socket shut under it. */
  lemma FinishedSocketsAreLeft(steps: seq<Step>)
    ensures !GaveUp(Run(START, steps).asker) ==> Run(START, steps).shut == {}
  {
    RunKeeps(steps);
  }

  /** How many steps of its own an asker whose time is up still has to take, at most. */
  function Remaining(a: Asker): nat {
    match a
    case Shutting(left) => |left| + 1
    case ReadingError => 2
    case ReadingText => 1
    case _ => 0
  }

  /** The asker's next step. */
  function NextOf(a: Asker): Step {
    match a
    case Waiting => GivesUp
    case Shutting(_) => ShutsNext
    case ReadingError => ReadsError
    case _ => ReadsText
  }

  lemma AskerMovesOn(w: World, step: Step)
    requires !w.asker.Waiting?
    ensures !Do(w, step).asker.Waiting? && Remaining(Do(w, step).asker) <= Remaining(w.asker)
    ensures step == NextOf(w.asker) && Remaining(w.asker) > 0 ==> Remaining(Do(w, step).asker) < Remaining(w.asker)
  {
  }

  /** The asker's own steps among all those taken, until it has its outcome. */
  function OwnSteps(w: World, steps: seq<Step>): nat {
    if steps == [] then 0
    else
      var before := Run(w, steps[..|steps| - 1]).asker;
      var own := Remaining(before) > 0 && steps[|steps| - 1] == NextOf(before);
      OwnSteps(w, steps[..|steps| - 1]) + if own then 1 else 0
  }

  /** Once its time is up the asker is not held up: after as many of its own steps as it had sockets to shut, and one,
  it has its outcome, whatever the worker does between them, further sockets included. */
  lemma {:induction false} AskerIsNotHeldUp(w: World, steps: seq<Step>)
    requires !w.asker.Waiting?
    ensures !Run(w, steps).asker.Waiting?
    ensures OwnSteps(w, steps) + Remaining(Run(w, steps).asker) <= Remaining(w.asker)
  {
    if steps != [] {
      AskerIsNotHeldUp(w, steps[..|steps| - 1]);
      AskerMovesOn(Run(w, steps[..|steps| - 1]), steps[|steps| - 1]);
    }
  }
}
