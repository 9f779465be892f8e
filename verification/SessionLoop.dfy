/** The line protocol of an interactive session: one thread reads commands and queues them, another
    answers them, and they share a queue, a stop flag and the session's cancel flag. Each atomic step
    of either thread is one step of a state machine; the threads interleave freely. */
module SessionLoop {
  import opened Wrappers

  /** A generate command also names the most decodes its turn may need after the first one, which the
      prompt and the output allowance bound. */
  datatype Command = Generate(id: int, more: nat) | Bad(id: int) | Close

  datatype Line = Cancel | Request(cmd: Command)

  datatype Outcome = Completed(cancelled: bool) | Error(fatal: bool)

  /** How a decode ended: the runtime asks for the cancel flag while it decodes, and the end of a decode
      is the last time it asked. It aborts when the flag is up; a decode can also break for reasons of
      its own. */
  datatype DecodeEnd = Through | Aborted | Broke

  /** What is printed, what happens to the cancel flag, and how each decode ended. */
  datatype Event =
    | Begun(id: int, more: nat)
    | Answered(id: int, outcome: Outcome)
    | Refused(id: int)
    | FlagReset
    | CancelCalled
    | Decoded(end: DecodeEnd)

  datatype Reader =
    | Reading
    | Cancelling
    | Holding(cmd: Command)
    | Leaving
    | Closing
    | ReaderGone(closed: bool)

  datatype Worker =
    | Waiting
    | Started(id: int, more: nat)
    | Running(id: int, left: nat, decoded: bool)
    | Broken(id: int)
    | Returned(id: int, outcome: Outcome)
    | Quitting(fatal: bool)
    | WorkerGone(fatal: bool)

  /** `handled` counts the lines that were dealt with: queued, or turned into a cancel. */
  datatype State = State(
    handled: nat,
    reader: Reader,
    queue: seq<Command>,
    stop: bool,
    flag: bool,
    worker: Worker,
    log: seq<Event>)

  ghost predicate Init(s: State) {
    s == State(0, Reading, [], false, false, Waiting, [])
  }

  // The reader.

  ghost predicate ReadLine(input: seq<Line>, s: State, t: State) {
    && s.reader == Reading && s.handled < |input|
    && t == s.(reader := if s.stop then Leaving
                         else match input[s.handled]
                           case Cancel => Cancelling
                           case Request(c) => Holding(c))
  }

  ghost predicate EndOfInput(input: seq<Line>, s: State, t: State) {
    s.reader == Reading && s.handled == |input| && t == s.(reader := Leaving)
  }

  /** The session is gone once the worker is, and then a cancel may find nobody to call. */
  ghost predicate CancelSession(s: State, t: State) {
    && s.reader == Cancelling
    && (|| t == s.(reader := Reading, handled := s.handled + 1, flag := true, log := s.log + [CancelCalled])
        || (s.worker.WorkerGone? && t == s.(reader := Reading, handled := s.handled + 1)))
  }

  ghost predicate Enqueue(s: State, t: State) {
    && s.reader.Holding?
    && t == if s.stop then s.(reader := Leaving)
            else s.(reader := Reading, handled := s.handled + 1, queue := s.queue + [s.reader.cmd])
  }

  ghost predicate Leave(s: State, t: State) {
    && s.reader == Leaving
    && t == if s.stop then s.(reader := ReaderGone(false)) else s.(reader := Closing, stop := true)
  }

  ghost predicate EnqueueClose(s: State, t: State) {
    s.reader == Closing && t == s.(reader := ReaderGone(true), queue := s.queue + [Close])
  }

  // The worker.

  ghost predicate Dequeue(s: State, t: State) {
    && s.worker == Waiting && s.queue != []
    && var u := s.(queue := s.queue[1..]);
       t == match s.queue[0]
         case Close => u.(worker := Quitting(false))
         case Bad(id) => u.(log := s.log + [Refused(id)])
         case Generate(id, more) => u.(log := s.log + [Begun(id, more)], worker := Started(id, more))
  }

  /** The turn starts by clearing the cancel flag. */
  ghost predicate ResetFlag(s: State, t: State) {
    && s.worker.Started?
    && t == s.(flag := false, log := s.log + [FlagReset], worker := Running(s.worker.id, s.worker.more + 1, false))
  }

  /** One decode: it goes through while the flag is down, and is aborted when the flag is up; then the
      turn is cancelled. */
  ghost predicate Decode(s: State, t: State) {
    && s.worker.Running? && s.worker.left > 0
    && t == if s.flag
            then s.(log := s.log + [Decoded(Aborted)], worker := Returned(s.worker.id, Completed(true)))
            else s.(log := s.log + [Decoded(Through)], worker := Running(s.worker.id, s.worker.left - 1, true))
  }

  /** A decode that fails by itself. */
  ghost predicate BreakDecode(s: State, t: State) {
    && s.worker.Running? && s.worker.left > 0
    && t == s.(log := s.log + [Decoded(Broke)], worker := Broken(s.worker.id))
  }

  /** After a failed decode the turn reads the flag, and reports a failure only if it is down. */
  ghost predicate ReadFlag(s: State, t: State, fatal: bool) {
    && s.worker.Broken?
    && t == s.(worker := Returned(s.worker.id, if s.flag then Completed(true) else Error(fatal)))
  }

  /** A turn that has decoded can be complete. It does not look at the flag again. */
  ghost predicate FinishTurn(s: State, t: State) {
    s.worker.Running? && s.worker.decoded && t == s.(worker := Returned(s.worker.id, Completed(false)))
  }

  /** A turn can be rejected or fail for a reason of its own between two decodes. */
  ghost predicate FailTurn(s: State, t: State, fatal: bool) {
    s.worker.Running? && t == s.(worker := Returned(s.worker.id, Error(fatal)))
  }

  ghost predicate Answer(s: State, t: State) {
    && s.worker.Returned?
    && t == s.(log := s.log + [Answered(s.worker.id, s.worker.outcome)],
               worker := if s.worker.outcome == Error(true) then Quitting(true) else Waiting)
  }

  ghost predicate Quit(s: State, t: State) {
    s.worker.Quitting? && t == s.(stop := true, worker := WorkerGone(s.worker.fatal))
  }

  ghost predicate ReaderStep(input: seq<Line>, s: State, t: State) {
    || ReadLine(input, s, t) || EndOfInput(input, s, t) || CancelSession(s, t)
    || Enqueue(s, t) || Leave(s, t) || EnqueueClose(s, t)
  }

  ghost predicate WorkerStep(s: State, t: State) {
    || Dequeue(s, t) || ResetFlag(s, t) || TurnStep(s, t) || Answer(s, t) || Quit(s, t)
  }

  ghost predicate TurnStep(s: State, t: State) {
    || Decode(s, t) || BreakDecode(s, t) || FinishTurn(s, t)
    || ReadFlag(s, t, false) || ReadFlag(s, t, true) || FailTurn(s, t, false) || FailTurn(s, t, true)
  }

  ghost predicate Next(input: seq<Line>, s: State, t: State) {
    ReaderStep(input, s, t) || WorkerStep(s, t)
  }

  /** A run of the loop, from its start, in any interleaving. */
  ghost predicate Run(input: seq<Line>, run: seq<State>) {
    && run != [] && Init(run[0])
    && forall i :: 0 < i < |run| ==> Next(input, run[i - 1], run[i])
  }

  // What the log says.

  /** The commands of the lines, cancels apart, in order. */
  function Requests(input: seq<Line>): (cs: seq<Command>)
    ensures |cs| <= |input|
  {
    if input == [] then []
    else Requests(input[..|input| - 1]) + match input[|input| - 1] case Cancel => [] case Request(c) => [c]
  }

  /** The commands taken up, in order. */
  function Taken(log: seq<Event>): seq<Command> {
    if log == [] then []
    else Taken(log[..|log| - 1]) + TakenBy(log[|log| - 1])
  }

  function TakenBy(e: Event): seq<Command> {
    match e
    case Begun(id, more) => [Generate(id, more)]
    case Refused(id) => [Bad(id)]
    case _ => []
  }

  /** Between two turns; in a turn that has not cleared the flag; in one that has, with whether a cancel
      came since and how its last decode ended. */
  datatype Phase = Idle | Opened(id: int) | Live(id: int, called: bool, last: Option<DecodeEnd>)

  /** The grammar of the log: where it leaves the worker, or None when an event is out of place. */
  function PhaseOf(log: seq<Event>): Option<Phase> {
    if log == [] then Some(Idle)
    else match PhaseOf(log[..|log| - 1])
      case None => None
      case Some(p) => After(p, log[|log| - 1])
  }

  function After(p: Phase, e: Event): Option<Phase> {
    match e
    case Begun(id, _) => if p == Idle then Some(Opened(id)) else None
    case Refused(_) => if p == Idle then Some(Idle) else None
    case FlagReset => if p.Opened? then Some(Live(p.id, false, None)) else None
    case CancelCalled => Some(if p.Live? then p.(called := true) else p)
    case Decoded(end) => if CanDecode(p, end) then Some(p.(last := Some(end))) else None
    case Answered(id, o) => if CanAnswer(p, id, o) then Some(Idle) else None
  }

  /** Decodes follow only decodes that went through, and see whether the flag is up. */
  predicate CanDecode(p: Phase, end: DecodeEnd) {
    && p.Live? && (p.last == None || p.last == Some(Through))
    && (end == Through ==> !p.called) && (end == Aborted ==> p.called)
  }

  predicate CanAnswer(p: Phase, id: int, o: Outcome) {
    && p.Live? && p.id == id
    && (o == Completed(true) ==> p.called && (p.last == Some(Aborted) || p.last == Some(Broke)))
    && (o == Completed(false) ==> p.last == Some(Through))
  }

  /** Everything up to the first close. */
  function UpToClose(cs: seq<Command>): (r: seq<Command>)
    ensures r <= cs && Close !in r
  {
    if cs == [] || cs[0] == Close then [] else [cs[0]] + UpToClose(cs[1..])
  }

  lemma {:induction false} UpToCloseIs(before: seq<Command>, after: seq<Command>)
    requires Close !in before && (after == [] || after[0] == Close)
    ensures UpToClose(before + after) == before
  {
    if before != [] {
      UpToCloseIs(before[1..], after);
      assert (before + after)[1..] == before[1..] + after;
    } else {
      assert before + after == after;
    }
  }

  // The invariant.

  /** What the worker is doing agrees with what the log says. */
  ghost predicate LogMatches(s: State) {
    Fits(s.worker, s.flag, PhaseOf(s.log))
  }

  ghost predicate Fits(w: Worker, flag: bool, phase: Option<Phase>) {
    match w
    case Started(id, _) => phase == Some(Opened(id))
    case Running(id, left, decoded) =>
      (left > 0 || decoded) && phase == Some(Live(id, flag, if decoded then Some(Through) else None))
    case Broken(id) => phase == Some(Live(id, flag, Some(Broke)))
    case Returned(id, o) => phase.Some? && CanAnswer(phase.value, id, o)
    case _ => phase == Some(Idle)
  }

  /** The close command, if the worker has taken it. */
  function ClosePopped(w: Worker): seq<Command> {
    if (w.Quitting? || w.WorkerGone?) && !w.fatal then [Close] else []
  }

  /** The close command, if the reader has added one at the end of its input. */
  function CloseAdded(r: Reader): seq<Command> {
    if r == ReaderGone(true) then [Close] else []
  }

  /** The commands the reader queued, in order: taken up, dropped by closing, or waiting. */
  function Queued(s: State): seq<Command> {
    Taken(s.log) + (ClosePopped(s.worker) + s.queue)
  }

  /** No command is lost, doubled or reordered between the input and the log. */
  ghost predicate Conserved(input: seq<Line>, s: State)
    requires s.handled <= |input|
  {
    Queued(s) == Requests(input[..s.handled]) + CloseAdded(s.reader)
  }

  /** Who raised the stop flag, and what the reader leaves behind. */
  ghost predicate StopMatches(input: seq<Line>, s: State)
    requires s.handled <= |input|
  {
    && (s.stop <==> s.worker.WorkerGone? || s.reader == Closing || s.reader == ReaderGone(true))
    && (s.reader == Closing || s.reader == ReaderGone(true) ==> s.handled == |input|)
    && (s.reader == Leaving && !s.worker.WorkerGone? ==> s.handled == |input|)
    && (s.reader == ReaderGone(false) ==> s.worker.WorkerGone?)
    && (s.reader == Cancelling ==> s.handled < |input| && input[s.handled] == Cancel)
    && (s.reader.Holding? ==> s.handled < |input| && input[s.handled] == Request(s.reader.cmd))
  }

  ghost predicate Inv(input: seq<Line>, s: State) {
    s.handled <= |input| && LogMatches(s) && Conserved(input, s) && StopMatches(input, s)
  }

  lemma Extend(log: seq<Event>, e: Event)
    ensures Taken(log + [e]) == Taken(log) + TakenBy(e)
    ensures PhaseOf(log + [e]) == match PhaseOf(log) case None => None case Some(p) => After(p, e)
  {
    assert (log + [e])[..|log|] == log;
  }

  lemma HandleLine(input: seq<Line>, k: nat)
    requires k < |input|
    ensures Requests(input[..k + 1]) == Requests(input[..k]) + match input[k] case Cancel => [] case Request(c) => [c]
  {
    assert input[..k + 1][..k] == input[..k];
  }

  // A step says at most one thing. What it says is told apart from the log it is appended to.

  function AfterAll(p: Option<Phase>, es: seq<Event>): Option<Phase>
  {
    if es == [] || p.None? then p else After(p.value, es[0])
  }

  function TakenByAll(es: seq<Event>): seq<Command> {
    if es == [] then [] else TakenBy(es[0])
  }

  lemma ExtendAll(log: seq<Event>, es: seq<Event>)
    requires |es| <= 1
    ensures Taken(log + es) == Taken(log) + TakenByAll(es)
    ensures PhaseOf(log + es) == AfterAll(PhaseOf(log), es)
  {
    if es == [] {
      assert log + es == log;
    } else {
      assert es == [es[0]];
      Extend(log, es[0]);
    }
  }

  lemma ReaderSays(input: seq<Line>, s: State, t: State) returns (es: seq<Event>)
    requires ReaderStep(input, s, t)
    ensures t.log == s.log + es && t.worker == s.worker
    ensures (es == [] && t.flag == s.flag) || (es == [CancelCalled] && t.flag)
  {
    es := if t.log == s.log then [] else [CancelCalled];
  }

  lemma WorkerSays(s: State, t: State) returns (es: seq<Event>)
    requires WorkerStep(s, t)
    ensures t.log == s.log + es && |es| <= 1
    ensures forall p {:trigger Fits(s.worker, s.flag, Some(p))} ::
              Fits(s.worker, s.flag, Some(p)) ==> Fits(t.worker, t.flag, AfterAll(Some(p), es))
    ensures TakenByAll(es) + (ClosePopped(t.worker) + t.queue) == ClosePopped(s.worker) + s.queue
  {
    if Dequeue(s, t) {
      es := match s.queue[0]
        case Close => []
        case Bad(id) => [Refused(id)]
        case Generate(id, more) => [Begun(id, more)];
      assert s.queue == [s.queue[0]] + t.queue;
    } else if ResetFlag(s, t) {
      es := [FlagReset];
    } else if Answer(s, t) {
      es := [Answered(s.worker.id, s.worker.outcome)];
    } else if TurnStep(s, t) {
      es := TurnSays(s, t);
    } else {
      es := [];
    }
  }

  lemma TurnSays(s: State, t: State) returns (es: seq<Event>)
    requires TurnStep(s, t)
    ensures t.log == s.log + es && |es| <= 1 && t.queue == s.queue && !t.worker.Quitting? && !t.worker.WorkerGone?
    ensures !s.worker.Quitting? && !s.worker.WorkerGone? && TakenByAll(es) == []
    ensures forall p {:trigger Fits(s.worker, s.flag, Some(p))} ::
              Fits(s.worker, s.flag, Some(p)) ==> Fits(t.worker, t.flag, AfterAll(Some(p), es))
  {
    if Decode(s, t) {
      es := [Decoded(if s.flag then Aborted else Through)];
    } else if BreakDecode(s, t) {
      es := [Decoded(Broke)];
    } else {
      es := [];
    }
  }

  lemma LogKept(input: seq<Line>, s: State, t: State)
    requires LogMatches(s) && Next(input, s, t)
    ensures LogMatches(t)
  {
    var es;
    if ReaderStep(input, s, t) {
      es := ReaderSays(input, s, t);
    } else {
      es := WorkerSays(s, t);
    }
    ExtendAll(s.log, es);
    assert PhaseOf(s.log) == Some(PhaseOf(s.log).value);
  }

  lemma StopKept(input: seq<Line>, s: State, t: State)
    requires s.handled <= |input| && StopMatches(input, s) && Next(input, s, t)
    ensures t.handled <= |input| && StopMatches(input, t)
  {
  }

  lemma EnqueueConserves(input: seq<Line>, s: State, t: State)
    requires s.handled < |input| && s.reader.Holding? && input[s.handled] == Request(s.reader.cmd)
    requires Conserved(input, s) && Enqueue(s, t)
    ensures Conserved(input, t)
  {
    HandleLine(input, s.handled);
    assert s.stop || Queued(t) == Queued(s) + [s.reader.cmd];
    assert CloseAdded(s.reader) == CloseAdded(t.reader) == [];
  }

  lemma CancelConserves(input: seq<Line>, s: State, t: State)
    requires s.handled < |input| && input[s.handled] == Cancel
    requires Conserved(input, s) && CancelSession(s, t)
    ensures Conserved(input, t)
  {
    HandleLine(input, s.handled);
    CancelTakesNothing(s.log);
  }

  lemma CancelTakesNothing(log: seq<Event>)
    ensures Taken(log + [CancelCalled]) == Taken(log)
  {
    Extend(log, CancelCalled);
  }

  lemma CloseConserves(input: seq<Line>, s: State, t: State)
    requires s.handled <= |input| && Conserved(input, s) && EnqueueClose(s, t)
    ensures Conserved(input, t)
  {
    assert Queued(t) == Queued(s) + [Close];
  }

  lemma ConservedByReader(input: seq<Line>, s: State, t: State)
    requires s.handled <= |input| && t.handled <= |input|
    requires StopMatches(input, s) && Conserved(input, s) && ReaderStep(input, s, t)
    ensures Conserved(input, t)
  {
    match s.reader
    case Cancelling => CancelConserves(input, s, t);
    case Holding(_) => EnqueueConserves(input, s, t);
    case Closing => CloseConserves(input, s, t);
    case _ =>
  }

  lemma WorkerKeepsQueued(s: State, t: State)
    requires WorkerStep(s, t)
    ensures Queued(t) == Queued(s)
  {
    var es := WorkerSays(s, t);
    ExtendAll(s.log, es);
    Reassociate(Taken(s.log), TakenByAll(es), ClosePopped(t.worker) + t.queue);
  }

  lemma Reassociate(a: seq<Command>, b: seq<Command>, c: seq<Command>)
    ensures a + b + c == a + (b + c)
  {
  }

  lemma InvKept(input: seq<Line>, s: State, t: State)
    requires Inv(input, s) && Next(input, s, t)
    ensures Inv(input, t)
  {
    LogKept(input, s, t);
    StopKept(input, s, t);
    ConservedKept(input, s, t);
  }

  lemma ConservedKept(input: seq<Line>, s: State, t: State)
    requires s.handled <= |input| && t.handled <= |input|
    requires StopMatches(input, s) && Conserved(input, s) && Next(input, s, t)
    ensures Conserved(input, t)
  {
    if ReaderStep(input, s, t) {
      ConservedByReader(input, s, t);
    } else {
      ConservedByWorker(input, s, t);
    }
  }

  lemma ConservedByWorker(input: seq<Line>, s: State, t: State)
    requires s.handled <= |input| && t.handled <= |input| && Conserved(input, s) && WorkerStep(s, t)
    ensures Conserved(input, t)
  {
    WorkerKeepsQueued(s, t);
    WorkerLeavesReader(s, t);
  }

  lemma WorkerLeavesReader(s: State, t: State)
    requires WorkerStep(s, t)
    ensures t.handled == s.handled && t.reader == s.reader
  {
  }

  lemma {:induction false} RunInv(input: seq<Line>, run: seq<State>, i: nat)
    requires Run(input, run) && i < |run|
    ensures Inv(input, run[i])
  {
    if i > 0 {
      RunInv(input, run, i - 1);
      InvKept(input, run[i - 1], run[i]);
    }
  }

  // What a fatal failure does.

  predicate IsFatal(e: Event) { e.Answered? && e.outcome == Error(true) }

  /** The worker is on its way out for a fatal failure exactly when one was answered, and since then nothing
      but cancels was logged. */
  ghost predicate FatalSays(s: State) {
    && (s.worker in {Quitting(true), WorkerGone(true)} <==> exists k :: 0 <= k < |s.log| && IsFatal(s.log[k]))
    && forall k, j :: 0 <= k < j < |s.log| && IsFatal(s.log[k]) ==> s.log[j] == CancelCalled
  }

  lemma FatalKept(input: seq<Line>, s: State, t: State)
    requires FatalSays(s) && Next(input, s, t)
    ensures FatalSays(t)
  {
    var es;
    if ReaderStep(input, s, t) {
      es := ReaderSays(input, s, t);
    } else {
      es := WorkerSays(s, t);
      WorkerTurnsFatal(s, t, es);
    }
    FatalGrows(s.log, es);
  }

  lemma WorkerTurnsFatal(s: State, t: State, es: seq<Event>)
    requires WorkerStep(s, t) && t.log == s.log + es && |es| <= 1
    ensures t.worker in {Quitting(true), WorkerGone(true)}
            <==> s.worker in {Quitting(true), WorkerGone(true)} || (es != [] && IsFatal(es[0]))
    ensures s.worker in {Quitting(true), WorkerGone(true)} ==> es == []
  {
    assert es != [] ==> t.log[|s.log|] == es[0];
  }

  lemma FatalGrows(log: seq<Event>, es: seq<Event>)
    requires |es| <= 1
    ensures (exists k :: 0 <= k < |log + es| && IsFatal((log + es)[k]))
            <==> (exists k :: 0 <= k < |log| && IsFatal(log[k])) || (es != [] && IsFatal(es[0]))
  {
    var now := log + es;
    forall k | 0 <= k < |log|
      ensures now[k] == log[k]
    {
    }
    assert es != [] ==> now[|log|] == es[0];
  }

  /** A fatal failure ends the loop: after its answer no command is taken up, no turn runs and nothing is answered;
      and the worker does not quit for it without one. */
  lemma {:induction false} FatalEndsTheLoop(input: seq<Line>, run: seq<State>, i: nat)
    requires Run(input, run) && i < |run|
    ensures FatalSays(run[i])
  {
    if i > 0 {
      FatalEndsTheLoop(input, run, i - 1);
      FatalKept(input, run[i - 1], run[i]);
    }
  }

  // What the invariant means.

  /** The ids of the turns begun, and of the turns answered, in order. */
  function BeginIds(log: seq<Event>): seq<int> {
    if log == [] then []
    else BeginIds(log[..|log| - 1]) + if log[|log| - 1].Begun? then [log[|log| - 1].id] else []
  }

  function AnswerIds(log: seq<Event>): seq<int> {
    if log == [] then []
    else AnswerIds(log[..|log| - 1]) + if log[|log| - 1].Answered? then [log[|log| - 1].id] else []
  }

  function OpenId(p: Phase): seq<int> {
    match p
    case Idle => []
    case Opened(id) => [id]
    case Live(id, _, _) => [id]
  }

  /** In a well-formed log, and so at every moment of it, the turns answered are the turns begun, in
      the same order, but for at most one that is still open. */
  lemma {:induction false} BeginsAreAnswered(log: seq<Event>)
    requires PhaseOf(log).Some?
    ensures BeginIds(log) == AnswerIds(log) + OpenId(PhaseOf(log).value)
  {
    if log != [] {
      BeginsAreAnswered(log[..|log| - 1]);
    }
  }

  lemma {:induction false} PrefixIsWellFormed(log: seq<Event>, k: nat)
    requires k <= |log| && PhaseOf(log).Some?
    ensures PhaseOf(log[..k]).Some?
    decreases |log| - k
  {
    if k < |log| {
      PrefixIsWellFormed(log, k + 1);
      assert log[..k + 1][..k] == log[..k];
    } else {
      assert log[..k] == log;
    }
  }

  /** Where the live turn of a log began and cleared the flag. Before the reset there were only cancels,
      and after it only cancels and decodes. */
  ghost predicate TurnSpan(log: seq<Event>, id: int, begin: nat, reset: nat) {
    && begin < reset < |log| && log[begin].Begun? && log[begin].id == id && log[reset] == FlagReset
    && (forall k :: begin < k < reset ==> log[k] == CancelCalled)
    && (forall k :: reset < k < |log| ==> log[k] == CancelCalled || log[k].Decoded?)
  }

  /** The turn that cleared the flag at `reset` ended its last decode at d. */
  ghost predicate LastDecode(log: seq<Event>, reset: nat, d: nat) {
    && reset < d < |log| && log[d].Decoded?
    && (forall k :: d < k < |log| ==> !log[k].Decoded?)
  }

  /** A cancel was called strictly between the two places of the log. */
  ghost predicate CancelledBetween(log: seq<Event>, from: nat, end: nat) {
    exists k :: from < k < end && k < |log| && log[k] == CancelCalled
  }

  /** What a live phase says about its turn. */
  ghost predicate SpanSays(log: seq<Event>, p: Phase, begin: nat, reset: nat, d: nat)
    requires p.Live?
  {
    && TurnSpan(log, p.id, begin, reset)
    && (p.called <==> CancelledBetween(log, reset, |log|))
    && (p.last.Some? ==>
          && LastDecode(log, reset, d) && log[d] == Decoded(p.last.value)
          && (p.last.value == Through ==> !CancelledBetween(log, reset, d))
          && (p.last.value == Aborted ==> CancelledBetween(log, reset, d)))
    && (p.last == None ==> forall k :: reset < k < |log| ==> !log[k].Decoded?)
  }

  lemma {:induction false} OpenedSpan(log: seq<Event>, id: int) returns (begin: nat)
    requires PhaseOf(log) == Some(Opened(id))
    ensures begin < |log| && log[begin].Begun? && log[begin].id == id
    ensures forall k :: begin < k < |log| ==> log[k] == CancelCalled
  {
    if log[|log| - 1] == CancelCalled {
      begin := OpenedSpan(log[..|log| - 1], id);
    } else {
      begin := |log| - 1;
    }
  }

  lemma {:induction false} LiveSpan(log: seq<Event>, p: Phase) returns (begin: nat, reset: nat, d: nat)
    requires p.Live? && PhaseOf(log) == Some(p)
    ensures SpanSays(log, p, begin, reset, d)
  {
    var before, e := log[..|log| - 1], log[|log| - 1];
    assert log == before + [e];
    if e == FlagReset {
      begin := OpenedSpan(before, p.id);
      reset, d := |before|, 0;
    } else {
      var q := PhaseOf(before).value;
      begin, reset, d := LiveSpan(before, q);
      SpanGrows(before, e, q, begin, reset, d);
      if e.Decoded? { d := |before|; }
    }
  }

  /** A cancel or a decode, added to the log of a live turn, changes what its phase says accordingly. */
  lemma SpanGrows(log: seq<Event>, e: Event, q: Phase, begin: nat, reset: nat, d: nat)
    requires q.Live? && SpanSays(log, q, begin, reset, d)
    requires (e == CancelCalled || e.Decoded?) && After(q, e).Some?
    ensures SpanSays(log + [e], After(q, e).value, begin, reset, if e.Decoded? then |log| else d)
  {
    var now := log + [e];
    assert forall k :: 0 <= k < |log| ==> now[k] == log[k];
    assert now[|log|] == e;
    if e == CancelCalled {
      assert CancelledBetween(now, reset, |now|);
      if q.last.Some? { SameBetween(log, e, reset, d); }
    } else {
      SameBetween(log, e, reset, |log|);
      assert CancelledBetween(now, reset, |now|) <==> CancelledBetween(now, reset, |log|);
    }
  }

  lemma SameBetween(log: seq<Event>, e: Event, from: nat, end: nat)
    requires end <= |log|
    ensures CancelledBetween(log + [e], from, end) <==> CancelledBetween(log, from, end)
  {
    var now := log + [e];
    assert forall k :: 0 <= k < |log| ==> now[k] == log[k];
    if CancelledBetween(log, from, end) {
      var k :| from < k < end && k < |log| && log[k] == CancelCalled;
      assert now[k] == CancelCalled;
    }
  }

  /** Safety, in every interleaving. */
  lemma RunIsSafe(input: seq<Line>, run: seq<State>, i: nat)
    requires Run(input, run) && i < |run|
    ensures Taken(run[i].log) <= UpToClose(Requests(input))
    ensures PhaseOf(run[i].log).Some?
    ensures run[i].reader == ReaderGone(true) && !run[i].worker.WorkerGone? ==>
              Queued(run[i]) == Requests(input) + [Close]
  {
    RunInv(input, run, i);
    TakenInOrder(input, run[i]);
    assert input[..|input|] == input;
  }

  /** When a cancel counts. A turn that is answered, and whose decodes did not break by themselves, is
      answered as cancelled exactly when a cancel came after its own reset and before the end of its last
      decode. If its last decode did break, a cancel anywhere after the reset was read. */
  lemma CancelCountsUntilLastDecode(input: seq<Line>, run: seq<State>, i: nat, k: nat)
    returns (begin: nat, reset: nat, d: nat)
    requires Run(input, run) && i < |run|
    requires k < |run[i].log| && run[i].log[k].Answered? && run[i].log[k].outcome.Completed?
    ensures var log, answer := run[i].log[..k], run[i].log[k];
            && TurnSpan(log, answer.id, begin, reset) && LastDecode(log, reset, d)
            && (log[d] != Decoded(Broke) ==> (answer.outcome.cancelled <==> CancelledBetween(log, reset, d)))
            && (log[d] == Decoded(Broke) ==> answer.outcome.cancelled && CancelledBetween(log, reset, k))
  {
    var log := run[i].log;
    RunInv(input, run, i);
    PrefixIsWellFormed(log, k + 1);
    assert log[..k + 1][..k] == log[..k];
    begin, reset, d := LiveSpan(log[..k], PhaseOf(log[..k]).value);
  }

  /** The commands taken up are the input's, in order, up to a close. */
  lemma TakenInOrder(input: seq<Line>, s: State)
    requires Inv(input, s)
    ensures Taken(s.log) <= UpToClose(Requests(input))
    ensures s.worker == WorkerGone(false) ==> Taken(s.log) == UpToClose(Requests(input))
  {
    var tail := ClosePopped(s.worker) + s.queue;
    RequestsGrow(input, s.handled);
    TakenHasNoClose(s.log);
    assert Queued(s) == Taken(s.log) + tail;
    if s.reader == ReaderGone(true) {
      assert input[..s.handled] == input;
      InOrderAtEnd(Taken(s.log), tail, Requests(input));
    } else {
      InOrderSoFar(Taken(s.log), tail, Requests(input[..s.handled]), Requests(input));
    }
  }

  lemma InOrderSoFar(taken: seq<Command>, tail: seq<Command>, got: seq<Command>, asked: seq<Command>)
    requires Close !in taken && taken + tail == got <= asked
    ensures taken <= UpToClose(asked)
    ensures tail != [] && tail[0] == Close ==> taken == UpToClose(asked)
  {
    var after := tail + asked[|got|..];
    assert asked == taken + after;
    UpToCloseExtends(taken, after);
    if tail != [] && tail[0] == Close {
      UpToCloseIs(taken, after);
    }
  }

  lemma InOrderAtEnd(taken: seq<Command>, tail: seq<Command>, asked: seq<Command>)
    requires Close !in taken && taken + tail == asked + [Close]
    ensures taken <= UpToClose(asked)
    ensures tail[0] == Close ==> taken == UpToClose(asked)
  {
    assert (taken + tail)[|asked|] == Close;
    assert |taken| <= |asked|;
    var after := tail[..|tail| - 1];
    assert asked == (taken + tail)[..|asked|] == taken + after;
    UpToCloseExtends(taken, after);
    if tail[0] == Close {
      UpToCloseIs(taken, after);
    }
  }

  lemma {:induction false} UpToCloseExtends(before: seq<Command>, after: seq<Command>)
    requires Close !in before
    ensures before <= UpToClose(before + after)
  {
    if before != [] {
      UpToCloseExtends(before[1..], after);
      assert (before + after)[1..] == before[1..] + after;
    }
  }

  lemma {:induction false} TakenHasNoClose(log: seq<Event>)
    ensures Close !in Taken(log)
  {
    if log != [] {
      TakenHasNoClose(log[..|log| - 1]);
    }
  }

  lemma {:induction false} RequestsGrow(input: seq<Line>, k: nat)
    requires k <= |input|
    ensures Requests(input[..k]) <= Requests(input)
    decreases |input| - k
  {
    if k < |input| {
      HandleLine(input, k);
      RequestsGrow(input, k + 1);
    } else {
      assert input[..k] == input;
    }
  }

  // Progress.

  function CommandWork(c: Command): nat {
    if c.Generate? then c.more + 6 else 5
  }

  function LinesWork(input: seq<Line>, from: nat): nat
    requires from <= |input|
    decreases |input| - from
  {
    if from == |input| then 0
    else LinesWork(input, from + 1) + match input[from] case Cancel => 2 case Request(c) => CommandWork(c) + 2
  }

  function QueueWork(queue: seq<Command>): nat {
    if queue == [] then 0 else CommandWork(queue[0]) + QueueWork(queue[1..])
  }

  lemma {:induction false} QueueWorkGrows(queue: seq<Command>, c: Command)
    ensures QueueWork(queue + [c]) == QueueWork(queue) + CommandWork(c)
  {
    if queue != [] {
      QueueWorkGrows(queue[1..], c);
      assert (queue + [c])[1..] == queue[1..] + [c];
    } else {
      assert (queue + [c])[1..] == [];
    }
  }

  function ReaderWork(input: seq<Line>, s: State): nat
    requires s.handled <= |input|
  {
    match s.reader
    case Reading => LinesWork(input, s.handled) + 10
    case Cancelling => LinesWork(input, s.handled) + 9
    case Holding(_) => LinesWork(input, s.handled) + 9
    case Leaving => 8
    case Closing => 7
    case ReaderGone(_) => 0
  }

  function WorkerWork(w: Worker): nat {
    match w
    case Started(_, more) => more + 7
    case Running(_, left, _) => left + 5
    case Broken(_) => 4
    case Returned(_, _) => 3
    case Waiting => 2
    case Quitting(_) => 1
    case WorkerGone(_) => 0
  }

  function Work(input: seq<Line>, s: State): nat
    requires s.handled <= |input|
  {
    ReaderWork(input, s) + QueueWork(s.queue) + WorkerWork(s.worker)
  }

  lemma ReaderUsesWork(input: seq<Line>, s: State, t: State)
    requires s.handled <= |input| && StopMatches(input, s) && ReaderStep(input, s, t)
    ensures t.handled <= |input| && Work(input, t) < Work(input, s)
  {
    match s.reader
    case Holding(c) => QueueWorkGrows(s.queue, c);
    case Closing => QueueWorkGrows(s.queue, Close);
    case _ =>
  }

  lemma WorkerUsesWork(input: seq<Line>, s: State, t: State)
    requires s.handled <= |input| && WorkerStep(s, t)
    ensures t.handled <= |input| && Work(input, t) < Work(input, s)
  {
    WorkerLeavesReader(s, t);
    WorkerUsesUp(s, t);
  }

  lemma WorkerUsesUp(s: State, t: State)
    requires WorkerStep(s, t)
    ensures QueueWork(t.queue) + WorkerWork(t.worker) < QueueWork(s.queue) + WorkerWork(s.worker)
  {
  }

  /** Every step uses up work. */
  lemma StepsUseWork(input: seq<Line>, s: State, t: State)
    requires Inv(input, s) && Next(input, s, t)
    ensures t.handled <= |input| && Work(input, t) < Work(input, s)
  {
    if ReaderStep(input, s, t) {
      ReaderUsesWork(input, s, t);
    } else {
      WorkerUsesWork(input, s, t);
    }
  }

  /** No run goes on for ever. */
  lemma {:induction false} RunsEnd(input: seq<Line>, run: seq<State>, i: nat)
    requires Run(input, run) && i < |run|
    ensures run[i].handled <= |input| && Work(input, run[i]) + i <= LinesWork(input, 0) + 12
    ensures i <= LinesWork(input, 0) + 12
  {
    if i > 0 {
      RunsEnd(input, run, i - 1);
      RunInv(input, run, i - 1);
      StepsUseWork(input, run[i - 1], run[i]);
    } else {
      StartWork(input, run[0]);
    }
  }

  lemma StartWork(input: seq<Line>, s: State)
    requires Init(s)
    ensures s.handled == 0 && Work(input, s) == LinesWork(input, 0) + 12
  {
  }

  predicate Over(s: State) {
    s.worker.WorkerGone? && s.reader.ReaderGone?
  }

  /** A run can always go on until both threads are gone: nobody waits for ever. */
  lemma NeverStuck(input: seq<Line>, run: seq<State>) returns (t: State)
    requires Run(input, run) && !Over(run[|run| - 1])
    ensures Run(input, run + [t])
  {
    var s := run[|run| - 1];
    RunInv(input, run, |run| - 1);
    if s.reader.ReaderGone? {
      t := WorkerCanStep(input, s);
    } else {
      t := ReaderCanStep(input, s);
    }
  }

  /** Once both are gone, every turn begun was answered; and unless a turn failed for good, every
      command up to the first close or the end of the input was taken up. */
  lemma OverIsDone(input: seq<Line>, run: seq<State>)
    requires Run(input, run) && Over(run[|run| - 1])
    ensures var s := run[|run| - 1];
            && BeginIds(s.log) == AnswerIds(s.log)
            && (!s.worker.fatal ==> Taken(s.log) == UpToClose(Requests(input)))
  {
    RunInv(input, run, |run| - 1);
    TakenInOrder(input, run[|run| - 1]);
    BeginsAreAnswered(run[|run| - 1].log);
  }

  lemma ReaderCanStep(input: seq<Line>, s: State) returns (t: State)
    requires Inv(input, s) && !s.reader.ReaderGone?
    ensures ReaderStep(input, s, t)
  {
    match s.reader
    case Reading =>
      if s.handled == |input| {
        t := s.(reader := Leaving);
      } else {
        t := s.(reader := if s.stop then Leaving
                          else match input[s.handled]
                            case Cancel => Cancelling
                            case Request(c) => Holding(c));
      }
    case Cancelling =>
      t := s.(reader := Reading, handled := s.handled + 1, flag := true, log := s.log + [CancelCalled]);
    case Holding(c) =>
      t := if s.stop then s.(reader := Leaving)
           else s.(reader := Reading, handled := s.handled + 1, queue := s.queue + [c]);
    case Leaving => t := if s.stop then s.(reader := ReaderGone(false)) else s.(reader := Closing, stop := true);
    case Closing => t := s.(reader := ReaderGone(true), queue := s.queue + [Close]);
  }

  /** A worker with nothing to do has a reader that will queue something. */
  lemma WorkerCanStep(input: seq<Line>, s: State) returns (t: State)
    requires Inv(input, s) && s.reader.ReaderGone? && !s.worker.WorkerGone?
    ensures WorkerStep(s, t)
  {
    match s.worker
    case Waiting =>
      TakenHasNoClose(s.log);
      assert s.reader == ReaderGone(true);
      assert Queued(s)[|Queued(s)| - 1] == Close;
      var u := s.(queue := s.queue[1..]);
      t := match s.queue[0]
        case Close => u.(worker := Quitting(false))
        case Bad(id) => u.(log := s.log + [Refused(id)])
        case Generate(id, more) => u.(log := s.log + [Begun(id, more)], worker := Started(id, more));
    case Started(id, more) =>
      t := s.(flag := false, log := s.log + [FlagReset], worker := Running(id, more + 1, false));
    case Running(id, left, decoded) =>
      if left == 0 {
        t := s.(worker := Returned(id, Completed(false)));
      } else if s.flag {
        t := s.(log := s.log + [Decoded(Aborted)], worker := Returned(id, Completed(true)));
      } else {
        t := s.(log := s.log + [Decoded(Through)], worker := Running(id, left - 1, true));
      }
    case Broken(id) => t := s.(worker := Returned(id, if s.flag then Completed(true) else Error(false)));
    case Returned(id, o) =>
      t := s.(log := s.log + [Answered(id, o)], worker := if o == Error(true) then Quitting(true) else Waiting);
    case Quitting(f) => t := s.(stop := true, worker := WorkerGone(f));
  }

  /** A cancel can come too early: called after a turn was announced and before it cleared the flag, it
      leaves no trace on the turn. */
  lemma EarlyCancelIsLost(id: int) returns (run: seq<State>)
    ensures var input := [Request(Generate(id, 0)), Cancel];
            && Run(input, run)
            && run[|run| - 1].log
               == [Begun(id, 0), CancelCalled, FlagReset, Decoded(Through), Answered(id, Completed(false))]
  {
    var s0, s2 := LostStart(id);
    var s3 := s2.(queue := [], log := [Begun(id, 0)], worker := Started(id, 0));
    var s4 := s3.(reader := Cancelling);
    var s5 := s4.(reader := Reading, handled := 2, flag := true, log := [Begun(id, 0), CancelCalled]);
    var s6 := s5.(flag := false, log := s5.log + [FlagReset], worker := Running(id, 1, false));
    var s7 := s6.(log := s6.log + [Decoded(Through)], worker := Running(id, 0, true));
    var s8 := s7.(worker := Returned(id, Completed(false)));
    var s9 := s8.(log := s8.log + [Answered(id, Completed(false))], worker := Waiting);
    assert Dequeue(s2, s3) && CancelSession(s4, s5) && ResetFlag(s5, s6);
    assert Decode(s6, s7) && FinishTurn(s7, s8) && Answer(s8, s9);
    run := [s0, s0.(reader := Holding(Generate(id, 0))), s2, s3, s4, s5, s6, s7, s8, s9];
  }

  /** And it can come too late: called after the turn's last decode and before its answer, it has no
      effect either. */
  lemma LateCancelIsLost(id: int) returns (run: seq<State>)
    ensures var input := [Request(Generate(id, 0)), Cancel];
            && Run(input, run)
            && run[|run| - 1].log
               == [Begun(id, 0), FlagReset, Decoded(Through), CancelCalled, Answered(id, Completed(false))]
  {
    var s0, s2 := LostStart(id);
    var s3 := s2.(queue := [], log := [Begun(id, 0)], worker := Started(id, 0));
    var s4 := s3.(flag := false, log := s3.log + [FlagReset], worker := Running(id, 1, false));
    var s5 := s4.(log := s4.log + [Decoded(Through)], worker := Running(id, 0, true));
    var s6 := s5.(reader := Cancelling);
    var s7 := s6.(reader := Reading, handled := 2, flag := true, log := s6.log + [CancelCalled]);
    var s8 := s7.(worker := Returned(id, Completed(false)));
    var s9 := s8.(log := s8.log + [Answered(id, Completed(false))], worker := Waiting);
    assert Dequeue(s2, s3) && ResetFlag(s3, s4) && Decode(s4, s5);
    assert CancelSession(s6, s7) && FinishTurn(s7, s8) && Answer(s8, s9);
    run := [s0, s0.(reader := Holding(Generate(id, 0))), s2, s3, s4, s5, s6, s7, s8, s9];
  }

  /** How both runs begin: the generate line is read and queued. */
  lemma LostStart(id: int) returns (s0: State, s2: State)
    ensures Init(s0) && s2 == s0.(reader := Reading, handled := 1, queue := [Generate(id, 0)])
    ensures var input, s1 := [Request(Generate(id, 0)), Cancel], s0.(reader := Holding(Generate(id, 0)));
            Next(input, s0, s1) && Next(input, s1, s2)
  {
    s0 := State(0, Reading, [], false, false, Waiting, []);
    s2 := s0.(reader := Reading, handled := 1, queue := [Generate(id, 0)]);
  }
}
