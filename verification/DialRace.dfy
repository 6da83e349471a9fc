/**
 `dialContext` (internal/utils/sshproxy.go): a goroutine dials while the caller selects on
 the context and on `done`, and both touch the shared `conn` and `err`.  Every shared read
 and write is a step of its own; steps interleave freely under sequentially consistent memory.
 */
module DialRace {
  import opened Wrappers

  datatype Error = NoError | DialError | ContextError

  /** Where the goroutine stands. */
  datatype GoPc = Dialing | Answered | ConnWritten | ErrWritten | DoneClosed | ConnSeen | MustClose | GoFinished

  /** Where the caller stands; after the select it reads the two results in either order. */
  datatype CallerPc = Selecting | ChoseContext | Reading | Returned

  /**
   The shared variables, the connection itself, and both threads.  `dialed` says that `Dial`
   produced a connection, `conn` and `err` are the shared variables, `readConn` and `readErr`
   what the caller has read for its return values.
   */
  datatype State = State(
    cancelled: bool, doneClosed: bool,
    dialed: bool, closed: bool,
    conn: bool, err: Error,
    go: GoPc,
    caller: CallerPc, choseContext: bool,
    readConn: Option<bool>, readErr: Option<Error>)

  const INIT := State(false, false, false, false, false, NoError, Dialing, Selecting, false, None, None)

  datatype Step =
    | Cancel
    | DialReturns(success: bool) | WriteConn | WriteErr | CloseDone | TestConn | TestContext | CloseConn
    | SelectContext | SelectDone | AssignContextError | ReadConn | ReadErr | Return

  function Next(s: State, step: Step): Option<State>
  {
    match step
    case Cancel => Some(s.(cancelled := true))
    case DialReturns(success) =>
      if s.go == Dialing then Some(s.(go := Answered, dialed := success)) else None
    case WriteConn =>
      if s.go == Answered then Some(s.(go := ConnWritten, conn := s.dialed)) else None
    case WriteErr =>
      if s.go == ConnWritten then Some(s.(go := ErrWritten, err := if s.dialed then NoError else DialError)) else None
    case CloseDone =>
      if s.go == ErrWritten then Some(s.(go := DoneClosed, doneClosed := true)) else None
    case TestConn =>
      if s.go == DoneClosed then Some(s.(go := if s.conn then ConnSeen else GoFinished)) else None
    case TestContext =>
      if s.go == ConnSeen then Some(s.(go := if s.cancelled then MustClose else GoFinished)) else None
    case CloseConn =>
      if s.go == MustClose then Some(s.(go := GoFinished, closed := true)) else None
    case SelectContext =>
      if s.caller == Selecting && s.cancelled then Some(s.(caller := ChoseContext, choseContext := true)) else None
    case SelectDone =>
      if s.caller == Selecting && s.doneClosed then Some(s.(caller := Reading)) else None
    case AssignContextError =>
      if s.caller == ChoseContext then Some(s.(caller := Reading, err := ContextError)) else None
    case ReadConn =>
      if s.caller == Reading && s.readConn.None? then Some(s.(readConn := Some(s.conn))) else None
    case ReadErr =>
      if s.caller == Reading && s.readErr.None? then Some(s.(readErr := Some(s.err))) else None
    case Return =>
      if s.caller == Reading && s.readConn.Some? && s.readErr.Some? then Some(s.(caller := Returned)) else None
  }

  /** The state an interleaving leads to, if it is one. */
  function Run(s: State, steps: seq<Step>): Option<State>
    decreases |steps|
  {
    if steps == [] then Some(s)
    else
      var before := Run(s, steps[..|steps| - 1]);
      if before.None? then None else Next(before.value, steps[|steps| - 1])
  }

  predicate Finished(s: State)
  {
    s.go == GoFinished && s.caller == Returned
  }

  /** The caller has read a connection, or has read that there is none. */
  predicate GotConn(s: State) { s.readConn.Some? && s.readConn.value }
  predicate MissedConn(s: State) { s.readConn.Some? && !s.readConn.value }

  ghost predicate Inv(s: State)
  {
    // The goroutine's own progress.
    && (s.go == Dialing ==> !s.dialed)
    && (s.conn <==> s.dialed && s.go !in {Dialing, Answered})
    && (s.doneClosed <==> s.go in {DoneClosed, ConnSeen, MustClose, GoFinished})
    && (s.go in {ConnSeen, MustClose} ==> s.dialed)
    && (s.go == MustClose ==> s.cancelled)
    && (s.closed ==> s.go == GoFinished && s.dialed && s.cancelled)
    // The caller's.
    && (s.choseContext ==> s.cancelled)
    && (s.caller == ChoseContext ==> s.choseContext)
    && (s.caller in {Selecting, ChoseContext} ==> s.readConn.None? && s.readErr.None?)
    && (s.caller == Returned ==> s.readConn.Some? && s.readErr.Some?)
    && (s.caller in {Reading, Returned} && !s.choseContext ==> s.doneClosed)
    // What the caller can have read.
    && (GotConn(s) ==> s.conn)
    && (MissedConn(s) && s.dialed ==> s.choseContext && (s.go == GoFinished ==> s.closed))
    && (s.go !in {Dialing, Answered, ConnWritten} && !s.choseContext ==> s.err == if s.dialed then NoError else DialError)
    && (s.readErr.Some? && !s.choseContext ==> s.readErr.value == if s.dialed then NoError else DialError)
    && (s.go == GoFinished && s.dialed && !s.closed ==> !MissedConn(s))
    && (s.readErr == Some(NoError) && s.choseContext ==> s.dialed && s.conn)
    && (s.choseContext && s.caller != ChoseContext && s.err == NoError ==> s.dialed && s.conn)
  }

  lemma NextKeepsInv(s: State, step: Step)
    requires Inv(s) && Next(s, step).Some?
    ensures Inv(Next(s, step).value)
  {
    match step
    case Cancel => case DialReturns(_) => case WriteConn => case WriteErr => case CloseDone =>
    case TestConn => case TestContext => case CloseConn =>
    case SelectContext => case SelectDone => case AssignContextError =>
    case ReadConn => case ReadErr => case Return =>
  }

  lemma {:induction false} RunKeepsInv(s: State, steps: seq<Step>)
    requires Inv(s) && Run(s, steps).Some?
    ensures Inv(Run(s, steps).value)
    decreases |steps|
  {
    if steps != [] {
      RunKeepsInv(s, steps[..|steps| - 1]);
      NextKeepsInv(Run(s, steps[..|steps| - 1]).value, steps[|steps| - 1]);
    }
  }

  /**
   In every interleaving, once both threads are through, a dialed connection was closed by the
   goroutine or is in the caller's hands, though perhaps along with an error; see
   TakenCareOfExactly.
   */
  lemma NoConnectionLeaks(steps: seq<Step>)
    requires Run(INIT, steps).Some?
    ensures var s := Run(INIT, steps).value;
      && (Finished(s) && s.dialed ==> s.closed || GotConn(s))
      // closing is never spurious, and only ever follows a cancellation
      && (s.closed ==> s.dialed && s.cancelled)
      // the caller is never handed a connection that was not dialed
      && (GotConn(s) ==> s.dialed)
  {
    RunKeepsInv(INIT, steps);
  }

  /**
   A caller whose select saw `done` gets exactly what `Dial` produced; in particular, without
   a cancellation the two threads agree and the connection stays open.
   */
  lemma DoneReportsDial(steps: seq<Step>)
    requires Run(INIT, steps).Some?
    requires var s := Run(INIT, steps).value; Finished(s) && !s.choseContext
    ensures var s := Run(INIT, steps).value;
      && (if s.dialed then GotConn(s) else MissedConn(s))
      && s.readErr == Some(if s.dialed then NoError else DialError)
      && (!s.cancelled ==> !s.closed)
  {
    RunKeepsInv(INIT, steps);
  }

  /**
   A caller told "no connection, no error" was overtaken by the goroutine after choosing the
   context; even then the connection it never sees is closed.
   */
  lemma EmptySuccessIsClosed(steps: seq<Step>)
    requires Run(INIT, steps).Some?
    requires var s := Run(INIT, steps).value;
      Finished(s) && MissedConn(s) && s.readErr == Some(NoError)
    ensures var s := Run(INIT, steps).value; s.choseContext && s.dialed && s.closed
  {
    RunKeepsInv(INIT, steps);
  }

  // ---- What the order of the steps decides ----

  /** Some `x` in the interleaving has a `y` after it. */
  ghost predicate Before(steps: seq<Step>, x: Step, y: Step)
  {
    exists i, j :: 0 <= i < j < |steps| && steps[i] == x && steps[j] == y
  }

  lemma BeforeLast(steps: seq<Step>, last: Step, x: Step, y: Step)
    requires Before(steps + [last], x, y)
    ensures Before(steps, x, y) || (last == y && x in steps)
  {
    var longer := steps + [last];
    var i, j :| 0 <= i < j < |longer| && longer[i] == x && longer[j] == y;
    assert steps[i] == x;
    assert j < |steps| ==> steps[j] == y;
  }

  lemma BeforeAppend(steps: seq<Step>, last: Step, x: Step, y: Step)
    ensures Before(steps + [last], x, y) <==> Before(steps, x, y) || (last == y && x in steps)
  {
    var longer := steps + [last];
    if Before(steps, x, y) {
      var i, j :| 0 <= i < j < |steps| && steps[i] == x && steps[j] == y;
      assert longer[i] == x && longer[j] == y;
    } else if last == y && x in steps {
      var i :| 0 <= i < |steps| && steps[i] == x;
      assert longer[i] == x && longer[|steps|] == y;
    } else if Before(longer, x, y) {
      BeforeLast(steps, last, x, y);
    }
  }

  /** Which steps have been taken shows in the state: those of the goroutine, */
  ghost predicate TakenByGo(steps: seq<Step>, s: State)
  {
    && (s.go in {Dialing, Answered} <==> WriteConn !in steps)
    && (s.go in {Dialing, Answered, ConnWritten} <==> WriteErr !in steps)
  }

  /** and those of the caller and its context. */
  ghost predicate TakenByCaller(steps: seq<Step>, s: State)
  {
    && (s.cancelled <==> Cancel in steps)
    && (s.choseContext <==> SelectContext in steps)
    && (s.caller == Selecting ==> !s.choseContext)
    && (s.choseContext && s.caller != ChoseContext <==> AssignContextError in steps)
    && (s.readConn.Some? <==> ReadConn in steps)
    && (s.readErr.Some? <==> ReadErr in steps)
  }

  ghost predicate Taken(steps: seq<Step>, s: State)
  {
    TakenByGo(steps, s) && TakenByCaller(steps, s)
  }

  /** The goroutine closes the connection if it finds the context cancelled. */
  ghost predicate ClosedByOrder(steps: seq<Step>, s: State)
  {
    && (s.go !in {MustClose, GoFinished} ==> TestContext !in steps && !Before(steps, Cancel, TestContext))
    && (s.go in {MustClose, GoFinished} && s.dialed ==>
          (s.closed || s.go == MustClose <==> Before(steps, Cancel, TestContext)))
  }

  /** The caller misses a connection it reads too early. */
  ghost predicate ConnByOrder(steps: seq<Step>, s: State)
  {
    && (WriteConn !in steps ==> !Before(steps, ReadConn, WriteConn))
    && (s.readConn.Some? && s.dialed && WriteConn in steps ==> (MissedConn(s) <==> Before(steps, ReadConn, WriteConn)))
    && (s.readConn.Some? && WriteConn !in steps ==> MissedConn(s))
  }

  /** The error of the context is there unless `Dial`'s has been written over it. */
  ghost predicate ErrByOrder(steps: seq<Step>, s: State)
  {
    && (WriteErr !in steps ==> !Before(steps, AssignContextError, WriteErr) && !Before(steps, WriteErr, ReadErr))
    && (s.dialed || WriteErr !in steps ==>
          s.err == if AssignContextError in steps && !Before(steps, AssignContextError, WriteErr) then ContextError else NoError)
    && (s.readErr.Some? && s.dialed ==>
          (s.readErr == Some(NoError) <==>
             AssignContextError !in steps || (Before(steps, AssignContextError, WriteErr) && Before(steps, WriteErr, ReadErr))))
    && (s.go == GoFinished && s.dialed && !s.closed ==> !Before(steps, AssignContextError, WriteErr))
    && (s.err == DialError || s.readErr == Some(DialError) ==> !s.dialed && WriteErr in steps)
  }

  ghost predicate Ordered(steps: seq<Step>, s: State)
  {
    Taken(steps, s) && ClosedByOrder(steps, s) && ConnByOrder(steps, s) && ErrByOrder(steps, s)
  }

  lemma GoStep(steps: seq<Step>, s: State, step: Step)
    requires TakenByGo(steps, s) && Next(s, step).Some?
    ensures TakenByGo(steps + [step], Next(s, step).value)
  {
  }

  lemma CallerStep(steps: seq<Step>, s: State, step: Step)
    requires Inv(s) && TakenByCaller(steps, s) && Next(s, step).Some?
    ensures TakenByCaller(steps + [step], Next(s, step).value)
  {
  }

  lemma ClosedStep(steps: seq<Step>, s: State, step: Step)
    requires Inv(s) && Taken(steps, s) && ClosedByOrder(steps, s) && Next(s, step).Some?
    ensures ClosedByOrder(steps + [step], Next(s, step).value)
  {
    BeforeAppend(steps, step, Cancel, TestContext);
  }

  lemma ConnStep(steps: seq<Step>, s: State, step: Step)
    requires Inv(s) && Taken(steps, s) && ConnByOrder(steps, s) && Next(s, step).Some?
    ensures ConnByOrder(steps + [step], Next(s, step).value)
  {
    BeforeAppend(steps, step, ReadConn, WriteConn);
  }

  lemma ErrStep(steps: seq<Step>, s: State, step: Step)
    requires Inv(s) && Taken(steps, s) && ErrByOrder(steps, s) && Next(s, step).Some?
    ensures ErrByOrder(steps + [step], Next(s, step).value)
  {
    BeforeAppend(steps, step, AssignContextError, WriteErr);
    BeforeAppend(steps, step, WriteErr, ReadErr);
  }

  lemma OrderedStep(steps: seq<Step>, s: State, step: Step)
    requires Inv(s) && Ordered(steps, s) && Next(s, step).Some?
    ensures Ordered(steps + [step], Next(s, step).value)
  {
    GoStep(steps, s, step);
    CallerStep(steps, s, step);
    ClosedStep(steps, s, step);
    ConnStep(steps, s, step);
    ErrStep(steps, s, step);
  }

  lemma {:induction false} RunOrdered(steps: seq<Step>)
    requires Run(INIT, steps).Some?
    ensures Inv(Run(INIT, steps).value) && Ordered(steps, Run(INIT, steps).value)
    decreases |steps|
  {
    RunKeepsInv(INIT, steps);
    if steps != [] {
      var first, last := steps[..|steps| - 1], steps[|steps| - 1];
      assert steps == first + [last];
      RunOrdered(first);
      OrderedStep(first, Run(INIT, first).value, last);
    }
  }

  /**
   A dialed connection ends up closed exactly when the context was cancelled before the
   goroutine looked at it, whether or not the caller had been given it by then.
   */
  lemma ClosedExactly(steps: seq<Step>)
    requires Run(INIT, steps).Some?
    requires var s := Run(INIT, steps).value; Finished(s) && s.dialed
    ensures Run(INIT, steps).value.closed <==> Before(steps, Cancel, TestContext)
  {
    RunOrdered(steps);
  }

  /**
   "A connection or an error" fails exactly when `Dial` succeeded, the caller read `conn`
   before the goroutine wrote it, and the goroutine wrote `err` between the caller's own
   assignment to it and the caller's reading of it.
   */
  lemma EmptySuccessExactly(steps: seq<Step>)
    requires Run(INIT, steps).Some? && Finished(Run(INIT, steps).value)
    ensures var s := Run(INIT, steps).value;
      MissedConn(s) && s.readErr == Some(NoError) <==>
        && s.dialed && Before(steps, ReadConn, WriteConn)
        && Before(steps, AssignContextError, WriteErr) && Before(steps, WriteErr, ReadErr)
  {
    RunOrdered(steps);
    var s := Run(INIT, steps).value;
    if s.dialed && MissedConn(s) {
      assert AssignContextError in steps;
    }
  }

  /**
   A dialed connection is taken care of, by being closed or by reaching a caller who is told of
   no error and so keeps it, exactly when the select saw `done` or the context was cancelled
   before the goroutine looked at it.  Otherwise the caller gets it along with the context's
   error, and nobody closes it.
   */
  lemma TakenCareOfExactly(steps: seq<Step>)
    requires Run(INIT, steps).Some?
    requires var s := Run(INIT, steps).value; Finished(s) && s.dialed
    ensures var s := Run(INIT, steps).value;
      && (s.closed || (GotConn(s) && s.readErr == Some(NoError)) <==>
            SelectContext !in steps || Before(steps, Cancel, TestContext))
      && (!s.closed && SelectContext in steps ==> GotConn(s) && s.readErr == Some(ContextError))
  {
    RunOrdered(steps);
    var s := Run(INIT, steps).value;
    if !s.closed && SelectContext in steps {
      assert s.readErr != Some(NoError) && s.readErr != Some(DialError);
      assert s.readErr.value == ContextError;
    }
  }

  /** Prolongs a concrete run by one step. */
  lemma Then(s: State, steps: seq<Step>, step: Step) returns (s': State, steps': seq<Step>)
    requires Run(INIT, steps) == Some(s) && Next(s, step).Some?
    ensures s' == Next(s, step).value && steps' == steps + [step]
    ensures Run(INIT, steps') == Some(s')
  {
    s', steps' := Next(s, step).value, steps + [step];
    assert steps'[..|steps|] == steps;
  }

  lemma AnsweredRun(steps: seq<Step>, s: State) returns (s': State, steps': seq<Step>)
    requires Run(INIT, steps) == Some(s) && s.go == Dialing
    ensures Run(INIT, steps') == Some(s')
    ensures s' == s.(go := ErrWritten, dialed := true, conn := true, err := NoError)
  {
    s', steps' := Then(s, steps, DialReturns(true));
    s', steps' := Then(s', steps', WriteConn);
    s', steps' := Then(s', steps', WriteErr);
  }

  lemma ClosingRun(steps: seq<Step>, s: State) returns (s': State, steps': seq<Step>)
    requires Run(INIT, steps) == Some(s) && s.go == DoneClosed && s.conn && s.cancelled
    ensures Run(INIT, steps') == Some(s')
    ensures s' == s.(go := GoFinished, closed := true)
  {
    s', steps' := Then(s, steps, TestConn);
    s', steps' := Then(s', steps', TestContext);
    s', steps' := Then(s', steps', CloseConn);
  }

  lemma ReadingRun(steps: seq<Step>, s: State) returns (s': State, steps': seq<Step>)
    requires Run(INIT, steps) == Some(s) && s.caller == Reading && s.readErr.None?
    ensures Run(INIT, steps') == Some(s')
    ensures s' == s.(caller := Returned, readErr := Some(s.err),
                     readConn := if s.readConn.None? then Some(s.conn) else s.readConn)
  {
    s', steps' := s, steps;
    if s.readConn.None? {
      s', steps' := Then(s', steps', ReadConn);
    }
    s', steps' := Then(s', steps', ReadErr);
    s', steps' := Then(s', steps', Return);
  }

  lemma CancelledRun(steps: seq<Step>, s: State) returns (s': State, steps': seq<Step>)
    requires Run(INIT, steps) == Some(s) && s.caller == Selecting
    ensures Run(INIT, steps') == Some(s')
    ensures s' == s.(cancelled := true, caller := ChoseContext, choseContext := true)
  {
    s', steps' := Then(s, steps, Cancel);
    s', steps' := Then(s', steps', SelectContext);
  }

  lemma ChosenRun(steps: seq<Step>, s: State) returns (s': State, steps': seq<Step>)
    requires Run(INIT, steps) == Some(s) && s.caller == Selecting && s.readConn.None?
    ensures Run(INIT, steps') == Some(s')
    ensures s' == s.(cancelled := true, caller := Reading, choseContext := true, err := ContextError,
                     readConn := Some(s.conn))
  {
    s', steps' := CancelledRun(steps, s);
    s', steps' := Then(s', steps', AssignContextError);
    s', steps' := Then(s', steps', ReadConn);
  }

  /**
   "No error" does not mean "usable": with `DialTimeout`, which cancels on return, the
   goroutine may close the connection its caller has just been given.
   */
  lemma ReturnedConnectionMayBeClosed() returns (steps: seq<Step>, s: State)
    ensures Run(INIT, steps) == Some(s)
    ensures Finished(s) && !s.choseContext && GotConn(s) && s.readErr == Some(NoError) && s.closed
  {
    s, steps := AnsweredRun([], INIT);
    s, steps := Then(s, steps, CloseDone);
    s, steps := Then(s, steps, SelectDone);
    s, steps := ReadingRun(steps, s);
    s, steps := Then(s, steps, Cancel);
    s, steps := ClosingRun(steps, s);
  }

  /** And the shared `err` can be overwritten after the context was chosen: the caller reads neither. */
  lemma EmptySuccessHappens() returns (steps: seq<Step>, s: State)
    ensures Run(INIT, steps) == Some(s)
    ensures Finished(s) && MissedConn(s) && s.readErr == Some(NoError)
  {
    s, steps := ChosenRun([], INIT);
    s, steps := AnsweredRun(steps, s);
    s, steps := ReadingRun(steps, s);
    s, steps := Then(s, steps, CloseDone);
    s, steps := ClosingRun(steps, s);
  }

  /**
   A goroutine that looks at the context just before it is cancelled leaves the connection to a
   caller who has already turned to the context, and returns it with the context's error.
   */
  lemma OpenConnectionWithError() returns (steps: seq<Step>, s: State)
    ensures Run(INIT, steps) == Some(s)
    ensures Finished(s) && s.dialed && !s.closed && GotConn(s) && s.readErr == Some(ContextError)
  {
    s, steps := AnsweredRun([], INIT);
    s, steps := Then(s, steps, CloseDone);
    s, steps := Then(s, steps, TestConn);
    s, steps := Then(s, steps, TestContext);
    s, steps := ChosenRun(steps, s);
    s, steps := ReadingRun(steps, s);
  }
}
