/**
 What a Close of the TCP, telnet and UDP servers is worth, on the protocol of SocketServer:
 when a returned Close means that everything has stopped, when the server goes on to serve
 beside it, and when it returns at all. For the last the environment is made explicit,
 because two things that may or may not happen decide it: the end of the configured Context,
 which is optional, and an error of Accept on an open listener, the only thing besides the
 closing of the listener that wakes the accept loop of the telnet server.
 */
module SocketClose {
  import opened Runs
  import opened SocketServer

  // ---------------------------------------------------------------------
  // The guarantee begins at listenWG.Add
  // ---------------------------------------------------------------------

  lemma {:induction false} WonAtStays(s: Server, steps: seq<Step>)
    requires Inv(s) && s.close != NoClose && CanRun(SYSTEM, s, steps)
    ensures After(SYSTEM, s, steps).wonAt == s.wonAt && After(SYSTEM, s, steps).close != NoClose
    decreases |steps|
  {
    if steps == [] {
    } else {
      StepKeepsInv(s, steps[0]);
      StepLasts(s, steps[0]);
      WonAtStays(Apply(s, steps[0]), steps[1..]);
    }
  }

  /** Whatever happens from here on, a returned Close means that everything has stopped. */
  ghost predicate Guaranteed(s: Server) {
    forall steps | CanRun(SYSTEM, s, steps) && After(SYSTEM, s, steps).close == Returned ::
      Stopped(After(SYSTEM, s, steps))
  }

  /** Listen is between its CAS and its listener being published. */
  predicate Unpublished(pc: ListenPc) {
    pc.Entered? || pc.Counted? || pc.Prepared? || pc.Bound?
  }

  /** Close up to its listenWG.Wait, while Listen stays where it is: there is no listener to close yet. */
  function ClosedEarly(s: Server): Server {
    CancelContext(s).(state := Closed, close := ClosingConns, wonAt := s.listen, snapshot := {})
  }

  lemma ClosesEarly(s: Server) returns (steps: seq<Step>)
    requires Inv(s) && s.state == Serving && Unpublished(s.listen)
    ensures steps != [] && steps[0] == ByClose(Win)
    ensures CanRun(SYSTEM, s, steps) && After(SYSTEM, s, steps) == ClosedEarly(s)
  {
    NobodyYet(s);
    var s1 := s.(state := Closed, close := Won, wonAt := s.listen);
    var s2 := s1.(close := ClosedListener);
    var s3 := CancelContext(s2).(close := CancelledContext);
    var end := ClosedEarly(s);
    assert Apply(s1, ByClose(CloseListener)) == s2;
    assert Apply(s3, ByClose(TakeSnapshot)) == end;
    RunsTo(SYSTEM, s3, ByClose(TakeSnapshot), [], end);
    steps := [ByClose(TakeSnapshot)] + [];
    RunsTo(SYSTEM, s2, ByClose(Cancel), steps, end);
    steps := [ByClose(Cancel)] + steps;
    RunsTo(SYSTEM, s1, ByClose(CloseListener), steps, end);
    steps := [ByClose(CloseListener)] + steps;
    RunsTo(SYSTEM, s, ByClose(Win), steps, end);
    steps := [ByClose(Win)] + steps;
  }

  /** Listen on its way to its first Accept. */
  predicate OnItsWay(s: Server) {
    && (Unpublished(s.listen) || ((s.listen == Published || s.listen == Accepting) && s.field))
    && (s.listen == Prepared ==> s.kind == Telnet)
    && !s.osClosed && s.nextId == 0 && s.spawned == {} && (s.maxConns > 0 ==> s.tokens == 0)
    && s.listenWG == if s.listen == Entered then 0 else 1
  }

  function NextStep(s: Server): ListenStep {
    match s.listen
    case Entered => Add
    case Counted => if s.kind == Telnet then Prepare else Bind
    case Prepared => Bind
    case Bound => Publish
    case Published => StartLoop
    case _ => Accept
  }

  /** How many steps it takes; and the context that handlers will be children of. */
  function StepsAhead(pc: ListenPc): nat {
    match pc
    case Entered => 5
    case Counted => 4
    case Prepared => 3
    case Bound => 2
    case Published => 1
    case _ => 0
  }

  function ContextAhead(s: Server): Context {
    if s.listen == Published || s.listen == Accepting then s.context
    else if s.kind == Telnet && (s.listen == Prepared || s.listen == Bound) then s.context
    else Live
  }

  /** Nothing that Close has done so far keeps Listen from serving. */
  lemma {:induction false} GoesOnToServe(s: Server) returns (steps: seq<Step>)
    requires OnItsWay(s)
    ensures CanRun(SYSTEM, s, steps)
    ensures var t := After(SYSTEM, s, steps);
      && t.close == s.close && t.state == s.state && t.snapshot == s.snapshot && t.context == ContextAhead(s)
      && t.listen == Accepting && t.field && !t.osClosed && t.spawned == {0} && t.listenWG == 1
    decreases StepsAhead(s.listen)
  {
    var step := ByListen(NextStep(s));
    var next := Apply(s, step);
    if s.listen == Accepting {
      steps := [];
    } else {
      steps := GoesOnToServe(next);
    }
    RunsTo(SYSTEM, s, step, steps, After(SYSTEM, next, steps));
    steps := [step] + steps;
  }

  /** Close wins between the CAS of Listen and its listenWG.Add: Close returns, and the server goes on to serve. */
  lemma EarlyClose(s: Server) returns (steps: seq<Step>)
    requires Inv(s) && s.state == Serving && s.listen == Entered
    ensures steps != [] && steps[0] == ByClose(Win) && CanRun(SYSTEM, s, steps)
    ensures var t := After(SYSTEM, s, steps);
      t.close == Returned && t.listen == Accepting && !t.osClosed && t.context == Live && t.spawned == {0}
  {
    NobodyYet(s);
    steps := ClosesEarly(s);
    var c := ClosedEarly(s);
    var d := Apply(c, ByClose(WaitListen));
    var more := GoesOnToServe(d);
    RunsTo(SYSTEM, c, ByClose(WaitListen), more, After(SYSTEM, d, more));
    RunsConcat(SYSTEM, s, steps, [ByClose(WaitListen)] + more);
    steps := steps + ([ByClose(WaitListen)] + more);
  }

  /** Such a run exists for each of the servers and every limit. */
  lemma CloseBeforeAddDoesNotClose(kind: Kind, maxConns: nat) returns (steps: seq<Step>)
    ensures CanRun(SYSTEM, Fresh(kind, maxConns), steps)
    ensures var s := After(SYSTEM, Fresh(kind, maxConns), steps);
      s.close == Returned && s.listen == Accepting && !s.osClosed && s.context == Live && s.spawned == {0}
  {
    var s0 := Fresh(kind, maxConns);
    var s1 := Apply(s0, ByListen(Cas));
    StepKeepsInv(s0, ByListen(Cas));
    steps := EarlyClose(s1);
    RunsTo(SYSTEM, s0, ByListen(Cas), steps, After(SYSTEM, s1, steps));
    steps := [ByListen(Cas)] + steps;
  }

  /**
   Exactly when may a caller rely on Close? When it won the CAS after listenWG.Add: then no
   continuation lets it return before everything has stopped; otherwise some continuation does.
   */
  lemma CloseGuaranteeIff(s: Server)
    requires Inv(s) && Enabled(s, ByClose(Win))
    ensures Guaranteed(Apply(s, ByClose(Win))) <==> PastAdd(s.listen)
  {
    var t := Apply(s, ByClose(Win));
    StepKeepsInv(s, ByClose(Win));
    if PastAdd(s.listen) {
      forall steps | CanRun(SYSTEM, t, steps) && After(SYSTEM, t, steps).close == Returned
        ensures Stopped(After(SYSTEM, t, steps))
      {
        RunKeepsInv(t, steps);
        WonAtStays(t, steps);
        StateStaysClosed(t, steps);
        DoneIsStopped(After(SYSTEM, t, steps));
      }
    } else {
      var steps := EarlyClose(s);
      assert CanRun(SYSTEM, t, steps[1..]) && !Stopped(After(SYSTEM, t, steps[1..]));
    }
  }

  /** A win before the listener is published: Close gets to its wait, and the server goes on to serve. */
  lemma LateClose(s: Server) returns (steps: seq<Step>)
    requires Inv(s) && s.state == Serving && Unpublished(s.listen)
    ensures steps != [] && steps[0] == ByClose(Win) && CanRun(SYSTEM, s, steps)
    ensures var t := After(SYSTEM, s, steps);
      && t.close == ClosingConns && !Enabled(t, ByClose(WaitListen))
      && t.listen == Accepting && t.field && !t.osClosed && t.spawned == {0}
      && (if s.kind == Telnet && (s.listen == Prepared || s.listen == Bound) then t.context == Cancelled
          else ServesOn(t) && t.state == Closed)
  {
    NobodyYet(s);
    steps := ClosesEarly(s);
    var c := ClosedEarly(s);
    var more := GoesOnToServe(c);
    RunsConcat(SYSTEM, s, steps, more);
    steps := steps + more;
  }

  /** Close is past its closeListener, and the accept loop has an open listener all the same. */
  predicate ServesBesideClose(s: Server) {
    PastCloseListener(s.close) && s.listen == Accepting && !s.osClosed
  }

  /** Some run from here on leads there. */
  ghost predicate MayServeBesideClose(s: Server) {
    exists steps :: CanRun(SYSTEM, s, steps) && ServesBesideClose(After(SYSTEM, s, steps))
  }

  /** Exactly: Close can get past its closeListener beside a serving Listen iff it won before publication. */
  lemma ServesBesideCloseIff(s: Server)
    requires Inv(s) && Enabled(s, ByClose(Win))
    ensures MayServeBesideClose(Apply(s, ByClose(Win))) <==> Unpublished(s.listen)
  {
    var t := Apply(s, ByClose(Win));
    StepKeepsInv(s, ByClose(Win));
    if Unpublished(s.listen) {
      var steps := LateClose(s);
      assert CanRun(SYSTEM, t, steps[1..]) && ServesBesideClose(After(SYSTEM, t, steps[1..]));
    } else {
      forall steps | CanRun(SYSTEM, t, steps)
        ensures !ServesBesideClose(After(SYSTEM, t, steps))
      {
        RunKeepsInv(t, steps);
        WonAtStays(t, steps);
        NeverBesideClose(After(SYSTEM, t, steps));
      }
    }
  }

  lemma NeverBesideClose(s: Server)
    requires Inv(s) && !Unpublished(s.wonAt) && s.close != NoClose
    ensures !ServesBesideClose(s)
  {}

  ghost predicate ServesOn(s: Server) {
    s.close == ClosingConns && s.listen == Accepting && s.field && !s.osClosed && s.context == Live && s.listenWG == 1
  }

  lemma ServesStep(s: Server, step: Step)
    requires ServesOn(s) && s.state == Closed && Enabled(s, step) && step != ParentCancelled
    ensures ServesOn(Apply(s, step)) && Apply(s, step).state == Closed
  {
    match step
    case ByListen(l) => assert l == Accept || l == Reject;
    case ByHandler(h) => HandlerMovesNoControl(s, h);
    case ByClose(c) => assert c.CloseConn?;
    case _ =>
  }

  /** With a live context that is for good: only the end of the configured Context can stop the server. */
  lemma {:induction false} ServesForGood(s: Server, steps: seq<Step>)
    requires ServesOn(s) && s.state == Closed
    requires CanRun(SYSTEM, s, steps) && forall step | step in steps :: step != ParentCancelled
    ensures ServesOn(After(SYSTEM, s, steps))
    decreases |steps|
  {
    if steps == [] {
    } else {
      assert steps[0] in steps && forall step | step in steps[1..] :: step in steps;
      ServesStep(s, steps[0]);
      ServesForGood(Apply(s, steps[0]), steps[1..]);
    }
  }

  /** A failed net.Listen leaves listenWG raised: a Close that had won the CAS by then never returns. */
  lemma {:induction false} FailedListenBlocksClose(s: Server, steps: seq<Step>)
    requires Inv(s) && s.listen == Failed && s.close != Returned && CanRun(SYSTEM, s, steps)
    ensures After(SYSTEM, s, steps).close != Returned && After(SYSTEM, s, steps).listen == Failed
    decreases |steps|
  {
    if steps == [] {
    } else {
      StepKeepsInv(s, steps[0]);
      StepLasts(s, steps[0]);
      FailedListenBlocksClose(Apply(s, steps[0]), steps[1..]);
    }
  }

  /** Close will still close the connection, or it is closed. */
  predicate Handled(s: Server, id: int) {
    id in s.snapshot || id in s.closedConns
  }

  /** Close has taken its snapshot, and returns only with nothing left of it. */
  predicate PastSnapshot(s: Server) {
    s.state == Closed && (s.close == ClosingConns || (s.close == Returned && s.snapshot == {}))
  }

  lemma ListenLeavesSnapshot(s: Server, step: ListenStep)
    requires ListenEnabled(s, step) && s.state == Closed
    ensures var t := ListenApply(s, step);
      t.state == Closed && t.close == s.close && t.snapshot == s.snapshot && t.closedConns == s.closedConns
  {}

  lemma HandlerLeavesSnapshot(s: Server, step: HandlerStep)
    requires HandlerEnabled(s, step)
    ensures var t := HandlerApply(s, step);
      t.state == s.state && t.close == s.close && t.snapshot == s.snapshot && s.closedConns <= t.closedConns
  {}

  lemma CloseHandles(s: Server, step: CloseStep, id: int)
    requires CloseEnabled(s, step) && PastSnapshot(s) && Handled(s, id)
    ensures PastSnapshot(CloseApply(s, step)) && Handled(CloseApply(s, step), id)
  {}

  lemma StepHandles(s: Server, step: Step, id: int)
    requires Enabled(s, step) && PastSnapshot(s) && Handled(s, id)
    ensures PastSnapshot(Apply(s, step)) && Handled(Apply(s, step), id)
  {
    match step
    case ByListen(l) => ListenLeavesSnapshot(s, l);
    case ByHandler(h) => HandlerLeavesSnapshot(s, h);
    case ByClose(c) => CloseHandles(s, c, id);
    case _ =>
  }

  lemma {:induction false} RunHandles(s: Server, steps: seq<Step>, id: int)
    requires CanRun(SYSTEM, s, steps) && PastSnapshot(s) && Handled(s, id)
    ensures PastSnapshot(After(SYSTEM, s, steps)) && Handled(After(SYSTEM, s, steps), id)
    decreases |steps|
  {
    if steps == [] {
    } else {
      StepHandles(s, steps[0], id);
      RunHandles(Apply(s, steps[0]), steps[1..], id);
    }
  }

  /** A connection that is registered when Close takes its snapshot is closed before Close waits, so when it returns. */
  lemma RegisteredAreClosed(s: Server, steps: seq<Step>, id: int)
    requires Inv(s) && s.close == CancelledContext && s.state == Closed && id in s.conns
    requires CanRun(SYSTEM, Apply(s, ByClose(TakeSnapshot)), steps)
    ensures var t := After(SYSTEM, Apply(s, ByClose(TakeSnapshot)), steps);
      (t.snapshot == {} ==> id in t.closedConns) && (t.close == Returned ==> id in t.closedConns)
  {
    RunHandles(Apply(s, ByClose(TakeSnapshot)), steps, id);
  }

  /** A Close before Listen is final: Listen never gets past its CAS. */
  lemma CloseBeforeListen(kind: Kind, maxConns: nat, steps: seq<Step>)
    requires CanRun(SYSTEM, Apply(Fresh(kind, maxConns), ByClose(CloseUnstarted)), steps)
    ensures After(SYSTEM, Apply(Fresh(kind, maxConns), ByClose(CloseUnstarted)), steps) ==
            Fresh(kind, maxConns).(state := Closed)
  {
    NothingStarts(Apply(Fresh(kind, maxConns), ByClose(CloseUnstarted)), steps);
  }

  lemma NothingStarts(s: Server, steps: seq<Step>)
    requires s == Fresh(s.kind, s.maxConns).(state := Closed) && CanRun(SYSTEM, s, steps)
    ensures steps == []
  {
    forall step
      ensures !Enabled(s, step)
    {
      NothingIsPossible(s, step);
    }
  }

  lemma NothingIsPossible(s: Server, step: Step)
    requires s == Fresh(s.kind, s.maxConns).(state := Closed)
    ensures !Enabled(s, step)
  {}

  /** The listener once closed, nothing is accepted any more. */
  lemma {:induction false} ClosedAcceptsNothing(s: Server, steps: seq<Step>)
    requires s.osClosed && CanRun(SYSTEM, s, steps)
    ensures After(SYSTEM, s, steps).osClosed && After(SYSTEM, s, steps).nextId == s.nextId
    decreases |steps|
  {
    if steps == [] {
    } else {
      ClosedStep(s, steps[0]);
      ClosedAcceptsNothing(Apply(s, steps[0]), steps[1..]);
    }
  }

  lemma ClosedStep(s: Server, step: Step)
    requires s.osClosed && Enabled(s, step)
    ensures Apply(s, step).osClosed && Apply(s, step).nextId == s.nextId
  {
    match step
    case ByListen(l) =>
    case ByHandler(h) => HandlerMovesNoControl(s, h); HandlerAcceptsNothing(s, h);
    case ByClose(c) =>
    case _ =>
  }

  lemma HandlerAcceptsNothing(s: Server, step: HandlerStep)
    requires HandlerEnabled(s, step)
    ensures HandlerApply(s, step).nextId == s.nextId
  {}

  /** net.Listen may fail after a Close has won: what FailedListenBlocksClose speaks of occurs in all servers. */
  lemma ListenMayFail(kind: Kind, maxConns: nat) returns (steps: seq<Step>)
    ensures CanRun(SYSTEM, Fresh(kind, maxConns), steps)
    ensures var s := After(SYSTEM, Fresh(kind, maxConns), steps);
      s.listen == Failed && s.close == Won && s.context == if kind == Telnet then Live else NoContext
  {
    var s0 := Fresh(kind, maxConns);
    var s1 := Apply(s0, ByListen(Cas));
    var s2 := Apply(s1, ByListen(Add));
    var s3 := if kind == Telnet then Apply(s2, ByListen(Prepare)) else s2;
    var s4 := Apply(s3, ByClose(Win));
    var end := Apply(s4, ByListen(BindFails));
    RunsTo(SYSTEM, s4, ByListen(BindFails), [], end);
    steps := [ByListen(BindFails)] + [];
    RunsTo(SYSTEM, s3, ByClose(Win), steps, end);
    steps := [ByClose(Win)] + steps;
    if kind == Telnet {
      RunsTo(SYSTEM, s2, ByListen(Prepare), steps, end);
      steps := [ByListen(Prepare)] + steps;
    }
    RunsTo(SYSTEM, s1, ByListen(Add), steps, end);
    steps := [ByListen(Add)] + steps;
    RunsTo(SYSTEM, s0, ByListen(Cas), steps, end);
    steps := [ByListen(Cas)] + steps;
  }

  // ---------------------------------------------------------------------
  // Does Close return?
  // ---------------------------------------------------------------------

  datatype World = World(contextEnds: bool, acceptErrs: bool)

  predicate Happens(w: World, step: Step) {
    (step == ParentCancelled ==> w.contextEnds) && (step == ByListen(AcceptErrs) ==> w.acceptErrs)
  }

  /** Some continuation lets Close return. */
  ghost predicate CanReturn(s: Server, w: World) {
    exists steps :: CanRun(SYSTEM, s, steps) && (forall step | step in steps :: Happens(w, step))
      && After(SYSTEM, s, steps).close == Returned
  }

  /** A Close has won the CAS and not returned. */
  predicate Winning(s: Server) {
    s.close != NoClose && s.close != Returned
  }

  /** Close was past its cancel before there was a context, and nobody will cancel the one that Listen uses. */
  predicate Unheard(s: Server) {
    PastCancel(s.close) && PastAdd(s.listen) && s.context != Cancelled
  }

  /** Close was past its closeListener before there was a listener, and Listen has not left its loop. */
  predicate LeftOpen(s: Server) {
    PastCloseListener(s.close) && PastAdd(s.listen) && !s.osClosed && s.listen != Cleaning
  }

  /** listenWG stays raised for good. */
  predicate Stuck(s: Server, w: World) {
    || s.listen == Failed
    || (Unheard(s) && (s.kind == Telnet || !w.contextEnds))
    || (LeftOpen(s) && s.kind == Telnet && !w.acceptErrs)
  }

  // ---------------------------------------------------------------------
  // Stuck is for good
  // ---------------------------------------------------------------------

  lemma ListenStaysStuck(s: Server, w: World, step: ListenStep)
    requires Control(s) && Winning(s) && Stuck(s, w) && ListenEnabled(s, step) && Happens(w, ByListen(step))
    ensures Stuck(ListenApply(s, step), w) && ListenApply(s, step).close == s.close
  {}

  lemma CloseStaysStuck(s: Server, w: World, step: CloseStep)
    requires Control(s) && Winning(s) && Stuck(s, w) && CloseEnabled(s, step)
    ensures Stuck(CloseApply(s, step), w) && Winning(CloseApply(s, step))
  {}

  lemma StaysStuck(s: Server, w: World, step: Step)
    requires Control(s) && Winning(s) && Stuck(s, w) && Enabled(s, step) && Happens(w, step)
    ensures Stuck(Apply(s, step), w) && Winning(Apply(s, step))
  {
    match step
    case ByListen(l) => ListenStaysStuck(s, w, l);
    case ByHandler(h) => HandlerMovesNoControl(s, h);
    case ByClose(c) => CloseStaysStuck(s, w, c);
    case _ =>
  }

  lemma {:induction false} StuckForGood(s: Server, w: World, steps: seq<Step>)
    requires Inv(s) && Winning(s) && Stuck(s, w)
    requires CanRun(SYSTEM, s, steps) && forall step | step in steps :: Happens(w, step)
    ensures After(SYSTEM, s, steps).close != Returned
    decreases |steps|
  {
    if steps == [] {
    } else {
      assert steps[0] in steps && forall step | step in steps[1..] :: step in steps;
      StepKeepsInv(s, steps[0]);
      StaysStuck(s, w, steps[0]);
      StuckForGood(Apply(s, steps[0]), w, steps[1..]);
    }
  }

  // ---------------------------------------------------------------------
  // Otherwise there is a way out
  // ---------------------------------------------------------------------

  function ListenLeft(pc: ListenPc): nat {
    match pc
    case Counted => 10
    case Prepared => 9
    case Bound => 8
    case Published => 7
    case Accepting => 6
    case Cleaning => 5
    case CleanedListener => 4
    case CleanedContext => 3
    case Waited => 2
    case Stored => 1
    case _ => 0
  }

  function ShutLeft(s: Server): nat {
    (if s.osClosed then 0 else 1) + (if s.context == Cancelled then 0 else 1)
  }

  function HandlersLeft(s: Server): nat {
    4 * |s.spawned| + 3 * |s.running| + 2 * |s.leaving| + |s.released|
  }

  function CloseLeft(pc: ClosePc): nat {
    match pc
    case Won => 4
    case ClosedListener => 3
    case CancelledContext => 2
    case ClosingConns => 1
    case _ => 0
  }

  /** t is nearer to the return of Close: first Listen, then what wakes it, then the handlers, then Close itself. */
  predicate Nearer(s: Server, t: Server) {
    || ListenLeft(t.listen) < ListenLeft(s.listen)
    || (t.listen == s.listen &&
        (|| ShutLeft(t) < ShutLeft(s)
         || (ShutLeft(t) == ShutLeft(s) &&
             (|| HandlersLeft(t) < HandlersLeft(s)
              || (HandlersLeft(t) == HandlersLeft(s) &&
                  (|| CloseLeft(t.close) < CloseLeft(s.close)
                   || (t.close == s.close && |t.snapshot| < |s.snapshot|)))))))
  }

  /** A step towards the return of Close. */
  ghost predicate Helps(s: Server, w: World, step: Step) {
    && Enabled(s, step) && Happens(w, step)
    && !Stuck(Apply(s, step), w) && Apply(s, step).close != NoClose && Nearer(s, Apply(s, step))
  }

  /** What Listen does next, outside its loop. */
  function ListenNext(s: Server): ListenStep {
    match s.listen
    case Counted => if s.kind == Telnet then Prepare else Bind
    case Prepared => Bind
    case Bound => Publish
    case Published => StartLoop
    case Cleaning => StopListener
    case CleanedListener => StopContext
    case CleanedContext => WaitHandlers
    case Waited => Store
    case _ => Return
  }

  lemma ListenAdvances(s: Server, w: World)
    requires Control(s) && Winning(s) && !Stuck(s, w)
    requires ListenLeft(s.listen) > 0 && s.listen != Accepting && (s.listen == CleanedContext ==> s.wg == 0)
    ensures Helps(s, w, ByListen(ListenNext(s)))
  {
    ListenMovesOn(s);
    ListenStaysFree(s, w);
  }

  lemma ListenMovesOn(s: Server)
    requires Control(s) && ListenLeft(s.listen) > 0
    requires s.listen != Accepting && (s.listen == CleanedContext ==> s.wg == 0)
    ensures ListenEnabled(s, ListenNext(s))
    ensures ListenLeft(ListenApply(s, ListenNext(s)).listen) < ListenLeft(s.listen)
    ensures ListenApply(s, ListenNext(s)).close == s.close
  {}

  lemma ListenStaysFree(s: Server, w: World)
    requires Control(s) && !Stuck(s, w) && ListenLeft(s.listen) > 0 && ListenEnabled(s, ListenNext(s))
    ensures !Stuck(ListenApply(s, ListenNext(s)), w)
  {}

  /** What ends the loop. */
  function WakeUp(s: Server): Step {
    if s.osClosed || (s.kind == Udp && s.context == Cancelled) then ByListen(AcceptFails)
    else if s.close == Won then ByClose(CloseListener)
    else if s.close == ClosedListener && s.context == Live then ByClose(Cancel)
    else if s.context == Live then ParentCancelled
    else if s.kind == Tcp then ContextWatch
    else ByListen(AcceptErrs)
  }

  lemma LoopAdvances(s: Server, w: World)
    requires Control(s) && Winning(s) && !Stuck(s, w) && s.listen == Accepting
    ensures Helps(s, w, WakeUp(s))
  {}

  lemma EmptyOrNot(ids: set<int>)
    ensures ids == {} || exists id :: id in ids
  {
    if forall id :: id !in ids {
      assert ids == {};
    }
  }

  lemma Member(ids: set<int>) returns (id: int)
    requires ids != {}
    ensures id in ids
  {
    EmptyOrNot(ids);
    id :| id in ids;
  }

  lemma SomeHandler(s: Server)
    requires Inv(s) && s.wg > 0
    ensures s.spawned != {} || s.running != {} || s.leaving != {} || s.released != {}
  {}

  lemma RegisterAdvances(s: Server, id: int)
    requires Inv(s) && id in s.spawned
    ensures HandlersLeft(HandlerApply(s, Register(id))) < HandlersLeft(s)
  {
    Moved(s.spawned, s.running, id);
  }

  lemma LeaveAdvances(s: Server, id: int)
    requires Inv(s) && id in s.running
    ensures HandlersLeft(HandlerApply(s, Leave(id))) < HandlersLeft(s)
  {
    Moved(s.running, s.leaving, id);
  }

  lemma ReleaseAdvances(s: Server, id: int)
    requires Inv(s) && s.kind == Udp && id in s.leaving
    ensures HandlerEnabled(s, Release(id)) && HandlersLeft(HandlerApply(s, Release(id))) < HandlersLeft(s)
  {
    Moved(s.leaving, s.released, id);
  }

  lemma ExitAdvances(s: Server, id: int)
    requires Inv(s) && s.wg > 0 && id in if s.kind == Udp then s.released else s.leaving
    ensures HandlersLeft(HandlerApply(s, Exit(id))) < HandlersLeft(s)
  {
    assert s.leaving !! s.released;
    if s.kind == Udp {
      assert s.leaving - {id} == s.leaving;
    }
  }

  lemma SomeHandlerAdvances(s: Server) returns (step: HandlerStep)
    requires Inv(s) && s.wg > 0
    ensures HandlerEnabled(s, step) && HandlersLeft(HandlerApply(s, step)) < HandlersLeft(s)
  {
    SomeHandler(s);
    if s.spawned != {} {
      var id := Member(s.spawned);
      RegisterAdvances(s, id);
      step := Register(id);
    } else if s.running != {} {
      var id := Member(s.running);
      LeaveAdvances(s, id);
      step := Leave(id);
    } else if s.leaving != {} && s.kind == Udp {
      var id := Member(s.leaving);
      ReleaseAdvances(s, id);
      step := Release(id);
    } else {
      var id := Member(if s.kind == Udp then s.released else s.leaving);
      ExitAdvances(s, id);
      step := Exit(id);
    }
  }

  lemma HandlersAdvance(s: Server, w: World) returns (step: Step)
    requires Inv(s) && Winning(s) && !Stuck(s, w) && s.listen == CleanedContext && s.wg > 0
    ensures Helps(s, w, step)
  {
    var h := SomeHandlerAdvances(s);
    HandlerMovesNoControl(s, h);
    step := ByHandler(h);
  }

  /** Close itself, once Listen no longer holds listenWG up. */
  lemma CloseAdvances(s: Server, w: World, c: CloseStep)
    requires Control(s) && Winning(s) && !Stuck(s, w) && ListenLeft(s.listen) == 0
    requires CloseEnabled(s, c)
    ensures Helps(s, w, ByClose(c))
  {}

  lemma SomeCloseStep(s: Server) returns (c: CloseStep)
    requires Winning(s) && s.listenWG == 0
    ensures CloseEnabled(s, c)
  {
    if s.close == Won {
      c := CloseListener;
    } else if s.close == ClosedListener {
      c := Cancel;
    } else if s.close == CancelledContext {
      c := TakeSnapshot;
    } else if s.snapshot == {} {
      c := WaitListen;
    } else {
      var id := Member(s.snapshot);
      c := CloseConn(id);
    }
  }

  lemma Advances(s: Server, w: World) returns (step: Step)
    requires Inv(s) && Winning(s) && !Stuck(s, w)
    ensures Helps(s, w, step)
  {
    if s.listen == Accepting {
      LoopAdvances(s, w);
      step := WakeUp(s);
    } else if s.listen == CleanedContext && s.wg > 0 {
      step := HandlersAdvance(s, w);
    } else if ListenLeft(s.listen) > 0 {
      ListenAdvances(s, w);
      step := ByListen(ListenNext(s));
    } else {
      var c := SomeCloseStep(s);
      CloseAdvances(s, w, c);
      step := ByClose(c);
    }
  }

  lemma {:induction false} WayOut(s: Server, w: World) returns (steps: seq<Step>)
    requires Inv(s) && s.close != NoClose && !Stuck(s, w)
    ensures CanRun(SYSTEM, s, steps) && (forall step | step in steps :: Happens(w, step))
    ensures After(SYSTEM, s, steps).close == Returned
    decreases ListenLeft(s.listen), ShutLeft(s), HandlersLeft(s), CloseLeft(s.close), |s.snapshot|
  {
    if s.close == Returned {
      steps := [];
    } else {
      var step := Advances(s, w);
      var t := Apply(s, step);
      StepKeepsInv(s, step);
      var rest := WayOut(t, w);
      RunsTo(SYSTEM, s, step, rest, After(SYSTEM, t, rest));
      steps := [step] + rest;
    }
  }

  /**
   Exactly when does a Close that has won the CAS return in some continuation? Unless Listen failed,
   or nobody will wake its accept loop: with a configured Context that may end and a listener that may
   fail, only a telnet server whose context Close came too early to cancel; without the first, also the
   other servers in that case; without the second, every telnet server whose listener it came too early
   to close.
   */
  lemma CloseReturnsIff(s: Server, w: World)
    requires Inv(s) && Winning(s)
    ensures CanReturn(s, w) <==> !Stuck(s, w)
  {
    if Stuck(s, w) {
      forall steps | CanRun(SYSTEM, s, steps) && forall step | step in steps :: Happens(w, step)
        ensures After(SYSTEM, s, steps).close != Returned
      {
        StuckForGood(s, w, steps);
      }
    } else {
      var steps := WayOut(s, w);
    }
  }
}
