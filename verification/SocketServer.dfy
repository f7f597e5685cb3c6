/**
 The listen/serve/close protocol shared by ServerTCP (pkg/socket/tcp_server.go),
 the telnet Server (pkg/telnet/server.go) and ServerUDP (pkg/socket/udp_server.go)
 as a transition system of three kinds of threads: the one Listen call that wins
 the state CAS, the one Close call that wins it, and any number of handlers.
 Listen and Close calls that lose the CAS return without touching anything and
 are not steps. Sockets are nondeterministic: a connection or a datagram may
 arrive whenever the listener is open, a handler may run for as long as it likes.

 The three servers differ in when Listen publishes what Close needs, in whether
 connections are registered, and in whether the semaphore is given back.
 */
module SocketServer {
  import opened Runs

  datatype Kind = Tcp | Telnet | Udp

  datatype State = Init | Serving | Closed

  datatype Context = NoContext | Live | Cancelled

  datatype ListenPc =
    | NotCalled
    | Entered         // CAS init -> serving done
    | Counted         // listenWG.Add(1) done
    | Prepared        // telnet only: context and registry made
    | Failed          // net.Listen failed; Listen has returned
    | Bound           // the OS listener is open, not yet published
    | Published       // the listener field is set
    | Accepting
    | Cleaning        // left the loop
    | CleanedListener
    | CleanedContext
    | Waited          // wg.Wait has returned
    | Stored          // state = closed
    | Done            // listenWG.Done; Listen has returned

  datatype ClosePc = NoClose | Won | ClosedListener | CancelledContext | ClosingConns | Returned

  datatype Server = Server(
    kind: Kind,
    maxConns: nat,            // 0 means no limit
    state: State,
    listen: ListenPc,
    close: ClosePc,
    published: bool,          // history: Listen has published its listener
    wonAt: ListenPc,          // history: where Listen was when Close won the CAS
    field: bool,              // the listener field is not nil
    osClosed: bool,           // the OS listener (UDP: socket) has been closed
    context: Context,         // serverCtx
    listenWG: nat,
    wg: nat,
    tokens: nat,              // what sem holds
    active: nat,              // UDP: activeHandler
    conns: set<int>,          // TCP and telnet: the registry
    closedConns: set<int>,    // connections whose Close has run
    awake: set<int>,          // handlers whose own context, a child of serverCtx, is not cancelled
    snapshot: set<int>,       // what closeAllConns has still to close
    nextId: nat,
    spawned: set<int>,        // handler goroutines started, not yet registered
    running: set<int>,        // registered, inside the user's handler
    leaving: set<int>,        // deregistered, connection not yet closed
    released: set<int>)       // UDP: token given back, wg.Done still to come
  {
    /** Handlers that hold a semaphore token while they live. */
    function Holding(): nat { |spawned| + |running| + |leaving| }
  }

  datatype ListenStep = Cas | Add | Prepare | BindFails | Bind | Publish | StartLoop
    | Accept | Reject | AcceptFails | AcceptErrs | StopListener | StopContext | WaitHandlers | Store | Return

  datatype HandlerStep = Register(id: int) | Leave(id: int) | Release(id: int) | Exit(id: int)

  datatype CloseStep = CloseUnstarted | Win | CloseListener | Cancel | TakeSnapshot | CloseConn(id: int) | WaitListen

  datatype Step =
    | ByListen(listenStep: ListenStep)
    | ByHandler(handlerStep: HandlerStep)
    | ByClose(closeStep: CloseStep)
    | ParentCancelled      // TCP, UDP: the configured Context ends
    | ContextWatch         // TCP: the AfterFunc on serverCtx closes the listener

  function Fresh(kind: Kind, maxConns: nat): Server {
    Server(kind, maxConns, Init, NotCalled, NoClose, false, NotCalled, false, false, NoContext, 0, 0, 0, 0,
           {}, {}, {}, {}, 0, {}, {}, {}, {})
  }

  /** There is room under MaxConns. */
  predicate HasRoom(s: Server) {
    s.maxConns == 0 || s.tokens < s.maxConns
  }

  predicate ListenEnabled(s: Server, step: ListenStep) {
    match step
    case Cas => s.listen == NotCalled && s.state == Init
    case Add => s.listen == Entered
    case Prepare => s.kind == Telnet && s.listen == Counted
    case BindFails => s.listen == if s.kind == Telnet then Prepared else Counted
    case Bind => s.listen == if s.kind == Telnet then Prepared else Counted
    case Publish => s.listen == Bound
    case StartLoop => s.listen == Published
    case Accept => s.listen == Accepting && !s.osClosed && HasRoom(s)
    case Reject => s.listen == Accepting && !s.osClosed && !HasRoom(s)
    // The listener is closed, or the read deadline that UDP sets when the context ends.
    case AcceptFails => s.listen == Accepting && (s.osClosed || (s.kind == Udp && s.context == Cancelled))
    // An error of the open listener: the loop then looks at the context.
    case AcceptErrs => s.listen == Accepting && s.kind != Udp && !s.osClosed && s.context == Cancelled
    case StopListener => s.listen == Cleaning
    case StopContext => s.listen == CleanedListener
    case WaitHandlers => s.listen == CleanedContext && s.wg == 0
    case Store => s.listen == Waited
    case Return => s.listen == Stored && s.listenWG > 0
  }

  /** closeListener (UDP: closeConn). */
  function ShutListener(s: Server): Server {
    if s.field then s.(field := false, osClosed := true) else s
  }

  /** serverCancel: cancels serverCtx and with it the context of every handler. */
  function CancelContext(s: Server): Server {
    if s.context == NoContext then s else s.(context := Cancelled, awake := {})
  }

  function ListenApply(s: Server, step: ListenStep): Server
    requires ListenEnabled(s, step)
  {
    match step
    case Cas => s.(state := Serving, listen := Entered)
    case Add => s.(listenWG := s.listenWG + 1, listen := Counted)
    case Prepare => s.(context := Live, conns := {}, listen := Prepared)
    case BindFails => s.(state := Closed, listen := Failed)
    case Bind => s.(listen := Bound)
    case Publish =>
      s.(context := if s.kind == Telnet then s.context else Live, field := true, published := true, listen := Published)
    case StartLoop => s.(listen := Accepting)
    case Accept =>
      s.(tokens := if s.maxConns == 0 then s.tokens else s.tokens + 1,
         awake := if s.kind == Udp && s.context == Live then s.awake + {s.nextId} else s.awake,
         wg := s.wg + 1, spawned := s.spawned + {s.nextId}, nextId := s.nextId + 1)
    case Reject => s
    case AcceptFails => s.(listen := Cleaning)
    case AcceptErrs => s.(listen := Cleaning)
    case StopListener => ShutListener(s).(listen := CleanedListener)
    case StopContext => CancelContext(s).(listen := CleanedContext)
    case WaitHandlers => s.(listen := Waited)
    case Store => s.(state := Closed, listen := Stored)
    case Return => s.(listenWG := s.listenWG - 1, listen := Done)
  }

  predicate HandlerEnabled(s: Server, step: HandlerStep) {
    match step
    case Register(id) => id in s.spawned
    case Leave(id) => id in s.running
    case Release(id) => s.kind == Udp && id in s.leaving && (s.maxConns == 0 || s.tokens > 0)
    case Exit(id) => s.wg > 0 && id in if s.kind == Udp then s.released else s.leaving
  }

  function HandlerApply(s: Server, step: HandlerStep): Server
    requires HandlerEnabled(s, step)
  {
    match step
    case Register(id) =>
      var t := s.(spawned := s.spawned - {id}, running := s.running + {id});
      if s.kind == Udp then t.(active := s.active + 1)
      else t.(conns := s.conns + {id}, awake := if s.context == Live then s.awake + {id} else s.awake)
    case Leave(id) =>
      var t := s.(running := s.running - {id}, leaving := s.leaving + {id});
      if s.kind == Udp then t.(active := if s.active > 0 then s.active - 1 else 0) else t.(conns := s.conns - {id})
    case Release(id) =>
      s.(leaving := s.leaving - {id}, released := s.released + {id},
         tokens := if s.maxConns == 0 then s.tokens else s.tokens - 1)
    case Exit(id) =>
      s.(leaving := s.leaving - {id}, released := s.released - {id}, closedConns := s.closedConns + {id},
         awake := s.awake - {id}, wg := s.wg - 1)
  }

  predicate CloseEnabled(s: Server, step: CloseStep) {
    match step
    case CloseUnstarted => s.state == Init
    case Win => s.state == Serving
    case CloseListener => s.close == Won
    case Cancel => s.close == ClosedListener
    case TakeSnapshot => s.close == CancelledContext
    case CloseConn(id) => s.close == ClosingConns && id in s.snapshot
    case WaitListen => s.close == ClosingConns && s.snapshot == {} && s.listenWG == 0
  }

  function CloseApply(s: Server, step: CloseStep): Server
    requires CloseEnabled(s, step)
  {
    match step
    case CloseUnstarted => s.(state := Closed)
    case Win => s.(state := Closed, close := Won, wonAt := s.listen)
    case CloseListener => ShutListener(s).(close := ClosedListener)
    case Cancel => CancelContext(s).(close := CancelledContext)
    case TakeSnapshot => s.(snapshot := s.conns, close := ClosingConns)
    case CloseConn(id) =>
      s.(snapshot := s.snapshot - {id}, closedConns := s.closedConns + {id}, awake := s.awake - {id})
    case WaitListen => s.(close := Returned)
  }

  predicate Enabled(s: Server, step: Step) {
    match step
    case ByListen(l) => ListenEnabled(s, l)
    case ByHandler(h) => HandlerEnabled(s, h)
    case ByClose(c) => CloseEnabled(s, c)
    case ParentCancelled => s.kind != Telnet && s.context == Live
    case ContextWatch => s.kind == Tcp && s.published && s.context == Cancelled
  }

  function Apply(s: Server, step: Step): Server
    requires Enabled(s, step)
  {
    match step
    case ByListen(l) => ListenApply(s, l)
    case ByHandler(h) => HandlerApply(s, h)
    case ByClose(c) => CloseApply(s, c)
    case ParentCancelled => CancelContext(s)
    case ContextWatch => ShutListener(s)
  }

  const SYSTEM: System<Server, Step> :=
    System(Enabled, (s, step) => if Enabled(s, step) then Apply(s, step) else s)

  // ---------------------------------------------------------------------
  // Control: who has done what
  // ---------------------------------------------------------------------

  predicate HasPublished(pc: ListenPc) {
    pc.Published? || pc.Accepting? || LeftLoop(pc)
  }

  predicate PastAdd(pc: ListenPc) {
    !pc.NotCalled? && !pc.Entered?
  }

  predicate LeftLoop(pc: ListenPc) {
    pc.Cleaning? || pc.CleanedListener? || HasCancelled(pc)
  }

  predicate HasCancelled(pc: ListenPc) {
    pc.CleanedContext? || HasWaited(pc)
  }

  predicate HasWaited(pc: ListenPc) {
    pc.Waited? || pc.Stored? || pc.Done?
  }

  predicate PastCloseListener(pc: ClosePc) {
    pc.ClosedListener? || PastCancel(pc)
  }

  predicate PastCancel(pc: ClosePc) {
    pc.CancelledContext? || pc.ClosingConns? || pc.Returned?
  }

  /** How far Listen and Close are. */
  ghost predicate Progress(s: Server) {
    && (s.state == Init ==> s.listen == NotCalled && s.close == NoClose)
    && (s.state == Serving ==> s.close == NoClose && s.listen != NotCalled && s.listen != Failed)
    && (s.published <==> HasPublished(s.listen))
    && (s.listenWG == if s.listen.NotCalled? || s.listen.Entered? || s.listen.Done? then 0 else 1)
    && (s.close != NoClose ==> s.listen != NotCalled && s.wonAt != NotCalled && s.wonAt != Failed)
    && (PastAdd(s.wonAt) ==> PastAdd(s.listen))
    && (s.listen == Prepared ==> s.kind == Telnet)
    && (HasPublished(s.wonAt) ==> s.published)
    && (s.close == Returned && PastAdd(s.wonAt) ==> s.listen == Done)
    && (s.listen == Stored || s.listen == Done || s.listen == Failed ==> s.state == Closed)
  }

  /** What has become of the listener. */
  ghost predicate Listener(s: Server) {
    && (s.published && !s.field ==> s.osClosed)
    && (s.osClosed ==> s.published)
    && (s.field ==> s.published && !s.osClosed)
    && (LeftLoop(s.listen) && !s.listen.Cleaning? ==> s.osClosed)
    && (HasPublished(s.wonAt) && PastCloseListener(s.close) ==> s.osClosed)
  }

  /** What has become of the context. */
  ghost predicate ServerContext(s: Server) {
    && (s.published || (s.kind == Telnet && (s.listen == Prepared || s.listen == Bound)) ==> s.context != NoContext)
    && (s.context != NoContext ==>
          s.published || (s.kind == Telnet && (s.listen == Prepared || s.listen == Bound || s.listen == Failed)))
    && (HasCancelled(s.listen) ==> s.context == Cancelled)
    && (HasPublished(s.wonAt) && PastCancel(s.close) ==> s.context == Cancelled)
    && (PastCancel(s.close) && s.context == Live ==> !s.osClosed && !LeftLoop(s.listen))
  }

  ghost predicate Control(s: Server) {
    Progress(s) && Listener(s) && ServerContext(s)
  }

  lemma ListenKeepsServerContext(s: Server, step: ListenStep)
    requires Control(s) && ListenEnabled(s, step)
    ensures ServerContext(ListenApply(s, step))
  {}

  lemma ListenKeepsControl(s: Server, step: ListenStep)
    requires Control(s) && ListenEnabled(s, step)
    ensures Control(ListenApply(s, step))
  {
    ListenKeepsServerContext(s, step);
  }

  /** The fields Control speaks of. */
  ghost predicate SameControl(s: Server, t: Server) {
    && t.kind == s.kind && t.state == s.state && t.listen == s.listen && t.close == s.close
    && t.published == s.published && t.wonAt == s.wonAt && t.field == s.field && t.osClosed == s.osClosed
    && t.context == s.context && t.listenWG == s.listenWG
  }

  lemma HandlerMovesNoControl(s: Server, step: HandlerStep)
    requires HandlerEnabled(s, step)
    ensures SameControl(s, HandlerApply(s, step))
  {}

  lemma HandlerKeepsControl(s: Server, step: HandlerStep)
    requires Control(s) && HandlerEnabled(s, step)
    ensures Control(HandlerApply(s, step))
  {
    HandlerMovesNoControl(s, step);
  }

  lemma CloseKeepsControl(s: Server, step: CloseStep)
    requires Control(s) && CloseEnabled(s, step)
    ensures Control(CloseApply(s, step))
  {}

  lemma StepKeepsControl(s: Server, step: Step)
    requires Control(s) && Enabled(s, step)
    ensures Control(Apply(s, step))
  {
    match step
    case ByListen(l) => ListenKeepsControl(s, l);
    case ByHandler(h) => HandlerKeepsControl(s, h);
    case ByClose(c) => CloseKeepsControl(s, c);
    case _ =>
  }

  // ---------------------------------------------------------------------
  // Handlers: registry, WaitGroup and semaphore agree
  // ---------------------------------------------------------------------

  predicate Bounded(ids: set<int>, n: nat) {
    forall id | id in ids :: 0 <= id < n
  }

  predicate Apart(a: set<int>, b: set<int>, c: set<int>, d: set<int>) {
    a !! b && a !! c && a !! d && b !! c && b !! d && c !! d
  }

  ghost predicate Phases(s: Server) {
    && Bounded(s.spawned, s.nextId) && Bounded(s.running, s.nextId)
    && Bounded(s.leaving, s.nextId) && Bounded(s.released, s.nextId)
    && Apart(s.spawned, s.running, s.leaving, s.released)
    && (s.kind != Udp ==> s.released == {} && s.conns == s.running && s.active == 0)
    && (s.kind == Udp ==> s.conns == {} && s.active == |s.running|)
  }

  ghost predicate Counts(s: Server) {
    && s.wg == s.Holding() + |s.released|
    && (if s.maxConns > 0 then s.tokens <= s.maxConns else s.tokens == 0)
    && (s.maxConns > 0 && s.kind == Udp ==> s.tokens == s.Holding())
    && (s.maxConns > 0 && s.kind != Udp ==> s.tokens == s.nextId && s.Holding() <= s.tokens)
    && (!HasPublished(s.listen) ==> s.nextId == 0 && s.wg == 0)
    && (HasWaited(s.listen) ==> s.wg == 0)
  }

  /** Handlers that have a context of their own: UDP makes it before the goroutine, TCP and telnet inside it. */
  predicate HasOwnContext(s: Server, id: int) {
    id in s.running || id in s.leaving || id in s.released || (s.kind == Udp && id in s.spawned)
  }

  /** The context of a handler is cancelled exactly when the server's is or its connection has been closed. */
  ghost predicate Contexts(s: Server) {
    && (forall id | id in s.awake :: HasOwnContext(s, id))
    && (forall id | HasOwnContext(s, id) :: id in s.awake <==> s.context == Live && id !in s.closedConns)
    && (forall id | id in s.closedConns || id in s.snapshot :: 0 <= id < s.nextId && id !in s.spawned)
    && (!s.published ==> s.nextId == 0)
  }

  ghost predicate Inv(s: Server) {
    Control(s) && Phases(s) && Counts(s) && Contexts(s)
  }

  /** The fields Phases and Counts speak of. */
  ghost predicate SameHandlers(s: Server, t: Server) {
    && t.kind == s.kind && t.maxConns == s.maxConns && t.wg == s.wg && t.tokens == s.tokens && t.active == s.active
    && t.conns == s.conns && t.nextId == s.nextId
    && t.spawned == s.spawned && t.running == s.running && t.leaving == s.leaving && t.released == s.released
  }

  lemma AcceptKeepsCounts(s: Server)
    requires Phases(s) && Counts(s) && ListenEnabled(s, Accept)
    ensures Counts(ListenApply(s, Accept))
  {
    assert |s.spawned + {s.nextId}| == |s.spawned| + 1;
  }

  lemma PrepareFindsNoHandler(s: Server)
    requires Phases(s) && Counts(s) && ListenEnabled(s, Prepare)
    ensures s.conns == {}
  {
    assert s.nextId == 0;
    forall id ensures id !in s.running {}
  }

  lemma ListenKeepsHandlers(s: Server, step: ListenStep)
    requires Phases(s) && Counts(s) && ListenEnabled(s, step)
    ensures Phases(ListenApply(s, step)) && Counts(ListenApply(s, step))
  {
    if step == Accept {
      AcceptKeepsCounts(s);
    } else {
      if step == Prepare {
        PrepareFindsNoHandler(s);
      }
      OtherListenStep(s, step);
    }
  }

  lemma OtherListenStep(s: Server, step: ListenStep)
    requires ListenEnabled(s, step) && step != Accept && (step == Prepare ==> s.conns == {})
    ensures var t := ListenApply(s, step);
            && SameHandlers(s, t)
            && (HasPublished(s.listen) ==> HasPublished(t.listen))
            && (HasWaited(t.listen) ==> HasWaited(s.listen) || s.wg == 0)
  {}

  lemma Moved(a: set<int>, b: set<int>, id: int)
    requires id in a && a !! b
    ensures |a - {id}| == |a| - 1 && |b + {id}| == |b| + 1
  {}

  lemma RegisterKeepsPhases(s: Server, id: int)
    requires Phases(s) && HandlerEnabled(s, Register(id))
    ensures Phases(HandlerApply(s, Register(id)))
  {
    Moved(s.spawned, s.running, id);
  }

  lemma RegisterKeepsCounts(s: Server, id: int)
    requires Phases(s) && Counts(s) && HandlerEnabled(s, Register(id))
    ensures Counts(HandlerApply(s, Register(id)))
  {
    Moved(s.spawned, s.running, id);
  }

  lemma LeaveKeepsPhases(s: Server, id: int)
    requires Phases(s) && HandlerEnabled(s, Leave(id))
    ensures Phases(HandlerApply(s, Leave(id)))
  {
    Moved(s.running, s.leaving, id);
  }

  lemma LeaveKeepsCounts(s: Server, id: int)
    requires Phases(s) && Counts(s) && HandlerEnabled(s, Leave(id))
    ensures Counts(HandlerApply(s, Leave(id)))
  {
    Moved(s.running, s.leaving, id);
  }

  lemma ReleaseKeepsPhases(s: Server, id: int)
    requires Phases(s) && HandlerEnabled(s, Release(id))
    ensures Phases(HandlerApply(s, Release(id)))
  {}

  lemma ReleaseKeepsCounts(s: Server, id: int)
    requires Phases(s) && Counts(s) && HandlerEnabled(s, Release(id))
    ensures Counts(HandlerApply(s, Release(id)))
  {
    Moved(s.leaving, s.released, id);
  }

  lemma ExitKeepsPhases(s: Server, id: int)
    requires Phases(s) && HandlerEnabled(s, Exit(id))
    ensures Phases(HandlerApply(s, Exit(id)))
  {}

  lemma ExitKeepsCounts(s: Server, id: int)
    requires Phases(s) && Counts(s) && HandlerEnabled(s, Exit(id))
    ensures Counts(HandlerApply(s, Exit(id)))
  {
    if s.kind == Udp {
      assert s.leaving - {id} == s.leaving;
      Moved(s.released, {}, id);
    } else {
      assert s.released - {id} == s.released;
      Moved(s.leaving, {}, id);
    }
  }

  lemma HandlerKeepsHandlers(s: Server, step: HandlerStep)
    requires Phases(s) && Counts(s) && HandlerEnabled(s, step)
    ensures Phases(HandlerApply(s, step)) && Counts(HandlerApply(s, step))
  {
    match step
    case Register(id) => RegisterKeepsPhases(s, id); RegisterKeepsCounts(s, id);
    case Leave(id) => LeaveKeepsPhases(s, id); LeaveKeepsCounts(s, id);
    case Release(id) => ReleaseKeepsPhases(s, id); ReleaseKeepsCounts(s, id);
    case Exit(id) => ExitKeepsPhases(s, id); ExitKeepsCounts(s, id);
  }

  lemma CloseMovesNoHandler(s: Server, step: CloseStep)
    requires CloseEnabled(s, step)
    ensures SameHandlers(s, CloseApply(s, step)) && CloseApply(s, step).listen == s.listen
  {}

  lemma StepKeepsHandlers(s: Server, step: Step)
    requires Phases(s) && Counts(s) && Enabled(s, step)
    ensures Phases(Apply(s, step)) && Counts(Apply(s, step))
  {
    match step
    case ByListen(l) => ListenKeepsHandlers(s, l);
    case ByHandler(h) => HandlerKeepsHandlers(s, h);
    case ByClose(c) => CloseMovesNoHandler(s, c);
    case _ => assert SameHandlers(s, Apply(s, step)) && Apply(s, step).listen == s.listen;
  }

  lemma AcceptKeepsContexts(s: Server)
    requires Control(s) && Phases(s) && Contexts(s) && ListenEnabled(s, Accept)
    ensures Contexts(ListenApply(s, Accept))
  {
    forall id | HasOwnContext(s, id)
      ensures id != s.nextId
    {}
  }

  lemma ListenKeepsContexts(s: Server, step: ListenStep)
    requires Control(s) && Phases(s) && Counts(s) && Contexts(s) && ListenEnabled(s, step)
    ensures Contexts(ListenApply(s, step))
  {
    if step == Accept {
      AcceptKeepsContexts(s);
    } else if !HasPublished(s.listen) {
      NobodyYet(s);
    }
  }

  lemma NobodyYet(s: Server)
    requires Control(s) && Phases(s) && Counts(s) && Contexts(s) && !HasPublished(s.listen)
    ensures s.spawned == s.running == s.leaving == s.released == s.closedConns == s.snapshot == s.awake == s.conns == {}
    ensures s.nextId == 0 && (s.maxConns > 0 ==> s.tokens == 0)
  {
    assert |s.spawned| == |s.running| == |s.leaving| == |s.released| == 0;
    forall id ensures id !in s.awake && id !in s.closedConns && id !in s.snapshot {}
  }

  lemma HandlerKeepsContexts(s: Server, step: HandlerStep)
    requires Phases(s) && Contexts(s) && HandlerEnabled(s, step)
    ensures Contexts(HandlerApply(s, step))
  {
    match step
    case Register(id) => assert id !in s.closedConns && id !in s.snapshot;
    case Leave(id) => assert id !in s.spawned;
    case Release(id) => assert id !in s.spawned;
    case Exit(id) => assert id !in s.spawned;
  }

  lemma CancelKeepsContexts(s: Server)
    requires Contexts(s)
    ensures Contexts(CancelContext(s))
  {}

  lemma CloseKeepsContexts(s: Server, step: CloseStep)
    requires Phases(s) && Contexts(s) && CloseEnabled(s, step)
    ensures Contexts(CloseApply(s, step))
  {
    CancelKeepsContexts(s);
  }

  lemma StepKeepsContexts(s: Server, step: Step)
    requires Control(s) && Phases(s) && Counts(s) && Contexts(s) && Enabled(s, step)
    ensures Contexts(Apply(s, step))
  {
    match step
    case ByListen(l) => ListenKeepsContexts(s, l);
    case ByHandler(h) => HandlerKeepsContexts(s, h);
    case ByClose(c) => CloseKeepsContexts(s, c);
    case _ =>
  }

  lemma StepKeepsInv(s: Server, step: Step)
    requires Inv(s) && Enabled(s, step)
    ensures Inv(Apply(s, step))
  {
    StepKeepsControl(s, step);
    StepKeepsHandlers(s, step);
    StepKeepsContexts(s, step);
  }

  lemma {:induction false} RunKeepsInv(s: Server, steps: seq<Step>)
    requires Inv(s) && CanRun(SYSTEM, s, steps)
    ensures Inv(After(SYSTEM, s, steps))
    decreases |steps|
  {
    if steps == [] {
    } else {
      StepKeepsInv(s, steps[0]);
      RunKeepsInv(Apply(s, steps[0]), steps[1..]);
    }
  }

  // ---------------------------------------------------------------------
  // What Close guarantees
  // ---------------------------------------------------------------------

  /** Listen has returned, the listener is closed, the context cancelled, and no handler is left. */
  ghost predicate Stopped(s: Server) {
    && s.listen == Done && s.state == Closed && s.osClosed && s.context == Cancelled
    && s.wg == 0 && s.conns == {} && s.spawned == s.running == s.leaving == s.released == s.awake == {}
  }

  lemma DoneIsStopped(s: Server)
    requires Inv(s) && s.listen == Done && s.state == Closed
    ensures Stopped(s)
  {
    assert |s.spawned| == |s.running| == |s.leaving| == |s.released| == 0;
    forall id ensures id !in s.awake {}
  }

  /** A Close that won the CAS when Listen was past its listenWG.Add returns only when everything has stopped. */
  lemma CloseGuarantee(kind: Kind, maxConns: nat, steps: seq<Step>)
    requires CanRun(SYSTEM, Fresh(kind, maxConns), steps)
    ensures var s := After(SYSTEM, Fresh(kind, maxConns), steps);
            && (s.close == Returned && PastAdd(s.wonAt) ==> Stopped(s))
            && (s.close == Returned ==> (Stopped(s) <==> s.listen == Done))
  {
    var s0 := Fresh(kind, maxConns);
    RunKeepsInv(s0, steps);
    StateStaysClosed(s0, steps);
    var s := After(SYSTEM, s0, steps);
    if s.close == Returned && s.listen == Done {
      DoneIsStopped(s);
    }
  }

  /**
   From the moment a Close that won after the listener was published is past its cancel, every
   handler that has a context of its own has a cancelled one: also a handler that registered
   too late for the snapshot, whose connection Close never touches.
   */
  lemma MissedHandlersAreCancelled(kind: Kind, maxConns: nat, steps: seq<Step>, id: int)
    requires CanRun(SYSTEM, Fresh(kind, maxConns), steps)
    requires var s := After(SYSTEM, Fresh(kind, maxConns), steps);
             HasPublished(s.wonAt) && PastCancel(s.close) && HasOwnContext(s, id)
    ensures id !in After(SYSTEM, Fresh(kind, maxConns), steps).awake
  {
    RunKeepsInv(Fresh(kind, maxConns), steps);
  }

  /** In every reachable state: a handler's context is cancelled iff the server's is or its connection was closed. */
  lemma HandlerContexts(kind: Kind, maxConns: nat, steps: seq<Step>, id: int)
    requires CanRun(SYSTEM, Fresh(kind, maxConns), steps)
    requires HasOwnContext(After(SYSTEM, Fresh(kind, maxConns), steps), id)
    ensures var s := After(SYSTEM, Fresh(kind, maxConns), steps);
            id !in s.awake <==> s.context == Cancelled || id in s.closedConns
  {
    RunKeepsInv(Fresh(kind, maxConns), steps);
    var s := After(SYSTEM, Fresh(kind, maxConns), steps);
    assert s.published;
  }

  /** What no step undoes. */
  ghost predicate Lasting(s: Server, t: Server) {
    && t.kind == s.kind && t.maxConns == s.maxConns
    && (HasWaited(s.listen) ==> HasWaited(t.listen) && t.nextId == s.nextId)
    && (s.state == Closed ==> t.state == Closed)
    && (s.close != NoClose && s.state == Closed ==> t.close != NoClose)
    && (s.close == NoClose && t.close != NoClose ==> t.state == Closed)
    && (s.close != NoClose && s.state != Serving ==> t.wonAt == s.wonAt && t.close != NoClose)
    && (s.listen == Failed ==> t.listen == Failed && t.listenWG >= s.listenWG)
    && (t.close == Returned ==> s.close == Returned || s.listenWG == 0)
    && (t.nextId == s.nextId || (s.listen == Accepting && HasRoom(s)))
  }

  lemma ListenLasts(s: Server, step: ListenStep)
    requires ListenEnabled(s, step)
    ensures Lasting(s, ListenApply(s, step))
  {}

  lemma HandlerLasts(s: Server, step: HandlerStep)
    requires HandlerEnabled(s, step)
    ensures Lasting(s, HandlerApply(s, step))
  {}

  lemma CloseLasts(s: Server, step: CloseStep)
    requires CloseEnabled(s, step)
    ensures Lasting(s, CloseApply(s, step))
  {}

  lemma StepLasts(s: Server, step: Step)
    requires Enabled(s, step)
    ensures Lasting(s, Apply(s, step))
  {
    match step
    case ByListen(l) => ListenLasts(s, l);
    case ByHandler(h) => HandlerLasts(s, h);
    case ByClose(c) => CloseLasts(s, c);
    case _ =>
  }

  /** After wg.Wait has returned in Listen, no run ever adds to the WaitGroup again. */
  lemma {:induction false} NoAddAfterWait(s: Server, steps: seq<Step>)
    requires Inv(s) && HasWaited(s.listen) && CanRun(SYSTEM, s, steps)
    ensures var t := After(SYSTEM, s, steps); HasWaited(t.listen) && t.wg == 0 && t.nextId == s.nextId
    decreases |steps|
  {
    if steps == [] {
    } else {
      StepKeepsInv(s, steps[0]);
      StepLasts(s, steps[0]);
      NoAddAfterWait(Apply(s, steps[0]), steps[1..]);
    }
  }

  /** Closed is absorbing: what it takes for CloseGuarantee's state. */
  lemma {:induction false} StateStaysClosed(s: Server, steps: seq<Step>)
    requires CanRun(SYSTEM, s, steps) && (s.close != NoClose ==> s.state == Closed)
    ensures s.state == Closed ==> After(SYSTEM, s, steps).state == Closed
    ensures After(SYSTEM, s, steps).close != NoClose ==> After(SYSTEM, s, steps).state == Closed
    decreases |steps|
  {
    if steps == [] {
    } else {
      StepLasts(s, steps[0]);
      StateStaysClosed(Apply(s, steps[0]), steps[1..]);
    }
  }

  // ---------------------------------------------------------------------
  // Handlers close their connections
  // ---------------------------------------------------------------------

  /** Whoever is gone has closed its connection. */
  ghost predicate Gone(s: Server) {
    forall id | 0 <= id < s.nextId && id !in s.spawned && id !in s.running && id !in s.leaving && id !in s.released ::
      id in s.closedConns
  }

  lemma ListenKeepsGone(s: Server, step: ListenStep)
    requires Gone(s) && ListenEnabled(s, step)
    ensures Gone(ListenApply(s, step))
  {}

  lemma HandlerKeepsGone(s: Server, step: HandlerStep)
    requires Gone(s) && HandlerEnabled(s, step)
    ensures Gone(HandlerApply(s, step))
  {}

  lemma CloseKeepsGone(s: Server, step: CloseStep)
    requires Gone(s) && CloseEnabled(s, step)
    ensures Gone(CloseApply(s, step))
  {}

  lemma StepKeepsGone(s: Server, step: Step)
    requires Gone(s) && Enabled(s, step)
    ensures Gone(Apply(s, step))
  {
    match step
    case ByListen(l) => ListenKeepsGone(s, l);
    case ByHandler(h) => HandlerKeepsGone(s, h);
    case ByClose(c) => CloseKeepsGone(s, c);
    case _ =>
  }

  /** Every connection accepted is with its handler or closed; a stopped server has closed them all. */
  lemma {:induction false} HandlersClose(s: Server, steps: seq<Step>)
    requires Gone(s) && CanRun(SYSTEM, s, steps)
    ensures Gone(After(SYSTEM, s, steps))
    decreases |steps|
  {
    if steps == [] {
    } else {
      StepKeepsGone(s, steps[0]);
      HandlersClose(Apply(s, steps[0]), steps[1..]);
    }
  }

  lemma StoppedHasClosed(kind: Kind, maxConns: nat, steps: seq<Step>)
    requires CanRun(SYSTEM, Fresh(kind, maxConns), steps) && Stopped(After(SYSTEM, Fresh(kind, maxConns), steps))
    ensures var s := After(SYSTEM, Fresh(kind, maxConns), steps); forall id | 0 <= id < s.nextId :: id in s.closedConns
  {
    HandlersClose(Fresh(kind, maxConns), steps);
  }

  // ---------------------------------------------------------------------
  // The connection limit
  // ---------------------------------------------------------------------

  /** Handlers between acquire and release never exceed MaxConns; for UDP the semaphore counts exactly them. */
  lemma LimitHolds(kind: Kind, maxConns: nat, steps: seq<Step>)
    requires maxConns > 0 && CanRun(SYSTEM, Fresh(kind, maxConns), steps)
    ensures var s := After(SYSTEM, Fresh(kind, maxConns), steps);
            && s.Holding() <= maxConns
            && (kind == Udp ==> s.tokens == s.Holding() && s.active == |s.running| && s.active <= s.tokens)
            && (kind == Udp && s.wg == 0 ==> s.tokens == 0 && s.active == 0)
            && (kind != Udp ==> s.conns == s.running && s.wg == s.Holding())
  {
    RunKeepsInv(Fresh(kind, maxConns), steps);
    SettingsAreFixed(Fresh(kind, maxConns), steps);
  }

  lemma {:induction false} SettingsAreFixed(s: Server, steps: seq<Step>)
    requires CanRun(SYSTEM, s, steps)
    ensures After(SYSTEM, s, steps).kind == s.kind && After(SYSTEM, s, steps).maxConns == s.maxConns
    decreases |steps|
  {
    if steps == [] {
    } else {
      StepLasts(s, steps[0]);
      SettingsAreFixed(Apply(s, steps[0]), steps[1..]);
    }
  }

  /**
   TCP and telnet never give a token back: MaxConns bounds the connections
   accepted over the whole life of the server, and once that many have been
   accepted, even if all of them are gone, every later one is rejected.
   */
  lemma {:induction false} ExhaustedForGood(s: Server, steps: seq<Step>)
    requires Inv(s) && s.kind != Udp && s.maxConns > 0 && s.nextId == s.maxConns && CanRun(SYSTEM, s, steps)
    ensures After(SYSTEM, s, steps).nextId == s.maxConns && !Enabled(After(SYSTEM, s, steps), ByListen(Accept))
    decreases |steps|
  {
    if steps == [] {
    } else {
      StepKeepsInv(s, steps[0]);
      StepLasts(s, steps[0]);
      ExhaustedForGood(Apply(s, steps[0]), steps[1..]);
    }
  }

  /** Handlers accepted and not yet gone. */
  function Alive(s: Server): set<int> {
    s.spawned + s.running + s.leaving
  }

  function Below(n: nat): (r: set<int>)
    ensures |r| == n && forall id :: id in r <==> 0 <= id < n
  {
    if n == 0 then {} else Below(n - 1) + {n - 1}
  }

  /**
   When is a connection refused? Exactly once MaxConns have been accepted in all; and that
   happens below the limit on concurrent connections exactly if an accepted one has gone.
   */
  lemma RefusalIff(kind: Kind, maxConns: nat, steps: seq<Step>)
    requires kind != Udp && maxConns > 0 && CanRun(SYSTEM, Fresh(kind, maxConns), steps)
    ensures var s := After(SYSTEM, Fresh(kind, maxConns), steps);
      && (HasRoom(s) <==> s.nextId < maxConns)
      && (!HasRoom(s) ==>
            (|Alive(s)| < maxConns <==> exists id :: 0 <= id < s.nextId && id !in Alive(s)))
  {
    RunKeepsInv(Fresh(kind, maxConns), steps);
    SettingsAreFixed(Fresh(kind, maxConns), steps);
    var s := After(SYSTEM, Fresh(kind, maxConns), steps);
    forall id | id in Alive(s)
      ensures 0 <= id < s.nextId
    {}
    SomeMissing(Alive(s), s.nextId);
    assert |Alive(s)| <= s.nextId == s.maxConns || HasRoom(s);
  }

  lemma SomeMissing(alive: set<int>, n: nat)
    requires forall id | id in alive :: 0 <= id < n
    ensures |alive| < n <==> exists id :: 0 <= id < n && id !in alive
  {
    var all := Below(n);
    assert alive <= all;
    assert |all - alive| == n - |alive|;
    if |alive| < n {
      var id :| id in all - alive;
      assert 0 <= id < n && id !in alive;
    } else {
      assert all - alive == {};
      forall id | 0 <= id < n
        ensures id in alive
      {
        assert id in all;
      }
    }
  }

  lemma LifetimeLimit(kind: Kind, maxConns: nat, steps: seq<Step>)
    requires kind != Udp && maxConns > 0 && CanRun(SYSTEM, Fresh(kind, maxConns), steps)
    ensures After(SYSTEM, Fresh(kind, maxConns), steps).nextId <= maxConns
  {
    RunKeepsInv(Fresh(kind, maxConns), steps);
    SettingsAreFixed(Fresh(kind, maxConns), steps);
  }
}
