/**
 The client lifecycle of ClientTCP (pkg/socket/tcp_client.go) and its datagram
 twin ClientUDP (pkg/socket/udp_client.go) as a transition system: Connect
 callers (serialised by mu), any number of Close callers, the one readLoop, any
 number of Read callers, context cancellation and a peer that may send, fail or
 go away at any moment. One step is one atomic operation, channel operation or
 mutex section. Close calls that lose the state CAS only wait and are not steps.
 */
module SocketClient {
  import opened Runs

  type Chunk = seq<bv8>

  /** Capacity of the output channel. */
  const OUTPUT_CAP := 64

  datatype State = Init | Connected | Closed

  /** A Connect caller inside mu, by what it has done. */
  datatype ConnectPc = NotConnecting | Locked | Dialed | Made | Stored

  /** Who won the CAS connected -> closed; readLoop's call is quiet when the context was cancelled. */
  datatype Winner = NoOne | User | Loop(quiet: bool)

  /** The winner's progress through shutdown. */
  datatype ShutPc = NotShut | Won | Took | ConnDone | Finished

  /** Why readLoop stopped: a panic, or a read error, and whether it then found its context cancelled. */
  datatype Cause = NoCause | ReadFailed(cancelled: bool) | Panic

  datatype LoopPc =
    | NotStarted
    | Reading
    | Sending(chunk: Chunk, thenError: bool)
    | SawError
    | Deciding
    | Panicked
    | CallingShutdown(quiet: bool)
    | InShutdown(quiet: bool)
    | Ending
    | OutputDone
    | Exited

  datatype Client = Client(
    state: State,
    connect: ConnectPc,
    conn: bool,                // the conn field is not nil
    connClosed: bool,          // the underlying connection has been closed
    made: bool,                // output and closed have been made
    output: seq<Chunk>,        // what the output channel holds
    outputCloses: nat,         // how often output has been closed
    closedCloses: nat,         // how often closed has been closed
    winner: Winner,
    shut: ShutPc,
    loop: LoopPc,
    readWG: nat,
    cancelled: bool,           // the configured Context
    errors: nat,               // calls of OnError
    outer: nat,                // Read callers at their first select
    inner: nat,                // Read callers at the select after the closed signal
    cause: Cause,              // history: why readLoop calls shutdown
    closeReturned: bool,       // the Close that won has returned
    received: seq<Chunk>,      // history: read from the connection
    enqueued: seq<Chunk>,      // history: put on output
    delivered: seq<Chunk>)     // history: returned by Read, in channel order

  const FRESH := Client(Init, NotConnecting, false, false, false, [], 0, 0, NoOne, NotShut, NotStarted, 0, false, 0,
                        0, 0, NoCause, false, [], [], [])

  datatype ConnectStep = Lock | Refuse | DialFails | Dial | Make | Store | Start

  datatype LoopStep =
    | ReadChunk(chunk: Chunk, withError: bool)   // the bytes leave the connection; there are none once it is closed
    | ReadError
    | ReadPanics
    | Send
    | AbandonSend
    | LoadState
    | Decide
    | Recover
    | LoopCas
    | Dispatch
    | CloseOutput
    | Leave

  datatype ShutStep = TakeConn | CloseConn | CloseClosed

  datatype ReadStep = Begin | Receive | EndOfOutput | SeeClosed | DrainReceive | DrainEmpty

  datatype Step =
    | ByConnect(connectStep: ConnectStep)
    | ByLoop(loopStep: LoopStep)
    | ByShutdown(shutStep: ShutStep)
    | ByReader(readStep: ReadStep)
    | CloseCas            // a Close caller wins the CAS
    | CloseReturn         // ... and its readWG.Wait returns
    | CancelContext

  predicate MuFree(s: Client) { s.connect == NotConnecting }

  predicate ConnectEnabled(s: Client, step: ConnectStep) {
    match step
    case Lock => MuFree(s)
    case Refuse => s.connect == Locked && s.state != Init
    case DialFails => s.connect == Locked && s.state == Init
    case Dial => s.connect == Locked && s.state == Init
    case Make => s.connect == Dialed
    case Store => s.connect == Made
    case Start => s.connect == Stored
  }

  function ConnectApply(s: Client, step: ConnectStep): Client
    requires ConnectEnabled(s, step)
  {
    match step
    case Lock => s.(connect := Locked)
    case Refuse => s.(connect := NotConnecting)
    case DialFails => s.(connect := NotConnecting)
    case Dial => s.(connect := Dialed)
    case Make =>
      s.(readWG := s.readWG + 1, conn := true, made := true, output := [], outputCloses := 0, closedCloses := 0,
         connect := Made)
    case Store => s.(state := Connected, connect := Stored)
    case Start => s.(loop := Reading, connect := NotConnecting)
  }

  predicate LoopEnabled(s: Client, step: LoopStep) {
    match step
    case ReadChunk(_, _) => s.loop == Reading && !s.connClosed
    case ReadError => s.loop == Reading
    case ReadPanics => s.loop == Reading
    case Send => s.loop.Sending? && |s.output| < OUTPUT_CAP
    case AbandonSend => s.loop.Sending? && s.closedCloses > 0
    case LoadState => s.loop == SawError
    case Decide => s.loop == Deciding
    case Recover => s.loop == Panicked
    case LoopCas => s.loop.CallingShutdown?
    case Dispatch => s.loop.InShutdown? && s.shut == Finished
    case CloseOutput => s.loop == Ending
    case Leave => s.loop == OutputDone && s.readWG > 0
  }

  function LoopApply(s: Client, step: LoopStep): Client
    requires LoopEnabled(s, step)
  {
    match step
    case ReadChunk(c, e) => s.(loop := Sending(c, e), received := s.received + [c])
    case ReadError => s.(loop := SawError)
    case ReadPanics => s.(loop := Panicked)
    case Send =>
      s.(output := s.output + [s.loop.chunk], enqueued := s.enqueued + [s.loop.chunk],
         loop := if s.loop.thenError then SawError else Reading)
    case AbandonSend => s.(loop := Ending)
    case LoadState => s.(loop := if s.state == Closed then Ending else Deciding)
    case Decide => s.(loop := CallingShutdown(s.cancelled), cause := ReadFailed(s.cancelled))
    case Recover => s.(loop := CallingShutdown(false), cause := Panic)
    case LoopCas =>
      if s.state == Connected then
        s.(state := Closed, winner := Loop(s.loop.quiet), shut := Won, loop := InShutdown(s.loop.quiet))
      else s.(loop := Ending)
    case Dispatch => s.(errors := if s.loop.quiet then s.errors else s.errors + 1, loop := Ending)
    case CloseOutput => s.(outputCloses := s.outputCloses + 1, loop := OutputDone)
    case Leave => s.(readWG := s.readWG - 1, loop := Exited)
  }

  predicate ShutEnabled(s: Client, step: ShutStep) {
    match step
    case TakeConn => s.shut == Won && MuFree(s)
    case CloseConn => s.shut == Took
    case CloseClosed => s.shut == ConnDone
  }

  function ShutApply(s: Client, step: ShutStep): Client
    requires ShutEnabled(s, step)
  {
    match step
    case TakeConn => s.(conn := false, shut := Took)
    case CloseConn => s.(connClosed := true, shut := ConnDone)
    case CloseClosed => s.(closedCloses := s.closedCloses + 1, shut := Finished)
  }

  predicate ReadEnabled(s: Client, step: ReadStep) {
    match step
    case Begin => s.state != Init && s.made && MuFree(s)
    case Receive => s.outer > 0 && s.output != []
    case EndOfOutput => s.outer > 0 && s.output == [] && s.outputCloses > 0
    case SeeClosed => s.outer > 0 && s.closedCloses > 0
    case DrainReceive => s.inner > 0 && s.output != []
    case DrainEmpty => s.inner > 0 && s.output == []
  }

  function ReadApply(s: Client, step: ReadStep): Client
    requires ReadEnabled(s, step)
  {
    match step
    case Begin => s.(outer := s.outer + 1)
    case Receive => s.(outer := s.outer - 1, delivered := s.delivered + [s.output[0]], output := s.output[1..])
    case EndOfOutput => s.(outer := s.outer - 1)
    case SeeClosed => s.(outer := s.outer - 1, inner := s.inner + 1)
    case DrainReceive => s.(inner := s.inner - 1, delivered := s.delivered + [s.output[0]], output := s.output[1..])
    case DrainEmpty => s.(inner := s.inner - 1)
  }

  /** The steps with which a Read call returns io.EOF. */
  predicate ReturnsEof(step: Step) {
    step == ByReader(EndOfOutput) || step == ByReader(DrainEmpty)
  }

  predicate Enabled(s: Client, step: Step) {
    match step
    case ByConnect(c) => ConnectEnabled(s, c)
    case ByLoop(l) => LoopEnabled(s, l)
    case ByShutdown(d) => ShutEnabled(s, d)
    case ByReader(r) => ReadEnabled(s, r)
    case CloseCas => s.state == Connected
    case CloseReturn => s.winner == User && s.shut == Finished && s.readWG == 0
    case CancelContext => true
  }

  function Apply(s: Client, step: Step): Client
    requires Enabled(s, step)
  {
    match step
    case ByConnect(c) => ConnectApply(s, c)
    case ByLoop(l) => LoopApply(s, l)
    case ByShutdown(d) => ShutApply(s, d)
    case ByReader(r) => ReadApply(s, r)
    case CloseCas => s.(state := Closed, winner := User, shut := Won)
    case CloseReturn => s.(closeReturned := true)
    case CancelContext => s.(cancelled := true)
  }

  const SYSTEM: System<Client, Step> :=
    System(Enabled, (s, step) => if Enabled(s, step) then Apply(s, step) else s)

  // ---------------------------------------------------------------------
  // Control
  // ---------------------------------------------------------------------

  /** readLoop will not send again. */
  predicate DoneSending(pc: LoopPc) {
    pc.InShutdown? || pc.Ending? || pc.OutputDone? || pc.Exited?
  }

  ghost predicate Control(s: Client) {
    && (s.connect == Dialed || s.connect == Made ==> s.state == Init)
    && (s.state == Init ==> s.loop == NotStarted && s.winner == NoOne)
    && (s.loop == NotStarted ==> s.state == Init || s.connect == Stored)
    && (s.connect == Stored ==> s.state != Init && s.loop == NotStarted)
    && (s.loop == NotStarted ==> s.outer == 0 && s.inner == 0)
    && (s.made <==> s.state != Init || s.connect == Made)
    && (s.state == Closed <==> s.winner != NoOne)
    && (s.winner == NoOne <==> s.shut == NotShut)
    && (s.readWG == if s.made && s.loop != Exited then 1 else 0)
    && s.closedCloses == (if s.shut == Finished then 1 else 0)
    && s.outputCloses == (if s.loop == OutputDone || s.loop == Exited then 1 else 0)
    && (s.shut == ConnDone || s.shut == Finished <==> s.connClosed)
    && (s.inner > 0 ==> s.closedCloses > 0)
  }

  ghost predicate Errors(s: Client) {
    && (s.loop.InShutdown? ==> s.winner == Loop(s.loop.quiet) && s.errors == 0)
    && (s.winner.Loop? ==> DoneSending(s.loop))
    && s.errors <= 1
    && (s.errors == 1 ==> s.winner == Loop(false))
    && (s.loop.CallingShutdown? ==> s.cause != NoCause && (s.loop.quiet <==> s.cause == ReadFailed(true)))
    && (s.winner.Loop? ==> s.cause != NoCause && (s.winner.quiet <==> s.cause == ReadFailed(true)))
    && (s.cause == ReadFailed(true) ==> s.cancelled)
    && (s.loop.Ending? || s.loop.OutputDone? || s.loop.Exited? ==>
          && s.winner != NoOne
          && (s.winner.Loop? ==> s.shut == Finished)
          && (s.winner == Loop(false) ==> s.errors == 1))
    && (s.closeReturned ==> s.winner == User && s.shut == Finished && s.loop == Exited)
  }

  ghost predicate Streams(s: Client) {
    && |s.output| <= OUTPUT_CAP
    && s.delivered + s.output == s.enqueued
    && s.enqueued <= s.received
    && (s.loop == NotStarted ==> s.received == [])
    && (s.loop == Reading ==> s.received == s.enqueued)
    && (s.loop.Sending? ==> s.received == s.enqueued + [s.loop.chunk])
  }

  ghost predicate Inv(s: Client) {
    Control(s) && Errors(s) && Streams(s)
  }

  lemma ConnectKeepsInv(s: Client, step: ConnectStep)
    requires Inv(s) && ConnectEnabled(s, step)
    ensures Inv(ConnectApply(s, step))
  {}

  lemma LoopKeepsControl(s: Client, step: LoopStep)
    requires Control(s) && LoopEnabled(s, step)
    ensures Control(LoopApply(s, step))
  {}

  lemma LoopKeepsErrors(s: Client, step: LoopStep)
    requires Control(s) && Errors(s) && LoopEnabled(s, step)
    ensures Errors(LoopApply(s, step))
  {}

  lemma SendKeepsStreams(s: Client)
    requires Streams(s) && LoopEnabled(s, Send)
    ensures Streams(LoopApply(s, Send))
  {
    assert s.delivered + (s.output + [s.loop.chunk]) == s.delivered + s.output + [s.loop.chunk];
  }

  lemma LoopKeepsStreams(s: Client, step: LoopStep)
    requires Streams(s) && LoopEnabled(s, step)
    ensures Streams(LoopApply(s, step))
  {
    if step == Send {
      SendKeepsStreams(s);
    }
  }

  lemma ShutKeepsInv(s: Client, step: ShutStep)
    requires Inv(s) && ShutEnabled(s, step)
    ensures Inv(ShutApply(s, step))
  {}

  lemma ReadKeepsInv(s: Client, step: ReadStep)
    requires Inv(s) && ReadEnabled(s, step)
    ensures Inv(ReadApply(s, step))
  {
    if step == Receive || step == DrainReceive {
      assert s.delivered + [s.output[0]] + s.output[1..] == s.delivered + s.output;
    }
  }

  lemma StepKeepsInv(s: Client, step: Step)
    requires Inv(s) && Enabled(s, step)
    ensures Inv(Apply(s, step))
  {
    match step
    case ByConnect(c) => ConnectKeepsInv(s, c);
    case ByLoop(l) => LoopKeepsControl(s, l); LoopKeepsErrors(s, l); LoopKeepsStreams(s, l);
    case ByShutdown(d) => ShutKeepsInv(s, d);
    case ByReader(r) => ReadKeepsInv(s, r);
    case _ =>
  }

  lemma {:induction false} RunKeepsInv(s: Client, steps: seq<Step>)
    requires Inv(s) && CanRun(SYSTEM, s, steps)
    ensures Inv(After(SYSTEM, s, steps))
    decreases |steps|
  {
    if steps == [] {
    } else {
      StepKeepsInv(s, steps[0]);
      RunKeepsInv(Apply(s, steps[0]), steps[1..]);
    }
  }

  // ---------------------------------------------------------------------
  // Safety over every run
  // ---------------------------------------------------------------------

  /** Closed is for good; each channel is closed at most once, and exactly once when the Close that won has returned. */
  lemma ChannelsCloseOnce(steps: seq<Step>)
    requires CanRun(SYSTEM, FRESH, steps)
    ensures var s := After(SYSTEM, FRESH, steps);
            && s.closedCloses <= 1 && s.outputCloses <= 1
            && (s.closedCloses == 1 ==> s.state == Closed && s.connClosed)
            && (s.outputCloses == 1 ==> s.state == Closed)
            && (s.closeReturned ==> s.closedCloses == 1 && s.outputCloses == 1 && s.connClosed && s.readWG == 0)
  {
    RunKeepsInv(FRESH, steps);
  }

  /** readLoop has sent for the last time. */
  predicate Silent(pc: LoopPc) {
    pc.SawError? || pc.Deciding? || pc.Panicked? || pc.CallingShutdown? || DoneSending(pc)
  }

  /** readLoop has sent for the last time, or will have to read again from a connection that is closed. */
  predicate Dry(s: Client) {
    Silent(s.loop) || (s.loop == Reading && s.connClosed)
  }

  /** What no step undoes. */
  ghost predicate Lasting(s: Client, t: Client) {
    && (s.state == Closed ==> t.state == Closed && t.winner == s.winner)
    && (s.winner.Loop? ==> t.enqueued == s.enqueued)
    && (s.connClosed ==> t.connClosed)
    && (Dry(s) ==> Dry(t) && t.enqueued == s.enqueued)
    && s.received <= t.received && s.enqueued <= t.enqueued && s.delivered <= t.delivered
  }

  lemma ConnectLasts(s: Client, step: ConnectStep)
    requires Inv(s) && ConnectEnabled(s, step)
    ensures Lasting(s, ConnectApply(s, step))
  {}

  lemma LoopLasts(s: Client, step: LoopStep)
    requires Inv(s) && LoopEnabled(s, step)
    ensures Lasting(s, LoopApply(s, step))
  {}

  lemma ShutLasts(s: Client, step: ShutStep)
    requires ShutEnabled(s, step)
    ensures Lasting(s, ShutApply(s, step))
  {}

  lemma ReadLasts(s: Client, step: ReadStep)
    requires ReadEnabled(s, step)
    ensures Lasting(s, ReadApply(s, step))
  {}

  lemma StepLasts(s: Client, step: Step)
    requires Inv(s) && Enabled(s, step)
    ensures Lasting(s, Apply(s, step))
  {
    match step
    case ByConnect(c) => ConnectLasts(s, c);
    case ByLoop(l) => LoopLasts(s, l);
    case ByShutdown(d) => ShutLasts(s, d);
    case ByReader(r) => ReadLasts(s, r);
    case _ => assert s.state == Closed ==> step != CloseCas;
  }

  lemma {:induction false} ClosedIsAbsorbing(s: Client, steps: seq<Step>)
    requires Inv(s) && CanRun(SYSTEM, s, steps)
    ensures Lasting(s, After(SYSTEM, s, steps))
    decreases |steps|
  {
    if steps == [] {
    } else {
      StepKeepsInv(s, steps[0]);
      StepLasts(s, steps[0]);
      ClosedIsAbsorbing(Apply(s, steps[0]), steps[1..]);
    }
  }

  /**
   OnError fires at most once, and only if readLoop won the shutdown CAS after a
   read error with its context not cancelled, or after a panic; and then it does
   fire, before readLoop closes its output.
   */
  lemma OnErrorAtMostOnce(steps: seq<Step>)
    requires CanRun(SYSTEM, FRESH, steps)
    ensures var s := After(SYSTEM, FRESH, steps);
            && s.errors <= 1
            && (s.errors == 1 ==> s.winner == Loop(false) && (s.cause == ReadFailed(false) || s.cause == Panic))
            && (s.loop.Ending? || s.loop.OutputDone? || s.loop.Exited? ==>
                  (s.errors == 1 <==> s.winner.Loop? && s.cause != ReadFailed(true)))
            && (s.cause == ReadFailed(true) ==> s.cancelled)
  {
    RunKeepsInv(FRESH, steps);
  }

  /** readLoop has not asked for its context yet, or has found it cancelled. */
  predicate Undecided(s: Client) {
    || s.loop.Reading? || s.loop.Sending? || s.loop.SawError? || s.loop.Deciding?
    || s.loop == CallingShutdown(true) || s.loop == InShutdown(true)
    || ((s.loop.Ending? || s.loop.OutputDone? || s.loop.Exited?) && s.winner != Loop(false))
  }

  lemma CancelledLoopStep(s: Client, step: LoopStep)
    requires Errors(s) && s.cancelled && Undecided(s) && LoopEnabled(s, step) && step != ReadPanics
    ensures Undecided(LoopApply(s, step)) && LoopApply(s, step).cancelled
  {}

  lemma CancelledStep(s: Client, step: Step)
    requires Inv(s) && s.cancelled && Undecided(s) && Enabled(s, step) && step != ByLoop(ReadPanics)
    ensures Undecided(Apply(s, step)) && Apply(s, step).cancelled
  {
    match step
    case ByLoop(l) => CancelledLoopStep(s, l);
    case ByConnect(c) => ConnectLeavesLoop(s, c);
    case ByShutdown(d) => ShutLeavesLoop(s, d);
    case ByReader(r) => ReadLeavesLoop(s, r);
    case _ =>
  }

  /** What Undecided speaks of. */
  ghost predicate SameLoop(s: Client, t: Client) {
    && t.loop == s.loop && t.winner == s.winner && t.cancelled == s.cancelled
    && t.received == s.received && t.cause == s.cause
  }

  lemma ConnectLeavesLoop(s: Client, step: ConnectStep)
    requires ConnectEnabled(s, step) && s.connect != Stored
    ensures SameLoop(s, ConnectApply(s, step))
  {}

  lemma ShutLeavesLoop(s: Client, step: ShutStep)
    requires ShutEnabled(s, step)
    ensures SameLoop(s, ShutApply(s, step)) && ShutApply(s, step).state == s.state
  {}

  lemma ReadLeavesLoop(s: Client, step: ReadStep)
    requires ReadEnabled(s, step)
    ensures SameLoop(s, ReadApply(s, step)) && ReadApply(s, step).state == s.state
  {}

  /** A context that ends before readLoop asks for it keeps OnError silent, but for panics. */
  lemma {:induction false} CancelSilences(s: Client, steps: seq<Step>)
    requires Inv(s) && s.cancelled && Undecided(s)
    requires CanRun(SYSTEM, s, steps) && ByLoop(ReadPanics) !in steps
    ensures After(SYSTEM, s, steps).errors == 0
    decreases |steps|
  {
    if steps == [] {
    } else {
      assert steps[0] in steps && forall step | step in steps[1..] :: step in steps;
      StepKeepsInv(s, steps[0]);
      CancelledStep(s, steps[0]);
      CancelSilences(Apply(s, steps[0]), steps[1..]);
    }
  }

  /** The same from the moment the context ends. */
  lemma ContextEndSilences(s: Client, steps: seq<Step>)
    requires Inv(s) && Undecided(s)
    requires CanRun(SYSTEM, Apply(s, CancelContext), steps) && ByLoop(ReadPanics) !in steps
    ensures After(SYSTEM, Apply(s, CancelContext), steps).errors == 0
  {
    StepKeepsInv(s, CancelContext);
    CancelSilences(Apply(s, CancelContext), steps);
  }

  /** The client is closed, and readLoop has not asked why it should stop. */
  predicate Unasked(s: Client) {
    s.state == Closed &&
    (s.loop.Reading? || s.loop.Sending? || s.loop.SawError? || s.loop.Ending? || s.loop.OutputDone? || s.loop.Exited?)
  }

  lemma UnaskedStep(s: Client, step: Step)
    requires Inv(s) && Unasked(s) && Enabled(s, step) && step != ByLoop(ReadPanics)
    ensures Unasked(Apply(s, step)) && Apply(s, step).cause == s.cause
  {
    match step
    case ByLoop(l) => UnaskedLoopStep(s, l);
    case ByConnect(c) => UnaskedConnectStep(s, c);
    case ByShutdown(d) => ShutLeavesLoop(s, d);
    case ByReader(r) => ReadLeavesLoop(s, r);
    case _ =>
  }

  lemma UnaskedLoopStep(s: Client, step: LoopStep)
    requires Unasked(s) && LoopEnabled(s, step) && step != ReadPanics
    ensures Unasked(LoopApply(s, step)) && LoopApply(s, step).cause == s.cause
  {}

  lemma UnaskedConnectStep(s: Client, step: ConnectStep)
    requires Control(s) && Unasked(s) && ConnectEnabled(s, step)
    ensures Unasked(ConnectApply(s, step)) && ConnectApply(s, step).cause == s.cause
  {}

  /** An error that Read gives after a Close is not looked at any further. */
  lemma {:induction false} ErrorsAfterCloseAreIgnored(s: Client, steps: seq<Step>)
    requires Inv(s) && Unasked(s) && CanRun(SYSTEM, s, steps) && ByLoop(ReadPanics) !in steps
    ensures After(SYSTEM, s, steps).cause == s.cause
    decreases |steps|
  {
    if steps == [] {
    } else {
      assert steps[0] in steps && forall step | step in steps[1..] :: step in steps;
      StepKeepsInv(s, steps[0]);
      UnaskedStep(s, steps[0]);
      ErrorsAfterCloseAreIgnored(Apply(s, steps[0]), steps[1..]);
    }
  }

  // ---------------------------------------------------------------------
  // What calls do
  // ---------------------------------------------------------------------

  /** A Connect that has mu: refused unless the client is new; a dial that fails leaves everything for the next try. */
  lemma ConnectOutcomes(s: Client, step: ConnectStep)
    requires s.connect == Locked
    ensures ConnectEnabled(s, step) <==> if s.state == Init then step == Dial || step == DialFails else step == Refuse
    ensures s.state != Init ==> ConnectApply(s, Refuse) == s.(connect := NotConnecting)
    ensures s.state == Init ==> ConnectApply(s, DialFails) == s.(connect := NotConnecting)
  {}

  /** With a dial that does not fail, a new client ends connected and reading. */
  lemma ConnectSucceeds(s: Client) returns (steps: seq<Step>)
    requires Inv(s) && s.connect == Locked && s.state == Init
    ensures CanRun(SYSTEM, s, steps)
    ensures var t := After(SYSTEM, s, steps);
      t.state == Connected && t.loop == Reading && t.connect == NotConnecting && t.conn && t.readWG == 1
  {
    var a := Apply(s, ByConnect(Dial));
    var b := Apply(a, ByConnect(Make));
    var c := Apply(b, ByConnect(Store));
    var d := Apply(c, ByConnect(Start));
    RunsTo(SYSTEM, c, ByConnect(Start), [], d);
    steps := [ByConnect(Start)] + [];
    RunsTo(SYSTEM, b, ByConnect(Store), steps, d);
    steps := [ByConnect(Store)] + steps;
    RunsTo(SYSTEM, a, ByConnect(Make), steps, d);
    steps := [ByConnect(Make)] + steps;
    RunsTo(SYSTEM, s, ByConnect(Dial), steps, d);
    steps := [ByConnect(Dial)] + steps;
  }

  /** As long as a Connect holds mu no other Connect begins, no shutdown takes the connection and no Read begins. */
  lemma MuExcludes(s: Client)
    requires s.connect != NotConnecting
    ensures !Enabled(s, ByConnect(Lock)) && !Enabled(s, ByShutdown(TakeConn)) && !Enabled(s, ByReader(Begin))
  {}

  predicate GivesChunk(step: Step) {
    step == ByReader(Receive) || step == ByReader(DrainReceive)
  }

  function ReadsBegun(steps: seq<Step>): nat {
    if steps == [] then 0 else (if steps[0] == ByReader(Begin) then 1 else 0) + ReadsBegun(steps[1..])
  }

  function ChunksGiven(steps: seq<Step>): nat {
    if steps == [] then 0 else (if GivesChunk(steps[0]) then 1 else 0) + ChunksGiven(steps[1..])
  }

  function EofsGiven(steps: seq<Step>): nat {
    if steps == [] then 0 else (if ReturnsEof(steps[0]) then 1 else 0) + EofsGiven(steps[1..])
  }

  lemma ReadStepCounts(s: Client, step: Step)
    requires Enabled(s, step)
    ensures var t := Apply(s, step);
      && t.outer + t.inner == s.outer + s.inner
           + (if step == ByReader(Begin) then 1 else 0) - (if GivesChunk(step) || ReturnsEof(step) then 1 else 0)
      && |t.delivered| == |s.delivered| + (if GivesChunk(step) then 1 else 0)
  {
    match step
    case ByReader(r) => ReaderCounts(s, r);
    case ByLoop(l) => LoopLeavesReaders(s, l);
    case ByConnect(c) => ConnectLeavesReaders(s, c);
    case ByShutdown(d) => ShutLeavesReaders(s, d);
    case _ =>
  }

  lemma ReaderCounts(s: Client, step: ReadStep)
    requires ReadEnabled(s, step)
    ensures var t := ReadApply(s, step);
      && t.outer + t.inner == s.outer + s.inner + (if step == SeeClosed then 0 else if step == Begin then 1 else -1)
      && t.delivered == s.delivered + if step == Receive || step == DrainReceive then [s.output[0]] else []
  {
    match step
    case Begin => assert s.delivered + [] == s.delivered;
    case Receive => assert s.outer > 0;
    case DrainReceive => assert s.inner > 0;
    case _ => assert s.delivered + [] == s.delivered;
  }

  lemma ShutLeavesReaders(s: Client, step: ShutStep)
    requires ShutEnabled(s, step)
    ensures var t := ShutApply(s, step); t.outer == s.outer && t.inner == s.inner && t.delivered == s.delivered
  {}

  lemma LoopLeavesReaders(s: Client, step: LoopStep)
    requires LoopEnabled(s, step)
    ensures var t := LoopApply(s, step); t.outer == s.outer && t.inner == s.inner && t.delivered == s.delivered
  {
    match step
    case LoadState =>
    case Decide =>
    case Send =>
    case LoopCas =>
    case Dispatch =>
    case _ =>
  }

  lemma ConnectLeavesReaders(s: Client, step: ConnectStep)
    requires ConnectEnabled(s, step)
    ensures var t := ConnectApply(s, step); t.outer == s.outer && t.inner == s.inner && t.delivered == s.delivered
  {
    match step
    case Make =>
    case Store =>
    case Start =>
    case _ =>
  }

  /** Every Read returns once: with one chunk, which no other gets, or with EOF. */
  lemma {:induction false} ReadsReturnOnce(s: Client, steps: seq<Step>)
    requires CanRun(SYSTEM, s, steps)
    ensures var t := After(SYSTEM, s, steps);
      && t.outer + t.inner + ChunksGiven(steps) + EofsGiven(steps) == s.outer + s.inner + ReadsBegun(steps)
      && |t.delivered| == |s.delivered| + ChunksGiven(steps)
    decreases |steps|
  {
    if steps == [] {
    } else {
      ReadStepCounts(s, steps[0]);
      ReadsReturnOnce(Apply(s, steps[0]), steps[1..]);
    }
  }

  /** A Read that finds a chunk on the channel. */
  lemma {:induction false} DrainsOutput(s: Client) returns (steps: seq<Step>)
    requires Inv(s) && s.state == Connected && MuFree(s)
    ensures CanRun(SYSTEM, s, steps)
    ensures After(SYSTEM, s, steps) == s.(output := [], delivered := s.delivered + s.output)
    decreases |s.output|
  {
    if s.output == [] {
      steps := [];
      assert s.delivered + [] == s.delivered;
    } else {
      var a := Apply(s, ByReader(Begin));
      var b := Apply(a, ByReader(Receive));
      StepKeepsInv(s, ByReader(Begin));
      StepKeepsInv(a, ByReader(Receive));
      assert s.delivered + [s.output[0]] + s.output[1..] == s.delivered + s.output;
      var rest := DrainsOutput(b);
      RunsTo(SYSTEM, a, ByReader(Receive), rest, After(SYSTEM, b, rest));
      RunsTo(SYSTEM, s, ByReader(Begin), [ByReader(Receive)] + rest, After(SYSTEM, b, rest));
      steps := [ByReader(Begin)] + ([ByReader(Receive)] + rest);
    }
  }

  lemma PassesOne(s: Client, c: Chunk) returns (steps: seq<Step>)
    requires Inv(s) && s.state == Connected && MuFree(s) && s.loop == Reading && s.output == []
    ensures CanRun(SYSTEM, s, steps)
    ensures After(SYSTEM, s, steps) == Passed(s, [c])
  {
    var a := s.(loop := Sending(c, false), received := s.received + [c]);
    var b := s.(output := [c], received := s.received + [c], enqueued := s.enqueued + [c]);
    assert [] + [c] == [c];
    assert Apply(s, ByLoop(ReadChunk(c, false))) == a && Apply(a, ByLoop(Send)) == b;
    StepKeepsInv(s, ByLoop(ReadChunk(c, false)));
    StepKeepsInv(a, ByLoop(Send));
    var rest := DrainsOutput(b);
    RunsTo(SYSTEM, a, ByLoop(Send), rest, Passed(s, [c]));
    RunsTo(SYSTEM, s, ByLoop(ReadChunk(c, false)), [ByLoop(Send)] + rest, Passed(s, [c]));
    steps := [ByLoop(ReadChunk(c, false))] + ([ByLoop(Send)] + rest);
  }

  function Passed(s: Client, chunks: seq<Chunk>): Client {
    s.(received := s.received + chunks, enqueued := s.enqueued + chunks, delivered := s.delivered + chunks)
  }

  lemma PassedMore(s: Client, chunks: seq<Chunk>)
    requires chunks != []
    ensures Passed(Passed(s, [chunks[0]]), chunks[1..]) == Passed(s, chunks)
  {
    assert [chunks[0]] + chunks[1..] == chunks;
    assert s.received + [chunks[0]] + chunks[1..] == s.received + chunks;
    assert s.enqueued + [chunks[0]] + chunks[1..] == s.enqueued + chunks;
    assert s.delivered + [chunks[0]] + chunks[1..] == s.delivered + chunks;
  }

  /** An open client can pass on whatever the peer sends, to readers that come and go. */
  lemma {:induction false} TransfersAll(s: Client, chunks: seq<Chunk>) returns (steps: seq<Step>)
    requires Inv(s) && s.state == Connected && MuFree(s) && s.loop == Reading && s.output == []
    ensures CanRun(SYSTEM, s, steps)
    ensures After(SYSTEM, s, steps) == Passed(s, chunks)
    decreases |chunks|
  {
    if chunks == [] {
      steps := [];
      assert s.received + [] == s.received && s.enqueued + [] == s.enqueued && s.delivered + [] == s.delivered;
    } else {
      var first := PassesOne(s, chunks[0]);
      var t := Passed(s, [chunks[0]]);
      RunKeepsInv(s, first);
      var rest := TransfersAll(t, chunks[1..]);
      RunsConcat(SYSTEM, s, first, rest);
      PassedMore(s, chunks);
      steps := first + rest;
    }
  }

  /** readLoop has its last chunk in hand, or is past it. */
  predicate ReadsNoMore(s: Client) {
    Silent(s.loop) || (s.loop.Sending? && s.loop.thenError)
  }

  lemma ReadsNoMoreStep(s: Client, step: Step)
    requires Inv(s) && ReadsNoMore(s) && Enabled(s, step)
    ensures ReadsNoMore(Apply(s, step)) && Apply(s, step).received == s.received
  {
    match step
    case ByLoop(l) => ReadsNoMoreLoopStep(s, l);
    case ByConnect(c) => ReadsNoMoreConnectStep(s, c);
    case ByShutdown(d) => ShutLeavesLoop(s, d);
    case ByReader(r) => ReadLeavesLoop(s, r);
    case _ =>
  }

  lemma ReadsNoMoreLoopStep(s: Client, step: LoopStep)
    requires ReadsNoMore(s) && LoopEnabled(s, step)
    ensures ReadsNoMore(LoopApply(s, step)) && LoopApply(s, step).received == s.received
  {}

  lemma ReadsNoMoreConnectStep(s: Client, step: ConnectStep)
    requires Control(s) && ReadsNoMore(s) && ConnectEnabled(s, step)
    ensures ReadsNoMore(ConnectApply(s, step)) && ConnectApply(s, step).received == s.received
  {}

  /** A Read that gives bytes together with an error is the last one. */
  lemma {:induction false} ErrorEndsReading(s: Client, steps: seq<Step>)
    requires Inv(s) && ReadsNoMore(s) && CanRun(SYSTEM, s, steps)
    ensures After(SYSTEM, s, steps).received == s.received
    decreases |steps|
  {
    if steps == [] {
    } else {
      StepKeepsInv(s, steps[0]);
      ReadsNoMoreStep(s, steps[0]);
      ErrorEndsReading(Apply(s, steps[0]), steps[1..]);
    }
  }

  /** What the readers got, together, is a prefix of what readLoop put on the channel, a prefix of what it read. */
  lemma ReadersGetPrefix(steps: seq<Step>)
    requires CanRun(SYSTEM, FRESH, steps)
    ensures var s := After(SYSTEM, FRESH, steps);
            s.delivered <= s.enqueued <= s.received && |s.enqueued| - |s.delivered| <= 64
  {
    RunKeepsInv(FRESH, steps);
    var s := After(SYSTEM, FRESH, steps);
    assert |s.delivered + s.output| == |s.enqueued|;
  }

  /**
   When a Read returns EOF, every chunk enqueued so far has been delivered; and
   if the shutdown came from readLoop itself, no chunk is enqueued afterwards in
   any continuation: nothing is lost.
   */
  lemma EofMeansDrained(before: seq<Step>, eof: Step, later: seq<Step>)
    requires CanRun(SYSTEM, FRESH, before) && ReturnsEof(eof) && Enabled(After(SYSTEM, FRESH, before), eof)
    requires CanRun(SYSTEM, Apply(After(SYSTEM, FRESH, before), eof), later)
    ensures var s := After(SYSTEM, FRESH, before);
            var t := After(SYSTEM, Apply(s, eof), later);
            && s.delivered == s.enqueued
            && (s.winner.Loop? ==> t.enqueued == s.delivered && t.output == [])
  {
    var s := After(SYSTEM, FRESH, before);
    RunKeepsInv(FRESH, before);
    StepKeepsInv(s, eof);
    RunKeepsInv(Apply(s, eof), later);
    ClosedIsAbsorbing(Apply(s, eof), later);
    assert s.delivered + [] == s.delivered;
    var t := After(SYSTEM, Apply(s, eof), later);
    if s.winner.Loop? {
      assert Apply(s, eof).enqueued == s.enqueued;
      assert t.delivered + t.output == t.enqueued == s.delivered;
      assert |t.delivered| >= |s.delivered|;
    }
  }

  /**
   After a user's Close that is not so: readLoop may be waiting to send, a Read
   drains nothing and returns EOF, and then the chunk is enqueued after all.
   */
  lemma UserCloseMayStrandChunk(c: Chunk) returns (before: seq<Step>, eof: Step)
    ensures CanRun(SYSTEM, FRESH, before) && ReturnsEof(eof) && Enabled(After(SYSTEM, FRESH, before), eof)
    ensures var t := Apply(After(SYSTEM, FRESH, before), eof);
            t.enqueued == [] && Enabled(t, ByLoop(Send)) && Apply(t, ByLoop(Send)).enqueued == [c]
  {
    var s1 := FRESH.(state := Connected, conn := true, made := true, readWG := 1, loop := Sending(c, false),
                     received := [c]);
    var s2 := s1.(state := Closed, winner := User, shut := Finished, conn := false, connClosed := true,
                  closedCloses := 1, inner := 1);
    var first := ConnectsAndReads(c, s1);
    var second := ClosesWhileSending(s1, s2);
    RunsConcat(SYSTEM, FRESH, first, second);
    before, eof := first + second, ByReader(DrainEmpty);
    assert [] + [c] == [c];
  }

  /** Some continuation puts a chunk on the channel. */
  ghost predicate CanStrand(s: Client) {
    exists later :: CanRun(SYSTEM, s, later) && After(SYSTEM, s, later).enqueued != s.enqueued
  }

  /** Exactly: after an EOF a chunk may still be enqueued if and only if readLoop has one in hand. */
  lemma StrandsIff(before: seq<Step>, eof: Step)
    requires CanRun(SYSTEM, FRESH, before) && ReturnsEof(eof) && Enabled(After(SYSTEM, FRESH, before), eof)
    ensures var t := Apply(After(SYSTEM, FRESH, before), eof);
      CanStrand(t) <==> t.loop.Sending?
  {
    var s := After(SYSTEM, FRESH, before);
    var t := Apply(s, eof);
    RunKeepsInv(FRESH, before);
    StepKeepsInv(s, eof);
    if t.loop.Sending? {
      RunsTo(SYSTEM, t, ByLoop(Send), [], Apply(t, ByLoop(Send)));
    } else {
      forall later | CanRun(SYSTEM, t, later)
        ensures After(SYSTEM, t, later).enqueued == t.enqueued
      {
        ClosedIsAbsorbing(t, later);
      }
    }
  }

  // ---------------------------------------------------------------------
  // Close returns
  // ---------------------------------------------------------------------

  /** What readLoop and the shutdown still have to do once the connection is closed. */
  function LoopWork(pc: LoopPc): nat {
    match pc
    case NotStarted => 0
    case Sending(_, _) => 8
    case Reading => 7
    case SawError => 6
    case Deciding => 5
    case Panicked => 5
    case CallingShutdown(_) => 4
    case InShutdown(_) => 3
    case Ending => 2
    case OutputDone => 1
    case Exited => 0
  }

  function ShutWork(pc: ShutPc): nat {
    match pc
    case NotShut => 0
    case Won => 3
    case Took => 2
    case ConnDone => 1
    case Finished => 0
  }

  function Work(s: Client): nat {
    LoopWork(s.loop) + ShutWork(s.shut)
  }

  /** Once the connection is closed, every step of readLoop and of the shutdown brings both nearer to their end. */
  lemma ClosedWindsDown(s: Client, step: Step)
    requires Inv(s) && s.connClosed && Enabled(s, step) && (step.ByLoop? || step.ByShutdown?)
    ensures Work(Apply(s, step)) < Work(s) && Apply(s, step).connClosed
  {
    match step
    case ByLoop(l) => assert s.state == Closed; ClosedLoopWindsDown(s, l);
    case ByShutdown(d) =>
    case _ =>
  }

  lemma ClosedLoopWindsDown(s: Client, step: LoopStep)
    requires s.state == Closed && s.connClosed && LoopEnabled(s, step)
    ensures LoopWork(LoopApply(s, step).loop) < LoopWork(s.loop)
    ensures LoopApply(s, step).shut == s.shut && LoopApply(s, step).connClosed
  {
    match s.loop
    case Reading => assert step.ReadError? || step.ReadPanics?;
    case Sending(_, _) => assert step.Send? || step.AbandonSend?;
    case InShutdown(_) => assert step.Dispatch?;
    case CallingShutdown(_) => assert step.LoopCas?;
    case _ =>
  }

  /** A step that needs neither the peer nor the user: readLoop reads only from a closed connection, to get an error. */
  predicate Unaided(s: Client, step: Step) {
    || step.ByShutdown?
    || (step.ByLoop? && !step.loopStep.ReadChunk? && !step.loopStep.ReadPanics?
        && (step.loopStep.ReadError? ==> s.connClosed))
    || step == ByConnect(Refuse) || step == ByConnect(Start)
  }

  ghost predicate AllUnaided(s: Client, steps: seq<Step>)
    requires CanRun(SYSTEM, s, steps)
    decreases |steps|
  {
    steps == [] || (Unaided(s, steps[0]) && AllUnaided(Apply(s, steps[0]), steps[1..]))
  }

  /** The next such step of readLoop once the shutdown is through. */
  function NextOfLoop(pc: LoopPc): LoopStep {
    match pc
    case Reading => ReadError
    case Sending(_, _) => AbandonSend
    case SawError => LoadState
    case Deciding => Decide
    case Panicked => Recover
    case CallingShutdown(_) => LoopCas
    case InShutdown(_) => Dispatch
    case Ending => CloseOutput
    case _ => Leave
  }

  /** The next such step, as long as a Close is kept waiting. */
  function NextUnaided(s: Client): Step {
    if s.connect == Locked then ByConnect(Refuse)
    else if s.connect == Stored then ByConnect(Start)
    else if s.shut == Won then ByShutdown(TakeConn)
    else if s.shut == Took then ByShutdown(CloseConn)
    else if s.shut == ConnDone then ByShutdown(CloseClosed)
    else ByLoop(NextOfLoop(s.loop))
  }

  function Remaining(s: Client): nat {
    (if s.loop == NotStarted then 8 else LoopWork(s.loop)) + ShutWork(s.shut) + (if MuFree(s) then 0 else 1)
  }

  /** The step keeps the client closed and brings the end nearer. */
  predicate Nearer(s: Client, t: Client) {
    t.state == Closed && t.winner == s.winner && Remaining(t) < Remaining(s)
  }

  lemma NextLoopIsEnabled(s: Client)
    requires Control(s) && s.state == Closed && s.shut == Finished && MuFree(s) && s.readWG > 0
    ensures LoopEnabled(s, NextOfLoop(s.loop)) && s.connClosed && Nearer(s, LoopApply(s, NextOfLoop(s.loop)))
  {
    assert s.loop != NotStarted;
    ClosedLoopWindsDown(s, NextOfLoop(s.loop));
  }

  lemma NextShutIsEnabled(s: Client, step: ShutStep)
    requires Control(s) && s.state == Closed && s.shut != Finished && MuFree(s)
    requires step == match s.shut case Won => TakeConn case Took => CloseConn case _ => CloseClosed
    ensures ShutEnabled(s, step) && Nearer(s, ShutApply(s, step))
  {}

  lemma NextConnectIsEnabled(s: Client)
    requires Control(s) && s.state == Closed && !MuFree(s)
    ensures s.connect == Locked || s.connect == Stored
    ensures var step := if s.connect == Locked then Refuse else Start;
      ConnectEnabled(s, step) && Nearer(s, ConnectApply(s, step))
  {}

  lemma NextIsEnabled(s: Client)
    requires Control(s) && s.state == Closed && (s.readWG > 0 || s.shut != Finished || !MuFree(s))
    ensures Enabled(s, NextUnaided(s)) && Unaided(s, NextUnaided(s)) && Nearer(s, Apply(s, NextUnaided(s)))
  {
    if !MuFree(s) {
      NextConnectIsEnabled(s);
    } else if s.shut == Finished {
      NextLoopIsEnabled(s);
    } else {
      NextShutIsEnabled(s, NextUnaided(s).shutStep);
    }
  }

  /**
   A winning Close is never stuck: whatever the peer does, steps of readLoop, of the shutdown and of
   a Connect that holds mu lead to a state in which nothing is left for a Close to wait for.
   */
  lemma {:induction false} CloseCanReturn(s: Client) returns (steps: seq<Step>)
    requires Inv(s) && s.state == Closed
    ensures CanRun(SYSTEM, s, steps) && AllUnaided(s, steps)
    ensures var t := After(SYSTEM, s, steps);
      && t.readWG == 0 && t.shut == Finished && t.loop == Exited && t.winner == s.winner
      && (s.winner == User ==> Enabled(t, CloseReturn) && Apply(t, CloseReturn).closeReturned)
    decreases Remaining(s)
  {
    if s.readWG == 0 && s.shut == Finished && MuFree(s) {
      steps := [];
    } else {
      var step := NextUnaided(s);
      NextIsEnabled(s);
      StepKeepsInv(s, step);
      var t := Apply(s, step);
      var rest := CloseCanReturn(t);
      RunsTo(SYSTEM, s, step, rest, After(SYSTEM, t, rest));
      steps := [step] + rest;
      assert steps[1..] == rest;
    }
  }

  lemma ConnectsAndReads(c: Chunk, s1: Client) returns (steps: seq<Step>)
    requires s1 == FRESH.(state := Connected, conn := true, made := true, readWG := 1, loop := Sending(c, false),
                          received := [c])
    ensures CanRun(SYSTEM, FRESH, steps) && After(SYSTEM, FRESH, steps) == s1
  {
    var a := FRESH.(connect := Locked);
    var b := FRESH.(connect := Dialed);
    var d := FRESH.(connect := Made, readWG := 1, conn := true, made := true);
    var e := d.(state := Connected, connect := Stored);
    var f := e.(loop := Reading, connect := NotConnecting);
    assert [] + [c] == [c];
    RunsTo(SYSTEM, f, ByLoop(ReadChunk(c, false)), [], s1);
    steps := [ByLoop(ReadChunk(c, false))] + [];
    RunsTo(SYSTEM, e, ByConnect(Start), steps, s1);
    steps := [ByConnect(Start)] + steps;
    RunsTo(SYSTEM, d, ByConnect(Store), steps, s1);
    steps := [ByConnect(Store)] + steps;
    RunsTo(SYSTEM, b, ByConnect(Make), steps, s1);
    steps := [ByConnect(Make)] + steps;
    RunsTo(SYSTEM, a, ByConnect(Dial), steps, s1);
    steps := [ByConnect(Dial)] + steps;
    RunsTo(SYSTEM, FRESH, ByConnect(Lock), steps, s1);
    steps := [ByConnect(Lock)] + steps;
  }

  lemma ClosesWhileSending(s1: Client, s2: Client) returns (steps: seq<Step>)
    requires s1.state == Connected && s1.made && s1.connect == NotConnecting && s1.closedCloses == 0
    requires s1.outer == 0 && s1.inner == 0
    requires s2 == s1.(state := Closed, winner := User, shut := Finished, conn := false, connClosed := true,
                       closedCloses := 1, inner := 1)
    ensures CanRun(SYSTEM, s1, steps) && After(SYSTEM, s1, steps) == s2
  {
    var a := s1.(state := Closed, winner := User, shut := Won);
    var b := a.(conn := false, shut := Took);
    var c := b.(connClosed := true, shut := ConnDone);
    var d := c.(closedCloses := 1, shut := Finished);
    var e := d.(outer := 1);
    RunsTo(SYSTEM, e, ByReader(SeeClosed), [], s2);
    steps := [ByReader(SeeClosed)] + [];
    RunsTo(SYSTEM, d, ByReader(Begin), steps, s2);
    steps := [ByReader(Begin)] + steps;
    RunsTo(SYSTEM, c, ByShutdown(CloseClosed), steps, s2);
    steps := [ByShutdown(CloseClosed)] + steps;
    RunsTo(SYSTEM, b, ByShutdown(CloseConn), steps, s2);
    steps := [ByShutdown(CloseConn)] + steps;
    RunsTo(SYSTEM, a, ByShutdown(TakeConn), steps, s2);
    steps := [ByShutdown(TakeConn)] + steps;
    RunsTo(SYSTEM, s1, CloseCas, steps, s2);
    steps := [CloseCas] + steps;
  }

}
