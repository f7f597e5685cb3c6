/**
 The WebSocket client's sessions (ws/client/client.go): Connect by the user or by
 the reconnect loop, the reader that owns a session and starts reconnect when the
 connection is lost, Close, and health loops that may drop the current connection
 at any moment. One step is one context test, dial, lock section, store of the
 state or goroutine start. Every goroutine is an agent with an identity of its own:
 `go` makes a new one while the one that started it runs on to its end, so the
 reader of a new session may be at work, lose it and start the next reconnect
 before the reconnect that connected it has returned.
 */
module WsClient {
  import opened Runs
  import opened Options

  datatype State = Init | Connecting | Connected | Disconnected | Reconnecting | Failed

  /** On whose behalf Connect runs; a reconnect loop knows its attempt and how often it has dialled. */
  datatype Caller = User | Retry(attempt: nat, dials: nat)

  datatype Agent =
    | Checking(caller: Caller)              // Connect, before its test of ctx
    | Dialing(caller: Caller)
    | DialDone(caller: Caller)
    | OldDropped(caller: Caller)            // after closeConn
    | Installed(caller: Caller, gen: nat)   // conn and connCtx stored
    | Announced(caller: Caller, gen: nat)   // state stored
    | Returning(caller: Caller)             // the reader has been started
    | Reading(gen: nat)
    | Lost(gen: nat)                        // the reader's Read failed
    | Dropped                               // onConnectionLost, after closeConn
    | HandingOver                           // ... and after its test of ctx
    | Finished                              // ... and after starting reconnect
    | LoopTop(attempt: nat, dials: nat)
    | Backoff(attempt: nat, dials: nat)

  /** Close calls by what they have done: several can pass the test of ctx before the first of them cancels it. */
  datatype Closes = Closes(tested: nat, cancelled: nat, dropped: nat, returned: nat)

  datatype Client = Client(
    auto: bool,                 // autoReconnect
    maxAttempts: int,           // maxReconnectAttempts
    cancelled: bool,            // ctx
    closes: Closes,
    state: State,
    conn: Option<nat>,          // the current session's generation
    ended: set<nat>,            // generations whose connCtx has been cancelled
    nextGen: nat,
    nextAgent: nat,
    agents: map<nat, Agent>,
    reports: seq<(nat, nat)>)   // history: failed attempts and dials when exhaustion was reported

  datatype Step =
    | UserConnect
    | Act(id: nat, lucky: bool)   // the agent's next step; `lucky` decides a dial or a race in a select
    | CloseTest
    | CloseCancel
    | CloseDrop
    | CloseStore
    | HealthGivesUp

  function Fresh(auto: bool, maxAttempts: int): Client {
    Client(auto, maxAttempts, false, Closes(0, 0, 0, 0), Init, None, {}, 0, 0, map[], [])
  }

  /** closeConn. */
  function DropConn(s: Client): Client {
    if s.conn.None? then s else s.(conn := None, ended := s.ended + {s.conn.value})
  }

  predicate Enabled(s: Client, step: Step) {
    match step
    case UserConnect => true
    case Act(id, _) => id in s.agents
    case CloseTest => !s.cancelled
    case CloseCancel => s.closes.tested > 0
    case CloseDrop => s.closes.cancelled > 0
    case CloseStore => s.closes.dropped > 0
    case HealthGivesUp => true
  }

  function With(s: Client, id: nat, a: Agent): Client {
    s.(agents := s.agents[id := a])
  }

  function Without(s: Client, id: nat): Client {
    s.(agents := s.agents - {id})
  }

  /** The go statement: a new goroutine, and the old one goes on. */
  function Start(s: Client, id: nat, parent: Agent, child: Agent): Client {
    s.(agents := s.agents[id := parent][s.nextAgent := child], nextAgent := s.nextAgent + 1)
  }

  /** Connect returned an error: the user's call is over, the loop goes on to its next attempt. */
  function ConnectFailed(s: Client, id: nat, caller: Caller): Client {
    if caller.User? then Without(s, id) else With(s.(state := Failed), id, LoopTop(caller.attempt + 1, caller.dials))
  }

  function Dialled(caller: Caller): Caller {
    if caller.User? then caller else Retry(caller.attempt, caller.dials + 1)
  }

  /** Inside Connect. */
  predicate Connects(a: Agent) {
    a.Checking? || a.Dialing? || a.DialDone? || a.OldDropped? || a.Installed? || a.Announced? || a.Returning?
  }

  /** A step of Connect. */
  function ConnectActed(s: Client, id: nat, lucky: bool): Client
    requires id in s.agents && Connects(s.agents[id])
  {
    match s.agents[id]
    case Checking(caller) =>
      if s.cancelled then ConnectFailed(s, id, caller) else With(s.(state := Connecting), id, Dialing(caller))
    case Dialing(caller) =>
      if lucky then With(s, id, DialDone(Dialled(caller))) else ConnectFailed(s.(state := Failed), id, Dialled(caller))
    case DialDone(caller) => With(DropConn(s), id, OldDropped(caller))
    case OldDropped(caller) =>
      With(s.(conn := Some(s.nextGen), nextGen := s.nextGen + 1), id, Installed(caller, s.nextGen))
    case Installed(caller, gen) => With(s.(state := Connected), id, Announced(caller, gen))
    case Announced(caller, gen) => Start(s, id, Returning(caller), Reading(gen))
    case Returning(_) => Without(s, id)
  }

  /** A step of a reader or of the reconnect loop. */
  function SessionActed(s: Client, id: nat, lucky: bool): Client
    requires id in s.agents && !Connects(s.agents[id])
  {
    match s.agents[id]
    case Reading(gen) =>
      // a message, unless the session's context has ended: then Read fails
      if lucky && !s.cancelled && gen !in s.ended then s else With(s, id, Lost(gen))
    case Lost(_) => With(DropConn(s), id, Dropped)
    case Dropped => if s.cancelled then Without(s, id) else With(s, id, HandingOver)
    case HandingOver =>
      if s.auto then Start(s, id, Finished, LoopTop(0, 0)) else Without(s.(state := Failed), id)
    case Finished => Without(s, id)
    case LoopTop(attempt, dials) =>
      if attempt >= s.maxAttempts then Without(s.(state := Failed, reports := s.reports + [(attempt, dials)]), id)
      else if s.cancelled then Without(s, id)
      else With(s, id, Backoff(attempt, dials))
    case Backoff(attempt, dials) =>
      if s.cancelled && lucky then Without(s, id)
      else With(s.(state := Reconnecting), id, Checking(Retry(attempt, dials)))
  }

  function Acted(s: Client, id: nat, lucky: bool): Client
    requires id in s.agents
  {
    if Connects(s.agents[id]) then ConnectActed(s, id, lucky) else SessionActed(s, id, lucky)
  }

  function Apply(s: Client, step: Step): Client
    requires Enabled(s, step)
  {
    match step
    case UserConnect => With(s.(nextAgent := s.nextAgent + 1), s.nextAgent, Checking(User))
    case Act(id, lucky) => Acted(s, id, lucky)
    case CloseTest => s.(closes := s.closes.(tested := s.closes.tested + 1))
    case CloseCancel =>
      s.(cancelled := true,
         closes := s.closes.(tested := s.closes.tested - 1, cancelled := s.closes.cancelled + 1))
    case CloseDrop =>
      DropConn(s).(closes := s.closes.(cancelled := s.closes.cancelled - 1, dropped := s.closes.dropped + 1))
    case CloseStore =>
      s.(state := Disconnected,
         closes := s.closes.(dropped := s.closes.dropped - 1, returned := s.closes.returned + 1))
    case HealthGivesUp => DropConn(s)
  }

  const SYSTEM: System<Client, Step> :=
    System(Enabled, (s, step) => if Enabled(s, step) then Apply(s, step) else s)

  // ---------------------------------------------------------------------
  // What a step of one agent does to the others
  // ---------------------------------------------------------------------

  /** Identities are given out in order. */
  ghost predicate Ids(s: Client) {
    forall i | i in s.agents :: i < s.nextAgent
  }

  /** Agent `id` has stepped; the others are as they were, and at most one is new. */
  ghost predicate OnlyAgent(s: Client, t: Client, id: nat) {
    && t.auto == s.auto && t.maxAttempts == s.maxAttempts && t.cancelled == s.cancelled && t.closes == s.closes
    && s.nextAgent <= t.nextAgent <= s.nextAgent + 1
    && (forall i | i in t.agents && i != id && i != s.nextAgent :: i in s.agents && t.agents[i] == s.agents[i])
    && (forall i | i in s.agents && i != id && i != s.nextAgent :: i in t.agents)
    && (s.nextAgent in t.agents && s.nextAgent !in s.agents ==> t.nextAgent == s.nextAgent + 1)
  }

  lemma ConnectTouchesOne(s: Client, id: nat, lucky: bool)
    requires Ids(s) && id in s.agents && Connects(s.agents[id])
    ensures OnlyAgent(s, ConnectActed(s, id, lucky), id)
  {}

  lemma SessionTouchesOne(s: Client, id: nat, lucky: bool)
    requires Ids(s) && id in s.agents && !Connects(s.agents[id])
    ensures OnlyAgent(s, SessionActed(s, id, lucky), id)
  {}

  lemma ActTouchesOne(s: Client, id: nat, lucky: bool)
    requires Ids(s) && id in s.agents
    ensures OnlyAgent(s, Acted(s, id, lucky), id) && Ids(Acted(s, id, lucky))
  {
    if Connects(s.agents[id]) {
      ConnectTouchesOne(s, id, lucky);
    } else {
      SessionTouchesOne(s, id, lucky);
    }
  }

  lemma StepKeepsIds(s: Client, step: Step)
    requires Ids(s) && Enabled(s, step)
    ensures Ids(Apply(s, step))
  {
    if step.Act? {
      ActTouchesOne(s, step.id, step.lucky);
    }
  }

  lemma {:induction false} RunKeepsIds(s: Client, steps: seq<Step>)
    requires Ids(s) && CanRun(SYSTEM, s, steps)
    ensures Ids(After(SYSTEM, s, steps))
    decreases |steps|
  {
    if steps == [] {
    } else {
      StepKeepsIds(s, steps[0]);
      RunKeepsIds(Apply(s, steps[0]), steps[1..]);
    }
  }

  // ---------------------------------------------------------------------
  // One owner
  // ---------------------------------------------------------------------

  /** A live reader, or a Connect or reconnect that has not yet started one. */
  predicate Owns(a: Agent) {
    !a.Returning? && !a.Finished?
  }

  predicate IsReader(a: Agent) {
    a.Reading? || a.Lost? || a.Dropped? || a.HandingOver?
  }

  /** reconnect, up to the moment its Connect has started the reader. */
  predicate IsReconnecting(a: Agent) {
    a.LoopTop? || a.Backoff? || (Connects(a) && !a.Returning? && a.caller.Retry?)
  }

  predicate Holds(a: Agent, gen: nat) {
    match a
    case Installed(_, g) => g == gen
    case Announced(_, g) => g == gen
    case Reading(g) => g == gen
    case Lost(g) => g == gen
    case _ => false
  }

  ghost predicate OneOwner(s: Client) {
    && (forall i, j | i in s.agents && j in s.agents && Owns(s.agents[i]) && Owns(s.agents[j]) :: i == j)
    && (s.conn.Some? ==> exists i :: i in s.agents && Holds(s.agents[i], s.conn.value))
  }

  /** The user calls Connect only while no session is owned. */
  ghost predicate Disciplined(s: Client, steps: seq<Step>)
    requires CanRun(SYSTEM, s, steps)
    decreases |steps|
  {
    steps == [] ||
    ((steps[0].UserConnect? ==> forall i | i in s.agents :: !Owns(s.agents[i]))
     && Disciplined(Apply(s, steps[0]), steps[1..]))
  }

  lemma {:induction false} NoConnectIsDisciplined(s: Client, steps: seq<Step>)
    requires CanRun(SYSTEM, s, steps) && forall step | step in steps :: !step.UserConnect?
    ensures Disciplined(s, steps)
    decreases |steps|
  {
    if steps == [] {
    } else {
      assert steps[0] in steps && forall step | step in steps[1..] :: step in steps;
      NoConnectIsDisciplined(Apply(s, steps[0]), steps[1..]);
    }
  }

  lemma ConnectPassesOwnership(s: Client, id: nat, lucky: bool)
    requires Ids(s) && id in s.agents && Connects(s.agents[id])
    ensures var t := ConnectActed(s, id, lucky);
      && (id in t.agents && Owns(t.agents[id]) ==> Owns(s.agents[id]))
      && (s.nextAgent in t.agents ==> Owns(s.agents[id]) && !(id in t.agents && Owns(t.agents[id])))
  {}

  lemma SessionPassesOwnership(s: Client, id: nat, lucky: bool)
    requires Ids(s) && id in s.agents && !Connects(s.agents[id])
    ensures var t := SessionActed(s, id, lucky);
      && (id in t.agents && Owns(t.agents[id]) ==> Owns(s.agents[id]))
      && (s.nextAgent in t.agents ==> Owns(s.agents[id]) && !(id in t.agents && Owns(t.agents[id])))
  {}

  /** A step passes ownership on to at most one agent, itself or the one it starts, and only if it had it. */
  lemma OwnershipPasses(s: Client, id: nat, lucky: bool)
    requires Ids(s) && id in s.agents
    ensures var t := Acted(s, id, lucky);
      && (id in t.agents && Owns(t.agents[id]) ==> Owns(s.agents[id]))
      && (s.nextAgent in t.agents ==> Owns(s.agents[id]) && !(id in t.agents && Owns(t.agents[id])))
  {
    if Connects(s.agents[id]) {
      ConnectPassesOwnership(s, id, lucky);
    } else {
      SessionPassesOwnership(s, id, lucky);
    }
  }

  /** Whoever steps, the current connection stays in the hands it was in or gets to the agent or its child. */
  lemma ConnectionStaysHeld(s: Client, id: nat, lucky: bool)
    requires Ids(s) && id in s.agents
    ensures var t := Acted(s, id, lucky);
      t.conn.Some? ==>
        || (id in t.agents && Holds(t.agents[id], t.conn.value))
        || (s.nextAgent in t.agents && Holds(t.agents[s.nextAgent], t.conn.value))
        || (t.conn == s.conn && !Holds(s.agents[id], t.conn.value))
  {}

  lemma ActKeepsOneOwner(s: Client, id: nat, lucky: bool)
    requires Ids(s) && OneOwner(s) && id in s.agents
    ensures OneOwner(Acted(s, id, lucky))
  {
    var t := Acted(s, id, lucky);
    ActTouchesOne(s, id, lucky);
    OwnershipPasses(s, id, lucky);
    ConnectionStaysHeld(s, id, lucky);
    if t.conn.Some? && t.conn == s.conn && !Holds(s.agents[id], t.conn.value) {
      var i :| i in s.agents && Holds(s.agents[i], s.conn.value);
      assert i in t.agents && Holds(t.agents[i], t.conn.value);
    }
  }

  lemma StepKeepsOneOwner(s: Client, step: Step)
    requires Ids(s) && OneOwner(s) && Enabled(s, step)
    requires step.UserConnect? ==> forall i | i in s.agents :: !Owns(s.agents[i])
    ensures OneOwner(Apply(s, step))
  {
    if step.Act? {
      ActKeepsOneOwner(s, step.id, step.lucky);
    }
  }

  lemma {:induction false} RunKeepsOneOwner(s: Client, steps: seq<Step>)
    requires Ids(s) && OneOwner(s) && CanRun(SYSTEM, s, steps) && Disciplined(s, steps)
    ensures OneOwner(After(SYSTEM, s, steps))
    decreases |steps|
  {
    if steps == [] {
    } else {
      StepKeepsIds(s, steps[0]);
      StepKeepsOneOwner(s, steps[0]);
      RunKeepsOneOwner(Apply(s, steps[0]), steps[1..]);
    }
  }

  /**
   At most one of live reader and reconnect that has not yet connected exists, with the user's
   own Connect counted in; and no connection is left behind once there is none.
   */
  lemma AtMostOneOwner(auto: bool, maxAttempts: int, steps: seq<Step>)
    requires CanRun(SYSTEM, Fresh(auto, maxAttempts), steps) && Disciplined(Fresh(auto, maxAttempts), steps)
    ensures var s := After(SYSTEM, Fresh(auto, maxAttempts), steps);
      && (forall i, j | i in s.agents && j in s.agents
            && (IsReader(s.agents[i]) || IsReconnecting(s.agents[i]))
            && (IsReader(s.agents[j]) || IsReconnecting(s.agents[j])) :: i == j)
      && (forall i, j | i in s.agents && j in s.agents && Owns(s.agents[i]) && Owns(s.agents[j]) :: i == j)
      && ((forall i | i in s.agents :: !Owns(s.agents[i])) ==> s.conn == None)
  {
    RunKeepsOneOwner(Fresh(auto, maxAttempts), steps);
    var s := After(SYSTEM, Fresh(auto, maxAttempts), steps);
    if s.conn.Some? {
      var i :| i in s.agents && Holds(s.agents[i], s.conn.value);
      assert Owns(s.agents[i]);
    }
  }

  /** Connect starts the reader, which loses the session and hands it over. */
  lemma LosesAtOnce(s: Client) returns (steps: seq<Step>)
    requires s.auto && !s.cancelled && s.nextAgent == 1 && s.agents == map[0 := Announced(User, 0)]
    ensures CanRun(SYSTEM, s, steps) && forall step | step in steps :: !step.UserConnect?
    ensures After(SYSTEM, s, steps).agents == map[0 := Returning(User), 1 := Finished, 2 := LoopTop(0, 0)]
  {
    var reader := Act(1, false);
    var s1 := Apply(s, Act(0, true));
    assert s1.agents == map[0 := Returning(User), 1 := Reading(0)];
    var s2 := Apply(s1, reader);
    assert s2.agents == map[0 := Returning(User), 1 := Lost(0)];
    var s3 := Apply(s2, reader);
    assert s3.agents == map[0 := Returning(User), 1 := Dropped];
    var s4 := Apply(s3, reader);
    assert s4.agents == map[0 := Returning(User), 1 := HandingOver];
    var s5 := Apply(s4, reader);
    assert s5.agents == map[0 := Returning(User), 1 := Finished, 2 := LoopTop(0, 0)];
    RunsTo(SYSTEM, s4, reader, [], s5);
    steps := [reader] + [];
    RunsTo(SYSTEM, s3, reader, steps, s5);
    steps := [reader] + steps;
    RunsTo(SYSTEM, s2, reader, steps, s5);
    steps := [reader] + steps;
    RunsTo(SYSTEM, s1, reader, steps, s5);
    steps := [reader] + steps;
    RunsTo(SYSTEM, s, Act(0, true), steps, s5);
    steps := [Act(0, true)] + steps;
  }

  lemma Announces(s: Client) returns (steps: seq<Step>)
    requires s.agents == map[0 := Checking(User)] && !s.cancelled && s.nextAgent == 1 && s.nextGen == 0
    ensures CanRun(SYSTEM, s, steps) && forall step | step in steps :: !step.UserConnect?
    ensures var t := After(SYSTEM, s, steps);
      t.auto == s.auto && !t.cancelled && t.nextAgent == 1 && t.agents == map[0 := Announced(User, 0)]
  {
    var go := Act(0, true);
    var s1 := Apply(s, go);
    assert s1.agents == map[0 := Dialing(User)];
    var s2 := Apply(s1, go);
    assert s2.agents == map[0 := DialDone(User)];
    var s3 := Apply(s2, go);
    assert s3.agents == map[0 := OldDropped(User)];
    var s4 := Apply(s3, go);
    assert s4.agents == map[0 := Installed(User, 0)];
    var s5 := Apply(s4, go);
    assert s5.agents == map[0 := Announced(User, 0)];
    RunsTo(SYSTEM, s4, go, [], s5);
    steps := [go] + [];
    RunsTo(SYSTEM, s3, go, steps, s5);
    steps := [go] + steps;
    RunsTo(SYSTEM, s2, go, steps, s5);
    steps := [go] + steps;
    RunsTo(SYSTEM, s1, go, steps, s5);
    steps := [go] + steps;
    RunsTo(SYSTEM, s, go, steps, s5);
    steps := [go] + steps;
  }

  /** The reader and the next reconnect do run while the Connect that started them has not returned. */
  lemma ReaderRunsAhead(maxAttempts: int) returns (steps: seq<Step>)
    ensures CanRun(SYSTEM, Fresh(true, maxAttempts), steps) && Disciplined(Fresh(true, maxAttempts), steps)
    ensures After(SYSTEM, Fresh(true, maxAttempts), steps).agents ==
            map[0 := Returning(User), 1 := Finished, 2 := LoopTop(0, 0)]
  {
    var s0 := Fresh(true, maxAttempts);
    var s1 := Apply(s0, UserConnect);
    assert s1.agents == map[0 := Checking(User)];
    var first := Announces(s1);
    var second := LosesAtOnce(After(SYSTEM, s1, first));
    RunsConcat(SYSTEM, s1, first, second);
    steps := first + second;
    NoConnectIsDisciplined(s1, steps);
    RunsTo(SYSTEM, s0, UserConnect, steps, After(SYSTEM, s1, steps));
    assert ([UserConnect] + steps)[1..] == steps;
    steps := [UserConnect] + steps;
  }

  // ---------------------------------------------------------------------
  // Sessions
  // ---------------------------------------------------------------------

  /** The session an agent works on. */
  function GenOf(a: Agent): Option<nat> {
    match a
    case Installed(_, gen) => Some(gen)
    case Announced(_, gen) => Some(gen)
    case Reading(gen) => Some(gen)
    case Lost(gen) => Some(gen)
    case _ => None
  }

  /** Session `gen` is the current one, or its context has been cancelled. */
  predicate Known(s: Client, gen: nat) {
    gen < s.nextGen && (s.conn == Some(gen) <==> gen !in s.ended)
  }

  ghost predicate Sessions(s: Client) {
    && (s.conn.Some? ==> s.conn.value < s.nextGen && s.conn.value !in s.ended)
    && (forall gen | gen in s.ended :: gen < s.nextGen)
    && (forall i | i in s.agents && GenOf(s.agents[i]).Some? :: Known(s, GenOf(s.agents[i]).value))
  }

  /** What a step of an agent does to sessions. */
  lemma ActKeepsKnown(s: Client, id: nat, lucky: bool, gen: nat)
    requires Ids(s) && id in s.agents && (s.agents[id].OldDropped? ==> s.conn == None)
    requires s.conn.Some? ==> s.conn.value < s.nextGen && s.conn.value !in s.ended
    requires forall g | g in s.ended :: g < s.nextGen
    ensures var t := Acted(s, id, lucky);
      && s.nextGen <= t.nextGen
      && (t.conn.Some? ==> t.conn.value < t.nextGen && t.conn.value !in t.ended)
      && (forall g | g in t.ended :: g < t.nextGen)
      && (Known(s, gen) ==> Known(t, gen))
  {}

  lemma ConnectKeepsGen(s: Client, id: nat, lucky: bool)
    requires Ids(s) && id in s.agents && Connects(s.agents[id])
    ensures var t := ConnectActed(s, id, lucky);
      && (id in t.agents && GenOf(t.agents[id]).Some? ==>
            || GenOf(t.agents[id]) == GenOf(s.agents[id])
            || (GenOf(t.agents[id]) == t.conn == Some(s.nextGen) && t.nextGen == s.nextGen + 1 && t.ended == s.ended))
      && (s.nextAgent in t.agents ==> GenOf(t.agents[s.nextAgent]) == GenOf(s.agents[id]))
  {}

  lemma SessionKeepsGen(s: Client, id: nat, lucky: bool)
    requires Ids(s) && id in s.agents && !Connects(s.agents[id])
    ensures var t := SessionActed(s, id, lucky);
      && (id in t.agents && GenOf(t.agents[id]).Some? ==> GenOf(t.agents[id]) == GenOf(s.agents[id]))
      && (s.nextAgent in t.agents ==> GenOf(t.agents[s.nextAgent]) == None)
  {}

  lemma OwnerFindsNoConn(s: Client, id: nat)
    requires OneOwner(s) && id in s.agents && s.agents[id].OldDropped?
    ensures s.conn == None
  {
    if s.conn.Some? {
      var i :| i in s.agents && Holds(s.agents[i], s.conn.value);
      assert Owns(s.agents[i]) && Owns(s.agents[id]);
    }
  }

  lemma ActKeepsSessions(s: Client, id: nat, lucky: bool)
    requires Ids(s) && OneOwner(s) && Sessions(s) && id in s.agents
    ensures Sessions(Acted(s, id, lucky))
  {
    var t := Acted(s, id, lucky);
    if s.agents[id].OldDropped? {
      OwnerFindsNoConn(s, id);
    }
    ActTouchesOne(s, id, lucky);
    if Connects(s.agents[id]) {
      ConnectKeepsGen(s, id, lucky);
    } else {
      SessionKeepsGen(s, id, lucky);
    }
    ActKeepsKnown(s, id, lucky, 0);
    forall i | i in t.agents && GenOf(t.agents[i]).Some?
      ensures Known(t, GenOf(t.agents[i]).value)
    {
      ActKeepsKnown(s, id, lucky, GenOf(t.agents[i]).value);
    }
  }

  lemma StepKeepsSessions(s: Client, step: Step)
    requires Ids(s) && OneOwner(s) && Sessions(s) && Enabled(s, step)
    ensures Sessions(Apply(s, step))
  {
    if step.Act? {
      ActKeepsSessions(s, step.id, step.lucky);
    }
  }

  lemma {:induction false} RunKeepsSessions(s: Client, steps: seq<Step>)
    requires Ids(s) && OneOwner(s) && Sessions(s) && CanRun(SYSTEM, s, steps) && Disciplined(s, steps)
    ensures Sessions(After(SYSTEM, s, steps)) && OneOwner(After(SYSTEM, s, steps))
    decreases |steps|
  {
    if steps == [] {
    } else {
      StepKeepsIds(s, steps[0]);
      StepKeepsOneOwner(s, steps[0]);
      StepKeepsSessions(s, steps[0]);
      RunKeepsSessions(Apply(s, steps[0]), steps[1..]);
    }
  }

  /**
   If the user connects only while no session is owned: a reader may go on reading exactly as long as
   its session is the current one and there is no Close; otherwise its next Read fails. So it notices
   when its health loop gives the connection up.
   */
  lemma ReadersFollowTheirSession(auto: bool, maxAttempts: int, steps: seq<Step>, id: nat)
    requires CanRun(SYSTEM, Fresh(auto, maxAttempts), steps) && Disciplined(Fresh(auto, maxAttempts), steps)
    requires var s := After(SYSTEM, Fresh(auto, maxAttempts), steps); id in s.agents && s.agents[id].Reading?
    ensures var s := After(SYSTEM, Fresh(auto, maxAttempts), steps);
      var gen := s.agents[id].gen;
      && (!s.cancelled && s.conn == Some(gen) ==> Acted(s, id, true) == s)
      && (s.cancelled || s.conn != Some(gen) ==> forall lucky :: Acted(s, id, lucky) == With(s, id, Lost(gen)))
      && (var t := Apply(s, HealthGivesUp);
          t.conn == None && forall lucky :: Acted(t, id, lucky) == With(t, id, Lost(gen)))
  {
    RunKeepsIds(Fresh(auto, maxAttempts), steps);
    RunKeepsSessions(Fresh(auto, maxAttempts), steps);
    var s := After(SYSTEM, Fresh(auto, maxAttempts), steps);
    assert Known(s, GenOf(s.agents[id]).value);
    StepKeepsSessions(s, HealthGivesUp);
  }

  /**
   Two Connects at a time: one stores its connection over the other's, which then is neither the
   current one nor ever dropped, whatever happens later.
   */
  lemma InstallOverwrites(s: Client, id: nat, lucky: bool, gen: nat, steps: seq<Step>)
    requires id in s.agents && s.agents[id].OldDropped? && s.conn == Some(gen) && gen < s.nextGen && gen !in s.ended
    requires CanRun(SYSTEM, Acted(s, id, lucky), steps)
    ensures Acted(s, id, lucky).conn == Some(s.nextGen)
    ensures var t := After(SYSTEM, Acted(s, id, lucky), steps); gen !in t.ended && t.conn != Some(gen)
  {
    OverwrittenStaysOpen(Acted(s, id, lucky), gen, steps);
  }

  lemma {:induction false} OverwrittenStaysOpen(s: Client, gen: nat, steps: seq<Step>)
    requires gen < s.nextGen && gen !in s.ended && s.conn != Some(gen) && CanRun(SYSTEM, s, steps)
    ensures var t := After(SYSTEM, s, steps); gen !in t.ended && t.conn != Some(gen)
    decreases |steps|
  {
    if steps == [] {
    } else {
      OverwrittenStep(s, gen, steps[0]);
      OverwrittenStaysOpen(Apply(s, steps[0]), gen, steps[1..]);
    }
  }

  lemma ConnectLeavesOpen(s: Client, gen: nat, id: nat, lucky: bool)
    requires gen < s.nextGen && gen !in s.ended && s.conn != Some(gen) && id in s.agents && Connects(s.agents[id])
    ensures var t := ConnectActed(s, id, lucky); gen < t.nextGen && gen !in t.ended && t.conn != Some(gen)
  {}

  lemma SessionLeavesOpen(s: Client, gen: nat, id: nat, lucky: bool)
    requires gen < s.nextGen && gen !in s.ended && s.conn != Some(gen) && id in s.agents && !Connects(s.agents[id])
    ensures var t := SessionActed(s, id, lucky); gen < t.nextGen && gen !in t.ended && t.conn != Some(gen)
  {}

  lemma OverwrittenStep(s: Client, gen: nat, step: Step)
    requires gen < s.nextGen && gen !in s.ended && s.conn != Some(gen) && Enabled(s, step)
    ensures var t := Apply(s, step); gen < t.nextGen && gen !in t.ended && t.conn != Some(gen)
  {
    if step.Act? {
      if Connects(s.agents[step.id]) {
        ConnectLeavesOpen(s, gen, step.id, step.lucky);
      } else {
        SessionLeavesOpen(s, gen, step.id, step.lucky);
      }
    }
  }

  /** A reconnect loop that waits when Close cancels the context may end at once, storing no state and not dialling. */
  lemma CancelledWaitEnds(s: Client, id: nat)
    requires s.cancelled && id in s.agents && s.agents[id].Backoff?
    ensures Acted(s, id, true) == s.(agents := s.agents - {id})
  {}

  // ---------------------------------------------------------------------
  // Attempts
  // ---------------------------------------------------------------------

  /** Every attempt has dialled, or at most every one once the context may have been cancelled. */
  predicate Tally(live: bool, dials: nat, attempts: nat) {
    dials <= attempts && (live ==> dials == attempts)
  }

  predicate Bounded(maxAttempts: int, live: bool, attempt: nat, dials: nat) {
    Tally(live, dials, attempt) && (attempt <= maxAttempts || attempt == 0)
  }

  predicate CallerBounded(maxAttempts: int, live: bool, caller: Caller, dialled: bool) {
    caller.User?
    || (caller.attempt < maxAttempts && Tally(live, caller.dials, caller.attempt + if dialled then 1 else 0))
  }

  predicate AgentBounded(maxAttempts: int, live: bool, a: Agent) {
    match a
    case Checking(caller) => CallerBounded(maxAttempts, live, caller, false)
    case Dialing(caller) => CallerBounded(maxAttempts, live, caller, false)
    case DialDone(caller) => CallerBounded(maxAttempts, live, caller, true)
    case OldDropped(caller) => CallerBounded(maxAttempts, live, caller, true)
    case Installed(caller, _) => CallerBounded(maxAttempts, live, caller, true)
    case Announced(caller, _) => CallerBounded(maxAttempts, live, caller, true)
    case Returning(caller) => CallerBounded(maxAttempts, live, caller, true)
    case LoopTop(attempt, dials) => Bounded(maxAttempts, live, attempt, dials)
    case Backoff(attempt, dials) => attempt < maxAttempts && Tally(live, dials, attempt)
    case _ => true
  }

  /** How often the reconnect loop an agent is in has dialled. */
  function DialsOf(a: Agent): nat {
    match a
    case LoopTop(_, dials) => dials
    case Backoff(_, dials) => dials
    case _ => if Connects(a) && a.caller.Retry? then a.caller.dials else 0
  }

  /** What a report of exhaustion may say: (failed attempts, dials). */
  predicate Reported(maxAttempts: int, live: bool, r: (nat, nat)) {
    Tally(live, r.1, r.0) && r.0 == if maxAttempts < 0 then 0 else maxAttempts
  }

  ghost predicate Attempts(s: Client) {
    && (forall i | i in s.agents :: AgentBounded(s.maxAttempts, !s.cancelled, s.agents[i]))
    && (forall r | r in s.reports :: Reported(s.maxAttempts, !s.cancelled, r))
  }

  lemma ConnectKeepsOwnBounds(s: Client, id: nat, lucky: bool)
    requires Ids(s) && id in s.agents && Connects(s.agents[id])
    requires AgentBounded(s.maxAttempts, !s.cancelled, s.agents[id])
    ensures var t := ConnectActed(s, id, lucky);
      && (id in t.agents ==> AgentBounded(s.maxAttempts, !s.cancelled, t.agents[id]))
      && (s.nextAgent in t.agents ==> AgentBounded(s.maxAttempts, !s.cancelled, t.agents[s.nextAgent]))
  {}

  lemma SessionKeepsOwnBounds(s: Client, id: nat, lucky: bool)
    requires Ids(s) && id in s.agents && !Connects(s.agents[id])
    requires AgentBounded(s.maxAttempts, !s.cancelled, s.agents[id])
    ensures var t := SessionActed(s, id, lucky);
      && (id in t.agents ==> AgentBounded(s.maxAttempts, !s.cancelled, t.agents[id]))
      && (s.nextAgent in t.agents ==> AgentBounded(s.maxAttempts, !s.cancelled, t.agents[s.nextAgent]))
  {}

  lemma ActKeepsOwnBounds(s: Client, id: nat, lucky: bool)
    requires Ids(s) && id in s.agents && AgentBounded(s.maxAttempts, !s.cancelled, s.agents[id])
    ensures var t := Acted(s, id, lucky);
      && (id in t.agents ==> AgentBounded(s.maxAttempts, !s.cancelled, t.agents[id]))
      && (s.nextAgent in t.agents ==> AgentBounded(s.maxAttempts, !s.cancelled, t.agents[s.nextAgent]))
  {
    if Connects(s.agents[id]) {
      ConnectKeepsOwnBounds(s, id, lucky);
    } else {
      SessionKeepsOwnBounds(s, id, lucky);
    }
  }

  lemma ActReports(s: Client, id: nat, lucky: bool)
    requires id in s.agents && AgentBounded(s.maxAttempts, !s.cancelled, s.agents[id])
    ensures var t := Acted(s, id, lucky);
      || t.reports == s.reports
      || exists r: (nat, nat) :: t.reports == s.reports + [r] && Reported(s.maxAttempts, !s.cancelled, r)
  {
    if s.agents[id].LoopTop? {
      assert Reported(s.maxAttempts, !s.cancelled, (s.agents[id].attempt, s.agents[id].dials))
             || s.agents[id].attempt < s.maxAttempts;
    }
  }

  lemma ActKeepsAttempts(s: Client, id: nat, lucky: bool)
    requires Ids(s) && Attempts(s) && id in s.agents
    ensures Attempts(Acted(s, id, lucky))
  {
    ActTouchesOne(s, id, lucky);
    ActKeepsOwnBounds(s, id, lucky);
    ActReports(s, id, lucky);
    var t := Acted(s, id, lucky);
    forall i | i in t.agents
      ensures AgentBounded(t.maxAttempts, !t.cancelled, t.agents[i])
    {
      if i != id && i != s.nextAgent {
        assert t.agents[i] == s.agents[i];
      }
    }
  }

  lemma StepKeepsAttempts(s: Client, step: Step)
    requires Ids(s) && Attempts(s) && Enabled(s, step)
    ensures Attempts(Apply(s, step)) && Apply(s, step).maxAttempts == s.maxAttempts
  {
    if step.Act? {
      ActKeepsAttempts(s, step.id, step.lucky);
      ActTouchesOne(s, step.id, step.lucky);
    }
  }

  lemma {:induction false} RunKeepsAttempts(s: Client, steps: seq<Step>)
    requires Ids(s) && Attempts(s) && CanRun(SYSTEM, s, steps)
    ensures Attempts(After(SYSTEM, s, steps)) && After(SYSTEM, s, steps).maxAttempts == s.maxAttempts
    decreases |steps|
  {
    if steps == [] {
    } else {
      StepKeepsIds(s, steps[0]);
      StepKeepsAttempts(s, steps[0]);
      RunKeepsAttempts(Apply(s, steps[0]), steps[1..]);
    }
  }

  /**
   At every moment a reconnect loop has dialled at most maxReconnectAttempts times, wherever it
   is; and it reports exhaustion only after exactly that many failed attempts (none, if negative),
   each of which has dialled as long as Close has not cancelled the context.
   */
  lemma ReconnectIsBounded(auto: bool, maxAttempts: int, steps: seq<Step>)
    requires CanRun(SYSTEM, Fresh(auto, maxAttempts), steps)
    ensures var s := After(SYSTEM, Fresh(auto, maxAttempts), steps);
      var limit := if maxAttempts < 0 then 0 else maxAttempts;
      && (forall i | i in s.agents :: DialsOf(s.agents[i]) <= limit)
      && (forall r | r in s.reports :: r.0 == limit && r.1 <= limit && (!s.cancelled ==> r.1 == limit))
  {
    RunKeepsAttempts(Fresh(auto, maxAttempts), steps);
    var s := After(SYSTEM, Fresh(auto, maxAttempts), steps);
    forall i | i in s.agents
      ensures DialsOf(s.agents[i]) <= if maxAttempts < 0 then 0 else maxAttempts
    {
      assert AgentBounded(s.maxAttempts, !s.cancelled, s.agents[i]);
    }
    forall r | r in s.reports
      ensures Reported(maxAttempts, !s.cancelled, r)
    {}
  }

  /** As long as there is no Close, a reconnect loop goes on until it has connected, or has reported that it gave up. */
  lemma ReconnectGoesOn(s: Client, id: nat, lucky: bool)
    requires Ids(s) && !s.cancelled && id in s.agents && IsReconnecting(s.agents[id])
    ensures var t := Acted(s, id, lucky);
      || (id in t.agents && (IsReconnecting(t.agents[id]) || t.agents[id].Returning?))
      || (exists r: (nat, nat) :: t.reports == s.reports + [r] && r.0 >= s.maxAttempts && t.state == Failed)
  {
    if s.agents[id].LoopTop? && s.agents[id].attempt >= s.maxAttempts {
      var r: (nat, nat) := (s.agents[id].attempt, s.agents[id].dials);
      assert Acted(s, id, lucky).reports == s.reports + [r];
    }
  }

  /** An agent on the way from a lost session, or from the start of a Connect, to a new reader. */
  predicate Replaces(s: Client, a: Agent) {
    match a
    case Lost(_) => s.auto && s.maxAttempts > 0
    case Dropped => s.auto && s.maxAttempts > 0
    case HandingOver => s.auto && s.maxAttempts > 0
    case LoopTop(attempt, _) => attempt < s.maxAttempts
    case Installed(_, gen) => s.conn == Some(gen)
    case Announced(_, gen) => s.conn == Some(gen) && s.state == Connected
    case Reading(_) => false
    case Returning(_) => false
    case Finished => false
    case _ => true
  }

  /** How far the way is. */
  function Ahead(a: Agent): nat {
    match a
    case Lost(_) => 10
    case Dropped => 9
    case HandingOver => 8
    case LoopTop(_, _) => 7
    case Backoff(_, _) => 6
    case Checking(_) => 5
    case Dialing(_) => 4
    case DialDone(_) => 3
    case OldDropped(_) => 2
    case Installed(_, _) => 1
    case _ => 0
  }

  lemma ConnectAdvances(s: Client, id: nat)
    requires Ids(s) && !s.cancelled && id in s.agents && Replaces(s, s.agents[id]) && Connects(s.agents[id])
    ensures var t := ConnectActed(s, id, true);
      if s.agents[id].Announced? then
        && s.nextAgent in t.agents && t.agents[s.nextAgent] == Reading(s.agents[id].gen)
        && t.conn == s.conn && t.state == s.state
      else
        id in t.agents && Replaces(t, t.agents[id]) && Ahead(t.agents[id]) < Ahead(s.agents[id])
  {}

  lemma SessionAdvances(s: Client, id: nat)
    requires Ids(s) && !s.cancelled && id in s.agents && Replaces(s, s.agents[id]) && !Connects(s.agents[id])
    ensures var t := SessionActed(s, id, true);
      var next := if s.agents[id].HandingOver? then s.nextAgent else id;
      next in t.agents && Replaces(t, t.agents[next]) && Ahead(t.agents[next]) < Ahead(s.agents[id])
  {}

  /**
   From wherever a Connect or reconnect is, and with autoReconnect from every lost session, if there
   is no Close and the next dial succeeds: the agents' own steps lead to a new live reader on the
   current connection, with the state Connected.
   */
  lemma {:induction false} SessionIsReplaced(s: Client, id: nat) returns (steps: seq<Step>, reader: nat)
    requires Ids(s) && !s.cancelled && id in s.agents && Replaces(s, s.agents[id])
    ensures CanRun(SYSTEM, s, steps) && forall step | step in steps :: step.Act?
    ensures var t := After(SYSTEM, s, steps);
      reader in t.agents && t.agents[reader].Reading? && t.conn == Some(t.agents[reader].gen) && t.state == Connected
    decreases Ahead(s.agents[id])
  {
    var t := Acted(s, id, true);
    ActTouchesOne(s, id, true);
    if s.agents[id].Announced? {
      ConnectAdvances(s, id);
      steps, reader := [], s.nextAgent;
    } else if Connects(s.agents[id]) {
      ConnectAdvances(s, id);
      steps, reader := SessionIsReplaced(t, id);
    } else {
      SessionAdvances(s, id);
      steps, reader := SessionIsReplaced(t, if s.agents[id].HandingOver? then s.nextAgent else id);
    }
    RunsTo(SYSTEM, s, Act(id, true), steps, After(SYSTEM, t, steps));
    steps := [Act(id, true)] + steps;
  }

  // ---------------------------------------------------------------------
  // After Close: everybody comes to an end
  // ---------------------------------------------------------------------

  /** Steps that an agent and those it will start can still take once the client's context is cancelled. */
  function Rank(a: Agent): nat {
    match a
    case Dialing(_) => 10
    case DialDone(_) => 9
    case OldDropped(_) => 8
    case Installed(_, _) => 7
    case Announced(_, _) => 6
    case Reading(_) => 4
    case HandingOver => 3
    case Lost(_) => 3
    case Backoff(_, _) => 3
    case Dropped => 2
    case Checking(_) => 2
    case Returning(_) => 1
    case Finished => 1
    case LoopTop(_, _) => 1
  }

  function Work(agents: map<nat, Agent>, n: nat): nat {
    if n == 0 then 0
    else Work(agents, n - 1) + if n - 1 in agents then Rank(agents[n - 1]) else 0
  }

  function RankAt(agents: map<nat, Agent>, i: nat): nat {
    if i in agents then Rank(agents[i]) else 0
  }

  lemma {:induction false} WorkChanges(a: map<nat, Agent>, b: map<nat, Agent>, id: nat, n: nat)
    requires forall i | 0 <= i < n && i != id :: RankAt(a, i) == RankAt(b, i)
    ensures id < n ==> Work(a, n) - RankAt(a, id) == Work(b, n) - RankAt(b, id)
    ensures id >= n ==> Work(a, n) == Work(b, n)
  {
    if n == 0 {
    } else {
      WorkChanges(a, b, id, n - 1);
      assert RankAt(a, n - 1) == if n - 1 in a then Rank(a[n - 1]) else 0;
    }
  }

  /** What the agent's own step leaves of its rank, with what it gives to a child. */
  lemma RankFalls(s: Client, id: nat, lucky: bool)
    requires Ids(s) && s.cancelled && id in s.agents
    ensures var t := Acted(s, id, lucky);
      RankAt(t.agents, id) + RankAt(t.agents, s.nextAgent) < Rank(s.agents[id])
  {}

  /**
   After Close every step of an agent lowers the work left to all of them; it starts another only
   when it is Announced, a reader, or HandingOver, a reconnect loop; and none begins to dial.
   */
  lemma AgentsOnlyWindDown(s: Client, id: nat, lucky: bool)
    requires Ids(s) && s.cancelled && id in s.agents
    ensures var t := Acted(s, id, lucky);
      && t.cancelled && Work(t.agents, t.nextAgent) < Work(s.agents, s.nextAgent)
      && (t.nextAgent != s.nextAgent ==> s.agents[id].Announced? || (s.agents[id].HandingOver? && s.auto))
      && (forall i | i in t.agents && t.agents[i].Dialing? :: i in s.agents && s.agents[i].Dialing?)
  {
    var t := Acted(s, id, lucky);
    ActTouchesOne(s, id, lucky);
    RankFalls(s, id, lucky);
    forall i | 0 <= i < s.nextAgent && i != id
      ensures RankAt(t.agents, i) == RankAt(s.agents, i)
    {}
    WorkChanges(s.agents, t.agents, id, s.nextAgent);
    NobodyDials(s, id, lucky);
  }

  lemma NobodyDials(s: Client, id: nat, lucky: bool)
    requires Ids(s) && s.cancelled && id in s.agents
    ensures var t := Acted(s, id, lucky);
      && (id in t.agents && t.agents[id].Dialing? ==> s.agents[id].Dialing?)
      && (s.nextAgent in t.agents ==> !t.agents[s.nextAgent].Dialing?)
      && (t.nextAgent != s.nextAgent ==> s.agents[id].Announced? || (s.agents[id].HandingOver? && s.auto))
  {}

  function ActsIn(steps: seq<Step>): nat {
    if steps == [] then 0 else (if steps[0].Act? then 1 else 0) + ActsIn(steps[1..])
  }

  function ConnectsIn(steps: seq<Step>): nat {
    if steps == [] then 0 else (if steps[0].UserConnect? then 1 else 0) + ConnectsIn(steps[1..])
  }

  /** So in any run after Close all agents together, old and new, take no more steps than the work there was. */
  lemma {:induction false} AgentsEnd(s: Client, steps: seq<Step>)
    requires Ids(s) && s.cancelled && CanRun(SYSTEM, s, steps)
    ensures var t := After(SYSTEM, s, steps);
      && t.cancelled
      && ActsIn(steps) + Work(t.agents, t.nextAgent) <= Work(s.agents, s.nextAgent) + 2 * ConnectsIn(steps)
    decreases |steps|
  {
    if steps == [] {
    } else {
      var step, t := steps[0], Apply(s, steps[0]);
      StepKeepsIds(s, step);
      if step.Act? {
        AgentsOnlyWindDown(s, step.id, step.lucky);
      } else if step.UserConnect? {
        WorkChanges(s.agents, t.agents, s.nextAgent, s.nextAgent);
      }
      AgentsEnd(t, steps[1..]);
    }
  }

  /** And they do end: from any state after Close, steps of the agents alone lead to one without agents. */
  lemma {:induction false} AllCanEnd(s: Client) returns (steps: seq<Step>)
    requires Ids(s) && s.cancelled
    ensures CanRun(SYSTEM, s, steps) && forall step | step in steps :: step.Act?
    ensures After(SYSTEM, s, steps).agents == map[]
    decreases Work(s.agents, s.nextAgent)
  {
    if s.agents == map[] {
      steps := [];
    } else {
      var id :| id in s.agents;
      AgentsOnlyWindDown(s, id, false);
      ActTouchesOne(s, id, false);
      steps := AllCanEnd(Acted(s, id, false));
      RunsTo(SYSTEM, s, Act(id, false), steps, After(SYSTEM, Acted(s, id, false), steps));
      steps := [Act(id, false)] + steps;
    }
  }

  // ---------------------------------------------------------------------
  // After Close: the state
  // ---------------------------------------------------------------------

  /** An agent that may still store a state once the context is cancelled. */
  predicate Loud(s: Client, a: Agent) {
    match a
    case Checking(caller) => caller.Retry?
    case Dialing(_) => true
    case DialDone(_) => true
    case OldDropped(_) => true
    case Installed(_, _) => true
    case Backoff(_, _) => true
    case LoopTop(attempt, _) => attempt >= s.maxAttempts
    case HandingOver => !s.auto || s.maxAttempts <= 0
    case _ => false
  }

  ghost predicate AllQuiet(s: Client) {
    forall i | i in s.agents :: !Loud(s, s.agents[i])
  }

  lemma QuietActs(s: Client, id: nat, lucky: bool)
    requires Ids(s) && s.cancelled && id in s.agents && !Loud(s, s.agents[id])
    ensures var t := Acted(s, id, lucky);
      && t.state == s.state
      && (id in t.agents ==> !Loud(s, t.agents[id]))
      && (s.nextAgent in t.agents ==> !Loud(s, t.agents[s.nextAgent]))
  {}

  lemma StepStaysQuiet(s: Client, step: Step)
    requires Ids(s) && s.cancelled && AllQuiet(s) && Enabled(s, step)
    ensures var t := Apply(s, step);
      t.cancelled && AllQuiet(t) && (t.state == s.state || (step == CloseStore && t.state == Disconnected))
  {
    if step.Act? {
      ActTouchesOne(s, step.id, step.lucky);
      QuietActs(s, step.id, step.lucky);
    }
  }

  /** Without a loud agent only a Close stores a state again. */
  lemma {:induction false} QuietKeepsState(s: Client, steps: seq<Step>)
    requires Ids(s) && s.cancelled && AllQuiet(s) && CanRun(SYSTEM, s, steps)
    ensures s.state == Disconnected || CloseStore !in steps ==> After(SYSTEM, s, steps).state == s.state
    decreases |steps|
  {
    if steps == [] {
    } else {
      assert steps[0] in steps && forall step | step in steps[1..] :: step in steps;
      StepKeepsIds(s, steps[0]);
      StepStaysQuiet(s, steps[0]);
      QuietKeepsState(Apply(s, steps[0]), steps[1..]);
    }
  }

  /** How many steps a loud agent needs until it stores a state. */
  function Fuse(a: Agent): nat {
    match a
    case DialDone(_) => 3
    case OldDropped(_) => 2
    case HandingOver => 2
    case _ => 1
  }

  /** One more step of a loud agent: it stores a state other than Disconnected, or it or its child is nearer to that. */
  lemma LoudActs(s: Client, id: nat)
    requires Ids(s) && s.cancelled && id in s.agents && Loud(s, s.agents[id])
    ensures var t := Acted(s, id, false);
      || t.state != Disconnected
      || (id in t.agents && Loud(t, t.agents[id]) && Fuse(t.agents[id]) < Fuse(s.agents[id]))
      || (s.nextAgent in t.agents && Loud(t, t.agents[s.nextAgent])
          && Fuse(t.agents[s.nextAgent]) < Fuse(s.agents[id]))
  {}

  /** Every loud agent has a continuation of at most three steps that leaves Disconnected. */
  lemma {:induction false} LoudLeaves(s: Client, id: nat) returns (steps: seq<Step>)
    requires Ids(s) && s.cancelled && id in s.agents && Loud(s, s.agents[id])
    ensures CanRun(SYSTEM, s, steps) && |steps| <= Fuse(s.agents[id]) <= 3
    ensures After(SYSTEM, s, steps).state != Disconnected
    decreases Fuse(s.agents[id])
  {
    var t := Acted(s, id, false);
    ActTouchesOne(s, id, false);
    LoudActs(s, id);
    if t.state != Disconnected {
      steps := [];
    } else if id in t.agents && Loud(t, t.agents[id]) && Fuse(t.agents[id]) < Fuse(s.agents[id]) {
      steps := LoudLeaves(t, id);
    } else {
      steps := LoudLeaves(t, s.nextAgent);
    }
    RunsTo(SYSTEM, s, Act(id, false), steps, After(SYSTEM, t, steps));
    steps := [Act(id, false)] + steps;
  }

  ghost predicate DisconnectedForGood(s: Client) {
    forall steps | CanRun(SYSTEM, s, steps) :: After(SYSTEM, s, steps).state == Disconnected
  }

  /** Once a Close has stored Disconnected, that is final exactly if no agent is loud, however many Closes there are. */
  lemma DisconnectedIsFinalIff(s: Client)
    requires Ids(s) && s.cancelled && s.state == Disconnected
    ensures DisconnectedForGood(s) <==> AllQuiet(s)
  {
    if AllQuiet(s) {
      forall steps | CanRun(SYSTEM, s, steps)
        ensures After(SYSTEM, s, steps).state == Disconnected
      {
        QuietKeepsState(s, steps);
      }
    } else {
      var id :| id in s.agents && Loud(s, s.agents[id]);
      var steps := LoudLeaves(s, id);
    }
  }

  /** The user connects, Close runs while the dial is under way, and then the dial succeeds. */
  lemma ClosesDuringDial(s: Client) returns (steps: seq<Step>)
    requires s == Fresh(false, 0).(state := Connecting, nextAgent := 1, agents := map[0 := Dialing(User)])
    ensures CanRun(SYSTEM, s, steps) && forall step | step in steps :: !step.UserConnect?
    ensures After(SYSTEM, s, steps) == s.(cancelled := true, closes := Closes(0, 0, 0, 1), state := Disconnected,
                                  agents := map[0 := DialDone(User)])
  {
    var s0 := Apply(s, CloseTest);
    var s1 := Apply(s0, CloseCancel);
    var s2 := Apply(s1, CloseDrop);
    var s3 := Apply(s2, CloseStore);
    var s4 := Apply(s3, Act(0, true));
    assert map[0 := Dialing(User)][0 := DialDone(User)] == map[0 := DialDone(User)];
    RunsTo(SYSTEM, s3, Act(0, true), [], s4);
    steps := [Act(0, true)] + [];
    RunsTo(SYSTEM, s2, CloseStore, steps, s4);
    steps := [CloseStore] + steps;
    RunsTo(SYSTEM, s1, CloseDrop, steps, s4);
    steps := [CloseDrop] + steps;
    RunsTo(SYSTEM, s0, CloseCancel, steps, s4);
    steps := [CloseCancel] + steps;
    RunsTo(SYSTEM, s, CloseTest, steps, s4);
    steps := [CloseTest] + steps;
  }

  /** Connect does not look at ctx again: it stores Connected, and nobody is left who would store another state. */
  lemma ConnectsAfterClose(s: Client) returns (steps: seq<Step>)
    requires s.cancelled && s.agents == map[0 := DialDone(User)] && s.nextAgent == 1
    ensures CanRun(SYSTEM, s, steps) && forall step | step in steps :: !step.UserConnect?
    ensures var t := After(SYSTEM, s, steps);
      Ids(t) && t.cancelled && t.closes == s.closes && AllQuiet(t) && t.state == Connected
  {
    var go := Act(0, false);
    var s1 := Apply(s, go);
    assert s1.agents == map[0 := OldDropped(User)];
    var s2 := Apply(s1, go);
    assert s2.agents == map[0 := Installed(User, s1.nextGen)];
    var s3 := Apply(s2, go);
    assert s3.agents == map[0 := Announced(User, s1.nextGen)];
    RunsTo(SYSTEM, s2, go, [], s3);
    steps := [go] + [];
    RunsTo(SYSTEM, s1, go, steps, s3);
    steps := [go] + steps;
    RunsTo(SYSTEM, s, go, steps, s3);
    steps := [go] + steps;
  }

  lemma {:induction false} ActsLeaveCloses(s: Client, steps: seq<Step>)
    requires Ids(s) && CanRun(SYSTEM, s, steps) && forall step | step in steps :: step.Act?
    ensures After(SYSTEM, s, steps).closes == s.closes && After(SYSTEM, s, steps).cancelled == s.cancelled
    decreases |steps|
  {
    if steps == [] {
    } else {
      assert steps[0] in steps && forall step | step in steps[1..] :: step in steps;
      ActTouchesOne(s, steps[0].id, steps[0].lucky);
      ActsLeaveCloses(Apply(s, steps[0]), steps[1..]);
    }
  }

  /** From a dial under way: Close, the rest of Connect, and the end of every goroutine. */
  lemma CloseDuringDialLeavesConnected(s: Client) returns (steps: seq<Step>)
    requires s == Fresh(false, 0).(state := Connecting, nextAgent := 1, agents := map[0 := Dialing(User)])
    ensures CanRun(SYSTEM, s, steps) && forall step | step in steps :: !step.UserConnect?
    ensures var t := After(SYSTEM, s, steps);
      t.cancelled && t.closes == Closes(0, 0, 0, 1) && t.agents == map[] && t.state == Connected
  {
    var first := ClosesDuringDial(s);
    var second := ConnectsAfterClose(After(SYSTEM, s, first));
    var t := After(SYSTEM, After(SYSTEM, s, first), second);
    var third := AllCanEnd(t);
    QuietKeepsState(t, third);
    ActsLeaveCloses(t, third);
    RunsConcat(SYSTEM, After(SYSTEM, s, first), second, third);
    RunsConcat(SYSTEM, s, first, second + third);
    steps := first + (second + third);
  }

  /**
   A loud agent is not rare: a Close that overlaps a Connect past its test of ctx can end with
   every goroutine gone, the client closed, and State reporting Connected for ever.
   */
  lemma CloseMayLeaveConnected() returns (steps: seq<Step>)
    ensures CanRun(SYSTEM, Fresh(false, 0), steps) && Disciplined(Fresh(false, 0), steps)
    ensures var s := After(SYSTEM, Fresh(false, 0), steps);
      && s.cancelled && s.closes == Closes(0, 0, 0, 1)
      && s.agents == map[] && s.conn == None && s.state == Connected
  {
    var s0 := Fresh(false, 0);
    var s1 := Apply(s0, UserConnect);
    assert s1.agents == map[0 := Checking(User)];
    var s2 := Apply(s1, Act(0, true));
    assert s2.agents == map[0 := Dialing(User)];
    var rest := CloseDuringDialLeavesConnected(s2);
    RunsTo(SYSTEM, s1, Act(0, true), rest, After(SYSTEM, s2, rest));
    RunsTo(SYSTEM, s0, UserConnect, [Act(0, true)] + rest, After(SYSTEM, s2, rest));
    steps := [UserConnect] + ([Act(0, true)] + rest);
    NoConnectIsDisciplined(s1, [Act(0, true)] + rest);
    assert steps[1..] == [Act(0, true)] + rest;
    AtMostOneOwner(false, 0, steps);
  }
}
