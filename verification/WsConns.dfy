/**
 Connection counting of the WebSocket server (ws/server/server.go): ConnManager
 keeps a map and, outside its lock, an atomic total; ServeHTTP checks the closed
 flag and the limit before the connection is added; Close of ws/server/conn.go
 removes it once; Shutdown sets the flag and closes a snapshot. One step is one
 atomic operation or one section of the manager's lock.
 */
module WsConns {
  import opened Runs

  type ConnId = int

  datatype ShutdownPc = NotShutdown | FlagSet | ClosingSnapshot

  datatype Manager = Manager(
    maxConns: nat,                // 0 means no limit
    closed: bool,
    total: int,
    m: set<ConnId>,               // the map's keys
    nextId: ConnId,
    greeted: nat,                 // handshakes that have read closed == false
    admitted: nat,                // handshakes past the limit check, not yet in the map
    uncounted: set<ConnId>,       // put in the map, total.Add(1) still to come
    closing: set<ConnId>,         // inside closeOnce, not yet deleted
    undecremented: set<ConnId>,   // deleted, total.Add(-1) still to come
    shutdown: ShutdownPc,
    toClose: set<ConnId>,         // the rest of Shutdown's snapshot
    inFlight: nat,                // history: handshakes under way when the flag was set
    late: set<ConnId>)            // history: put in the map since the flag was set

  datatype Step =
    | Greet
    | Admit
    | RejectFull
    | HandshakeFails
    | Insert
    | Count(id: ConnId)
    | BeginClose(id: ConnId)
    | Delete(id: ConnId)
    | Decrement(id: ConnId)
    | SetFlag
    | TakeSnapshot
    | ShutdownClose(id: ConnId)

  function Fresh(maxConns: nat): Manager {
    Manager(maxConns, false, 0, {}, 0, 0, 0, {}, {}, {}, NotShutdown, {}, 0, {})
  }

  predicate HasRoom(s: Manager) {
    s.maxConns == 0 || s.total < s.maxConns
  }

  predicate Enabled(s: Manager, step: Step) {
    match step
    case Greet => !s.closed
    case Admit => s.greeted > 0 && HasRoom(s)
    case RejectFull => s.greeted > 0 && !HasRoom(s)
    case HandshakeFails => s.admitted > 0
    case Insert => s.admitted > 0
    case Count(id) => id in s.uncounted
    case BeginClose(id) => id in s.m && id !in s.closing
    case Delete(id) => id in s.closing
    case Decrement(id) => id in s.undecremented
    case SetFlag => s.shutdown == NotShutdown
    case TakeSnapshot => s.shutdown == FlagSet
    case ShutdownClose(id) => s.shutdown == ClosingSnapshot && id in s.toClose
  }

  function Apply(s: Manager, step: Step): Manager
    requires Enabled(s, step)
  {
    match step
    case Greet => s.(greeted := s.greeted + 1)
    case Admit => s.(greeted := s.greeted - 1, admitted := s.admitted + 1)
    case RejectFull => s.(greeted := s.greeted - 1)
    case HandshakeFails => s.(admitted := s.admitted - 1)
    case Insert =>
      s.(admitted := s.admitted - 1, m := s.m + {s.nextId}, uncounted := s.uncounted + {s.nextId},
         nextId := s.nextId + 1,
         late := if s.closed then s.late + {s.nextId} else s.late)
    case Count(id) => s.(uncounted := s.uncounted - {id}, total := s.total + 1)
    case BeginClose(id) => s.(closing := s.closing + {id})
    case Delete(id) => s.(closing := s.closing - {id}, m := s.m - {id}, undecremented := s.undecremented + {id})
    case Decrement(id) => s.(undecremented := s.undecremented - {id}, total := s.total - 1)
    case SetFlag => s.(closed := true, shutdown := FlagSet, inFlight := s.greeted + s.admitted)
    case TakeSnapshot => s.(toClose := s.m, shutdown := ClosingSnapshot)
    case ShutdownClose(id) =>
      s.(toClose := s.toClose - {id}, closing := if id in s.m then s.closing + {id} else s.closing)
  }

  const SYSTEM: System<Manager, Step> :=
    System(Enabled, (s, step) => if Enabled(s, step) then Apply(s, step) else s)

  // ---------------------------------------------------------------------
  // The counter
  // ---------------------------------------------------------------------

  /** total is the map's size, corrected by the adds and removes in progress. */
  ghost predicate Counted(s: Manager) {
    s.total == |s.m| + |s.undecremented| - |s.uncounted|
  }

  ghost predicate Ids(s: Manager) {
    && (forall id | id in s.m + s.uncounted + s.undecremented :: id < s.nextId)
    && s.closing <= s.m
    && s.m !! s.undecremented
  }

  /** Every connection in the map is being closed, or still to be closed by Shutdown, or came after its flag. */
  ghost predicate Shutting(s: Manager) {
    && (s.closed <==> s.shutdown != NotShutdown)
    && (s.closed ==> s.greeted + s.admitted + |s.late| <= s.inFlight)
    && (!s.closed ==> s.late == {})
    && (s.shutdown == ClosingSnapshot ==> s.m <= s.closing + s.toClose + s.late)
    && (forall id | id in s.late :: id < s.nextId)
  }

  ghost predicate Inv(s: Manager) {
    Counted(s) && Ids(s) && Shutting(s)
  }

  lemma Grows(ids: set<ConnId>, id: ConnId)
    requires id !in ids
    ensures |ids + {id}| == |ids| + 1
  {}

  lemma InsertKeepsIds(s: Manager)
    requires Ids(s) && Enabled(s, Insert)
    ensures Ids(Apply(s, Insert))
    ensures s.nextId !in s.m && s.nextId !in s.uncounted
  {
    assert s.nextId !in s.m + s.uncounted + s.undecremented;
  }

  lemma InsertKeepsShutting(s: Manager)
    requires Shutting(s) && Enabled(s, Insert)
    ensures Shutting(Apply(s, Insert))
  {
    assert s.nextId !in s.late;
    Grows(s.late, s.nextId);
  }

  lemma InsertKeepsInv(s: Manager)
    requires Inv(s) && Enabled(s, Insert)
    ensures Inv(Apply(s, Insert))
  {
    InsertKeepsIds(s);
    InsertKeepsShutting(s);
    Grows(s.m, s.nextId);
    Grows(s.uncounted, s.nextId);
  }

  lemma DeleteKeepsIds(s: Manager, id: ConnId)
    requires Ids(s) && Enabled(s, Delete(id))
    ensures Ids(Apply(s, Delete(id)))
    ensures id in s.m && id !in s.undecremented
  {
    assert id in s.m + s.uncounted + s.undecremented;
  }

  lemma DeleteKeepsInv(s: Manager, id: ConnId)
    requires Inv(s) && Enabled(s, Delete(id))
    ensures Inv(Apply(s, Delete(id)))
  {
    DeleteKeepsIds(s, id);
    Grows(s.m - {id}, id);
    assert s.m - {id} + {id} == s.m;
    Grows(s.undecremented, id);
  }

  lemma CounterKeepsInv(s: Manager, step: Step)
    requires Inv(s) && Enabled(s, step) && (step.Count? || step.Decrement?)
    ensures Inv(Apply(s, step))
  {
    var t := Apply(s, step);
    if step.Count? {
      assert |s.uncounted - {step.id}| == |s.uncounted| - 1;
    } else {
      assert |s.undecremented - {step.id}| == |s.undecremented| - 1;
    }
    assert t.m + t.uncounted + t.undecremented <= s.m + s.uncounted + s.undecremented;
  }

  lemma OtherStepsKeepInv(s: Manager, step: Step)
    requires Inv(s) && Enabled(s, step) && !step.Insert? && !step.Delete? && !step.Count? && !step.Decrement?
    ensures Inv(Apply(s, step))
  {}

  lemma StepKeepsInv(s: Manager, step: Step)
    requires Inv(s) && Enabled(s, step)
    ensures Inv(Apply(s, step))
  {
    if step.Insert? {
      InsertKeepsInv(s);
    } else if step.Delete? {
      DeleteKeepsInv(s, step.id);
    } else if step.Count? || step.Decrement? {
      CounterKeepsInv(s, step);
    } else {
      OtherStepsKeepInv(s, step);
    }
  }

  lemma {:induction false} RunKeepsInv(s: Manager, steps: seq<Step>)
    requires Inv(s) && CanRun(SYSTEM, s, steps)
    ensures Inv(After(SYSTEM, s, steps))
    decreases |steps|
  {
    if steps == [] {
    } else {
      StepKeepsInv(s, steps[0]);
      RunKeepsInv(Apply(s, steps[0]), steps[1..]);
    }
  }

  /** The counter is exact up to the operations in progress; it can be negative only while an add is. */
  lemma CounterIsExact(maxConns: nat, steps: seq<Step>)
    requires CanRun(SYSTEM, Fresh(maxConns), steps)
    ensures var s := After(SYSTEM, Fresh(maxConns), steps);
            && s.total == |s.m| + |s.undecremented| - |s.uncounted|
            && (s.total < 0 ==> s.uncounted != {})
  {
    RunKeepsInv(Fresh(maxConns), steps);
  }

  // ---------------------------------------------------------------------
  // Handshakes
  // ---------------------------------------------------------------------

  /** A handshake that has read the flag goes on or is rejected, depending on nothing but the counter. */
  lemma HandshakeDecides(s: Manager)
    requires s.greeted > 0
    ensures Enabled(s, Admit) <==> s.maxConns == 0 || s.total < s.maxConns
    ensures Enabled(s, RejectFull) <==> s.maxConns > 0 && s.total >= s.maxConns
  {}

  function GreetsIn(steps: seq<Step>): nat {
    if steps == [] then 0 else (if steps[0].Greet? then 1 else 0) + GreetsIn(steps[1..])
  }

  /** How many handshakes have come to an end: rejected, failed or with a connection in the map. */
  function EndsIn(steps: seq<Step>): nat {
    if steps == [] then 0
    else (if steps[0].RejectFull? || steps[0].HandshakeFails? || steps[0].Insert? then 1 else 0) + EndsIn(steps[1..])
  }

  /** Every handshake ends once. */
  lemma {:induction false} HandshakesAddUp(s: Manager, steps: seq<Step>)
    requires CanRun(SYSTEM, s, steps)
    ensures var t := After(SYSTEM, s, steps);
      t.greeted + t.admitted + EndsIn(steps) == s.greeted + s.admitted + GreetsIn(steps)
    decreases |steps|
  {
    if steps == [] {
    } else {
      HandshakesAddUp(Apply(s, steps[0]), steps[1..]);
    }
  }

  // ---------------------------------------------------------------------
  // The limit
  // ---------------------------------------------------------------------

  /** Handshakes past the limit check whose connection has not been counted. */
  function Pending(s: Manager): nat {
    s.admitted + |s.uncounted|
  }

  /** At every moment of the run at most `k` handshakes are pending. */
  ghost predicate PendingAtMost(k: nat, s: Manager, steps: seq<Step>)
    requires CanRun(SYSTEM, s, steps)
    decreases |steps|
  {
    Pending(s) <= k && (steps == [] || PendingAtMost(k, Apply(s, steps[0]), steps[1..]))
  }

  lemma StepKeepsLimit(k: nat, s: Manager, step: Step)
    requires Inv(s) && s.maxConns > 0 && Enabled(s, step)
    requires s.total + Pending(s) <= s.maxConns - 1 + k && Pending(Apply(s, step)) <= k
    ensures var t := Apply(s, step); t.maxConns == s.maxConns && t.total + Pending(t) <= t.maxConns - 1 + k
  {
    if step.Insert? {
      assert s.nextId !in s.m + s.uncounted + s.undecremented;
      assert |s.uncounted + {s.nextId}| == |s.uncounted| + 1;
    } else if step.Count? {
      assert |s.uncounted - {step.id}| == |s.uncounted| - 1;
    }
  }

  lemma {:induction false} RunKeepsLimit(k: nat, s: Manager, steps: seq<Step>)
    requires Inv(s) && s.maxConns > 0 && CanRun(SYSTEM, s, steps) && PendingAtMost(k, s, steps)
    requires s.total + Pending(s) <= s.maxConns - 1 + k
    ensures After(SYSTEM, s, steps).total + Pending(After(SYSTEM, s, steps)) <= s.maxConns - 1 + k
    decreases |steps|
  {
    if steps == [] {
    } else {
      StepKeepsInv(s, steps[0]);
      StepKeepsLimit(k, s, steps[0]);
      RunKeepsLimit(k, Apply(s, steps[0]), steps[1..]);
    }
  }

  /** With at most k handshakes pending at once, total never exceeds maxConns - 1 + k. */
  lemma OvershootIsBounded(maxConns: nat, k: nat, steps: seq<Step>)
    requires maxConns > 0 && k > 0 && CanRun(SYSTEM, Fresh(maxConns), steps) && PendingAtMost(k, Fresh(maxConns), steps)
    ensures After(SYSTEM, Fresh(maxConns), steps).total <= maxConns - 1 + k
  {
    RunKeepsLimit(k, Fresh(maxConns), steps);
  }

  function FirstIds(n: nat): set<ConnId> {
    if n == 0 then {} else FirstIds(n - 1) + {n - 1}
  }

  /** n connections open, a handshakes admitted, nothing else in progress. */
  function Steady(maxConns: nat, n: nat, a: nat): Manager {
    Fresh(maxConns).(total := n, m := FirstIds(n), nextId := n, admitted := a)
  }

  lemma AdmitOne(k: nat, maxConns: nat, n: nat, a: nat)
    requires n < maxConns && a < k
    ensures var s := Steady(maxConns, n, a);
            && CanRun(SYSTEM, s, [Greet, Admit]) && After(SYSTEM, s, [Greet, Admit]) == Steady(maxConns, n, a + 1)
            && PendingAtMost(k, s, [Greet, Admit])
  {
    var s := Steady(maxConns, n, a);
    var b := Apply(s, Greet);
    RunsTo(SYSTEM, b, Admit, [], Steady(maxConns, n, a + 1));
    RunsTo(SYSTEM, s, Greet, [Admit], Steady(maxConns, n, a + 1));
    assert [Greet] + [Admit] == [Greet, Admit];
    assert [Greet, Admit][1..] == [Admit];
    assert PendingAtMost(k, b, [Admit]);
  }

  lemma OpenOne(k: nat, maxConns: nat, n: nat, a: nat)
    requires 0 < a <= k
    ensures var s := Steady(maxConns, n, a);
            && CanRun(SYSTEM, s, [Insert, Count(n)])
            && After(SYSTEM, s, [Insert, Count(n)]) == Steady(maxConns, n + 1, a - 1)
            && PendingAtMost(k, s, [Insert, Count(n)])
  {
    var s := Steady(maxConns, n, a);
    var b := Apply(s, Insert);
    assert s.m + {n} == Steady(maxConns, n + 1, a - 1).m;
    assert s.uncounted + {n} == {n} && {n} - {n} == {};
    RunsTo(SYSTEM, b, Count(n), [], Steady(maxConns, n + 1, a - 1));
    RunsTo(SYSTEM, s, Insert, [Count(n)], Steady(maxConns, n + 1, a - 1));
    assert [Insert] + [Count(n)] == [Insert, Count(n)];
    assert [Insert, Count(n)][1..] == [Count(n)];
    assert PendingAtMost(k, b, [Count(n)]);
  }

  lemma {:induction false} Joined(k: nat, s: Manager, xs: seq<Step>, ys: seq<Step>)
    requires CanRun(SYSTEM, s, xs) && CanRun(SYSTEM, After(SYSTEM, s, xs), ys)
    requires PendingAtMost(k, s, xs) && PendingAtMost(k, After(SYSTEM, s, xs), ys)
    ensures CanRun(SYSTEM, s, xs + ys) && After(SYSTEM, s, xs + ys) == After(SYSTEM, After(SYSTEM, s, xs), ys)
    ensures PendingAtMost(k, s, xs + ys)
    decreases |xs|
  {
    if xs == [] {
      assert xs + ys == ys;
    } else {
      assert (xs + ys)[0] == xs[0] && (xs + ys)[1..] == xs[1..] + ys;
      Joined(k, Apply(s, xs[0]), xs[1..], ys);
    }
  }

  /** One after the other: n connections. */
  lemma {:induction false} FillUp(k: nat, maxConns: nat, n: nat) returns (steps: seq<Step>)
    requires n < maxConns && k > 0
    ensures CanRun(SYSTEM, Fresh(maxConns), steps) && After(SYSTEM, Fresh(maxConns), steps) == Steady(maxConns, n, 0)
    ensures PendingAtMost(k, Fresh(maxConns), steps)
  {
    if n == 0 {
      steps := [];
      assert Steady(maxConns, 0, 0).m == {};
    } else {
      steps := FillUp(k, maxConns, n - 1);
      AdmitOne(k, maxConns, n - 1, 0);
      OpenOne(k, maxConns, n - 1, 1);
      Joined(k, Fresh(maxConns), steps, [Greet, Admit]);
      steps := steps + [Greet, Admit];
      Joined(k, Fresh(maxConns), steps, [Insert, Count(n - 1)]);
      steps := steps + [Insert, Count(n - 1)];
    }
  }

  lemma {:induction false} AdmitMany(k: nat, maxConns: nat, n: nat, a: nat) returns (steps: seq<Step>)
    requires n < maxConns && a <= k
    ensures CanRun(SYSTEM, Steady(maxConns, n, 0), steps)
    ensures After(SYSTEM, Steady(maxConns, n, 0), steps) == Steady(maxConns, n, a)
    ensures PendingAtMost(k, Steady(maxConns, n, 0), steps)
  {
    if a == 0 {
      steps := [];
    } else {
      steps := AdmitMany(k, maxConns, n, a - 1);
      AdmitOne(k, maxConns, n, a - 1);
      Joined(k, Steady(maxConns, n, 0), steps, [Greet, Admit]);
      steps := steps + [Greet, Admit];
    }
  }

  lemma {:induction false} OpenMany(k: nat, maxConns: nat, n: nat, a: nat, m: nat) returns (steps: seq<Step>)
    requires a <= k && m == n + a
    ensures CanRun(SYSTEM, Steady(maxConns, n, a), steps)
    ensures After(SYSTEM, Steady(maxConns, n, a), steps) == Steady(maxConns, m, 0)
    ensures PendingAtMost(k, Steady(maxConns, n, a), steps)
    decreases a
  {
    if a == 0 {
      steps := [];
    } else {
      OpenOne(k, maxConns, n, a);
      var rest := OpenMany(k, maxConns, n + 1, a - 1, m);
      Joined(k, Steady(maxConns, n, a), [Insert, Count(n)], rest);
      steps := [Insert, Count(n)] + rest;
    }
  }

  /** The bound is attained: k handshakes that all pass the check before any of them is counted. */
  lemma OvershootIsAttained(maxConns: nat, k: nat) returns (steps: seq<Step>)
    requires maxConns > 0 && k > 0
    ensures CanRun(SYSTEM, Fresh(maxConns), steps) && PendingAtMost(k, Fresh(maxConns), steps)
    ensures After(SYSTEM, Fresh(maxConns), steps).total == maxConns - 1 + k
  {
    var s := Fresh(maxConns);
    steps := FillUp(k, maxConns, maxConns - 1);
    var admits := AdmitMany(k, maxConns, maxConns - 1, k);
    var opens := OpenMany(k, maxConns, maxConns - 1, k, maxConns - 1 + k);
    Joined(k, s, steps, admits);
    steps := steps + admits;
    Joined(k, s, steps, opens);
    steps := steps + opens;
  }

  /** The counter does become negative: a connection closed between its insertion and its count. */
  lemma CounterCanBeNegative() returns (steps: seq<Step>)
    ensures CanRun(SYSTEM, Fresh(1), steps) && After(SYSTEM, Fresh(1), steps).total == -1
  {
    assert Fresh(1) == Steady(1, 0, 0);
    AdmitOne(1, 1, 0, 0);
    var c := Fresh(1).(m := {0}, uncounted := {0}, nextId := 1);
    InsertedFirst(c);
    ClosedEarly();
    RunsConcat(SYSTEM, Fresh(1), [Greet, Admit], [Insert]);
    steps := [Greet, Admit] + [Insert];
    RunsConcat(SYSTEM, Fresh(1), steps, [BeginClose(0), Delete(0), Decrement(0)]);
    steps := steps + [BeginClose(0), Delete(0), Decrement(0)];
  }

  lemma InsertedFirst(c: Manager)
    requires c == Fresh(1).(m := {0}, uncounted := {0}, nextId := 1)
    ensures CanRun(SYSTEM, Steady(1, 0, 1), [Insert]) && After(SYSTEM, Steady(1, 0, 1), [Insert]) == c
  {
    var b := Steady(1, 0, 1);
    assert b.m == {} && b.m + {0} == {0} && b.uncounted + {0} == {0};
    assert Apply(b, Insert) == c;
    RunsTo(SYSTEM, b, Insert, [], c);
  }

  lemma ClosedEarly()
    ensures var c := Fresh(1).(m := {0}, uncounted := {0}, nextId := 1);
            var f := Fresh(1).(uncounted := {0}, nextId := 1, total := -1);
            && CanRun(SYSTEM, c, [BeginClose(0), Delete(0), Decrement(0)])
            && After(SYSTEM, c, [BeginClose(0), Delete(0), Decrement(0)]) == f
  {
    var c := Fresh(1).(m := {0}, uncounted := {0}, nextId := 1);
    var d := c.(closing := {0});
    var e := Fresh(1).(uncounted := {0}, undecremented := {0}, nextId := 1);
    var f := Fresh(1).(uncounted := {0}, nextId := 1, total := -1);
    assert {} + {0} == {0} && {0} - {0} == {};
    assert Apply(c, BeginClose(0)) == d;
    assert Apply(d, Delete(0)) == e;
    assert Apply(e, Decrement(0)) == f;
    RunsTo(SYSTEM, e, Decrement(0), [], f);
    RunsTo(SYSTEM, d, Delete(0), [Decrement(0)], f);
    assert [Delete(0)] + [Decrement(0)] == [Delete(0), Decrement(0)];
    RunsTo(SYSTEM, c, BeginClose(0), [Delete(0), Decrement(0)], f);
    assert [BeginClose(0)] + [Delete(0), Decrement(0)] == [BeginClose(0), Delete(0), Decrement(0)];
  }

  /** No connection is put in the map. */
  predicate NoInsert(steps: seq<Step>) {
    forall step | step in steps :: !step.Insert?
  }

  /** Some continuation without new connections makes the counter negative. */
  ghost predicate CanGoNegative(s: Manager) {
    exists steps :: CanRun(SYSTEM, s, steps) && NoInsert(steps) && After(SYSTEM, s, steps).total < 0
  }

  /** The peers go away: only closes. */
  predicate OnlyCloses(steps: seq<Step>) {
    forall step | step in steps :: step.BeginClose? || step.Delete? || step.Decrement?
  }

  /** What such a step leaves alone. */
  ghost predicate SameHandshakes(s: Manager, t: Manager) {
    && t.maxConns == s.maxConns && t.closed == s.closed && t.shutdown == s.shutdown && t.uncounted == s.uncounted
    && t.greeted == s.greeted && t.admitted == s.admitted && t.nextId == s.nextId
  }

  /** Steps until every connection of the map is closed and taken off the counter. */
  function ClosesLeft(s: Manager): int {
    3 * |s.m| - |s.closing| + |s.undecremented|
  }

  lemma Fewer(ids: set<ConnId>, id: ConnId)
    requires id in ids
    ensures |ids - {id}| == |ids| - 1
  {}

  lemma Within(a: set<ConnId>, b: set<ConnId>)
    requires a <= b
    ensures |a| <= |b|
  {
    assert b == a + (b - a);
  }

  lemma CloseBegins(s: Manager, id: ConnId)
    requires Inv(s) && Enabled(s, BeginClose(id))
    ensures SameHandshakes(s, Apply(s, BeginClose(id))) && ClosesLeft(Apply(s, BeginClose(id))) < ClosesLeft(s)
  {
    Grows(s.closing, id);
  }

  lemma CloseDeletes(s: Manager, id: ConnId)
    requires Inv(s) && Enabled(s, Delete(id))
    ensures SameHandshakes(s, Apply(s, Delete(id))) && ClosesLeft(Apply(s, Delete(id))) < ClosesLeft(s)
  {
    Fewer(s.closing, id);
    Fewer(s.m, id);
    Grows(s.undecremented, id);
  }

  lemma CloseDecrements(s: Manager, id: ConnId)
    requires Inv(s) && Enabled(s, Decrement(id))
    ensures SameHandshakes(s, Apply(s, Decrement(id))) && ClosesLeft(Apply(s, Decrement(id))) < ClosesLeft(s)
  {
    Fewer(s.undecremented, id);
  }

  lemma EmptyOrNot(ids: set<ConnId>)
    ensures ids == {} || exists id :: id in ids
  {
    if forall id :: id !in ids {
      assert ids == {};
    }
  }

  /** The next of these steps. */
  lemma ClosesOn(s: Manager) returns (step: Step)
    requires Inv(s) && (s.m != {} || s.undecremented != {})
    ensures Enabled(s, step) && (step.BeginClose? || step.Delete? || step.Decrement?)
    ensures SameHandshakes(s, Apply(s, step)) && ClosesLeft(Apply(s, step)) < ClosesLeft(s)
  {
    EmptyOrNot(s.m);
    EmptyOrNot(s.undecremented);
    if s.m != {} {
      var id :| id in s.m;
      if id in s.closing {
        CloseDeletes(s, id);
        step := Delete(id);
      } else {
        CloseBegins(s, id);
        step := BeginClose(id);
      }
    } else {
      var id :| id in s.undecremented;
      CloseDecrements(s, id);
      step := Decrement(id);
    }
  }

  /** From every state all connections can go away; what is left of the counter are the adds in progress. */
  lemma {:induction false} AllClose(s: Manager) returns (steps: seq<Step>)
    requires Inv(s)
    ensures CanRun(SYSTEM, s, steps) && OnlyCloses(steps)
    ensures var t := After(SYSTEM, s, steps);
      Inv(t) && SameHandshakes(s, t) && t.m == {} && t.closing == {} && t.total == -|s.uncounted|
    decreases ClosesLeft(s)
  {
    Within(s.closing, s.m);
    if s.m == {} && s.undecremented == {} {
      steps := [];
    } else {
      var step := ClosesOn(s);
      var t := Apply(s, step);
      StepKeepsInv(s, step);
      Within(t.closing, t.m);
      var rest := AllClose(t);
      RunsTo(SYSTEM, s, step, rest, After(SYSTEM, t, rest));
      steps := [step] + rest;
    }
  }

  lemma {:induction false} NeverNegative(s: Manager, steps: seq<Step>)
    requires Inv(s) && s.uncounted == {} && CanRun(SYSTEM, s, steps) && NoInsert(steps)
    ensures After(SYSTEM, s, steps).total >= 0
    decreases |steps|
  {
    if steps == [] {
    } else {
      assert steps[0] in steps && forall step | step in steps[1..] :: step in steps;
      StepKeepsInv(s, steps[0]);
      NeverNegative(Apply(s, steps[0]), steps[1..]);
    }
  }

  /** Exactly: the counter can become negative without a new connection if and only if an add is in progress. */
  lemma GoesNegativeIff(maxConns: nat, before: seq<Step>)
    requires CanRun(SYSTEM, Fresh(maxConns), before)
    ensures var s := After(SYSTEM, Fresh(maxConns), before);
      CanGoNegative(s) <==> s.uncounted != {}
  {
    var s := After(SYSTEM, Fresh(maxConns), before);
    RunKeepsInv(Fresh(maxConns), before);
    if s.uncounted == {} {
      forall steps | CanRun(SYSTEM, s, steps) && NoInsert(steps)
        ensures After(SYSTEM, s, steps).total >= 0
      {
        NeverNegative(s, steps);
      }
    } else {
      var steps := AllClose(s);
      assert NoInsert(steps);
    }
  }

  // ---------------------------------------------------------------------
  // Shutdown
  // ---------------------------------------------------------------------

  /**
   Once Shutdown has gone through its snapshot, every connection still in the map
   is being closed or was put there by a handshake that had read the flag before
   it was set; if no handshake was under way then, all are being closed.
   */
  lemma ShutdownMissesOnlyLateHandshakes(maxConns: nat, steps: seq<Step>)
    requires CanRun(SYSTEM, Fresh(maxConns), steps)
    requires var s := After(SYSTEM, Fresh(maxConns), steps); s.shutdown == ClosingSnapshot && s.toClose == {}
    ensures var s := After(SYSTEM, Fresh(maxConns), steps);
            && s.m <= s.closing + s.late && |s.late| <= s.inFlight
            && (s.inFlight == 0 ==> s.m == s.closing)
  {
    RunKeepsInv(Fresh(maxConns), steps);
  }

  /** Some continuation takes Shutdown through its snapshot with a connection left that nobody closes. */
  ghost predicate CanMiss(s: Manager) {
    exists steps :: CanRun(SYSTEM, s, steps) && Missed(After(SYSTEM, s, steps))
  }

  ghost predicate Missed(s: Manager) {
    s.shutdown == ClosingSnapshot && s.toClose == {} && exists id :: id in s.m && id !in s.closing
  }

  /** A handshake past the limit check puts its connection in the map after an empty snapshot. */
  lemma InsertsLate(s: Manager)
    requires Inv(s) && s.shutdown == ClosingSnapshot && s.toClose == {} && s.m == {} && s.closing == {}
    requires s.admitted > 0
    ensures CanRun(SYSTEM, s, [Insert]) && Missed(After(SYSTEM, s, [Insert]))
  {
    var t := Apply(s, Insert);
    RunsTo(SYSTEM, s, Insert, [], t);
    assert [Insert] + [] == [Insert];
    assert s.nextId in t.m;
  }

  lemma MissesOne(s: Manager) returns (steps: seq<Step>)
    requires Inv(s) && s.shutdown == FlagSet && s.m == {} && s.closing == {} && s.total <= 0
    requires s.greeted + s.admitted > 0
    ensures CanRun(SYSTEM, s, steps) && Missed(After(SYSTEM, s, steps))
  {
    var t := Apply(s, TakeSnapshot);
    StepKeepsInv(s, TakeSnapshot);
    if s.admitted > 0 {
      InsertsLate(t);
      steps := [Insert];
    } else {
      var u := Apply(t, Admit);
      StepKeepsInv(t, Admit);
      InsertsLate(u);
      RunsTo(SYSTEM, t, Admit, [Insert], After(SYSTEM, u, [Insert]));
      steps := [Admit] + [Insert];
    }
    RunsTo(SYSTEM, s, TakeSnapshot, steps, After(SYSTEM, t, steps));
    steps := [TakeSnapshot] + steps;
  }

  lemma {:induction false} NoneInFlight(s: Manager, steps: seq<Step>)
    requires Inv(s) && s.closed && s.inFlight == 0 && CanRun(SYSTEM, s, steps)
    ensures After(SYSTEM, s, steps).inFlight == 0 && After(SYSTEM, s, steps).closed
    decreases |steps|
  {
    if steps == [] {
    } else {
      StepKeepsInv(s, steps[0]);
      NoneInFlight(Apply(s, steps[0]), steps[1..]);
    }
  }

  lemma MissesNone(s: Manager)
    requires Inv(s) && s.closed && s.inFlight == 0
    ensures !Missed(s)
  {
    assert |s.late| == 0;
  }

  /**
   Exactly: Shutdown can leave a connection open if and only if a handshake was under way when it
   set the flag. A full server makes no difference, because its connections may go away.
   */
  lemma ShutdownMissesIff(maxConns: nat, before: seq<Step>)
    requires CanRun(SYSTEM, Fresh(maxConns), before) && Enabled(After(SYSTEM, Fresh(maxConns), before), SetFlag)
    ensures var s := After(SYSTEM, Fresh(maxConns), before);
      CanMiss(Apply(s, SetFlag)) <==> s.greeted + s.admitted > 0
  {
    var s := After(SYSTEM, Fresh(maxConns), before);
    RunKeepsInv(Fresh(maxConns), before);
    var t := Apply(s, SetFlag);
    StepKeepsInv(s, SetFlag);
    if s.greeted + s.admitted > 0 {
      var closes := AllClose(t);
      var rest := MissesOne(After(SYSTEM, t, closes));
      RunsConcat(SYSTEM, t, closes, rest);
    } else {
      forall steps | CanRun(SYSTEM, t, steps)
        ensures !Missed(After(SYSTEM, t, steps))
      {
        RunKeepsInv(t, steps);
        NoneInFlight(t, steps);
        MissesNone(After(SYSTEM, t, steps));
      }
    }
  }

  /** Shutdown can go through its snapshot, and then all of it that is still in the map is being closed. */
  lemma {:induction false} ShutdownCompletes(s: Manager) returns (steps: seq<Step>)
    requires s.shutdown == ClosingSnapshot
    ensures CanRun(SYSTEM, s, steps) && forall step | step in steps :: step.ShutdownClose?
    ensures var t := After(SYSTEM, s, steps);
      && t.toClose == {} && t.m == s.m && t.shutdown == ClosingSnapshot
      && t.closing == s.closing + s.toClose * s.m
    decreases |s.toClose|
  {
    EmptyOrNot(s.toClose);
    if s.toClose == {} {
      steps := [];
      assert s.closing + s.toClose * s.m == s.closing;
    } else {
      var id :| id in s.toClose;
      var t := Apply(s, ShutdownClose(id));
      Fewer(s.toClose, id);
      assert t.closing + t.toClose * t.m == s.closing + s.toClose * s.m;
      var rest := ShutdownCompletes(t);
      RunsTo(SYSTEM, s, ShutdownClose(id), rest, After(SYSTEM, t, rest));
      steps := [ShutdownClose(id)] + rest;
    }
  }

  /** Shutdown closes nothing but its snapshot: what is not in it is closed by others or not at all. */
  lemma {:induction false} ShutdownKeepsToSnapshot(s: Manager, steps: seq<Step>, id: ConnId)
    requires s.shutdown == ClosingSnapshot && id !in s.toClose && id !in s.closing
    requires CanRun(SYSTEM, s, steps) && BeginClose(id) !in steps
    ensures id !in After(SYSTEM, s, steps).closing
    decreases |steps|
  {
    if steps == [] {
    } else {
      assert steps[0] in steps && forall step | step in steps[1..] :: step in steps;
      ShutdownKeepsToSnapshot(Apply(s, steps[0]), steps[1..], id);
    }
  }
}
