/**
 Metrics of push/metrics: a table of bounded counters, once as one map
 (metrics.go) and once spread over sixteen maps by the hash of the name
 (sharded.go). Values are exact reals.
 */
module MetricTables {

  datatype Metric = Metric(accum: real, sent: real, init: real, step: real, lo: real, hi: real)

  type Table = map<string, Metric>

  datatype Op =
    | Register(name: string, init: real, step: real, lo: real, hi: real)
    | Set(name: string, value: real)
    | Inc(name: string)
    | Dec(name: string)
    | IncBy(name: string, delta: real)
    | Get(name: string)
    | GetDelta(name: string)
    | Flush
    | FlushAndReset
    | Snapshot
    | Clear
    | Count
    | Keys

  datatype Answer =
    | Nothing
    | Value(x: real)
    | Values(all: map<string, real>)
    | Number(n: nat)
    | Names(names: set<string>)

  // ---------------------------------------------------------------------
  // One table
  // ---------------------------------------------------------------------

  /** Inc and IncBy: cut at the maximum only. */
  function Added(m: Metric, d: real): Metric {
    m.(accum := if m.accum + d > m.hi then m.hi else m.accum + d)
  }

  /** Dec: cut at the minimum only. */
  function Lowered(m: Metric): Metric {
    m.(accum := if m.accum - m.step < m.lo then m.lo else m.accum - m.step)
  }

  function Flushed(m: Metric): Metric {
    m.(sent := m.accum)
  }

  function Reset(m: Metric): Metric {
    m.(accum := m.init, sent := m.init)
  }

  function Update(t: Table, op: Op): Table {
    match op
    case Register(n, init, step, lo, hi) => t[n := Metric(init, init, init, step, lo, hi)]
    case Set(n, v) => if n in t then t[n := t[n].(accum := v)] else t
    case Inc(n) => if n in t then t[n := Added(t[n], t[n].step)] else t
    case Dec(n) => if n in t then t[n := Lowered(t[n])] else t
    case IncBy(n, d) => if n in t then t[n := Added(t[n], d)] else t
    case Flush => map n | n in t :: Flushed(t[n])
    case FlushAndReset => map n | n in t :: Reset(t[n])
    case Clear => map n | n in t :: Reset(t[n])
    case _ => t
  }

  /** Flush reports the change since the last Flush, FlushAndReset and Snapshot the value. */
  function Reading(m: Metric, op: Op): real {
    if op.Flush? then m.accum - m.sent else m.accum
  }

  function Readings(t: Table, op: Op): map<string, real> {
    map n | n in t :: Reading(t[n], op)
  }

  function Reply(t: Table, op: Op): Answer {
    match op
    case Get(n) => Value(if n in t then t[n].accum else 0.0)
    case GetDelta(n) => Value(if n in t then t[n].accum - t[n].sent else 0.0)
    case Flush => Values(Readings(t, op))
    case FlushAndReset => Values(Readings(t, op))
    case Snapshot => Values(Readings(t, op))
    case Count => Number(|t.Keys|)
    case Keys => Names(t.Keys)
    case _ => Nothing
  }

  function Run(t: Table, ops: seq<Op>): Table
    decreases |ops|
  {
    if ops == [] then t else Run(Update(t, ops[0]), ops[1..])
  }

  function Replies(t: Table, ops: seq<Op>): seq<Answer>
    decreases |ops|
  {
    if ops == [] then [] else [Reply(t, ops[0])] + Replies(Update(t, ops[0]), ops[1..])
  }

  // ---------------------------------------------------------------------
  // Sixteen tables
  // ---------------------------------------------------------------------

  const SHARDS: nat := 16

  function Slot(hash: string -> nat, name: string): (i: nat)
    ensures i < SHARDS
  {
    hash(name) % 16
  }

  /** Operations that name a metric go to its shard; the others visit every shard. */
  predicate Named(op: Op) {
    op.Register? || op.Set? || op.Inc? || op.Dec? || op.IncBy? || op.Get? || op.GetDelta?
  }

  function ShardedUpdate(hash: string -> nat, s: seq<Table>, op: Op): (r: seq<Table>)
    requires |s| == SHARDS
    ensures |r| == SHARDS
  {
    if Named(op) then s[Slot(hash, op.name) := Update(s[Slot(hash, op.name)], op)]
    else seq(SHARDS, i requires 0 <= i < SHARDS => Update(s[i], op))
  }

  /** The result of visiting the first n shards in order. */
  function Gathered(s: seq<Table>, op: Op, n: nat): Answer
    requires n <= |s|
  {
    match op
    case Flush => Values(GatheredValues(s, op, n))
    case FlushAndReset => Values(GatheredValues(s, op, n))
    case Snapshot => Values(GatheredValues(s, op, n))
    case Count => Number(GatheredCount(s, n))
    case Keys => Names(GatheredNames(s, n))
    case _ => Nothing
  }

  function GatheredValues(s: seq<Table>, op: Op, n: nat): map<string, real>
    requires n <= |s|
  {
    if n == 0 then map[]
    else GatheredValues(s, op, n - 1) + Readings(s[n - 1], op)
  }

  function GatheredCount(s: seq<Table>, n: nat): nat
    requires n <= |s|
  {
    if n == 0 then 0 else GatheredCount(s, n - 1) + |s[n - 1].Keys|
  }

  function GatheredNames(s: seq<Table>, n: nat): set<string>
    requires n <= |s|
  {
    if n == 0 then {} else GatheredNames(s, n - 1) + s[n - 1].Keys
  }

  function ShardedReply(hash: string -> nat, s: seq<Table>, op: Op): Answer
    requires |s| == SHARDS
  {
    if Named(op) then Reply(s[Slot(hash, op.name)], op) else Gathered(s, op, SHARDS)
  }

  function ShardedRun(hash: string -> nat, s: seq<Table>, ops: seq<Op>): (r: seq<Table>)
    requires |s| == SHARDS
    ensures |r| == SHARDS
    decreases |ops|
  {
    if ops == [] then s else ShardedRun(hash, ShardedUpdate(hash, s, ops[0]), ops[1..])
  }

  function ShardedReplies(hash: string -> nat, s: seq<Table>, ops: seq<Op>): seq<Answer>
    requires |s| == SHARDS
    decreases |ops|
  {
    if ops == [] then []
    else [ShardedReply(hash, s, ops[0])] + ShardedReplies(hash, ShardedUpdate(hash, s, ops[0]), ops[1..])
  }

  // ---------------------------------------------------------------------
  // The sharded form refines the simple one
  // ---------------------------------------------------------------------

  /** The sixteen tables s hold exactly the metrics of t, each in its own shard. */
  ghost predicate Spread(hash: string -> nat, s: seq<Table>, t: Table) {
    && |s| == SHARDS
    && (forall i, n :: 0 <= i < SHARDS && n in s[i] ==> Slot(hash, n) == i)
    && (forall n :: n in t <==> n in s[Slot(hash, n)])
    && (forall n :: n in t ==> t[n] == s[Slot(hash, n)][n])
  }

  lemma UpdateKeepsSpread(hash: string -> nat, s: seq<Table>, t: Table, op: Op)
    requires Spread(hash, s, t)
    ensures Spread(hash, ShardedUpdate(hash, s, op), Update(t, op))
  {
    if Named(op) {
      NamedKeepsSpread(hash, s, t, op);
    } else {
      var r := ShardedUpdate(hash, s, op);
      forall i | 0 <= i < SHARDS
        ensures r[i].Keys == s[i].Keys
      {}
    }
  }

  lemma NamedKeepsSpread(hash: string -> nat, s: seq<Table>, t: Table, op: Op)
    requires Spread(hash, s, t) && Named(op)
    ensures Spread(hash, ShardedUpdate(hash, s, op), Update(t, op))
  {
    var i := Slot(hash, op.name);
    var r := ShardedUpdate(hash, s, op);
    var u := Update(t, op);
    assert op.name in t ==> t[op.name] == s[i][op.name];
    forall n
      ensures n in u <==> n in r[Slot(hash, n)]
      ensures n in u ==> u[n] == r[Slot(hash, n)][n]
    {
      if n != op.name {
        assert n in u <==> n in t;
        assert n in Update(s[i], op) <==> n in s[i];
      }
    }
  }

  lemma OneShard(hash: string -> nat, s: seq<Table>, t: Table, i: nat, name: string)
    requires Spread(hash, s, t) && i < SHARDS
    ensures name in s[i] <==> name in t && Slot(hash, name) == i
    ensures name in s[i] ==> s[i][name] == t[name]
  {}

  /** A name that only one shard may hold is reported from there. */
  lemma {:induction false} ValuesGathered(s: seq<Table>, op: Op, n: nat, name: string, home: nat)
    requires n <= |s| && home < |s| && forall i :: 0 <= i < |s| && i != home ==> name !in s[i]
    ensures name in GatheredValues(s, op, n) <==> home < n && name in s[home]
    ensures name in GatheredValues(s, op, n) ==> GatheredValues(s, op, n)[name] == Reading(s[home][name], op)
  {
    if n == 0 {
    } else {
      ValuesGathered(s, op, n - 1, name, home);
      assert GatheredValues(s, op, n) == GatheredValues(s, op, n - 1) + Readings(s[n - 1], op);
    }
  }

  lemma {:induction false} NameGathered(hash: string -> nat, s: seq<Table>, t: Table, n: nat, k: string)
    requires Spread(hash, s, t) && n <= SHARDS
    ensures k in GatheredNames(s, n) <==> k in t && Slot(hash, k) < n
  {
    if n == 0 {
    } else {
      NameGathered(hash, s, t, n - 1, k);
      OneShard(hash, s, t, n - 1, k);
    }
  }

  lemma ShardApart(hash: string -> nat, s: seq<Table>, t: Table, n: nat)
    requires Spread(hash, s, t) && n < SHARDS
    ensures GatheredNames(s, n) !! s[n].Keys
  {
    forall k | k in s[n].Keys
      ensures k !in GatheredNames(s, n)
    {
      NameGathered(hash, s, t, n, k);
      OneShard(hash, s, t, n, k);
    }
  }

  lemma {:induction false} NamesCounted(hash: string -> nat, s: seq<Table>, t: Table, n: nat)
    requires Spread(hash, s, t) && n <= SHARDS
    ensures |GatheredNames(s, n)| == GatheredCount(s, n)
  {
    if n == 0 {
    } else {
      NamesCounted(hash, s, t, n - 1);
      ShardApart(hash, s, t, n - 1);
      DisjointUnion(GatheredNames(s, n - 1), s[n - 1].Keys);
    }
  }

  lemma DisjointUnion(a: set<string>, b: set<string>)
    requires a !! b
    ensures |a + b| == |a| + |b|
  {}

  lemma NamesGathered(hash: string -> nat, s: seq<Table>, t: Table, n: nat)
    requires Spread(hash, s, t) && n <= SHARDS
    ensures forall k :: k in GatheredNames(s, n) <==> k in t && Slot(hash, k) < n
    ensures |GatheredNames(s, n)| == GatheredCount(s, n)
  {
    forall k
      ensures k in GatheredNames(s, n) <==> k in t && Slot(hash, k) < n
    {
      NameGathered(hash, s, t, n, k);
    }
    NamesCounted(hash, s, t, n);
  }

  lemma ReplyOfShards(hash: string -> nat, s: seq<Table>, t: Table, op: Op)
    requires Spread(hash, s, t)
    ensures ShardedReply(hash, s, op) == Reply(t, op)
  {
    if Named(op) {
      OneShard(hash, s, t, Slot(hash, op.name), op.name);
    } else if op.Count? || op.Keys? {
      NamesOfAll(hash, s, t);
    } else if !op.Clear? {
      ValuesOfAll(hash, s, t, op);
    }
  }

  lemma NamesOfAll(hash: string -> nat, s: seq<Table>, t: Table)
    requires Spread(hash, s, t)
    ensures GatheredNames(s, SHARDS) == t.Keys && GatheredCount(s, SHARDS) == |t.Keys|
  {
    NamesGathered(hash, s, t, SHARDS);
    assert GatheredNames(s, SHARDS) == t.Keys;
  }

  lemma ValuesOfAll(hash: string -> nat, s: seq<Table>, t: Table, op: Op)
    requires Spread(hash, s, t)
    ensures GatheredValues(s, op, SHARDS) == Readings(t, op)
  {
    forall k
      ensures k in GatheredValues(s, op, SHARDS) <==> k in t
      ensures k in t ==> GatheredValues(s, op, SHARDS)[k] == Reading(t[k], op)
    {
      ValuesGathered(s, op, SHARDS, k, Slot(hash, k));
    }
  }

  /** For every sequence of operations ShardedMetrics gives the answers of Metrics. */
  lemma {:induction false} ShardedAnswersAlike(hash: string -> nat, s: seq<Table>, t: Table, ops: seq<Op>)
    requires Spread(hash, s, t)
    ensures ShardedReplies(hash, s, ops) == Replies(t, ops)
    ensures Spread(hash, ShardedRun(hash, s, ops), Run(t, ops))
    decreases |ops|
  {
    if ops == [] {
    } else {
      ReplyOfShards(hash, s, t, ops[0]);
      UpdateKeepsSpread(hash, s, t, ops[0]);
      ShardedAnswersAlike(hash, ShardedUpdate(hash, s, ops[0]), Update(t, ops[0]), ops[1..]);
    }
  }

  // ---------------------------------------------------------------------
  // Flush accounts for every change
  // ---------------------------------------------------------------------

  /** op neither registers the metric anew nor resets the table. */
  predicate WithinPeriod(op: Op, name: string) {
    !op.FlushAndReset? && !op.Clear? && (op.Register? ==> op.name != name)
  }

  /** What the Flush calls of a run report for a metric, added up. */
  function FlushTotal(t: Table, ops: seq<Op>, name: string): real
    decreases |ops|
  {
    if ops == [] then 0.0
    else
      (if ops[0].Flush? && name in t then Readings(t, ops[0])[name] else 0.0)
      + FlushTotal(Update(t, ops[0]), ops[1..], name)
  }

  /** Nothing is reported twice and nothing is forgotten. */
  lemma {:induction false} FlushesAddUp(t: Table, ops: seq<Op>, name: string)
    requires name in t && forall op | op in ops :: WithinPeriod(op, name)
    ensures name in Run(t, ops)
    ensures var m := Run(t, ops)[name];
      FlushTotal(t, ops, name) + (m.accum - m.sent) == m.accum - t[name].sent
    decreases |ops|
  {
    if ops == [] {
    } else {
      var u := Update(t, ops[0]);
      assert WithinPeriod(ops[0], name);
      assert forall op | op in ops[1..] :: op in ops;
      FlushesAddUp(u, ops[1..], name);
      assert ops[0].Flush? ==> u[name].sent == t[name].accum;
    }
  }

  /** From a registration or reset on: flushed so far plus GetDelta is accum - init. */
  lemma PeriodAccount(t: Table, start: Op, ops: seq<Op>, name: string)
    requires start.FlushAndReset? || start.Clear? || (start.Register? && start.name == name)
    requires name in Update(t, start) && forall op | op in ops :: WithinPeriod(op, name)
    ensures var u := Update(t, start);
      var v := Run(u, ops);
      name in v &&
      Reply(v, GetDelta(name)).Value? &&
      FlushTotal(u, ops, name) + Reply(v, GetDelta(name)).x == v[name].accum - u[name].init
  {
    FlushesAddUp(Update(t, start), ops, name);
  }

  // ---------------------------------------------------------------------
  // What Get shows
  // ---------------------------------------------------------------------

  /** By how much an operation is meant to move a metric of this step. */
  function Amount(op: Op, name: string, step: real): real {
    match op
    case Inc(n) => if n == name then step else 0.0
    case Dec(n) => if n == name then -step else 0.0
    case IncBy(n, d) => if n == name then d else 0.0
    case _ => 0.0
  }

  function Amounts(ops: seq<Op>, name: string, step: real): real {
    if ops == [] then 0.0 else Amount(ops[0], name, step) + Amounts(ops[1..], name, step)
  }

  /** Added up from `start`, the amounts stay between the bounds throughout. */
  predicate Inside(ops: seq<Op>, name: string, m: Metric, start: real)
    decreases |ops|
  {
    ops == [] ||
    var next := start + Amount(ops[0], name, m.step);
    m.lo <= next <= m.hi && Inside(ops[1..], name, m, next)
  }

  /** As long as the sums stay between the bounds, Get shows the first value and everything added to it since. */
  lemma {:induction false} GetAddsUp(t: Table, ops: seq<Op>, name: string)
    requires name in t && Inside(ops, name, t[name], t[name].accum)
    requires forall op | op in ops :: WithinPeriod(op, name) && (op.Set? ==> op.name != name)
    ensures Reply(Run(t, ops), Get(name)) == Value(t[name].accum + Amounts(ops, name, t[name].step))
    decreases |ops|
  {
    if ops == [] {
    } else {
      var u := Update(t, ops[0]);
      assert WithinPeriod(ops[0], name);
      assert forall op | op in ops[1..] :: op in ops;
      assert name in u && u[name].accum == t[name].accum + Amount(ops[0], name, t[name].step);
      InsideAlike(ops[1..], name, t[name], u[name], u[name].accum);
      GetAddsUp(u, ops[1..], name);
    }
  }

  lemma {:induction false} InsideAlike(ops: seq<Op>, name: string, m: Metric, k: Metric, start: real)
    requires m.lo == k.lo && m.hi == k.hi && m.step == k.step && Inside(ops, name, m, start)
    ensures Inside(ops, name, k, start)
    decreases |ops|
  {
    if ops == [] {
    } else {
      InsideAlike(ops[1..], name, m, k, start + Amount(ops[0], name, m.step));
    }
  }

  /** Values placed, cut and returned to, as the reading operations show them. */
  lemma ValuesShow(t: Table, name: string, v: real, m: Metric)
    requires name in t
    ensures Reply(Update(t, Set(name, v)), Get(name)) == Value(v)
    ensures Reply(Update(t, Register(name, m.init, m.step, m.lo, m.hi)), Get(name)) == Value(m.init)
    ensures Reply(Update(t, Register(name, m.init, m.step, m.lo, m.hi)), GetDelta(name)) == Value(0.0)
    ensures t[name].accum + t[name].step > t[name].hi ==> Reply(Update(t, Inc(name)), Get(name)) == Value(t[name].hi)
    ensures t[name].accum - t[name].step < t[name].lo ==> Reply(Update(t, Dec(name)), Get(name)) == Value(t[name].lo)
    ensures t[name].accum + v > t[name].hi ==> Reply(Update(t, IncBy(name, v)), Get(name)) == Value(t[name].hi)
    ensures Reply(Update(t, Clear), Get(name)) == Reply(Update(t, FlushAndReset), Get(name)) == Value(t[name].init)
    ensures Reply(Update(t, Clear), GetDelta(name)) == Reply(Update(t, FlushAndReset), GetDelta(name)) == Value(0.0)
    ensures Reply(Update(t, Flush), GetDelta(name)) == Value(0.0)
    ensures Reply(Update(t, Flush), Get(name)) == Reply(t, Get(name))
    ensures name in Reply(t, Snapshot).all && name in Reply(t, FlushAndReset).all && name in Reply(t, Flush).all
    ensures Value(Reply(t, Snapshot).all[name]) == Value(Reply(t, FlushAndReset).all[name]) == Reply(t, Get(name))
    ensures Value(Reply(t, Flush).all[name]) == Reply(t, GetDelta(name))
  {}

  // ---------------------------------------------------------------------
  // Bounds
  // ---------------------------------------------------------------------

  /** The parameters a caller should register. */
  predicate Sensible(m: Metric) {
    m.step >= 0.0 && m.lo <= m.hi && m.init <= m.hi
  }

  /** op does not place the metric at a value of the caller's choice. */
  predicate Unforced(op: Op, name: string) {
    (op.Register? || op.Set?) ==> op.name != name
  }

  /** In any run without Set on it, a sensible metric at or below its maximum stays there. */
  lemma {:induction false} MaximumHolds(t: Table, ops: seq<Op>, name: string)
    requires name in t && Sensible(t[name]) && t[name].accum <= t[name].hi
    requires forall op | op in ops :: Unforced(op, name)
    ensures name in Run(t, ops)
    ensures var m := Run(t, ops)[name]; Sensible(m) && m.hi == t[name].hi && m.accum <= m.hi
    decreases |ops|
  {
    if ops == [] {
    } else {
      var u := Update(t, ops[0]);
      assert Unforced(ops[0], name);
      assert forall op | op in ops[1..] :: op in ops;
      assert name in u && Sensible(u[name]) && u[name].hi == t[name].hi && u[name].accum <= u[name].hi;
      MaximumHolds(u, ops[1..], name);
    }
  }

  /** The minimum needs more: IncBy does not look at it. */
  predicate Rising(op: Op, name: string) {
    Unforced(op, name) && (op.IncBy? && op.name == name ==> op.delta >= 0.0)
  }

  lemma {:induction false} BothBoundsHold(t: Table, ops: seq<Op>, name: string)
    requires name in t && Sensible(t[name]) && t[name].lo <= t[name].init
    requires t[name].lo <= t[name].accum <= t[name].hi
    requires forall op | op in ops :: Rising(op, name)
    ensures name in Run(t, ops)
    ensures var m := Run(t, ops)[name];
      m.lo == t[name].lo && m.hi == t[name].hi && m.lo <= m.accum <= m.hi
    decreases |ops|
  {
    if ops == [] {
    } else {
      var u := Update(t, ops[0]);
      assert Rising(ops[0], name);
      assert forall op | op in ops[1..] :: op in ops;
      assert name in u && Sensible(u[name]) && u[name].lo == t[name].lo <= u[name].init;
      assert u[name].hi == t[name].hi && u[name].lo <= u[name].accum <= u[name].hi;
      BothBoundsHold(u, ops[1..], name);
    }
  }

  /** Register leaves the table alone exactly if the metric is there already, just as it would be registered. */
  lemma RegisterKeepsIff(t: Table, name: string, init: real, step: real, lo: real, hi: real)
    ensures Update(t, Register(name, init, step, lo, hi)) == t <==>
            name in t && t[name] == Metric(init, init, init, step, lo, hi)
  {
    var made := Metric(init, init, init, step, lo, hi);
    if name in t && t[name] == made {
      assert t[name := made] == t;
    } else {
      assert t[name := made][name] == made;
    }
  }

  /** IncBy leaves a metric below its minimum exactly when the plain sum lies below it. */
  lemma IncByUndercutsIff(t: Table, name: string, delta: real)
    requires name in t && t[name].lo <= t[name].hi
    ensures Update(t, IncBy(name, delta))[name].accum < t[name].lo <==> t[name].accum + delta < t[name].lo
  {}

  // ---------------------------------------------------------------------
  // The loops over one map, in whatever order the map is walked
  // ---------------------------------------------------------------------

  /** Operations that walk every record. */
  predicate Walks(op: Op) {
    op.Flush? || op.FlushAndReset? || op.Snapshot? || op.Clear?
  }

  function Visited(m: Metric, op: Op): Metric {
    if op.Flush? then Flushed(m) else if op.Snapshot? then m else Reset(m)
  }

  /** The table when all but todo have been visited. */
  function Walked(t: Table, op: Op, todo: set<string>): Table {
    map n | n in t :: if n in todo then t[n] else Visited(t[n], op)
  }

  function ReadSoFar(t: Table, op: Op, todo: set<string>): map<string, real> {
    map n | n in t && n !in todo :: Reading(t[n], op)
  }

  lemma WalkOneMore(t: Table, op: Op, todo: set<string>, n: string, result: map<string, real>)
    requires n in todo && n in t
    ensures Walked(t, op, todo - {n}) == Walked(t, op, todo)[n := Visited(t[n], op)]
    ensures result + ReadSoFar(t, op, todo - {n}) == (result + ReadSoFar(t, op, todo))[n := Reading(t[n], op)]
  {}

  lemma WalkAll(t: Table, op: Op, result: map<string, real>)
    requires Walks(op)
    ensures Walked(t, op, t.Keys) == t
    ensures Walked(t, op, {}) == Update(t, op)
    ensures result + ReadSoFar(t, op, t.Keys) == result
    ensures ReadSoFar(t, op, {}) == Readings(t, op)
  {}

  /** Add the readings of op to result, and flush or reset every record. */
  method Walk(t: Table, op: Op, result: map<string, real>) returns (u: Table, r: map<string, real>)
    requires Walks(op)
    ensures u == Update(t, op)
    ensures r == result + Readings(t, op)
  {
    u, r := t, result;
    var todo := t.Keys;
    WalkAll(t, op, result);
    while todo != {}
      invariant todo <= t.Keys
      invariant u == Walked(t, op, todo)
      invariant r == result + ReadSoFar(t, op, todo)
      decreases |todo|
    {
      var n :| n in todo;
      var mt := u[n];
      assert mt == t[n];
      WalkOneMore(t, op, todo, n, result);
      r := r[n := Reading(mt, op)];
      if op.Flush? {
        mt := mt.(sent := mt.accum);
      } else if !op.Snapshot? {
        mt := mt.(accum := mt.init, sent := mt.init);
      }
      u := u[n := mt];
      todo := todo - {n};
    }
  }

  predicate EachOnce(keys: seq<string>) {
    forall i, j :: 0 <= i < j < |keys| ==> keys[i] != keys[j]
  }

  /** The loop of Keys over one table. */
  method AppendKeys(t: Table, keys: seq<string>) returns (r: seq<string>)
    requires EachOnce(keys) && forall k :: k in keys ==> k !in t
    ensures EachOnce(r) && forall k :: k in r <==> k in keys || k in t
  {
    r := keys;
    var todo := t.Keys;
    while todo != {}
      invariant todo <= t.Keys && EachOnce(r)
      invariant forall k :: k in r ==> k !in todo
      invariant forall k :: k in r || k in todo <==> k in keys || k in t
      decreases todo
    {
      var n :| n in todo;
      r := r + [n];
      todo := todo - {n};
    }
  }

  // ---------------------------------------------------------------------
  // metrics.go
  // ---------------------------------------------------------------------

  class Metrics {
    var data: Table

    constructor ()
      ensures data == map[]
    {
      data := map[];
    }

    method Register(name: string, init: real, step: real, lo: real, hi: real)
      modifies this
      ensures data == Update(old(data), Op.Register(name, init, step, lo, hi))
    {
      data := data[name := Metric(init, init, init, step, lo, hi)];
    }

    method Set(name: string, value: real)
      modifies this
      ensures data == Update(old(data), Op.Set(name, value))
    {
      if name in data {
        data := data[name := data[name].(accum := value)];
      }
    }

    method Inc(name: string)
      modifies this
      ensures data == Update(old(data), Op.Inc(name))
    {
      if name in data {
        var v := data[name].accum + data[name].step;
        if v > data[name].hi {
          v := data[name].hi;
        }
        data := data[name := data[name].(accum := v)];
      }
    }

    method Dec(name: string)
      modifies this
      ensures data == Update(old(data), Op.Dec(name))
    {
      if name in data {
        var v := data[name].accum - data[name].step;
        if v < data[name].lo {
          v := data[name].lo;
        }
        data := data[name := data[name].(accum := v)];
      }
    }

    method IncBy(name: string, delta: real)
      modifies this
      ensures data == Update(old(data), Op.IncBy(name, delta))
    {
      if name in data {
        var v := data[name].accum + delta;
        if v > data[name].hi {
          v := data[name].hi;
        }
        data := data[name := data[name].(accum := v)];
      }
    }

    method Get(name: string) returns (x: real)
      ensures Value(x) == Reply(data, Op.Get(name))
    {
      if name in data {
        return data[name].accum;
      }
      return 0.0;
    }

    method GetDelta(name: string) returns (x: real)
      ensures Value(x) == Reply(data, Op.GetDelta(name))
    {
      if name in data {
        return data[name].accum - data[name].sent;
      }
      return 0.0;
    }

    method Flush() returns (result: map<string, real>)
      modifies this
      ensures data == Update(old(data), Op.Flush) && Values(result) == Reply(old(data), Op.Flush)
    {
      data, result := Walk(data, Op.Flush, map[]);
    }

    method FlushAndReset() returns (result: map<string, real>)
      modifies this
      ensures data == Update(old(data), Op.FlushAndReset)
      ensures Values(result) == Reply(old(data), Op.FlushAndReset)
    {
      data, result := Walk(data, Op.FlushAndReset, map[]);
    }

    method Snapshot() returns (result: map<string, real>)
      ensures Values(result) == Reply(data, Op.Snapshot)
    {
      var same: Table;
      same, result := Walk(data, Op.Snapshot, map[]);
    }

    method Clear()
      modifies this
      ensures data == Update(old(data), Op.Clear)
    {
      var values: map<string, real>;
      data, values := Walk(data, Op.Clear, map[]);
    }

    method Count() returns (count: nat)
      ensures Number(count) == Reply(data, Op.Count)
    {
      count := 0;
      var todo := data.Keys;
      while todo != {}
        invariant count + |todo| == |data.Keys|
        decreases |todo|
      {
        var n :| n in todo;
        todo := todo - {n};
        count := count + 1;
      }
    }

    method Keys() returns (keys: seq<string>)
      ensures EachOnce(keys) && forall k :: k in keys <==> k in data
    {
      keys := AppendKeys(data, []);
    }
  }

  // ---------------------------------------------------------------------
  // sharded.go
  // ---------------------------------------------------------------------

  class ShardedMetrics {
    const hash: string -> nat
    const shards: array<Table>
    /** The same metrics in one table. */
    ghost var table: Table

    ghost predicate Valid()
      reads this, shards
    {
      shards.Length == SHARDS && Spread(hash, shards[..], table)
    }

    constructor (hash: string -> nat)
      ensures Valid() && fresh(shards) && shards.Length == 16 && this.hash == hash
      ensures table == map[]
    {
      this.hash := hash;
      shards := new Table[SHARDS](_ => map[]);
      table := map[];
    }

    /** Write u = Update(shard, op) back into the shard of op. */
    ghost method Follow(before: seq<Table>, op: Op)
      requires shards.Length == SHARDS && Spread(hash, before, table)
      requires shards[..] == ShardedUpdate(hash, before, op)
      modifies this`table
      ensures Valid() && table == Update(old(table), op)
    {
      UpdateKeepsSpread(hash, before, table, op);
      table := Update(table, op);
    }

    method Register(name: string, init: real, step: real, lo: real, hi: real)
      requires Valid()
      modifies this`table, shards
      ensures Valid() && table == Update(old(table), Op.Register(name, init, step, lo, hi))
    {
      var idx := Slot(hash, name);
      shards[idx] := shards[idx][name := Metric(init, init, init, step, lo, hi)];
      Follow(old(shards[..]), Op.Register(name, init, step, lo, hi));
    }

    method Set(name: string, value: real)
      requires Valid()
      modifies this`table, shards
      ensures Valid() && table == Update(old(table), Op.Set(name, value))
    {
      var idx := Slot(hash, name);
      if name in shards[idx] {
        shards[idx] := shards[idx][name := shards[idx][name].(accum := value)];
      }
      Follow(old(shards[..]), Op.Set(name, value));
    }

    method Inc(name: string)
      requires Valid()
      modifies this`table, shards
      ensures Valid() && table == Update(old(table), Op.Inc(name))
    {
      var idx := Slot(hash, name);
      if name in shards[idx] {
        var mt := shards[idx][name];
        var v := mt.accum + mt.step;
        if v > mt.hi {
          v := mt.hi;
        }
        shards[idx] := shards[idx][name := mt.(accum := v)];
      }
      Follow(old(shards[..]), Op.Inc(name));
    }

    method Dec(name: string)
      requires Valid()
      modifies this`table, shards
      ensures Valid() && table == Update(old(table), Op.Dec(name))
    {
      var idx := Slot(hash, name);
      if name in shards[idx] {
        var mt := shards[idx][name];
        var v := mt.accum - mt.step;
        if v < mt.lo {
          v := mt.lo;
        }
        shards[idx] := shards[idx][name := mt.(accum := v)];
      }
      Follow(old(shards[..]), Op.Dec(name));
    }

    method IncBy(name: string, delta: real)
      requires Valid()
      modifies this`table, shards
      ensures Valid() && table == Update(old(table), Op.IncBy(name, delta))
    {
      var idx := Slot(hash, name);
      if name in shards[idx] {
        var mt := shards[idx][name];
        var v := mt.accum + delta;
        if v > mt.hi {
          v := mt.hi;
        }
        shards[idx] := shards[idx][name := mt.(accum := v)];
      }
      Follow(old(shards[..]), Op.IncBy(name, delta));
    }

    method Get(name: string) returns (x: real)
      requires Valid()
      ensures Value(x) == Reply(table, Op.Get(name))
    {
      OneShard(hash, shards[..], table, Slot(hash, name), name);
      x := 0.0;
      if name in shards[Slot(hash, name)] {
        x := shards[Slot(hash, name)][name].accum;
      }
    }

    method GetDelta(name: string) returns (x: real)
      requires Valid()
      ensures Value(x) == Reply(table, Op.GetDelta(name))
    {
      OneShard(hash, shards[..], table, Slot(hash, name), name);
      x := 0.0;
      if name in shards[Slot(hash, name)] {
        x := shards[Slot(hash, name)][name].accum - shards[Slot(hash, name)][name].sent;
      }
    }

    /** The loop over the shards of Flush, FlushAndReset and Clear. */
    method VisitShards(op: Op) returns (result: map<string, real>)
      requires shards.Length == SHARDS && Walks(op)
      modifies shards
      ensures result == GatheredValues(old(shards[..]), op, SHARDS)
      ensures shards[..] == ShardedUpdate(hash, old(shards[..]), op)
    {
      result := map[];
      ghost var before := shards[..];
      for i := 0 to SHARDS
        invariant result == GatheredValues(before, op, i)
        invariant forall k :: 0 <= k < i ==> shards[k] == Update(before[k], op)
        invariant forall k :: i <= k < SHARDS ==> shards[k] == before[k]
      {
        var u: Table;
        u, result := Walk(shards[i], op, result);
        shards[i] := u;
      }
    }

    method WalkShards(op: Op) returns (result: map<string, real>)
      requires Valid() && Walks(op)
      modifies this`table, shards
      ensures Valid() && table == Update(old(table), op)
      ensures result == Readings(old(table), op)
    {
      ghost var before := shards[..];
      ValuesOfAll(hash, before, table, op);
      result := VisitShards(op);
      Follow(before, op);
    }

    method Flush() returns (result: map<string, real>)
      requires Valid()
      modifies this`table, shards
      ensures Valid() && table == Update(old(table), Op.Flush)
      ensures Values(result) == Reply(old(table), Op.Flush)
    {
      result := WalkShards(Op.Flush);
    }

    method FlushAndReset() returns (result: map<string, real>)
      requires Valid()
      modifies this`table, shards
      ensures Valid() && table == Update(old(table), Op.FlushAndReset)
      ensures Values(result) == Reply(old(table), Op.FlushAndReset)
    {
      result := WalkShards(Op.FlushAndReset);
    }

    method Clear()
      requires Valid()
      modifies this`table, shards
      ensures Valid() && table == Update(old(table), Op.Clear)
    {
      var values := WalkShards(Op.Clear);
    }

    method ReadShards() returns (result: map<string, real>)
      requires shards.Length == SHARDS
      ensures result == GatheredValues(shards[..], Op.Snapshot, SHARDS)
    {
      result := map[];
      ghost var s := shards[..];
      for i := 0 to SHARDS
        invariant result == GatheredValues(s, Op.Snapshot, i)
      {
        var same: Table;
        same, result := Walk(shards[i], Op.Snapshot, result);
      }
    }

    method Snapshot() returns (result: map<string, real>)
      requires Valid()
      ensures Values(result) == Reply(table, Op.Snapshot)
    {
      result := ReadShards();
      ValuesOfAll(hash, shards[..], table, Op.Snapshot);
    }

    /** The names of all shards, each once. */
    method Keys() returns (keys: seq<string>)
      requires Valid()
      ensures EachOnce(keys) && forall k :: k in keys <==> k in table
    {
      keys := [];
      ghost var s := shards[..];
      for i := 0 to SHARDS
        invariant EachOnce(keys) && forall k :: k in keys <==> k in GatheredNames(s, i)
      {
        ShardApart(hash, s, table, i);
        assert forall k :: k in keys ==> k !in s[i];
        keys := AppendKeys(shards[i], keys);
      }
      NamesOfAll(hash, s, table);
    }

    method Count() returns (count: nat)
      requires Valid()
      ensures Number(count) == Reply(table, Op.Count)
    {
      count := 0;
      for i := 0 to SHARDS
        invariant count == GatheredCount(shards[..], i)
      {
        count := count + |shards[i].Keys|;
      }
      NamesOfAll(hash, shards[..], table);
    }
  }
}
