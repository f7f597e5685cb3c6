/**
 Topic subscriptions of the WebSocket server: topicManager in ws/server/server.go
 (topic -> connections) and Subscribe, Unsubscribe and Close of ws/server/conn.go
 (connection -> topics). The two indexes are kept under different locks, so they
 agree only up to the operation in progress; Close clears one of them only.
 */
module WsTopics {
  import opened Runs

  type Topic = string

  /** Connections are told apart by id; generate.String(21) is taken to be unique. */
  type ConnId = string

  type Index = map<Topic, set<ConnId>>

  // ---------------------------------------------------------------------
  // topicManager: each operation is one section of tm.mu
  // ---------------------------------------------------------------------

  function At(index: Index, t: Topic): set<ConnId> {
    if t in index then index[t] else {}
  }

  /** No topic is kept without subscribers. */
  predicate NoEmptyTopic(index: Index) {
    forall t | t in index :: index[t] != {}
  }

  function Subscribed(index: Index, t: Topic, c: ConnId): (r: Index)
    ensures At(r, t) == At(index, t) + {c}
    ensures forall u | u != t :: At(r, u) == At(index, u)
    ensures NoEmptyTopic(index) ==> NoEmptyTopic(r)
  {
    index[t := At(index, t) + {c}]
  }

  function Unsubscribed(index: Index, t: Topic, c: ConnId): (r: Index)
    ensures At(r, t) == At(index, t) - {c}
    ensures forall u | u != t :: At(r, u) == At(index, u)
    ensures NoEmptyTopic(index) ==> NoEmptyTopic(r)
  {
    if t !in index then index
    else if index[t] - {c} == {} then index - {t}
    else index[t := index[t] - {c}]
  }

  function UnsubscribedAll(index: Index, c: ConnId): (r: Index)
    ensures forall t :: At(r, t) == At(index, t) - {c}
    ensures NoEmptyTopic(r)
  {
    map t | t in index && index[t] - {c} != {} :: index[t] - {c}
  }

  class TopicManager {
    var topics: Index

    ghost predicate Valid()
      reads this
    {
      NoEmptyTopic(topics)
    }

    constructor ()
      ensures Valid() && topics == map[]
    {
      topics := map[];
    }

    method Subscribe(topic: Topic, c: ConnId)
      requires Valid()
      modifies this
      ensures Valid() && topics == Subscribed(old(topics), topic, c)
    {
      var subs := if topic in topics then topics[topic] else {};
      topics := topics[topic := subs + {c}];
    }

    method Unsubscribe(topic: Topic, c: ConnId)
      requires Valid()
      modifies this
      ensures Valid() && topics == Unsubscribed(old(topics), topic, c)
    {
      if topic !in topics {
        return;
      }
      var subs := topics[topic] - {c};
      if |subs| == 0 {
        topics := topics - {topic};
      } else {
        topics := topics[topic := subs];
      }
    }

    /** The range loop over all topics, in whatever order the map yields them. */
    method UnsubscribeAll(c: ConnId)
      requires Valid()
      modifies this
      ensures Valid() && topics == UnsubscribedAll(old(topics), c)
    {
      var left := topics.Keys;
      ghost var before := topics;
      while left != {}
        invariant left <= topics.Keys <= before.Keys
        invariant forall t | t in left :: topics[t] == before[t]
        invariant forall t | t in before && t !in left :: (t in topics <==> before[t] - {c} != {})
        invariant forall t | t in topics && t !in left :: topics[t] == before[t] - {c}
      {
        var t :| t in left;
        left := left - {t};
        var subs := topics[t] - {c};
        if |subs| == 0 {
          topics := topics - {t};
        } else {
          topics := topics[t := subs];
        }
      }
      assert topics == UnsubscribedAll(before, c);
    }

    /** A snapshot of the subscribers, each once. */
    method Subscribers(topic: Topic) returns (result: seq<ConnId>)
      ensures |result| == |At(topics, topic)|
      ensures forall c :: c in result <==> c in At(topics, topic)
    {
      result := [];
      var left: set<ConnId> := if topic in topics then topics[topic] else {};
      ghost var all := left;
      while left != {}
        invariant left <= all && |result| + |left| == |all|
        invariant forall c :: c in result <==> c in all - left
      {
        var c: ConnId :| c in left;
        left := left - {c};
        result := result + [c];
      }
    }
  }

  // ---------------------------------------------------------------------
  // Connections: Subscribe, Unsubscribe and Close interleaved
  // ---------------------------------------------------------------------

  /** Who holds subsMu, what is left to do, and whether the own set has been changed and the index not yet. */
  datatype Busy =
    | Free
    | Subscribing(todo: seq<Topic>, between: bool)
    | Unsubscribing(todo: seq<Topic>, between: bool)

  datatype CloseState = Open | Closing | Cleared

  datatype Conn = Conn(
    subs: set<Topic>,
    busy: Busy,
    close: CloseState,
    late: set<Topic>)    // history: topics subscribed after Close's unsubscribeAll, and not unsubscribed since

  datatype Hub = Hub(topics: Index, conns: map<ConnId, Conn>)

  datatype Step =
    | Join(c: ConnId)
    | BeginSubscribe(c: ConnId, list: seq<Topic>)
    | BeginUnsubscribe(c: ConnId, list: seq<Topic>)
    | Mark(c: ConnId)           // look at the next topic, change subs if need be
    | Reindex(c: ConnId)        // topics.subscribe or topics.unsubscribe
    | End(c: ConnId)            // subsMu.Unlock
    | BeginClose(c: ConnId)     // closeOnce
    | Clear(c: ConnId)          // unsubscribeAll

  predicate Enabled(h: Hub, step: Step) {
    match step
    case Join(c) => c !in h.conns
    case BeginSubscribe(c, _) => c in h.conns && h.conns[c].busy == Free
    case BeginUnsubscribe(c, _) => c in h.conns && h.conns[c].busy == Free
    case Mark(c) => c in h.conns && h.conns[c].busy != Free && h.conns[c].busy.todo != [] && !h.conns[c].busy.between
    case Reindex(c) => c in h.conns && h.conns[c].busy != Free && h.conns[c].busy.todo != [] && h.conns[c].busy.between
    case End(c) => c in h.conns && h.conns[c].busy != Free && h.conns[c].busy.todo == []
    case BeginClose(c) => c in h.conns && h.conns[c].close == Open
    case Clear(c) => c in h.conns && h.conns[c].close == Closing
  }

  /** The next topic of the list: skipped if there is nothing to change. */
  function Marked(k: Conn): Conn
    requires k.busy != Free && k.busy.todo != []
  {
    var t, rest := k.busy.todo[0], k.busy.todo[1..];
    if k.busy.Subscribing? then
      if t in k.subs then k.(busy := Subscribing(rest, false))
      else k.(subs := k.subs + {t}, busy := Subscribing(k.busy.todo, true))
    else
      if t !in k.subs then k.(busy := Unsubscribing(rest, false))
      else k.(subs := k.subs - {t}, busy := Unsubscribing(k.busy.todo, true))
  }

  function Reindexed(k: Conn): Conn
    requires k.busy != Free && k.busy.todo != []
  {
    var t, rest := k.busy.todo[0], k.busy.todo[1..];
    if k.busy.Subscribing? then
      k.(busy := Subscribing(rest, false), late := if k.close == Cleared then k.late + {t} else k.late)
    else k.(busy := Unsubscribing(rest, false), late := k.late - {t})
  }

  function Apply(h: Hub, step: Step): Hub
    requires Enabled(h, step)
  {
    match step
    case Join(c) => h.(conns := h.conns[c := Conn({}, Free, Open, {})])
    case BeginSubscribe(c, list) => h.(conns := h.conns[c := h.conns[c].(busy := Subscribing(list, false))])
    case BeginUnsubscribe(c, list) => h.(conns := h.conns[c := h.conns[c].(busy := Unsubscribing(list, false))])
    case Mark(c) => h.(conns := h.conns[c := Marked(h.conns[c])])
    case Reindex(c) =>
      var k := h.conns[c];
      var t := k.busy.todo[0];
      Hub(if k.busy.Subscribing? then Subscribed(h.topics, t, c) else Unsubscribed(h.topics, t, c),
          h.conns[c := Reindexed(k)])
    case End(c) => h.(conns := h.conns[c := h.conns[c].(busy := Free)])
    case BeginClose(c) => h.(conns := h.conns[c := h.conns[c].(close := Closing)])
    case Clear(c) => Hub(UnsubscribedAll(h.topics, c), h.conns[c := h.conns[c].(close := Cleared)])
  }

  const EMPTY := Hub(map[], map[])

  const SYSTEM: System<Hub, Step> :=
    System(Enabled, (h, step) => if Enabled(h, step) then Apply(h, step) else h)

  // ---------------------------------------------------------------------
  // The two indexes agree
  // ---------------------------------------------------------------------

  /** What a connection's own set says of the index, allowing for the change in progress. */
  predicate Expects(k: Conn, t: Topic) {
    if k.busy != Free && k.busy.between && k.busy.todo != [] && k.busy.todo[0] == t then k.busy.Unsubscribing?
    else t in k.subs
  }

  ghost predicate Agrees(index: Index, c: ConnId, k: Conn) {
    && (k.busy != Free && k.busy.between ==> k.busy.todo != [] && (k.busy.todo[0] in k.subs <==> k.busy.Subscribing?))
    && (k.close != Cleared ==> forall t :: c in At(index, t) <==> Expects(k, t))
    && (k.close == Cleared ==> forall t :: c in At(index, t) <==> t in k.late)
    && (k.close != Cleared ==> k.late == {})
  }

  ghost predicate Inv(h: Hub) {
    && NoEmptyTopic(h.topics)
    && (forall c | c in h.conns :: Agrees(h.topics, c, h.conns[c]))
    && (forall t, c | c in At(h.topics, t) :: c in h.conns)
  }

  /** Only the connection that takes the step is touched, in its own state and in the index. */
  lemma OthersUntouched(h: Hub, step: Step)
    requires Enabled(h, step)
    ensures var g := Apply(h, step);
            && g.conns.Keys == h.conns.Keys + {step.c}
            && (forall d | d in h.conns && d != step.c :: g.conns[d] == h.conns[d])
            && (forall t, d | d != step.c :: d in At(g.topics, t) <==> d in At(h.topics, t))
  {}

  lemma MarkAgrees(index: Index, c: ConnId, k: Conn)
    requires k.busy != Free && k.busy.todo != [] && !k.busy.between && Agrees(index, c, k)
    ensures Agrees(index, c, Marked(k))
  {
    var m := Marked(k);
    var t := k.busy.todo[0];
    assert forall u | u != t :: Expects(m, u) <==> u in k.subs;
    assert Expects(m, t) <==> t in k.subs;
  }

  lemma ReindexAgrees(index: Index, c: ConnId, k: Conn)
    requires k.busy != Free && k.busy.todo != [] && k.busy.between && Agrees(index, c, k)
    ensures var t := k.busy.todo[0];
            Agrees(if k.busy.Subscribing? then Subscribed(index, t, c) else Unsubscribed(index, t, c), c, Reindexed(k))
  {
    var t := k.busy.todo[0];
    var m := Reindexed(k);
    assert forall u :: Expects(m, u) <==> u in k.subs;
    assert forall u | u != t :: Expects(k, u) <==> u in k.subs;
  }

  lemma OwnAgreement(h: Hub, step: Step)
    requires Inv(h) && Enabled(h, step)
    ensures Agrees(Apply(h, step).topics, step.c, Apply(h, step).conns[step.c])
  {
    match step
    case Join(c) =>
    case Mark(c) => MarkAgrees(h.topics, c, h.conns[c]);
    case Reindex(c) => ReindexAgrees(h.topics, c, h.conns[c]);
    case Clear(c) =>
    case _ =>
      var k, m := h.conns[step.c], Apply(h, step).conns[step.c];
      assert forall t :: Expects(m, t) <==> Expects(k, t);
  }

  lemma StepKeepsInv(h: Hub, step: Step)
    requires Inv(h) && Enabled(h, step)
    ensures Inv(Apply(h, step))
  {
    OthersUntouched(h, step);
    OwnAgreement(h, step);
    var g := Apply(h, step);
    forall d | d in g.conns ensures Agrees(g.topics, d, g.conns[d]) {
      if d != step.c {
        assert Agrees(h.topics, d, h.conns[d]);
      }
    }
  }

  lemma {:induction false} RunKeepsInv(h: Hub, steps: seq<Step>)
    requires Inv(h) && CanRun(SYSTEM, h, steps)
    ensures Inv(After(SYSTEM, h, steps))
    decreases |steps|
  {
    if steps == [] {
    } else {
      StepKeepsInv(h, steps[0]);
      RunKeepsInv(Apply(h, steps[0]), steps[1..]);
    }
  }

  // ---------------------------------------------------------------------
  // Over every run
  // ---------------------------------------------------------------------

  /**
   With its subsMu free, a connection that Close has not yet cleared is indexed
   under a topic exactly when it has the topic in its own set; and no topic is
   ever kept empty.
   */
  lemma IndexesAgree(steps: seq<Step>, c: ConnId, t: Topic)
    requires CanRun(SYSTEM, EMPTY, steps)
    requires var h := After(SYSTEM, EMPTY, steps);
             c in h.conns && h.conns[c].busy == Free && h.conns[c].close != Cleared
    ensures var h := After(SYSTEM, EMPTY, steps);
            && (t in h.conns[c].subs <==> c in At(h.topics, t))
            && NoEmptyTopic(h.topics)
  {
    RunKeepsInv(EMPTY, steps);
    var h := After(SYSTEM, EMPTY, steps);
    assert Agrees(h.topics, c, h.conns[c]);
    assert Expects(h.conns[c], t) <==> t in h.conns[c].subs;
  }

  /** The connections that count as subscribers of a topic. */
  function SubscribersOf(h: Hub, t: Topic): set<ConnId> {
    set c | c in h.conns && h.conns[c].close != Cleared && t in h.conns[c].subs
  }

  /** Closed connections that subscribed to a topic too late. */
  function LateOn(h: Hub, t: Topic): set<ConnId> {
    set c | c in h.conns && t in h.conns[c].late
  }

  /** No Subscribe or Unsubscribe is in progress. */
  ghost predicate Settled(h: Hub) {
    forall c | c in h.conns :: h.conns[c].busy == Free
  }

  /**
   Then the index of a topic is its subscribers and the late ones, so TopicCount is the number
   of subscribers exactly if nobody subscribed to the topic after being cleared.
   */
  lemma TopicCountIsExact(steps: seq<Step>, t: Topic)
    requires CanRun(SYSTEM, EMPTY, steps) && Settled(After(SYSTEM, EMPTY, steps))
    ensures var h := After(SYSTEM, EMPTY, steps);
            && At(h.topics, t) == SubscribersOf(h, t) + LateOn(h, t)
            && (|At(h.topics, t)| == |SubscribersOf(h, t)| <==> LateOn(h, t) == {})
            && (t in h.topics <==> SubscribersOf(h, t) + LateOn(h, t) != {})
  {
    RunKeepsInv(EMPTY, steps);
    var h := After(SYSTEM, EMPTY, steps);
    forall c
      ensures c in At(h.topics, t) <==> c in SubscribersOf(h, t) + LateOn(h, t)
    {
      if c in h.conns {
        assert Agrees(h.topics, c, h.conns[c]);
        assert Expects(h.conns[c], t) <==> t in h.conns[c].subs;
      }
    }
    LateAreOthers(h, t);
  }

  lemma LateAreOthers(h: Hub, t: Topic)
    requires Inv(h)
    ensures |SubscribersOf(h, t) + LateOn(h, t)| == |SubscribersOf(h, t)| + |LateOn(h, t)|
  {
    forall c | c in LateOn(h, t)
      ensures c !in SubscribersOf(h, t)
    {
      assert Agrees(h.topics, c, h.conns[c]);
    }
    assert SubscribersOf(h, t) !! LateOn(h, t);
  }

  function AllOf(list: seq<Topic>): set<Topic> {
    set t | t in list
  }

  /** What a Subscribe or Unsubscribe in progress will have made of the connection's own set. */
  predicate LeadsTo(k: Conn, goal: set<Topic>) {
    match k.busy
    case Free => k.subs == goal
    case Subscribing(todo, between) => k.subs + AllOf(todo) == goal && (between ==> todo != [] && todo[0] in k.subs)
    case Unsubscribing(todo, between) => k.subs - AllOf(todo) == goal && (between ==> todo != [] && todo[0] !in k.subs)
  }

  /** How many steps it still takes. */
  function BusyWork(b: Busy): nat {
    match b
    case Free => 0
    case Subscribing(todo, between) => 2 * |todo| + (if between && todo != [] then 0 else 1)
    case Unsubscribing(todo, between) => 2 * |todo| + (if between && todo != [] then 0 else 1)
  }

  lemma AllOfRest(list: seq<Topic>)
    requires list != []
    ensures AllOf(list) == {list[0]} + AllOf(list[1..])
  {}

  lemma StepLeadsOn(h: Hub, c: ConnId, goal: set<Topic>, step: Step)
    requires c in h.conns && LeadsTo(h.conns[c], goal) && Enabled(h, step)
    requires step.c == c ==> !step.BeginSubscribe? && !step.BeginUnsubscribe?
    ensures var g := Apply(h, step);
      && c in g.conns && LeadsTo(g.conns[c], goal)
      && (step.c == c && (step.Mark? || step.Reindex? || step.End?) ==>
            BusyWork(g.conns[c].busy) < BusyWork(h.conns[c].busy))
  {
    if step.c == c && (step.Mark? || step.Reindex?) {
      AllOfRest(h.conns[c].busy.todo);
    }
  }

  lemma {:induction false} RunLeadsOn(h: Hub, c: ConnId, goal: set<Topic>, steps: seq<Step>)
    requires c in h.conns && LeadsTo(h.conns[c], goal) && CanRun(SYSTEM, h, steps)
    requires forall step | step in steps && step.c == c :: !step.BeginSubscribe? && !step.BeginUnsubscribe?
    ensures c in After(SYSTEM, h, steps).conns && LeadsTo(After(SYSTEM, h, steps).conns[c], goal)
    decreases |steps|
  {
    if steps == [] {
    } else {
      assert steps[0] in steps && forall step | step in steps[1..] :: step in steps;
      StepLeadsOn(h, c, goal, steps[0]);
      RunLeadsOn(Apply(h, steps[0]), c, goal, steps[1..]);
    }
  }

  function Begin(c: ConnId, list: seq<Topic>, subscribe: bool): Step {
    if subscribe then BeginSubscribe(c, list) else BeginUnsubscribe(c, list)
  }

  /**
   Whatever else happens meanwhile: when Subscribe(list) is over the connection has all topics of the
   list besides those it had, and when Unsubscribe(list) is over it has none of them and all others.
   */
  lemma ListsAreDone(h: Hub, c: ConnId, list: seq<Topic>, subscribe: bool, steps: seq<Step>)
    requires c in h.conns && h.conns[c].busy == Free
    requires CanRun(SYSTEM, Apply(h, Begin(c, list, subscribe)), steps)
    requires forall step | step in steps && step.c == c :: !step.BeginSubscribe? && !step.BeginUnsubscribe?
    ensures var g := After(SYSTEM, Apply(h, Begin(c, list, subscribe)), steps);
      c in g.conns &&
      (g.conns[c].busy == Free ==>
         forall t :: t in g.conns[c].subs <==> if t in list then subscribe else t in h.conns[c].subs)
  {
    var had := h.conns[c].subs;
    var goal := if subscribe then had + AllOf(list) else had - AllOf(list);
    RunLeadsOn(Apply(h, Begin(c, list, subscribe)), c, goal, steps);
  }

  /** And it does come to that: until it is over one of its steps is possible, and each brings the end nearer. */
  lemma ListsMoveOn(h: Hub, c: ConnId) returns (step: Step)
    requires Inv(h) && c in h.conns && h.conns[c].busy != Free
    ensures Enabled(h, step) && step.c == c && (step.Mark? || step.Reindex? || step.End?)
    ensures BusyWork(Apply(h, step).conns[c].busy) < BusyWork(h.conns[c].busy)
  {
    var b := h.conns[c].busy;
    step := if b.todo == [] then End(c) else if b.between then Reindex(c) else Mark(c);
  }

  /**
   After Close has cleared it, a connection is indexed under exactly the topics subscribed since
   and not unsubscribed again; so it is in no topic exactly if there is none such.
   */
  lemma ClearedIsNowhereIff(steps: seq<Step>, c: ConnId)
    requires CanRun(SYSTEM, EMPTY, steps)
    requires var h := After(SYSTEM, EMPTY, steps); c in h.conns && h.conns[c].close == Cleared
    ensures var h := After(SYSTEM, EMPTY, steps);
            && (forall t :: c in At(h.topics, t) <==> t in h.conns[c].late)
            && ((forall t :: c !in At(h.topics, t)) <==> h.conns[c].late == {})
  {
    RunKeepsInv(EMPTY, steps);
    var h := After(SYSTEM, EMPTY, steps);
    assert Agrees(h.topics, c, h.conns[c]);
    if h.conns[c].late != {} {
      var t :| t in h.conns[c].late;
      assert c in At(h.topics, t);
    }
  }

  /** A cleared connection that is indexed all the same stays so until it unsubscribes: Close does not run again. */
  lemma {:induction false} LeakLasts(h: Hub, c: ConnId, t: Topic, steps: seq<Step>)
    requires CanRun(SYSTEM, h, steps) && c in h.conns && h.conns[c].close == Cleared && !h.conns[c].busy.Unsubscribing?
    requires c in At(h.topics, t)
    requires forall step | step in steps :: step.BeginUnsubscribe? ==> step.c != c
    ensures c in At(After(SYSTEM, h, steps).topics, t)
    decreases |steps|
  {
    if steps == [] {
    } else {
      assert steps[0] in steps && forall step | step in steps[1..] :: step in steps;
      OthersUntouched(h, steps[0]);
      LeakLasts(Apply(h, steps[0]), c, t, steps[1..]);
    }
  }

  const ID: ConnId := "id"

  /** A Subscribe that overlaps Close leaves the closed connection subscribed, as LeakLasts says for how long. */
  lemma SubscribeDuringCloseLeaks(t: Topic) returns (steps: seq<Step>)
    ensures CanRun(SYSTEM, EMPTY, steps)
    ensures var h := After(SYSTEM, EMPTY, steps);
            && ID in h.conns && h.conns[ID].close == Cleared && h.conns[ID].busy == Free && At(h.topics, t) == {ID}
            && !Enabled(h, BeginClose(ID)) && !Enabled(h, Clear(ID))
  {
    assert [t][1..] == [] && {} + {t} == {t};
    var b := Hub(map[], map[ID := Conn({}, Subscribing([t], false), Open, {})]);
    var d := Hub(map[], map[ID := Conn({t}, Subscribing([t], true), Open, {})]);
    var f := Hub(map[], map[ID := Conn({t}, Subscribing([t], true), Cleared, {})]);
    var h := Hub(map[t := {ID}], map[ID := Conn({t}, Free, Cleared, {t})]);
    JoinsAndBegins(t, b);
    assert Apply(b, Mark(ID)) == d;
    RunsTo(SYSTEM, d, BeginClose(ID), [Clear(ID)], f) by { ClosesBetween(t, d, f); }
    IndexesLate(t, f, h);
    RunsTo(SYSTEM, b, Mark(ID), [BeginClose(ID)] + [Clear(ID)], f);
    RunsConcat(SYSTEM, EMPTY, [Join(ID), BeginSubscribe(ID, [t])], [Mark(ID)] + ([BeginClose(ID)] + [Clear(ID)]));
    steps := [Join(ID), BeginSubscribe(ID, [t])] + ([Mark(ID)] + ([BeginClose(ID)] + [Clear(ID)]));
    RunsConcat(SYSTEM, EMPTY, steps, [Reindex(ID), End(ID)]);
    steps := steps + [Reindex(ID), End(ID)];
  }

  lemma JoinsAndBegins(t: Topic, b: Hub)
    requires b == Hub(map[], map[ID := Conn({}, Subscribing([t], false), Open, {})])
    ensures CanRun(SYSTEM, EMPTY, [Join(ID), BeginSubscribe(ID, [t])])
    ensures After(SYSTEM, EMPTY, [Join(ID), BeginSubscribe(ID, [t])]) == b
  {
    var a := Hub(map[], map[ID := Conn({}, Free, Open, {})]);
    assert Apply(EMPTY, Join(ID)) == a;
    assert Apply(a, BeginSubscribe(ID, [t])) == b;
    RunsTo(SYSTEM, a, BeginSubscribe(ID, [t]), [], b);
    RunsTo(SYSTEM, EMPTY, Join(ID), [BeginSubscribe(ID, [t])], b);
    assert [Join(ID)] + [BeginSubscribe(ID, [t])] == [Join(ID), BeginSubscribe(ID, [t])];
  }

  lemma ClosesBetween(t: Topic, d: Hub, f: Hub)
    requires d == Hub(map[], map[ID := Conn({t}, Subscribing([t], true), Open, {})])
    requires f == Hub(map[], map[ID := Conn({t}, Subscribing([t], true), Cleared, {})])
    ensures Enabled(d, BeginClose(ID)) && CanRun(SYSTEM, Apply(d, BeginClose(ID)), [Clear(ID)])
    ensures After(SYSTEM, Apply(d, BeginClose(ID)), [Clear(ID)]) == f
  {
    var e := Hub(map[], map[ID := Conn({t}, Subscribing([t], true), Closing, {})]);
    assert Apply(d, BeginClose(ID)) == e;
    assert Apply(e, Clear(ID)) == f;
    RunsTo(SYSTEM, e, Clear(ID), [], f);
  }

  lemma IndexesLate(t: Topic, f: Hub, h: Hub)
    requires f == Hub(map[], map[ID := Conn({t}, Subscribing([t], true), Cleared, {})])
    requires h == Hub(map[t := {ID}], map[ID := Conn({t}, Free, Cleared, {t})])
    ensures CanRun(SYSTEM, f, [Reindex(ID), End(ID)]) && After(SYSTEM, f, [Reindex(ID), End(ID)]) == h
  {
    var g := Hub(map[t := {ID}], map[ID := Conn({t}, Subscribing([], false), Cleared, {t})]);
    assert [t][1..] == [] && {} + {t} == {t} && {} + {ID} == {ID};
    assert Apply(f, Reindex(ID)) == g;
    assert Apply(g, End(ID)) == h;
    RunsTo(SYSTEM, g, End(ID), [], h);
    RunsTo(SYSTEM, f, Reindex(ID), [End(ID)], h);
    assert [Reindex(ID)] + [End(ID)] == [Reindex(ID), End(ID)];
  }

}
