/**
 Replies of one WebSocket connection (ws/server/conn.go): SendResp encodes with the
 current reply codec and queues the bytes; writeLoop takes them off the queue and picks
 the frame type from the codec that is current then; readLoop changes the codec with
 every request it decodes. A codec is only a name and a frame type here.
 */
module WsReplies {
  import opened Runs
  import opened Options

  datatype Frame = Text | Binary

  /** JSON serves text requests, the configured codec all others. */
  datatype Codec = Json | Configured

  datatype Message = Message(id: nat, codec: Codec)

  datatype Sent = Sent(msg: Message, frame: Frame)

  datatype Conn = Conn(
    cap: nat,                      // capacity of sendCh
    binary: bool,                  // the configured codec uses binary frames
    resp: Codec,                   // respCodec
    encoded: multiset<Message>,    // SendResp calls between encoding and queueing
    queue: seq<Message>,           // sendCh
    taken: Option<Message>,        // what writeLoop has received and not written
    queued: seq<Message>,          // history: accepted by the queue
    refused: nat,                  // history: ErrSendFull
    sent: seq<Sent>)               // history: frames written

  datatype Step =
    | Request(frame: Frame, decodes: bool)   // readLoop reads and decodes a message
    | Encode(id: nat)                        // SendResp up to MarshalResponse
    | Queue(m: Message)                      // its non-blocking send
    | Receive                                // writeLoop
    | Write

  function Fresh(cap: nat, binary: bool): Conn {
    Conn(cap, binary, Configured, multiset{}, [], None, [], 0, [])
  }

  function FrameOf(c: Codec, binary: bool): Frame {
    if c == Configured && binary then Binary else Text
  }

  function DecoderOf(frame: Frame): Codec {
    if frame == Text then Json else Configured
  }

  predicate Enabled(s: Conn, step: Step) {
    match step
    case Request(_, _) => true
    case Encode(_) => true
    case Queue(m) => m in s.encoded
    case Receive => s.taken.None? && s.queue != []
    case Write => s.taken.Some?
  }

  function Apply(s: Conn, step: Step): Conn
    requires Enabled(s, step)
  {
    match step
    case Request(frame, decodes) => if decodes then s.(resp := DecoderOf(frame)) else s
    case Encode(id) => s.(encoded := s.encoded + multiset{Message(id, s.resp)})
    case Queue(m) =>
      var t := s.(encoded := s.encoded - multiset{m});
      if |s.queue| < s.cap then t.(queue := s.queue + [m], queued := s.queued + [m])
      else t.(refused := s.refused + 1)
    case Receive => s.(queue := s.queue[1..], taken := Some(s.queue[0]))
    case Write => s.(taken := None, sent := s.sent + [Sent(s.taken.value, FrameOf(s.resp, s.binary))])
  }

  const SYSTEM: System<Conn, Step> :=
    System(Enabled, (s, step) => if Enabled(s, step) then Apply(s, step) else s)

  function Messages(sent: seq<Sent>): (ms: seq<Message>)
    ensures |ms| == |sent|
  {
    seq(|sent|, k requires 0 <= k < |sent| => sent[k].msg)
  }

  ghost predicate InOrder(s: Conn) {
    && |s.queue| <= s.cap
    && Messages(s.sent) + (if s.taken.Some? then [s.taken.value] else []) + s.queue == s.queued
  }

  lemma StepKeepsOrder(s: Conn, step: Step)
    requires InOrder(s) && Enabled(s, step)
    ensures InOrder(Apply(s, step)) && Apply(s, step).cap == s.cap && Apply(s, step).binary == s.binary
  {
    var t := Apply(s, step);
    if step.Write? {
      assert Messages(t.sent) == Messages(s.sent) + [s.taken.value];
    }
  }

  lemma {:induction false} RunKeepsOrder(s: Conn, steps: seq<Step>)
    requires InOrder(s) && CanRun(SYSTEM, s, steps)
    ensures var t := After(SYSTEM, s, steps); InOrder(t) && t.cap == s.cap && t.binary == s.binary
    decreases |steps|
  {
    if steps == [] {
    } else {
      StepKeepsOrder(s, steps[0]);
      RunKeepsOrder(Apply(s, steps[0]), steps[1..]);
    }
  }

  /** Accepted replies are those written, the one being written and the queued ones, in this order, within cap. */
  lemma RepliesInOrder(cap: nat, binary: bool, steps: seq<Step>)
    requires CanRun(SYSTEM, Fresh(cap, binary), steps)
    ensures var s := After(SYSTEM, Fresh(cap, binary), steps);
      && InOrder(s)
      && |s.queue| <= cap
      && Messages(s.sent) <= s.queued
      && |s.queued| - |s.sent| == |s.queue| + (if s.taken.Some? then 1 else 0)
  {
    RunKeepsOrder(Fresh(cap, binary), steps);
  }

  function EncodesIn(steps: seq<Step>): nat {
    if steps == [] then 0 else (if steps[0].Encode? then 1 else 0) + EncodesIn(steps[1..])
  }

  /** Every reply is queued or refused, and refused only when the queue is full. */
  lemma {:induction false} RepliesAddUp(s: Conn, steps: seq<Step>)
    requires CanRun(SYSTEM, s, steps)
    ensures var t := After(SYSTEM, s, steps);
      |t.encoded| + |t.queued| + t.refused == |s.encoded| + |s.queued| + s.refused + EncodesIn(steps)
    decreases |steps|
  {
    if steps == [] {
    } else {
      RepliesAddUp(Apply(s, steps[0]), steps[1..]);
    }
  }

  lemma RefusedIffFull(s: Conn, m: Message)
    requires m in s.encoded
    ensures Apply(s, Queue(m)).refused == s.refused + (if |s.queue| < s.cap then 0 else 1)
    ensures Apply(s, Queue(m)).queued == s.queued + (if |s.queue| < s.cap then [m] else [])
  {
    assert s.queued + [] == s.queued;
  }

  /** The codec of the last request that could be decoded, or the one before all of them. */
  function LastCodec(first: Codec, steps: seq<Step>): Codec
    decreases |steps|
  {
    if steps == [] then first
    else match steps[0]
      case Request(Text, true) => LastCodec(Json, steps[1..])
      case Request(Binary, true) => LastCodec(Configured, steps[1..])
      case _ => LastCodec(first, steps[1..])
  }

  /** A reply is encoded like the last request that could be decoded, before any with the configured codec. */
  lemma {:induction false} RepliesFollowRequests(s: Conn, steps: seq<Step>, id: nat)
    requires CanRun(SYSTEM, s, steps)
    ensures After(SYSTEM, s, steps).resp == LastCodec(s.resp, steps)
    ensures var t := After(SYSTEM, s, steps);
      Apply(t, Encode(id)).encoded == t.encoded + multiset{Message(id, LastCodec(s.resp, steps))}
    decreases |steps|
  {
    if steps == [] {
    } else {
      RepliesFollowRequests(Apply(s, steps[0]), steps[1..], id);
    }
  }

  // ---------------------------------------------------------------------
  // Frame types
  // ---------------------------------------------------------------------

  /** A frame has the type of the codec its bytes were made with. */
  predicate Matching(f: Sent, binary: bool) {
    f.frame == FrameOf(f.msg.codec, binary)
  }

  predicate AllMatch(s: Conn) {
    forall k :: 0 <= k < |s.sent| ==> Matching(s.sent[k], s.binary)
  }

  /** Some run writes a frame of the wrong type. */
  ghost predicate CanMismatch(cap: nat, binary: bool) {
    exists steps :: CanRun(SYSTEM, Fresh(cap, binary), steps) && !AllMatch(After(SYSTEM, Fresh(cap, binary), steps))
  }

  lemma {:induction false} TextStaysText(s: Conn, steps: seq<Step>)
    requires !s.binary && AllMatch(s) && CanRun(SYSTEM, s, steps)
    ensures !After(SYSTEM, s, steps).binary && AllMatch(After(SYSTEM, s, steps))
    decreases |steps|
  {
    if steps == [] {
    } else {
      TextStaysText(Apply(s, steps[0]), steps[1..]);
    }
  }

  /** From a queued reply to a binary request: a text request comes in, then the reply goes out as text. */
  lemma WrittenAsText(s: Conn, m: Message)
    requires s.queue == [m] && s.taken.None? && s.sent == []
    ensures CanRun(SYSTEM, s, [Request(Text, true), Receive, Write])
    ensures After(SYSTEM, s, [Request(Text, true), Receive, Write]).sent == [Sent(m, Text)]
  {
    var s1 := s.(resp := Json);
    var s2 := s1.(queue := [], taken := Some(m));
    var s3 := s2.(taken := None, sent := [Sent(m, Text)]);
    assert Apply(s1, Receive) == s2 && Apply(s2, Write) == s3;
    RunsTo(SYSTEM, s2, Write, [], s3);
    RunsTo(SYSTEM, s1, Receive, [Write], s3);
    RunsTo(SYSTEM, s, Request(Text, true), [Receive, Write], s3);
    assert [Write] + [] == [Write] && [Receive] + [Write] == [Receive, Write];
    assert [Request(Text, true)] + [Receive, Write] == [Request(Text, true), Receive, Write];
  }

  /** A reply to a binary request is written after a text request has come in, as a text frame. */
  lemma SwitchedReply(cap: nat) returns (steps: seq<Step>)
    requires cap >= 1
    ensures steps == [Request(Binary, true), Encode(0), Queue(Message(0, Configured))]
                     + [Request(Text, true), Receive, Write]
    ensures CanRun(SYSTEM, Fresh(cap, true), steps)
    ensures After(SYSTEM, Fresh(cap, true), steps).sent == [Sent(Message(0, Configured), Text)]
  {
    var m := Message(0, Configured);
    var s0 := Fresh(cap, true);
    var s1 := s0.(encoded := multiset{m});
    var s2 := s0.(queue := [m], queued := [m]);
    var rest := [Request(Text, true), Receive, Write];
    WrittenAsText(s2, m);
    var end := After(SYSTEM, s2, rest);
    assert Apply(s0, Encode(0)) == s1;
    assert multiset{m} - multiset{m} == multiset{} && [] + [m] == [m];
    assert Apply(s1, Queue(m)) == s2;
    RunsTo(SYSTEM, s1, Queue(m), rest, end);
    RunsTo(SYSTEM, s0, Encode(0), [Queue(m)] + rest, end);
    RunsTo(SYSTEM, s0, Request(Binary, true), [Encode(0)] + ([Queue(m)] + rest), end);
    steps := [Request(Binary, true)] + ([Encode(0)] + ([Queue(m)] + rest));
  }

  /** Frames always carry the type their bytes were encoded for exactly if the configured codec uses text frames. */
  lemma MismatchIff(cap: nat, binary: bool)
    requires cap >= 1
    ensures CanMismatch(cap, binary) <==> binary
  {
    if binary {
      var steps := SwitchedReply(cap);
      RunKeepsOrder(Fresh(cap, true), steps);
      assert !Matching(After(SYSTEM, Fresh(cap, true), steps).sent[0], true);
    } else {
      forall steps | CanRun(SYSTEM, Fresh(cap, binary), steps)
        ensures AllMatch(After(SYSTEM, Fresh(cap, binary), steps))
      {
        TextStaysText(Fresh(cap, binary), steps);
      }
    }
  }

  /** Everything in the connection belongs to the configured codec. */
  ghost predicate Uniform(s: Conn) {
    && s.resp == Configured
    && (forall m :: m in s.encoded ==> m.codec == Configured)
    && (forall m :: m in s.queue ==> m.codec == Configured)
    && (s.taken.Some? ==> s.taken.value.codec == Configured)
  }

  lemma StepKeepsUniform(s: Conn, step: Step)
    requires Uniform(s) && AllMatch(s) && Enabled(s, step)
    requires step.Request? && step.decodes ==> step.frame == Binary
    ensures Uniform(Apply(s, step)) && AllMatch(Apply(s, step))
  {
    var t := Apply(s, step);
    match step
    case Receive => assert forall m :: m in t.queue ==> m in s.queue;
    case _ =>
  }

  /** With a binary codec too, as long as the peer sends no text. */
  lemma {:induction false} BinaryPeersSeeBinary(s: Conn, steps: seq<Step>)
    requires Uniform(s) && AllMatch(s) && CanRun(SYSTEM, s, steps)
    requires forall step :: step in steps && step.Request? && step.decodes ==> step.frame == Binary
    ensures Uniform(After(SYSTEM, s, steps)) && AllMatch(After(SYSTEM, s, steps))
    decreases |steps|
  {
    if steps == [] {
    } else {
      assert steps[0] in steps && forall step :: step in steps[1..] ==> step in steps;
      StepKeepsUniform(s, steps[0]);
      BinaryPeersSeeBinary(Apply(s, steps[0]), steps[1..]);
    }
  }
}
