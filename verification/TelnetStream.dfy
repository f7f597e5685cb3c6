/**
 What the Telnet filter does to a whole stream: where the chunks are cut does
 not matter exactly as long as no cut leaves MAX_PENDING bytes of an unfinished
 command; the output is the data of the stream's tokens; nothing is invented.
 */
module TelnetStream {
  import opened TelnetFilter

  function Flatten(chunks: seq<seq<Byte>>): seq<Byte> {
    if chunks == [] then [] else chunks[0] + Flatten(chunks[1..])
  }

  lemma {:induction false} FlattenConcat(xs: seq<seq<Byte>>, ys: seq<seq<Byte>>)
    ensures Flatten(xs + ys) == Flatten(xs) + Flatten(ys)
  {
    if xs == [] {
      assert xs + ys == ys;
    } else {
      assert (xs + ys)[1..] == xs[1..] + ys;
      FlattenConcat(xs[1..], ys);
    }
  }

  /** The calls feed(chunks[0]), feed(chunks[1]), ...: outputs joined, and what is pending at the end. */
  function FeedAll(pending: seq<Byte>, chunks: seq<seq<Byte>>): Fed
    decreases |chunks|
  {
    if chunks == [] then Fed([], pending)
    else
      var first := FeedSpec(pending, chunks[0]);
      var rest := FeedAll(first.pending, chunks[1..]);
      Fed(first.out + rest.out, rest.pending)
  }

  lemma {:induction false} FeedAllSnoc(pending: seq<Byte>, chunks: seq<seq<Byte>>, c: seq<Byte>)
    ensures var before := FeedAll(pending, chunks);
            var last := FeedSpec(before.pending, c);
            FeedAll(pending, chunks + [c]) == Fed(before.out + last.out, last.pending)
    decreases |chunks|
  {
    if chunks == [] {
      assert [] + [c] == [c];
      var last := FeedSpec(pending, c);
      assert FeedAll(last.pending, [c][1..]) == Fed([], last.pending);
      assert last.out + [] == last.out && [] + last.out == last.out;
    } else {
      assert (chunks + [c])[1..] == chunks[1..] + [c];
      FeedAllSnoc(FeedSpec(pending, chunks[0]).pending, chunks[1..], c);
    }
  }

  // ---------------------------------------------------------------------
  // Chunk boundaries
  // ---------------------------------------------------------------------

  /** After every chunk, the unfinished command at the end of the stream so far is short enough to keep. */
  ghost predicate TailsStayShort(chunks: seq<seq<Byte>>) {
    forall k | 0 <= k <= |chunks| :: |Run(START, Flatten(chunks[..k])).auto.held| < MAX_PENDING
  }

  /** The same, going on from automaton `a`. */
  ghost predicate ShortFrom(a: Auto, chunks: seq<seq<Byte>>)
    decreases |chunks|
  {
    chunks == [] ||
    (var b := Run(a, chunks[0]).auto; |b.held| < MAX_PENDING && ShortFrom(b, chunks[1..]))
  }

  lemma {:induction false} ShortFromPrefixes(a: Auto, chunks: seq<seq<Byte>>)
    ensures ShortFrom(a, chunks) <==>
            forall k | 0 < k <= |chunks| :: |Run(a, Flatten(chunks[..k])).auto.held| < MAX_PENDING
    decreases |chunks|
  {
    if chunks == [] {
    } else {
      var b := Run(a, chunks[0]).auto;
      ShortFromPrefixes(b, chunks[1..]);
      forall k | 0 < k <= |chunks|
        ensures Run(a, Flatten(chunks[..k])).auto == Run(b, Flatten(chunks[1..][..k - 1])).auto
      {
        assert chunks[..k][1..] == chunks[1..][..k - 1];
        RunConcat(a, chunks[0], Flatten(chunks[1..][..k - 1]));
      }
      assert Flatten(chunks[1..][..0]) == [] && Run(b, []).auto == b;
      if ShortFrom(a, chunks) {
        forall k | 0 < k <= |chunks| ensures |Run(a, Flatten(chunks[..k])).auto.held| < MAX_PENDING {
          assert Run(a, Flatten(chunks[..k])).auto == Run(b, Flatten(chunks[1..][..k - 1])).auto;
        }
      } else if forall k | 0 < k <= |chunks| :: |Run(a, Flatten(chunks[..k])).auto.held| < MAX_PENDING {
        assert Run(a, Flatten(chunks[..1])).auto == Run(b, Flatten(chunks[1..][..0])).auto;
        forall k | 0 < k <= |chunks[1..]| ensures |Run(b, Flatten(chunks[1..][..k])).auto.held| < MAX_PENDING {
          assert Run(a, Flatten(chunks[..k + 1])).auto == Run(b, Flatten(chunks[1..][..k])).auto;
        }
        assert false;
      }
    }
  }

  /** What is emitted depends on the phase only. */
  lemma {:induction false} OutIgnoresHeld(a: Auto, b: Auto, s: seq<Byte>)
    requires a.phase == b.phase
    ensures Run(a, s).out == Run(b, s).out
    decreases |s|
  {
    if s == [] {
    } else {
      OutIgnoresHeld(Step(a, s[0]).auto, Step(b, s[0]).auto, s[1..]);
    }
  }

  /**
   Leaving a subnegotiation early never loses output: whatever phase the other
   automaton is in, the next IAC SE that closes the subnegotiation also brings
   the other one back to text, in step.
   */
  lemma {:induction false} LeavingEarlyEmitsMore(a: Auto, b: Auto, s: seq<Byte>)
    requires b.phase == Subneg || (b.phase == SubnegIac && a.phase in {Text, Command, SubnegIac})
    ensures |Run(b, s).out| <= |Run(a, s).out|
    decreases |s|
  {
    if s == [] {
    } else {
      var a', b' := Step(a, s[0]).auto, Step(b, s[0]).auto;
      if b'.phase == Text {
        OutIgnoresHeld(a', b', s[1..]);
      } else {
        LeavingEarlyEmitsMore(a', b', s[1..]);
      }
    }
  }

  /** Feeding on from `pending`: equal to one pass while tails stay short, strictly more output once one does not. */
  lemma {:induction false} FeedAllFrom(pending: seq<Byte>, chunks: seq<seq<Byte>>)
    requires Unfinished(pending)
    ensures var a := Run(START, pending).auto;
            var whole := Run(a, Flatten(chunks));
            && (ShortFrom(a, chunks) ==> FeedAll(pending, chunks) == Fed(whole.out, whole.auto.held))
            && (!ShortFrom(a, chunks) ==> |FeedAll(pending, chunks).out| > |whole.out|)
    decreases |chunks|
  {
    var a := Run(START, pending).auto;
    if chunks == [] {
    } else {
      var rest := Flatten(chunks[1..]);
      var r := Run(a, chunks[0]);
      RunHeldIsUnfinished(pending);
      ResumeAfterHeld(a, chunks[0]);
      RunHeldIsUnfinished(pending + chunks[0]);
      RunConcat(a, chunks[0], rest);
      if |r.auto.held| < MAX_PENDING {
        FeedAllFrom(r.auto.held, chunks[1..]);
      } else {
        assert Run(START, []) == Ran(START, []);
        FeedAllFrom([], chunks[1..]);
        RunShaped(START, pending + chunks[0]);
        LeavingEarlyEmitsMore(START, r.auto, rest);
      }
    }
  }

  /**
   Chunk boundaries do not matter exactly when every tail stays short: then the
   joined outputs and the final pending bytes are those of one pass over the
   stream; once a tail has been flushed, the output is strictly longer.
   */
  lemma ChunkingInvisible(chunks: seq<seq<Byte>>)
    ensures var whole := Run(START, Flatten(chunks));
            FeedAll([], chunks) == Fed(whole.out, whole.auto.held) <==> TailsStayShort(chunks)
    ensures !TailsStayShort(chunks) ==> |FeedAll([], chunks).out| > |Run(START, Flatten(chunks)).out|
  {
    FeedAllFrom([], chunks);
    ShortFromPrefixes(START, chunks);
    assert Flatten(chunks[..0]) == [] && Run(START, []).auto == START;
  }

  /** Two ways of cutting one stream. */
  lemma CutsAgree(xs: seq<seq<Byte>>, ys: seq<seq<Byte>>)
    requires Flatten(xs) == Flatten(ys) && TailsStayShort(xs) && TailsStayShort(ys)
    ensures FeedAll([], xs) == FeedAll([], ys)
  {
    ChunkingInvisible(xs);
    ChunkingInvisible(ys);
  }

  /** Whatever was fed, what is pending is short and is [] or an unfinished command that starts with IAC. */
  lemma {:induction false} PendingIsShortCommand(pending: seq<Byte>, chunks: seq<seq<Byte>>)
    requires Unfinished(pending) && |pending| < MAX_PENDING
    ensures var p := FeedAll(pending, chunks).pending;
            |p| < MAX_PENDING && Unfinished(p) && (p == [] || p[0] == IAC)
    decreases |chunks|
  {
    if chunks == [] {
      RunShaped(START, pending);
      var a := Run(START, pending).auto;
      assert |a.held| >= 2 && a.held[..2] == [IAC, SB] ==> a.held[..2][0] == IAC;
    } else {
      assert Run(START, []) == Ran(START, []);
      RunHeldIsUnfinished(pending + chunks[0]);
      PendingIsShortCommand(FeedSpec(pending, chunks[0]).pending, chunks[1..]);
    }
  }

  // ---------------------------------------------------------------------
  // Nothing is invented or reordered
  // ---------------------------------------------------------------------

  predicate Subsequence(a: seq<Byte>, b: seq<Byte>) {
    a == [] || (b != [] && ((a[0] == b[0] && Subsequence(a[1..], b[1..])) || Subsequence(a, b[1..])))
  }

  lemma {:induction false} SubsequenceTransitive(a: seq<Byte>, b: seq<Byte>, c: seq<Byte>)
    requires Subsequence(a, b) && Subsequence(b, c)
    ensures Subsequence(a, c)
    decreases |c|
  {
    if a == [] {
    } else {
      if Subsequence(b, c[1..]) {
        SubsequenceTransitive(a, b, c[1..]);
      } else if Subsequence(a, b[1..]) {
        SubsequenceTransitive(a, b[1..], c[1..]);
      } else {
        SubsequenceTransitive(a[1..], b[1..], c[1..]);
      }
    }
  }

  lemma {:induction false} SubsequenceReflexive(a: seq<Byte>)
    ensures Subsequence(a, a)
  {
    if a == [] {
    } else {
      SubsequenceReflexive(a[1..]);
    }
  }

  lemma {:induction false} SubsequencePrepend(p: seq<Byte>, a: seq<Byte>, b: seq<Byte>)
    requires Subsequence(a, b)
    ensures Subsequence(p + a, p + b)
  {
    if p == [] {
      assert p + a == a && p + b == b;
    } else {
      SubsequencePrepend(p[1..], a, b);
      assert (p + a)[1..] == p[1..] + a && (p + b)[1..] == p[1..] + b;
    }
  }

  lemma {:induction false} SubsequenceAppend(a: seq<Byte>, b: seq<Byte>, t: seq<Byte>)
    requires Subsequence(a, b)
    ensures Subsequence(a + t, b + t)
    decreases |b|
  {
    if a == [] {
      assert a + t == t;
      SubsequenceReflexive(t);
      DropPrefix(b, t);
    } else {
      assert (a + t)[1..] == a[1..] + t && (b + t)[1..] == b[1..] + t;
      if Subsequence(a, b[1..]) {
        SubsequenceAppend(a, b[1..], t);
      } else {
        SubsequenceAppend(a[1..], b[1..], t);
      }
    }
  }

  lemma {:induction false} DropPrefix(b: seq<Byte>, t: seq<Byte>)
    ensures Subsequence(t, b + t)
  {
    if b == [] {
      assert b + t == t;
      SubsequenceReflexive(t);
    } else {
      DropPrefix(b[1..], t);
      assert (b + t)[1..] == b[1..] + t;
    }
  }

  lemma StepIsSubsequence(a: Auto, b: Byte, left: seq<Byte>)
    requires left == [] || left == [b] || left == a.held + [b]
    ensures Subsequence(left, a.held + [b])
  {
    SubsequenceReflexive(left);
    if left == [b] {
      DropPrefix(a.held, [b]);
    }
  }

  /** Two stages: `out` leaves `kept` behind, and what follows turns `kept + t` into `more`. */
  lemma SubsequenceStages(out: seq<Byte>, kept: seq<Byte>, input: seq<Byte>, more: seq<Byte>, t: seq<Byte>)
    requires Subsequence(out + kept, input) && Subsequence(more, kept + t)
    ensures Subsequence(out + more, input + t)
  {
    SubsequencePrepend(out, more, kept + t);
    SubsequenceAppend(out + kept, input, t);
    assert out + (kept + t) == out + kept + t;
    SubsequenceTransitive(out + more, out + kept + t, input + t);
  }

  lemma JoinRuns(a: Auto, s: seq<Byte>, first: Ran, rest: Ran)
    requires s != [] && Subsequence(first.out + first.auto.held, a.held + [s[0]])
    requires Subsequence(rest.out + rest.auto.held, first.auto.held + s[1..])
    ensures Subsequence(first.out + rest.out + rest.auto.held, a.held + s)
  {
    SubsequenceStages(first.out, first.auto.held, a.held + [s[0]], rest.out + rest.auto.held, s[1..]);
    assert a.held + [s[0]] + s[1..] == a.held + s;
    assert first.out + rest.out + rest.auto.held == first.out + (rest.out + rest.auto.held);
  }

  lemma {:induction false} RunIsSubsequence(a: Auto, s: seq<Byte>)
    requires Shaped(a)
    ensures Subsequence(Run(a, s).out + Run(a, s).auto.held, a.held + s)
    decreases |s|
  {
    if s == [] {
      assert Run(a, s).out + a.held == a.held && a.held + s == a.held;
      SubsequenceReflexive(a.held);
    } else {
      var first := Step(a, s[0]);
      RunOne(a, s[0]);
      RunShaped(a, [s[0]]);
      StepIsSubsequence(a, s[0], first.out + first.auto.held);
      RunIsSubsequence(first.auto, s[1..]);
      JoinRuns(a, s, first, Run(first.auto, s[1..]));
    }
  }

  /** Over any chunks, flushes included: output followed by pending is a subsequence of the input. */
  lemma {:induction false} OutputIsSubsequence(pending: seq<Byte>, chunks: seq<seq<Byte>>)
    ensures var f := FeedAll(pending, chunks);
            Subsequence(f.out + f.pending, pending + Flatten(chunks))
    decreases |chunks|
  {
    if chunks == [] {
      assert FeedAll(pending, chunks).out + pending == pending && pending + Flatten(chunks) == pending;
      SubsequenceReflexive(pending);
    } else {
      var first := FeedSpec(pending, chunks[0]);
      var rest := FeedAll(first.pending, chunks[1..]);
      var tail := Flatten(chunks[1..]);
      var r := Run(START, pending + chunks[0]);
      RunIsSubsequence(START, pending + chunks[0]);
      assert START.held + (pending + chunks[0]) == pending + chunks[0];
      assert first.out + first.pending == r.out + r.auto.held;
      Regroup(pending, chunks[0], tail);
      Regroup(first.out, rest.out, rest.pending);
      OutputIsSubsequence(first.pending, chunks[1..]);
      SubsequenceStages(first.out, first.pending, pending + chunks[0], rest.out + rest.pending, tail);
    }
  }

  lemma Regroup(a: seq<Byte>, b: seq<Byte>, c: seq<Byte>)
    ensures a + b + c == a + (b + c)
  {}

  // ---------------------------------------------------------------------
  // The grammar of the stream
  // ---------------------------------------------------------------------

  datatype Token =
    | Data(b: Byte)
    | Simple(cmd: Byte)
    | Negotiate(verb: Byte, opt: Byte)
    | Subnegotiation(body: seq<Byte>)
  {
    /** A two-byte command has no other meaning; a subnegotiation body holds no IAC SE. */
    ghost predicate WellFormed() {
      match this
      case Data(_) => true
      case Simple(cmd) => cmd < 0xFA
      case Negotiate(verb, _) => 0xFB <= verb <= 0xFE
      case Subnegotiation(body) => NoPair(body)
    }

    function Bytes(): seq<Byte> {
      match this
      case Data(b) => if b == IAC then [IAC, IAC] else [b]
      case Simple(cmd) => [IAC, cmd]
      case Negotiate(verb, opt) => [IAC, verb, opt]
      case Subnegotiation(body) => [IAC, SB] + body + [IAC, SE]
    }
  }

  function Render(ts: seq<Token>): seq<Byte> {
    if ts == [] then [] else ts[0].Bytes() + Render(ts[1..])
  }

  /** The data bytes, in order; commands carry none. */
  function DataOf(ts: seq<Token>): seq<Byte> {
    if ts == [] then []
    else (if ts[0].Data? then [ts[0].b] else []) + DataOf(ts[1..])
  }

  lemma TokenRun(t: Token)
    requires t.WellFormed()
    ensures Run(START, t.Bytes()) == Ran(START, if t.Data? then [t.b] else [])
  {
    match t
    case Data(b) =>
      if b == IAC { RunTwo(IAC); } else { RunOne(START, b); }
    case Simple(cmd) => RunTwo(cmd);
    case Negotiate(verb, opt) => RunThree(verb, opt);
    case Subnegotiation(body) =>
      var s := t.Bytes();
      assert s[..2] == [IAC, SB];
      forall e | 4 <= e < |s| ensures !PairEndsAt(s, e) {
        assert !PairEndsAt(body, e - 2);
        if e < |s| - 1 {
          assert s[e - 1] == body[e - 3] && s[e - 2] == body[e - 4];
        }
      }
      TerminatedVanishes(s);
  }

  /** Filtering a rendered token list gives back exactly its data bytes, with nothing pending. */
  lemma {:induction false} RenderedRoundTrip(ts: seq<Token>)
    requires forall t | t in ts :: t.WellFormed()
    ensures Run(START, Render(ts)) == Ran(START, DataOf(ts))
  {
    if ts == [] {
    } else {
      TokenRun(ts[0]);
      RenderedRoundTrip(ts[1..]);
      RunConcat(START, ts[0].Bytes(), Render(ts[1..]));
    }
  }

  /**
   Every stream is a list of well-formed tokens followed by an unfinished
   command, and one pass emits the tokens' data and holds that command.
   */
  lemma {:induction false} EveryStreamIsTokens(s: seq<Byte>) returns (ts: seq<Token>)
    ensures forall t | t in ts :: t.WellFormed()
    ensures s == Render(ts) + Run(START, s).auto.held
    ensures Run(START, s).out == DataOf(ts)
    decreases |s|
  {
    if s == [] || Unfinished(s) {
      ts := [];
      assert Render(ts) + s == s;
      return;
    }
    var t := FirstToken(s);
    var rest := s[|t.Bytes()|..];
    assert s == t.Bytes() + rest;
    var more := EveryStreamIsTokens(rest);
    TokenBefore(t, rest, more);
    ts := [t] + more;
  }

  lemma TokenBefore(t: Token, rest: seq<Byte>, more: seq<Token>)
    requires t.WellFormed()
    requires rest == Render(more) + Run(START, rest).auto.held && Run(START, rest).out == DataOf(more)
    ensures var s := t.Bytes() + rest;
      s == Render([t] + more) + Run(START, s).auto.held && Run(START, s).out == DataOf([t] + more)
  {
    TokenRun(t);
    BackToText(t.Bytes(), if t.Data? then [t.b] else [], rest);
    JoinThree(t.Bytes(), Render(more), Run(START, rest).auto.held, rest);
  }

  /** Bytes that end in text leave the rest of the stream to itself. */
  lemma BackToText(bytes: seq<Byte>, data: seq<Byte>, rest: seq<Byte>)
    requires Run(START, bytes) == Ran(START, data)
    ensures Run(START, bytes + rest) == Ran(Run(START, rest).auto, data + Run(START, rest).out)
  {
    RunConcat(START, bytes, rest);
  }

  lemma JoinThree(a: seq<Byte>, b: seq<Byte>, c: seq<Byte>, bc: seq<Byte>)
    requires bc == b + c
    ensures a + bc == a + b + c
  {}

  /** A stream that is more than an unfinished command starts with a token. */
  lemma FirstToken(s: seq<Byte>) returns (t: Token)
    requires s != [] && !Unfinished(s)
    ensures t.WellFormed() && |t.Bytes()| <= |s| && t.Bytes() == s[..|t.Bytes()|]
  {
    if s[0] != IAC {
      t := Data(s[0]);
    } else if |s| < 2 || (|s| == 2 && IsOptionVerb(s[1])) {
      ShortTailIsUnfinished(s);
      assert false;
    } else if s[1] == IAC {
      t := Data(IAC);
    } else if IsOptionVerb(s[1]) {
      t := Negotiate(s[1], s[2]);
    } else if s[1] == SB {
      t := FirstSubnegotiation(s);
    } else {
      t := Simple(s[1]);
    }
  }

  lemma FirstSubnegotiation(s: seq<Byte>) returns (t: Token)
    requires |s| >= 2 && s[0] == IAC && s[1] == SB && !Unfinished(s)
    ensures t.WellFormed() && |t.Bytes()| <= |s| && t.Bytes() == s[..|t.Bytes()|]
  {
    assert s[0..] == s;
    if forall e | 4 <= e :: !PairEndsAt(s, e) {
      OpenSubnegIsUnfinished(s, 0);
      assert false;
    }
    var e := FirstPair(s);
    var body := s[2..e - 2];
    forall k ensures !PairEndsAt(body, k) {
      if PairEndsAt(body, k) {
        assert PairEndsAt(s, k + 2);
      }
    }
    t := Subnegotiation(body);
    assert s[..e] == [IAC, SB] + body + [IAC, SE];
  }

  lemma FirstPair(s: seq<Byte>) returns (e: nat)
    requires exists k :: 4 <= k && PairEndsAt(s, k)
    ensures 4 <= e && PairEndsAt(s, e) && forall k | 4 <= k < e :: !PairEndsAt(s, k)
  {
    e := 4;
    while !PairEndsAt(s, e)
      invariant 4 <= e && forall k | 4 <= k < e :: !PairEndsAt(s, k)
      decreases |s| - e
    {
      e := e + 1;
    }
  }

  // ---------------------------------------------------------------------
  // Exec: the filter's caller
  // ---------------------------------------------------------------------

  datatype ExecStatus = Matched | Truncated | Ended | Failed

  /** What Exec has accumulated after the first `k` chunks. */
  function Accumulated(keepIac: bool, chunks: seq<seq<Byte>>, k: nat): seq<Byte>
    requires k <= |chunks|
  {
    if keepIac then Flatten(chunks[..k]) else FeedAll([], chunks[..k]).out
  }

  ghost predicate StopsAt(keepIac: bool, chunks: seq<seq<Byte>>, limit: int, done: seq<Byte> -> bool, k: nat)
    requires k <= |chunks|
  {
    var text := Accumulated(keepIac, chunks, k);
    |text| >= limit || done(text)
  }

  ghost predicate FirstStop(keepIac: bool, chunks: seq<seq<Byte>>, limit: int, done: seq<Byte> -> bool, k: nat) {
    && 1 <= k <= |chunks|
    && StopsAt(keepIac, chunks, limit, done, k)
    && forall j | 1 <= j < k :: !StopsAt(keepIac, chunks, limit, done, j)
  }

  lemma AccumulateOne(keepIac: bool, chunks: seq<seq<Byte>>, i: nat)
    requires i < |chunks|
    ensures var before := FeedAll([], chunks[..i]);
            var fed := FeedSpec(before.pending, chunks[i]);
            && FeedAll([], chunks[..i + 1]).pending == fed.pending
            && Accumulated(keepIac, chunks, i + 1)
               == Accumulated(keepIac, chunks, i) + if keepIac then chunks[i] else fed.out
  {
    assert chunks[..i + 1] == chunks[..i] + [chunks[i]];
    FeedAllSnoc([], chunks[..i], chunks[i]);
    FlattenConcat(chunks[..i], [chunks[i]]);
    assert Flatten([chunks[i]]) == chunks[i] + Flatten([chunks[i]][1..]);
  }

  /**
   Reads chunks until the accumulated text reaches the limit or satisfies
   `done`, or the connection ends (`chunks` is what Read returns before its error).
   */
  method Exec(keepIac: bool, maxRead: int, chunks: seq<seq<Byte>>, done: seq<Byte> -> bool)
    returns (result: seq<Byte>, status: ExecStatus)
    ensures var limit := if maxRead <= 0 then 0x10_0000 else maxRead;
            match status
            case Truncated =>
              exists k :: FirstStop(keepIac, chunks, limit, done, k)
                && |Accumulated(keepIac, chunks, k)| >= limit
                && result == Accumulated(keepIac, chunks, k)[..limit]
            case Matched =>
              exists k :: FirstStop(keepIac, chunks, limit, done, k)
                && |Accumulated(keepIac, chunks, k)| < limit
                && result == Accumulated(keepIac, chunks, k)
            case _ =>
              && (forall j | 1 <= j <= |chunks| :: !StopsAt(keepIac, chunks, limit, done, j))
              && result == Accumulated(keepIac, chunks, |chunks|)
              && (status == Failed <==> result == [])
  {
    var limit := if maxRead <= 0 then 0x10_0000 else maxRead;
    var iac := new IacProcessor();
    if keepIac {
      iac.Disable();
    }
    result := [];
    var i := 0;
    while i < |chunks|
      invariant i <= |chunks| && iac.Valid() && iac.disabled == keepIac
      invariant result == Accumulated(keepIac, chunks, i)
      invariant !keepIac ==> iac.pending == FeedAll([], chunks[..i]).pending
      invariant forall j | 1 <= j <= i :: !StopsAt(keepIac, chunks, limit, done, j)
    {
      var out := iac.Feed(chunks[i]);
      AccumulateOne(keepIac, chunks, i);
      result := result + out;
      i := i + 1;
      if |result| >= limit {
        assert FirstStop(keepIac, chunks, limit, done, i);
        return result[..limit], Truncated;
      }
      if done(result) {
        assert FirstStop(keepIac, chunks, limit, done, i);
        return result, Matched;
      }
    }
    status := if |result| > 0 then Ended else Failed;
  }

  // ---------------------------------------------------------------------
  // Where the code's grammar and the RFCs part
  // ---------------------------------------------------------------------

  /** RFC 855: an IAC inside a subnegotiation is sent doubled. */
  function Escape(p: seq<Byte>): seq<Byte> {
    if p == [] then []
    else (if p[0] == IAC then [IAC, IAC] else [p[0]]) + Escape(p[1..])
  }

  /** Doubling makes no IAC SE pair and removes none. */
  lemma {:induction false} EscapeKeepsPairs(p: seq<Byte>)
    ensures NoPair(Escape(p)) <==> NoPair(p)
    ensures p != [] ==> Escape(p) != [] && Escape(p)[0] == p[0]
    decreases |p|
  {
    if p == [] {
    } else {
      var q := p[1..];
      EscapeKeepsPairs(q);
      PairsOfCons(p[0], q);
      PairsOfCons(p[0], Escape(q));
      assert [p[0]] + q == p;
      if p[0] == IAC {
        PairsOfCons(IAC, [IAC] + Escape(q));
        assert [IAC] + ([IAC] + Escape(q)) == Escape(p);
      }
    }
  }

  lemma PairsOfCons(b: Byte, s: seq<Byte>)
    ensures NoPair([b] + s) <==> NoPair(s) && !(b == IAC && s != [] && s[0] == SE)
  {
    var t := [b] + s;
    forall e | PairEndsAt(s, e) ensures PairEndsAt(t, e + 1) {}
    forall e | PairEndsAt(t, e) && e > 2 ensures PairEndsAt(s, e - 1) {}
    if b == IAC && s != [] && s[0] == SE {
      assert PairEndsAt(t, 2);
    }
  }

  /** A subnegotiation as RFC 855 sends it: payload with IAC doubled, closed by IAC SE. */
  function RfcSubneg(p: seq<Byte>): seq<Byte> {
    [IAC, SB] + Escape(p) + [IAC, SE]
  }

  /**
   What this filter emits of it: the payload behind its first IAC SE, where the filter has left
   the subnegotiation. `iac` says that the byte before p was an IAC.
   */
  function Leak(p: seq<Byte>, iac: bool): seq<Byte>
    decreases |p|
  {
    if p == [] then []
    else if iac && p[0] == SE then p[1..]
    else Leak(p[1..], p[0] == IAC)
  }

  /** Doubled IACs in text are the bytes themselves. */
  lemma {:induction false} EscapedText(p: seq<Byte>)
    ensures Run(START, Escape(p)) == Ran(START, p)
    decreases |p|
  {
    if p == [] {
    } else {
      EscapedText(p[1..]);
      var first := if p[0] == IAC then [IAC, IAC] else [p[0]];
      assert Escape(p) == first + Escape(p[1..]);
      if p[0] == IAC {
        RunTwo(IAC);
      } else {
        RunOne(START, p[0]);
      }
      RunConcat(START, first, Escape(p[1..]));
      assert [p[0]] + p[1..] == p;
    }
  }

  /** The first payload byte, doubled if it is IAC: inside the subnegotiation it changes at most the phase. */
  lemma EscapedByteInSubneg(a: Auto, b: Byte)
    requires a.phase == Subneg || (a.phase == SubnegIac && b != SE)
    ensures var r := Run(a, if b == IAC then [IAC, IAC] else [b]);
      r.out == [] && r.auto.phase == if b == IAC then SubnegIac else Subneg
  {
    RunOne(a, b);
    if b == IAC {
      RunConcat(a, [IAC], [IAC]);
      RunOne(Step(a, IAC).auto, IAC);
      assert [IAC] + [IAC] == [IAC, IAC];
    }
  }

  lemma CloseSubneg(a: Auto)
    requires a.phase == Subneg || a.phase == SubnegIac
    ensures Run(a, [IAC, SE]) == Ran(START, [])
  {
    RunConcat(a, [IAC], [SE]);
    RunOne(a, IAC);
    RunOne(Step(a, IAC).auto, SE);
    assert [IAC] + [SE] == [IAC, SE];
  }

  /** From inside the subnegotiation to its closing IAC SE. */
  lemma {:induction false} EscapedSubneg(a: Auto, p: seq<Byte>)
    requires a.phase == Subneg || a.phase == SubnegIac
    ensures Run(a, Escape(p) + [IAC, SE]) == Ran(START, Leak(p, a.phase == SubnegIac))
    decreases |p|
  {
    if p == [] {
      CloseSubneg(a);
      assert Escape(p) + [IAC, SE] == [IAC, SE];
    } else {
      var q := p[1..];
      var first := if p[0] == IAC then [IAC, IAC] else [p[0]];
      var rest := Escape(q) + [IAC, SE];
      assert Escape(p) + [IAC, SE] == first + rest;
      RunConcat(a, first, rest);
      if a.phase == SubnegIac && p[0] == SE {
        RunOne(a, SE);
        EscapedText(q);
        RunTwo(SE);
        RunConcat(START, Escape(q), [IAC, SE]);
        assert q + [] == q;
      } else {
        EscapedByteInSubneg(a, p[0]);
        EscapedSubneg(Run(a, first).auto, q);
      }
    }
  }

  /** No IAC SE in the payload, except at its very end. */
  ghost predicate NoEarlyPair(p: seq<Byte>) {
    forall e | e < |p| :: !PairEndsAt(p, e)
  }

  /** Bytes in front that end no pair with what follows make no difference. */
  lemma EarlyPairsShift(w: seq<Byte>, v: seq<Byte>)
    requires |v| <= |w| && v == w[|w| - |v|..]
    requires forall e | e < |w| && PairEndsAt(w, e) :: e - (|w| - |v|) >= 2
    ensures NoEarlyPair(w) <==> NoEarlyPair(v)
  {
    var shift := |w| - |v|;
    forall e: nat | e < |v| && PairEndsAt(v, e)
      ensures e + shift < |w| && PairEndsAt(w, e + shift)
    {
      assert v[e - 2] == w[e + shift - 2] && v[e - 1] == w[e + shift - 1];
    }
    forall e: nat | e < |w| && PairEndsAt(w, e)
      ensures e - shift < |v| && PairEndsAt(v, e - shift)
    {
      assert v[e - shift - 2] == w[e - 2] && v[e - shift - 1] == w[e - 1];
    }
  }

  lemma {:induction false} LeakIff(p: seq<Byte>, iac: bool)
    ensures Leak(p, iac) == [] <==> NoEarlyPair(if iac then [IAC] + p else p)
    decreases |p|
  {
    var w := if iac then [IAC] + p else p;
    if p == [] {
    } else {
      var q := p[1..];
      var v := if p[0] == IAC then [IAC] + q else q;
      LeakIff(q, p[0] == IAC);
      if iac && p[0] == SE {
        assert PairEndsAt(w, 2);
      } else {
        forall e | e < |w| && PairEndsAt(w, e)
          ensures e - (|w| - |v|) >= 2
        {
          assert e >= 2 && w[e - 2] == IAC && w[e - 1] == SE;
        }
        EarlyPairsShift(w, v);
      }
    }
  }

  /**
   A subnegotiation sent as RFC 855 prescribes. The filter ends in text with nothing held, but
   emits the payload behind the first IAC SE in it; so it emits nothing, as the RFC asks, exactly
   if the payload has no IAC SE before its end, and it leaves the subnegotiation where the RFC
   ends it exactly if the payload has none at all.
   */
  lemma RfcSubnegotiation(p: seq<Byte>)
    ensures Run(START, RfcSubneg(p)) == Ran(START, Leak(p, false))
    ensures Leak(p, false) == [] <==> NoEarlyPair(p)
    ensures (forall k | 0 < k < |RfcSubneg(p)| :: Run(START, RfcSubneg(p)[..k]).auto != START) <==> NoPair(p)
  {
    var s := RfcSubneg(p);
    OpensSubneg();
    RunConcat(START, [IAC, SB], Escape(p) + [IAC, SE]);
    assert s == [IAC, SB] + (Escape(p) + [IAC, SE]);
    EscapedSubneg(Auto(Subneg, [IAC, SB]), p);
    LeakIff(p, false);
    EscapeKeepsPairs(p);
    LeavesWherePairEnds(Escape(p));
  }

  /** The filter is back in text before the last byte exactly if the body holds a pair. */
  lemma LeavesWherePairEnds(body: seq<Byte>)
    ensures var s := [IAC, SB] + body + [IAC, SE];
      (forall k | 0 < k < |s| :: Run(START, s[..k]).auto != START) <==> NoPair(body)
  {
    var s := [IAC, SB] + body + [IAC, SE];
    forall e | PairEndsAt(body, e) ensures PairEndsAt(s, e + 2) && e + 2 < |s| {}
    forall e | 4 <= e < |s| && PairEndsAt(s, e) ensures PairEndsAt(body, e - 2) {}
    if NoPair(body) {
      forall k | 0 < k < |s|
        ensures Run(START, s[..k]).auto != START
      {
        if k == 1 {
          assert s[..1] == [IAC];
          RunOne(START, IAC);
        } else {
          assert s[..k][..2] == [IAC, SB];
          forall e | 4 <= e <= k ensures !PairEndsAt(s[..k], e) {
            assert PairEndsAt(s[..k], e) ==> PairEndsAt(s, e);
          }
          UnterminatedIsHeld(s[..k]);
        }
      }
    } else {
      var some :| PairEndsAt(body, some);
      assert PairEndsAt(s, some + 2);
      var e := FirstPair(s);
      assert s[..e][..2] == [IAC, SB];
      forall d | 4 <= d < e ensures !PairEndsAt(s[..e], d) {
        assert PairEndsAt(s[..e], d) ==> PairEndsAt(s, d);
      }
      TerminatedVanishes(s[..e]);
      assert e <= some + 2 < |s|;
    }
  }

  // ---------------------------------------------------------------------
  // Whole streams as the RFCs write them
  // ---------------------------------------------------------------------

  /** As the RFCs write a token; the body of a subnegotiation is its payload. */
  function RfcBytes(t: Token): seq<Byte> {
    if t.Subnegotiation? then RfcSubneg(t.body) else t.Bytes()
  }

  function RfcRender(ts: seq<Token>): seq<Byte> {
    if ts == [] then [] else RfcBytes(ts[0]) + RfcRender(ts[1..])
  }

  function Emitted(ts: seq<Token>): seq<Byte> {
    if ts == [] then []
    else
      (match ts[0] case Data(b) => [b] case Subnegotiation(p) => Leak(p, false) case _ => []) + Emitted(ts[1..])
  }

  lemma {:induction false} RfcRun(ts: seq<Token>)
    requires forall t | t in ts :: t.Subnegotiation? || t.WellFormed()
    ensures Run(START, RfcRender(ts)) == Ran(START, Emitted(ts))
  {
    if ts == [] {
    } else {
      RfcRun(ts[1..]);
      if ts[0].Subnegotiation? {
        RfcSubnegotiation(ts[0].body);
      } else {
        TokenRun(ts[0]);
      }
      RunConcat(START, RfcBytes(ts[0]), RfcRender(ts[1..]));
    }
  }

  /** A stream as the RFCs write it gives its data exactly if no payload has an IAC SE before its end. */
  lemma RfcStreamIff(ts: seq<Token>)
    requires forall t | t in ts :: t.Subnegotiation? || t.WellFormed()
    ensures Run(START, RfcRender(ts)).auto == START
    ensures Run(START, RfcRender(ts)).out == DataOf(ts) <==>
            forall t | t in ts && t.Subnegotiation? :: NoEarlyPair(t.body)
  {
    RfcRun(ts);
    EmittedIff(ts);
  }

  lemma {:induction false} EmittedIff(ts: seq<Token>)
    ensures |Emitted(ts)| >= |DataOf(ts)|
    ensures (forall t | t in ts && t.Subnegotiation? :: NoEarlyPair(t.body)) ==> Emitted(ts) == DataOf(ts)
    ensures !(forall t | t in ts && t.Subnegotiation? :: NoEarlyPair(t.body)) ==> |Emitted(ts)| > |DataOf(ts)|
  {
    if ts == [] {
    } else {
      EmittedIff(ts[1..]);
      if ts[0].Subnegotiation? {
        LeakIff(ts[0].body, false);
      }
      assert forall t | t in ts :: t == ts[0] || t in ts[1..];
      assert ts[0] in ts && forall t | t in ts[1..] :: t in ts;
    }
  }

  /** byte(x >> 8) and byte(x & 0xFF) of a Go int. */
  function HighByte(x: int): Byte { (x / 256) % 256 }
  function LowByte(x: int): Byte { x % 256 }

  function NawsMessage(h: int, w: int): seq<Byte> {
    [IAC, WILL, NAWS, IAC, SB, NAWS, HighByte(w), LowByte(w), HighByte(h), LowByte(h), IAC, SE]
  }

  /** RFC 1073, section 2: the size as an RFC 855 subnegotiation after the WILL. */
  function RfcNaws(h: int, w: int): seq<Byte> {
    [IAC, WILL, NAWS, IAC, SB, NAWS] + Escape([HighByte(w), LowByte(w), HighByte(h), LowByte(h)]) + [IAC, SE]
  }

  lemma {:induction false} EscapeLength(p: seq<Byte>)
    ensures |Escape(p)| >= |p|
    ensures IAC !in p ==> Escape(p) == p
    ensures IAC in p ==> |Escape(p)| > |p|
  {
    if p == [] {
    } else {
      EscapeLength(p[1..]);
      assert [p[0]] + p[1..] == p;
    }
  }

  /** The message sent is the one RFC 1073 prescribes exactly when none of the four size bytes is IAC. */
  lemma NawsIsRfc(h: int, w: int)
    ensures NawsMessage(h, w) == RfcNaws(h, w) <==> IAC !in [HighByte(w), LowByte(w), HighByte(h), LowByte(h)]
  {
    var size := [HighByte(w), LowByte(w), HighByte(h), LowByte(h)];
    EscapeLength(size);
    assert NawsMessage(h, w) == [IAC, WILL, NAWS, IAC, SB, NAWS] + size + [IAC, SE];
  }

  /** The peer reads back the size sent, for sizes that fit the protocol's 16 bits. */
  lemma NawsCarriesSize(h: int, w: int)
    requires 0 <= h < 0x1_0000 && 0 <= w < 0x1_0000
    ensures var m := NawsMessage(h, w);
            m[6] as int * 256 + m[7] == w && m[8] as int * 256 + m[9] == h
  {
    assert w == (w / 256) * 256 + w % 256 && h == (h / 256) * 256 + h % 256;
  }
}
