/**
 The Telnet command filter of pkg/telnet/client.go: `iacProcessor.feed` reads a
 byte stream in chunks of any size and returns it without its Telnet commands
 (RFC 854, "TELNET COMMAND STRUCTURE"; RFC 855 for subnegotiation). An
 unfinished command is kept in `pending` until the next chunk, unless it has
 grown to MAX_PENDING bytes: then it is flushed to the output unfiltered.

 The reference for the index-based loop is a byte-at-a-time automaton (`Run`).
 */
module TelnetFilter {

  type Byte = x: int | 0 <= x < 256

  const IAC: Byte := 0xFF
  const DONT: Byte := 0xFE
  const DO: Byte := 0xFD
  const WONT: Byte := 0xFC
  const WILL: Byte := 0xFB
  const SB: Byte := 0xFA
  const SE: Byte := 0xF0
  const NAWS: Byte := 0x1F
  const MAX_PENDING := 4096

  predicate IsOptionVerb(c: Byte) {
    c == WILL || c == WONT || c == DO || c == DONT
  }

  // ---------------------------------------------------------------------
  // The reference: one byte at a time
  // ---------------------------------------------------------------------

  /** Where the automaton is inside a command. */
  datatype Phase = Text | Command | Option | Subneg | SubnegIac

  /** `held` is the unfinished command, from its IAC on. */
  datatype Auto = Auto(phase: Phase, held: seq<Byte>)

  datatype Ran = Ran(auto: Auto, out: seq<Byte>)

  const START := Auto(Text, [])

  function Step(a: Auto, b: Byte): Ran {
    match a.phase
    case Text =>
      if b == IAC then Ran(Auto(Command, [b]), []) else Ran(START, [b])
    case Command =>
      if b == IAC then Ran(START, [IAC])
      else if IsOptionVerb(b) then Ran(Auto(Option, a.held + [b]), [])
      else if b == SB then Ran(Auto(Subneg, a.held + [b]), [])
      else Ran(START, [])
    case Option => Ran(START, [])
    case Subneg => Ran(Auto(if b == IAC then SubnegIac else Subneg, a.held + [b]), [])
    case SubnegIac =>
      if b == SE then Ran(START, [])
      else Ran(Auto(if b == IAC then SubnegIac else Subneg, a.held + [b]), [])
  }

  function Run(a: Auto, s: seq<Byte>): Ran
    decreases |s|
  {
    if s == [] then Ran(a, [])
    else
      var first := Step(a, s[0]);
      var rest := Run(first.auto, s[1..]);
      Ran(rest.auto, first.out + rest.out)
  }

  lemma {:induction false} RunConcat(a: Auto, s: seq<Byte>, t: seq<Byte>)
    ensures Run(a, s + t) == Ran(Run(Run(a, s).auto, t).auto, Run(a, s).out + Run(Run(a, s).auto, t).out)
    decreases |s|
  {
    if s == [] {
      assert s + t == t;
    } else {
      assert (s + t)[0] == s[0] && (s + t)[1..] == s[1..] + t;
      RunConcat(Step(a, s[0]).auto, s[1..], t);
    }
  }

  /** An unfinished command: exactly what one pass from the start can hold back. */
  ghost predicate Unfinished(p: seq<Byte>) {
    Run(START, p).auto.held == p && Run(START, p).out == []
  }

  /** The shape of what is held, by phase. */
  ghost predicate Shaped(a: Auto) {
    match a.phase
    case Text => a.held == []
    case Command => a.held == [IAC]
    case Option => |a.held| == 2 && a.held[0] == IAC && IsOptionVerb(a.held[1])
    case Subneg => |a.held| >= 2 && a.held[..2] == [IAC, SB] && a.held[|a.held| - 1] != IAC
    case SubnegIac => |a.held| >= 3 && a.held[..2] == [IAC, SB] && a.held[|a.held| - 1] == IAC
  }

  lemma {:induction false} RunShaped(a: Auto, s: seq<Byte>)
    requires Shaped(a)
    ensures Shaped(Run(a, s).auto)
    decreases |s|
  {
    if s == [] {
    } else {
      RunShaped(Step(a, s[0]).auto, s[1..]);
    }
  }

  /** What an automaton holds replays from the start to that same automaton. */
  lemma {:induction false} HeldReplays(a: Auto, s: seq<Byte>)
    requires Shaped(a) && Run(START, a.held) == Ran(a, [])
    ensures Run(START, Run(a, s).auto.held) == Ran(Run(a, s).auto, [])
    decreases |s|
  {
    if s == [] {
    } else {
      var b := Step(a, s[0]).auto;
      RunConcat(START, a.held, [s[0]]);
      RunOne(a, s[0]);
      RunShaped(a, [s[0]]);
      if b.held == [] {
        assert b == START;
      } else {
        assert b.held == a.held + [s[0]];
      }
      HeldReplays(b, s[1..]);
    }
  }

  lemma RunOne(a: Auto, b: Byte)
    ensures Run(a, [b]) == Step(a, b)
  {
    assert Run(Step(a, b).auto, [b][1..]) == Ran(Step(a, b).auto, []);
    assert Step(a, b).out + [] == Step(a, b).out;
  }

  lemma RunHeldIsUnfinished(s: seq<Byte>)
    ensures Unfinished(Run(START, s).auto.held)
    ensures Run(START, Run(START, s).auto.held) == Ran(Run(START, s).auto, [])
  {
    HeldReplays(START, s);
  }

  /** One pass over held bytes followed by more: the same as going on from where it stopped. */
  lemma ResumeAfterHeld(a: Auto, s: seq<Byte>)
    requires Run(START, a.held) == Ran(a, [])
    ensures Run(START, a.held + s) == Run(a, s)
  {
    RunConcat(START, a.held, s);
    assert [] + Run(a, s).out == Run(a, s).out;
  }

  // ---------------------------------------------------------------------
  // Subnegotiations
  // ---------------------------------------------------------------------

  /** An IAC SE pair ends just before index `e`. */
  ghost predicate PairEndsAt(s: seq<Byte>, e: int) {
    2 <= e <= |s| && s[e - 2] == IAC && s[e - 1] == SE
  }

  ghost predicate NoPair(s: seq<Byte>) {
    forall e :: !PairEndsAt(s, e)
  }

  /** Inside a subnegotiation nothing is emitted and everything is held, up to the first IAC SE. */
  lemma {:induction false} StaysInSubneg(a: Auto, s: seq<Byte>)
    requires Shaped(a) && (a.phase == Subneg || a.phase == SubnegIac)
    requires forall e | |a.held| < e <= |a.held + s| :: !PairEndsAt(a.held + s, e)
    ensures Run(a, s).out == [] && Run(a, s).auto.held == a.held + s
    ensures Run(a, s).auto.phase == Subneg || Run(a, s).auto.phase == SubnegIac
    decreases |s|
  {
    if s == [] {
      assert a.held + s == a.held;
    } else {
      var b := Step(a, s[0]).auto;
      assert !PairEndsAt(a.held + s, |a.held| + 1);
      assert (a.held + s)[|a.held|] == s[0];
      assert (a.held + s)[|a.held| - 1] == a.held[|a.held| - 1];
      assert b.held == a.held + [s[0]];
      assert b.held + s[1..] == a.held + s;
      StaysInSubneg(b, s[1..]);
    }
  }

  /** From IAC SB on: no IAC SE means that all of it is held. */
  lemma UnterminatedIsHeld(s: seq<Byte>)
    requires |s| >= 2 && s[..2] == [IAC, SB]
    requires forall e | 4 <= e <= |s| :: !PairEndsAt(s, e)
    ensures Run(START, s).auto.held == s && Run(START, s).out == []
  {
    var inSubneg := Auto(Subneg, [IAC, SB]);
    OpensSubneg();
    assert s == inSubneg.held + s[2..];
    assert s[0] == s[..2][0] && s[1] == s[..2][1];
    forall e | |inSubneg.held| < e <= |s| ensures !PairEndsAt(s, e) {
      if e == 3 {
        assert s[1] == SB;
      }
    }
    ResumeAfterHeld(inSubneg, s[2..]);
    StaysInSubneg(inSubneg, s[2..]);
  }

  lemma OpensSubneg()
    ensures Run(START, [IAC, SB]) == Ran(Auto(Subneg, [IAC, SB]), [])
  {
    RunConcat(START, [IAC], [SB]);
    RunOne(START, IAC);
    RunOne(Auto(Command, [IAC]), SB);
    assert [IAC] + [SB] == [IAC, SB];
  }

  /** From IAC SB to the first IAC SE: all of it disappears. */
  lemma TerminatedVanishes(s: seq<Byte>)
    requires |s| >= 4 && s[..2] == [IAC, SB] && PairEndsAt(s, |s|)
    requires forall e | 4 <= e < |s| :: !PairEndsAt(s, e)
    ensures Run(START, s) == Ran(START, [])
  {
    var body := s[..|s| - 1];
    assert body[..2] == s[..2];
    forall e | 4 <= e <= |body| ensures !PairEndsAt(body, e) {
      assert !PairEndsAt(s, e);
    }
    UnterminatedIsHeld(body);
    RunShaped(START, body);
    var a := Run(START, body).auto;
    assert body[|body| - 1] == IAC;
    assert body[|body| - 2] == s[|body| - 2];
    assert |body| >= 3;
    RunOne(a, SE);
    RunConcat(START, body, [SE]);
    assert s == body + [SE];
  }

  // ---------------------------------------------------------------------
  // The specification of one call
  // ---------------------------------------------------------------------

  datatype Fed = Fed(out: seq<Byte>, pending: seq<Byte>)

  /** One pass over pending and chunk; an unfinished command that has reached MAX_PENDING is flushed. */
  function FeedSpec(pending: seq<Byte>, chunk: seq<Byte>): Fed {
    var r := Run(START, pending + chunk);
    if |r.auto.held| >= MAX_PENDING then Fed(r.out + r.auto.held, [])
    else Fed(r.out, r.auto.held)
  }

  /** Text without IAC passes through unchanged: the fast path. */
  lemma {:induction false} PlainText(s: seq<Byte>)
    requires IAC !in s
    ensures Run(START, s) == Ran(START, s)
  {
    if s == [] {
    } else {
      PlainText(s[1..]);
      assert [s[0]] + s[1..] == s;
    }
  }

  lemma RunTwo(b: Byte)
    ensures Run(START, [IAC, b]) == Step(Auto(Command, [IAC]), b)
  {
    RunConcat(START, [IAC], [b]);
    RunOne(START, IAC);
    RunOne(Auto(Command, [IAC]), b);
    assert [IAC] + [b] == [IAC, b];
    assert [] + Step(Auto(Command, [IAC]), b).out == Step(Auto(Command, [IAC]), b).out;
  }

  lemma RunThree(verb: Byte, opt: Byte)
    requires IsOptionVerb(verb)
    ensures Run(START, [IAC, verb, opt]) == Ran(START, [])
  {
    RunTwo(verb);
    RunConcat(START, [IAC, verb], [opt]);
    RunOne(Auto(Option, [IAC, verb]), opt);
    assert [IAC, verb] + [opt] == [IAC, verb, opt];
  }

  /**
   The commands of RFC 854 by their numbers: 251 to 254 take an option byte, 255 stands for itself,
   every other command but 250 is two bytes long; none but 255 255 leaves anything in the output.
   */
  lemma CommandsByNumber(c: Byte, o: Byte)
    ensures c != 0xFF ==> Run(START, [c]) == Ran(START, [c])
    ensures Run(START, [0xFF, 0xFF]) == Ran(START, [0xFF])
    ensures 0xFB <= c <= 0xFE ==> Run(START, [0xFF, c]) == Ran(Auto(Option, [0xFF, c]), [])
    ensures 0xFB <= c <= 0xFE ==> Run(START, [0xFF, c, o]) == Ran(START, [])
    ensures c < 0xFA ==> Run(START, [0xFF, c]) == Ran(START, [])
  {
    RunOne(START, c);
    RunTwo(IAC);
    RunTwo(c);
    if 0xFB <= c <= 0xFE {
      RunThree(c, o);
    }
  }

  /** No 255 240 inside, and no 255 at the end. */
  predicate Plain(body: seq<Byte>) {
    && (forall k | 0 < k < |body| :: !(body[k - 1] == 0xFF && body[k] == 0xF0))
    && (body != [] ==> body[|body| - 1] != 0xFF)
  }

  lemma NoPairInside(body: seq<Byte>, e: nat)
    requires Plain(body) && 4 <= e <= |body| + 2
    ensures !PairEndsAt([0xFF, 0xFA] + body, e)
  {
    var s := [IAC, SB] + body;
    assert s[e - 1] == body[e - 3];
    if e > 4 {
      assert s[e - 2] == body[e - 4];
    }
  }

  lemma NoPairBeforeEnd(body: seq<Byte>, e: nat)
    requires Plain(body) && 4 <= e < |body| + 4
    ensures !PairEndsAt([0xFF, 0xFA] + body + [0xFF, 0xF0], e)
  {
    var s := [IAC, SB] + body;
    var t := s + [IAC, SE];
    if e <= |s| {
      NoPairInside(body, e);
      assert t[e - 1] == s[e - 1] && t[e - 2] == s[e - 2];
    } else {
      assert t[e - 2] == s[|s| - 1];
    }
  }

  /** 250 opens a subnegotiation, in which everything is held until 255 240; then nothing is left of it. */
  lemma SubnegotiationByNumber(body: seq<Byte>)
    requires Plain(body)
    ensures Run(START, [0xFF, 0xFA] + body) == Ran(Auto(Subneg, [0xFF, 0xFA] + body), [])
    ensures Run(START, [0xFF, 0xFA] + body + [0xFF, 0xF0]) == Ran(START, [])
  {
    OpenByNumber(body);
    ClosedByNumber(body);
  }

  lemma OpenByNumber(body: seq<Byte>)
    requires Plain(body)
    ensures Run(START, [0xFF, 0xFA] + body) == Ran(Auto(Subneg, [0xFF, 0xFA] + body), [])
  {
    var s := [IAC, SB] + body;
    assert s[..2] == [IAC, SB];
    forall e | 4 <= e <= |s|
      ensures !PairEndsAt(s, e)
    {
      NoPairInside(body, e);
    }
    UnterminatedIsHeld(s);
    RunHeldShape(s);
  }

  lemma ClosedByNumber(body: seq<Byte>)
    requires Plain(body)
    ensures Run(START, [0xFF, 0xFA] + body + [0xFF, 0xF0]) == Ran(START, [])
  {
    var t := [IAC, SB] + body + [IAC, SE];
    assert t[..2] == [IAC, SB];
    forall e | 4 <= e < |t|
      ensures !PairEndsAt(t, e)
    {
      NoPairBeforeEnd(body, e);
    }
    TerminatedVanishes(t);
  }

  /** An open subnegotiation whose last byte is no IAC. */
  lemma RunHeldShape(s: seq<Byte>)
    requires |s| >= 2 && s[..2] == [IAC, SB] && s[|s| - 1] != IAC && Run(START, s).auto.held == s
    ensures Run(START, s).auto == Auto(Subneg, s)
  {
    RunShaped(START, s);
    assert s[..2][1] == s[1] == SB;
    assert !IsOptionVerb(SB);
  }

  /** The loop's step: what was read so far left the automaton in text, so the next token starts afresh. */
  lemma Advance(data: seq<Byte>, i: nat, k: nat, out: seq<Byte>)
    requires i <= k <= |data|
    requires Run(START, data[..i]) == Ran(START, out)
    ensures Run(START, data[..k]) == Ran(Run(START, data[i..k]).auto, out + Run(START, data[i..k]).out)
  {
    RunConcat(START, data[..i], data[i..k]);
    assert data[..i] + data[i..k] == data[..k];
  }

  lemma TextAdvances(data: seq<Byte>, i: nat, out: seq<Byte>)
    requires i < |data| && data[i] != IAC && Run(START, data[..i]) == Ran(START, out)
    ensures Run(START, data[..i + 1]) == Ran(START, out + [data[i]])
  {
    RunOne(START, data[i]);
    Advance(data, i, i + 1, out);
    assert data[i..i + 1] == [data[i]];
  }

  /** A two-byte command disappears; IAC IAC is one literal IAC. */
  lemma CommandAdvances(data: seq<Byte>, i: nat, out: seq<Byte>)
    requires i + 1 < |data| && data[i] == IAC && Run(START, data[..i]) == Ran(START, out)
    requires !IsOptionVerb(data[i + 1]) && data[i + 1] != SB
    ensures Run(START, data[..i + 2]) == Ran(START, if data[i + 1] == IAC then out + [IAC] else out)
  {
    RunTwo(data[i + 1]);
    Advance(data, i, i + 2, out);
    assert data[i..i + 2] == [IAC, data[i + 1]];
    assert out + [] == out;
  }

  lemma OptionAdvances(data: seq<Byte>, i: nat, out: seq<Byte>)
    requires i + 2 < |data| && data[i] == IAC && Run(START, data[..i]) == Ran(START, out)
    requires IsOptionVerb(data[i + 1])
    ensures Run(START, data[..i + 3]) == Ran(START, out)
  {
    RunThree(data[i + 1], data[i + 2]);
    Advance(data, i, i + 3, out);
    assert data[i..i + 3] == [IAC, data[i + 1], data[i + 2]];
    assert out + [] == out;
  }

  lemma SubnegAdvances(data: seq<Byte>, i: nat, j: nat, out: seq<Byte>)
    requires i + 4 <= j <= |data| && data[i] == IAC && data[i + 1] == SB && Run(START, data[..i]) == Ran(START, out)
    requires PairEndsAt(data, j) && forall e | i + 4 <= e < j :: !PairEndsAt(data, e)
    ensures Run(START, data[..j]) == Ran(START, out)
  {
    ShiftPairs(data, i, j);
    assert data[i..j][..2] == [IAC, SB];
    TerminatedVanishes(data[i..j]);
    Advance(data, i, j, out);
    assert out + [] == out;
  }

  lemma ShortTailIsUnfinished(tail: seq<Byte>)
    requires tail == [IAC] || (|tail| == 2 && tail[0] == IAC && IsOptionVerb(tail[1]))
    ensures Unfinished(tail)
  {
    RunOne(START, IAC);
    if |tail| == 2 {
      assert tail == [IAC, tail[1]];
      RunTwo(tail[1]);
    }
  }

  lemma OpenSubnegIsUnfinished(data: seq<Byte>, i: nat)
    requires i + 1 < |data| && data[i] == IAC && data[i + 1] == SB
    requires forall e | i + 4 <= e :: !PairEndsAt(data, e)
    ensures Unfinished(data[i..])
  {
    ShiftPairs(data, i, |data|);
    assert data[i..|data|] == data[i..];
    assert data[i..][..2] == [IAC, SB];
    UnterminatedIsHeld(data[i..]);
  }

  method FindSubnegEnd(data: seq<Byte>, start: nat) returns (end: nat, ok: bool)
    ensures ok ==> start + 2 <= end && PairEndsAt(data, end)
    ensures ok ==> forall e | start + 2 <= e < end :: !PairEndsAt(data, e)
    ensures !ok ==> end == 0 && forall e | start + 2 <= e :: !PairEndsAt(data, e)
  {
    var j := start;
    while j + 1 < |data|
      invariant start <= j
      invariant forall e | start + 2 <= e < j + 2 :: !PairEndsAt(data, e)
    {
      if data[j] == IAC && data[j + 1] == SE {
        return j + 2, true;
      }
      j := j + 1;
    }
    return 0, false;
  }

  class IacProcessor {
    var disabled: bool
    var pending: seq<Byte>

    ghost predicate Valid()
      reads this
    {
      |pending| < MAX_PENDING && Unfinished(pending)
    }

    constructor ()
      ensures Valid() && !disabled && pending == []
    {
      disabled := false;
      pending := [];
    }

    method Disable()
      modifies this`disabled
      ensures disabled
    {
      disabled := true;
    }

    /** Filters one chunk. */
    method Feed(chunk: seq<Byte>) returns (out: seq<Byte>)
      requires Valid()
      modifies this`pending
      ensures Valid()
      ensures disabled ==> out == chunk && pending == old(pending)
      ensures !disabled ==> Fed(out, pending) == FeedSpec(old(pending), chunk)
    {
      if disabled {
        return chunk;
      }
      if |pending| == 0 && IAC !in chunk {
        assert pending + chunk == chunk;
        PlainText(chunk);
        return chunk;
      }
      var data := chunk;
      if |pending| > 0 {
        data := pending + chunk;
        pending := [];
      } else {
        assert pending + chunk == chunk;
      }
      out := [];
      var i := 0;
      while i < |data|
        invariant i <= |data| && pending == []
        invariant data == old(pending) + chunk
        invariant Run(START, data[..i]) == Ran(START, out)
      {
        if data[i] != IAC {
          TextAdvances(data, i, out);
          out := out + [data[i]];
          i := i + 1;
          continue;
        }
        if i + 1 >= |data| {
          ShortTailIsUnfinished(data[i..]);
          StashMeetsSpec(old(pending), chunk, i, out);
          out := Stash(data[i..], out);
          return;
        }
        var cmd := data[i + 1];
        if cmd == IAC {
          CommandAdvances(data, i, out);
          out := out + [IAC];
          i := i + 2;
        } else if IsOptionVerb(cmd) {
          if i + 2 >= |data| {
            ShortTailIsUnfinished(data[i..]);
            StashMeetsSpec(old(pending), chunk, i, out);
            out := Stash(data[i..], out);
            return;
          }
          OptionAdvances(data, i, out);
          i := i + 3;
        } else if cmd == SB {
          var j, ok := FindSubnegEnd(data, i + 2);
          if !ok {
            OpenSubnegIsUnfinished(data, i);
            StashMeetsSpec(old(pending), chunk, i, out);
            out := Stash(data[i..], out);
            return;
          }
          SubnegAdvances(data, i, j, out);
          i := j;
        } else {
          CommandAdvances(data, i, out);
          i := i + 2;
        }
      }
      assert data[..i] == data;
    }

    /** Keeps the unfinished command `tail`, or flushes it if it has grown too long. */
    method Stash(tail: seq<Byte>, out: seq<Byte>) returns (r: seq<Byte>)
      requires pending == [] && Unfinished(tail)
      modifies this`pending
      ensures Valid()
      ensures Fed(r, pending) == if |tail| < MAX_PENDING then Fed(out, tail) else Fed(out + tail, [])
    {
      assert pending + tail == tail;
      pending := pending + tail;
      r := out;
      if |pending| >= MAX_PENDING {
        r := r + pending;
        pending := [];
      }
    }
  }

  /** What Stash returns after the pass stopped at data[i..] is what FeedSpec asks for. */
  lemma StashMeetsSpec(p: seq<Byte>, chunk: seq<Byte>, i: nat, out: seq<Byte>)
    requires i <= |p + chunk|
    requires var data := p + chunk; Run(START, data[..i]) == Ran(START, out) && Unfinished(data[i..])
    ensures var tail := (p + chunk)[i..];
            FeedSpec(p, chunk) == if |tail| < MAX_PENDING then Fed(out, tail) else Fed(out + tail, [])
  {
    var data := p + chunk;
    Advance(data, i, |data|, out);
    assert data[..|data|] == data && data[i..|data|] == data[i..];
    assert out + [] == out;
  }

  lemma ShiftPairs(data: seq<Byte>, i: nat, j: nat)
    requires i <= j <= |data|
    ensures forall e | 2 <= e <= j - i :: PairEndsAt(data[i..j], e) == PairEndsAt(data, i + e)
  {
    forall e | 2 <= e <= j - i ensures PairEndsAt(data[i..j], e) == PairEndsAt(data, i + e) {
      assert data[i..j][e - 1] == data[i + e - 1] && data[i..j][e - 2] == data[i + e - 2];
    }
  }
}
