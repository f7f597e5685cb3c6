/**
 RingBuffer of push/history/ringbuffer.go (and its twin pkg/ringbuffer): a fixed
 array with head, tail and count, seen as a bounded sequence that keeps the
 newest elements. Resize stores tail = count; when the resized buffer is full
 that index lies one past the array, and the next Push panics. The class keeps
 that line as it is: a buffer in that state is "jammed".
 */
module RingBuffers {

  /** What a caller can observe: the elements, oldest first, the capacity, and whether Push panics. */
  datatype Bounded<T> = Bounded(items: seq<T>, cap: nat, jammed: bool)

  /** The newest n elements, or all if there are fewer. */
  function LastN<T>(s: seq<T>, n: nat): (r: seq<T>)
    ensures |r| == if n <= |s| then n else |s|
    ensures r <= s || n < |s|
  {
    if n <= |s| then s[|s| - n..] else s
  }

  function Pushed<T>(b: Bounded<T>, x: T): Bounded<T> {
    if b.jammed then b else Bounded(LastN(b.items + [x], b.cap), b.cap, false)
  }

  function Resized<T>(b: Bounded<T>, n: int): Bounded<T> {
    if n <= 0 || n == b.cap then b
    else Bounded(LastN(b.items, n), n, |b.items| >= n)
  }

  function Cleared<T>(b: Bounded<T>): Bounded<T> {
    Bounded([], b.cap, false)
  }

  // ---------------------------------------------------------------------
  // Circular slices of a sequence
  // ---------------------------------------------------------------------

  /** The index k places after i on a circle of n places. */
  function Ahead(i: nat, k: nat, n: nat): (r: nat)
    requires i < n && k <= n
    ensures r < n
  {
    if i + k < n then i + k else i + k - n
  }

  /** count elements of d from head on, continuing at the front. */
  function Circle<T>(d: seq<T>, head: nat, count: nat): (r: seq<T>)
    requires head < |d| && count <= |d|
    ensures |r| == count
  {
    seq(count, k requires 0 <= k < count => d[Ahead(head, k, |d|)])
  }

  lemma CircleIsTwoSlices<T>(d: seq<T>, head: nat, count: nat)
    requires head < |d| && count <= |d|
    ensures head + count <= |d| ==> Circle(d, head, count) == d[head..head + count]
    ensures head + count > |d| ==> Circle(d, head, count) == d[head..] + d[..head + count - |d|]
  {}

  lemma CircleGrows<T>(d: seq<T>, head: nat, count: nat, x: T)
    requires head < |d| && count < |d|
    ensures Circle(d[Ahead(head, count, |d|) := x], head, count + 1) == Circle(d, head, count) + [x]
  {}

  lemma CircleTurns<T>(d: seq<T>, head: nat, x: T)
    requires head < |d|
    ensures Circle(d[head := x], Ahead(head, 1, |d|), |d|) == LastN(Circle(d, head, |d|) + [x], |d|)
  {}

  /** Both cases of Push. */
  lemma PushCircle<T>(d: seq<T>, head: nat, count: nat, tail: nat, x: T)
    requires head < |d| && count <= |d| && tail == Ahead(head, count, |d|)
    ensures count < |d| ==> Circle(d[tail := x], head, count + 1) == LastN(Circle(d, head, count) + [x], |d|)
    ensures count < |d| ==> Ahead(tail, 1, |d|) == Ahead(head, count + 1, |d|)
    ensures count == |d| ==>
      Circle(d[tail := x], Ahead(head, 1, |d|), count) == LastN(Circle(d, head, count) + [x], |d|)
    ensures count == |d| ==> Ahead(tail, 1, |d|) == Ahead(Ahead(head, 1, |d|), count, |d|)
  {
    if count < |d| {
      CircleGrows(d, head, count, x);
    } else {
      CircleTurns(d, head, x);
    }
  }

  lemma CircleTail<T>(d: seq<T>, head: nat, count: nat, n: nat)
    requires head < |d| && n <= count <= |d| && 1 <= n
    ensures Circle(d, Ahead(head, count - n, |d|), n) == LastN(Circle(d, head, count), n)
  {
    var last, tail := LastN(Circle(d, head, count), n), Circle(d, Ahead(head, count - n, |d|), n);
    assert last == Circle(d, head, count)[count - n..];
    forall k | 0 <= k < n
      ensures tail[k] == last[k]
    {
      assert Ahead(Ahead(head, count - n, |d|), k, |d|) == Ahead(head, count - n + k, |d|);
    }
  }

  /** The start index of GetLast. */
  lemma StartIndex(head: nat, count: nat, tail: nat, n: nat, size: nat)
    requires head < size && 1 <= n <= count <= size
    requires tail == Ahead(head, count, size) || (tail == size && head == 0 && count == size)
    ensures (tail - n + size) % size == Ahead(head, count - n, size)
  {
    var start := Ahead(head, count - n, size);
    var turns := if tail - n + size - start == 0 then 0 else 1;
    assert tail - n + size - start == 0 || tail - n + size - start == size;
    ModIs(tail - n + size, size, turns, start);
  }

  lemma ModIs(i: nat, size: nat, q: nat, r: nat)
    requires r < size && i == q * size + r
    ensures i % size == r
  {
    var p := i / size;
    assert (q - p) * size == q * size - p * size;
    SmallMultiple(q - p, size);
  }

  lemma SmallMultiple(k: int, n: nat)
    requires k * n < n && -(k * n) < n
    ensures k == 0
  {
    if k >= 1 {
      MulAtLeast(k, n);
    } else if k <= -1 {
      MulAtLeast(-k, n);
    }
  }

  lemma MulAtLeast(k: int, n: nat)
    requires k >= 1
    ensures k * n >= n
  {}

  class RingBuffer<T(0)> {
    var data: array<T>
    var size: nat
    var head: nat
    var tail: nat
    var count: nat

    ghost predicate Valid()
      reads this
    {
      && size == data.Length >= 1
      && head < size && count <= size
      && (tail == Ahead(head, count, size)
          || (tail == size && head == 0 && count == size))
    }

    ghost function Items(): (r: seq<T>)
      reads this, data
      requires Valid()
      ensures |r| == count
    {
      Circle(data[..], head, count)
    }

    ghost function View(): Bounded<T>
      reads this, data
      requires Valid()
    {
      Bounded(Items(), size, tail == size)
    }

    constructor (n: int)
      ensures Valid() && fresh(data)
      ensures View() == Bounded([], if n <= 0 then 1024 else n, false)
    {
      var s := if n <= 0 then 1024 else n;
      data := new T[s];
      size := s;
      head, tail, count := 0, 0, 0;
    }

    /** Writing data[tail] panics when tail is out of range; nothing has changed then. */
    method Push(item: T) returns (panicked: bool)
      requires Valid()
      modifies this, data
      ensures Valid() && data == old(data)
      ensures panicked == old(View().jammed)
      ensures View() == Pushed(old(View()), item)
    {
      if tail >= data.Length {
        return true;
      }
      ghost var before := data[..];
      ghost var items := Items();
      Wrap(tail, size);
      Wrap(head, size);
      PushCircle(before, head, count, tail, item);
      data[tail] := item;
      assert data[..] == before[tail := item];
      tail := (tail + 1) % size;
      if count < size {
        count := count + 1;
      } else {
        head := (head + 1) % size;
      }
      assert Valid() && Items() == LastN(items + [item], size);
      panicked := false;
    }

    method GetAll() returns (result: seq<T>)
      requires Valid()
      ensures result == Items()
    {
      if count == 0 {
        return [];
      }
      if head < tail {
        result := data[head..tail];
      } else {
        result := data[head..] + data[..tail];
      }
      CircleIsTwoSlices(data[..], head, count);
    }

    method GetLast(want: int) returns (result: seq<T>)
      requires Valid()
      ensures result == LastN(Items(), if want <= 0 then 0 else want)
    {
      if want <= 0 || count == 0 {
        return [];
      }
      var n := if want >= count then count else want;
      var start := StartOf(n);
      CircleTail(data[..], head, count, n);
      result := CopyFrom(start, n);
      assert result == LastN(Items(), n);
    }

    /** Where the newest n elements begin. */
    method StartOf(n: nat) returns (start: nat)
      requires Valid() && 1 <= n <= count
      ensures start == Ahead(head, count - n, size) < size
    {
      StartIndex(head, count, tail, n, size);
      start := (tail - n + size) % size;
    }

    /** n elements from `start` on, in one piece or in two. */
    method CopyFrom(start: nat, n: nat) returns (result: seq<T>)
      requires Valid() && start < size && n <= size
      ensures result == Circle(data[..], start, n)
    {
      ghost var d := data[..];
      CircleIsTwoSlices(d, start, n);
      if start + n <= size {
        result := data[start..start + n];
        assert result == d[start..start + n];
      } else {
        result := data[start..] + data[..n - (size - start)];
        assert result == d[start..] + d[..n - (size - start)];
      }
    }

    method Count() returns (n: nat)
      requires Valid()
      ensures n == |Items()|
    {
      n := count;
    }

    method Resize(newSize: int)
      requires Valid()
      modifies this
      ensures Valid() && (data == old(data) || fresh(data))
      ensures View() == Resized(old(View()), newSize)
      ensures newSize > 0 && newSize != old(size) ==> head == 0 && tail == count
    {
      if newSize <= 0 || newSize == size {
        return;
      }
      ghost var before := Items();
      var newData := new T[newSize];
      if count > 0 {
        var all := GetAll();
        if |all| > newSize {
          all := all[|all| - newSize..];
        }
        forall i | 0 <= i < |all| {
          newData[i] := all[i];
        }
        assert all == LastN(before, newSize);
        assert Circle(newData[..], 0, |all|) == all;
        count := |all|;
        head := 0;
        tail := count;
      } else {
        count, head, tail := 0, 0, 0;
      }
      data := newData;
      size := newSize;
    }

    /** Resize with the index its documentation intends, count % newSize, in place of count. */
    method ResizeAsIntended(newSize: int)
      requires Valid() && !View().jammed
      modifies this
      ensures Valid() && (data == old(data) || fresh(data))
      ensures View() == Intended(old(View()), Op.Resize(newSize))
    {
      if newSize <= 0 || newSize == size {
        return;
      }
      Resize(newSize);
      ModIs(count, size, if count == size then 1 else 0, if count == size then 0 else count);
      tail := count % size;
    }

    method Clear()
      requires Valid()
      modifies this
      ensures Valid() && data == old(data)
      ensures View() == Cleared(old(View()))
    {
      head, tail, count := 0, 0, 0;
    }
  }

  lemma Wrap(i: nat, size: nat)
    requires i < size
    ensures (i + 1) % size == Ahead(i, 1, size)
  {}

  // ---------------------------------------------------------------------
  // Runs
  // ---------------------------------------------------------------------

  datatype Op<T> = Push(x: T) | Resize(n: int) | Clear

  function Apply<T>(b: Bounded<T>, op: Op<T>): Bounded<T> {
    match op
    case Push(x) => Pushed(b, x)
    case Resize(n) => Resized(b, n)
    case Clear => Cleared(b)
  }

  function Run<T>(b: Bounded<T>, ops: seq<Op<T>>): Bounded<T>
    decreases |ops|
  {
    if ops == [] then b else Run(Apply(b, ops[0]), ops[1..])
  }

  lemma {:induction false} RunInTwo<T>(b: Bounded<T>, xs: seq<Op<T>>, ys: seq<Op<T>>)
    ensures Run(b, xs + ys) == Run(Run(b, xs), ys)
    decreases |xs|
  {
    if xs == [] {
      assert xs + ys == ys;
    } else {
      assert (xs + ys)[0] == xs[0] && (xs + ys)[1..] == xs[1..] + ys;
      RunInTwo(Apply(b, xs[0]), xs[1..], ys);
    }
  }

  predicate Sound<T>(b: Bounded<T>) {
    b.cap >= 1 && |b.items| <= b.cap && (b.jammed ==> |b.items| == b.cap)
  }

  /** No Push of the run panics. */
  predicate NeverPanics<T>(b: Bounded<T>, ops: seq<Op<T>>)
    decreases |ops|
  {
    ops == [] || ((ops[0].Push? ==> !b.jammed) && NeverPanics(Apply(b, ops[0]), ops[1..]))
  }

  /** The bounded sequence the documentation describes: Push always stores. */
  function Intended<T>(b: Bounded<T>, op: Op<T>): Bounded<T> {
    Apply(b.(jammed := false), op).(jammed := false)
  }

  function IntendedRun<T>(b: Bounded<T>, ops: seq<Op<T>>): Bounded<T>
    decreases |ops|
  {
    if ops == [] then b else IntendedRun(Intended(b, ops[0]), ops[1..])
  }

  /** A run without panics shows exactly the documented bounded sequence. */
  lemma {:induction false} WithoutPanicAsIntended<T>(b: Bounded<T>, ops: seq<Op<T>>)
    requires NeverPanics(b, ops)
    ensures Run(b, ops).items == IntendedRun(b.(jammed := false), ops).items
    ensures Run(b, ops).cap == IntendedRun(b.(jammed := false), ops).cap
    decreases |ops|
  {
    if ops == [] {
    } else {
      WithoutPanicAsIntended(Apply(b, ops[0]), ops[1..]);
    }
  }

  /**
   When does the Push after a Resize(n) panic? Exactly if n is a real change of size and
   the buffer already holds at least n elements, so that the resized buffer is full.
   */
  lemma PushAfterResizePanics<T>(b: Bounded<T>, n: int)
    requires Sound(b) && !b.jammed
    ensures Resized(b, n).jammed <==> 0 < n <= |b.items| && n != b.cap
  {}

  /** Once jammed, pushes panic for ever and change nothing, until Clear or a Resize to another size. */
  lemma {:induction false} JammedStaysJammed<T>(b: Bounded<T>, ops: seq<Op<T>>)
    requires b.jammed && forall op | op in ops :: op.Push? || (op.Resize? && (op.n <= 0 || op.n == b.cap))
    ensures Run(b, ops) == b
    decreases |ops|
  {
    if ops == [] {
    } else {
      assert ops[0] in ops;
      assert forall op | op in ops[1..] :: op in ops;
      JammedStaysJammed(b, ops[1..]);
    }
  }

  /** Concretely: capacity 4, three elements, Resize(2), Push. */
  lemma ResizeBreaksPush()
    ensures var b := Run(Bounded([], 4, false), [Push(1), Push(2), Push(3), Resize(2)]);
            b.items == [2, 3] && b.jammed
    ensures !NeverPanics(Bounded([], 4, false), [Push(1), Push(2), Push(3), Resize(2), Push(4)])
  {
    var b1 := Bounded([1], 4, false);
    var b2 := Bounded([1, 2], 4, false);
    var b3 := Bounded([1, 2, 3], 4, false);
    assert [] + [1] == [1] && [1] + [2] == [1, 2] && [1, 2] + [3] == [1, 2, 3];
    assert Apply(b3, Resize(2)) == Bounded([2, 3], 2, true);
    calc {
      Run(Bounded([], 4, false), [Push(1), Push(2), Push(3), Resize(2)]);
      { assert [Push(1), Push(2), Push(3), Resize(2)][1..] == [Push(2), Push(3), Resize(2)]; }
      Run(b1, [Push(2), Push(3), Resize(2)]);
      { assert [Push(2), Push(3), Resize(2)][1..] == [Push(3), Resize(2)]; }
      Run(b2, [Push(3), Resize(2)]);
      { assert [Push(3), Resize(2)][1..] == [Resize(2)]; }
      Run(b3, [Resize(2)]);
    }
    NotPanicFree(Bounded([], 4, false), [Push(1), Push(2), Push(3), Resize(2)], 4);
    assert [Push(1), Push(2), Push(3), Resize(2)] + [Push(4)] == [Push(1), Push(2), Push(3), Resize(2), Push(4)];
  }

  lemma {:induction false} NotPanicFree<T>(b: Bounded<T>, ops: seq<Op<T>>, x: T)
    requires Run(b, ops).jammed
    ensures !NeverPanics(b, ops + [Push(x)])
    decreases |ops|
  {
    if ops == [] {
      assert (ops + [Push(x)])[0] == Push(x);
    } else {
      assert (ops + [Push(x)])[0] == ops[0] && (ops + [Push(x)])[1..] == ops[1..] + [Push(x)];
      NotPanicFree(Apply(b, ops[0]), ops[1..], x);
    }
  }

  // ---------------------------------------------------------------------
  // The contents are the end of the log
  // ---------------------------------------------------------------------

  /** What has been stored since the last Clear, given `log` stored before. */
  function Log<T>(b: Bounded<T>, log: seq<T>, ops: seq<Op<T>>): seq<T>
    decreases |ops|
  {
    if ops == [] then log
    else
      var more := match ops[0]
        case Push(x) => if b.jammed then log else log + [x]
        case Resize(_) => log
        case Clear => [];
      Log(Apply(b, ops[0]), more, ops[1..])
  }

  predicate IsSuffix<T(==)>(s: seq<T>, log: seq<T>) {
    |s| <= |log| && s == log[|log| - |s|..]
  }

  /** Resize keeps the newest elements, and as many of them as there is room for. */
  lemma ResizeKeepsNewest<T>(b: Bounded<T>, n: int)
    requires Sound(b)
    ensures Resized(b, n).cap == if n > 0 then n else b.cap
    ensures IsSuffix(Resized(b, n).items, b.items)
    ensures |Resized(b, n).items| == if 0 < n < |b.items| then n else |b.items|
  {}

  /** Push puts the new element behind the others and gives up the oldest one only if there is no room. */
  lemma PushKeepsNewest<T>(b: Bounded<T>, x: T)
    requires Sound(b) && !b.jammed
    ensures var c := Pushed(b, x);
      && c.cap == b.cap && !c.jammed
      && IsSuffix(c.items, b.items + [x])
      && |c.items| == if |b.items| < b.cap then |b.items| + 1 else b.cap
  {}

  /** How many elements a buffer holds that holds `count` of at most `cap` before the operations. */
  function Kept<T>(count: nat, cap: nat, ops: seq<Op<T>>): nat
    decreases |ops|
  {
    if ops == [] then count
    else match ops[0]
      case Push(_) => Kept(if count < cap then count + 1 else cap, cap, ops[1..])
      case Resize(n) => if n <= 0 then Kept(count, cap, ops[1..]) else Kept(if count < n then count else n, n, ops[1..])
      case Clear => Kept(0, cap, ops[1..])
  }

  lemma SuffixOfMore<T>(s: seq<T>, log: seq<T>, more: seq<T>, n: nat)
    requires IsSuffix(s, log)
    ensures IsSuffix(LastN(s + more, n), log + more)
    ensures log + [] == log && s + [] == s
  {
    var front := log[..|log| - |s|];
    assert log == front + s;
    assert log + more == front + (s + more);
    SuffixOfSuffix(front, s + more, n);
  }

  lemma SuffixOfSuffix<T>(front: seq<T>, s: seq<T>, n: nat)
    ensures IsSuffix(LastN(s, n), front + s)
  {}

  lemma OneKept<T>(b: Bounded<T>, op: Op<T>)
    requires Sound(b)
    ensures Sound(Apply(b, op)) && |Apply(b, op).items| == Kept(|b.items|, b.cap, [op])
    ensures Apply(b, op).cap == if op.Resize? && op.n > 0 then op.n else b.cap
    ensures !b.jammed ==> Sound(Intended(b, op)) && !Intended(b, op).jammed && Intended(b, op).cap == Apply(b, op).cap
                          && |Intended(b, op).items| == |Apply(b, op).items|
  {
    var ops := [op];
    assert ops[1..] == [];
  }

  lemma KeptInTwo<T>(count: nat, cap: nat, ops: seq<Op<T>>)
    requires ops != []
    ensures Kept(count, cap, ops) ==
            Kept(Kept(count, cap, [ops[0]]), if ops[0].Resize? && ops[0].n > 0 then ops[0].n else cap, ops[1..])
  {
    var one := [ops[0]];
    assert one[1..] == [];
  }

  lemma {:induction false} KeptIsHeld<T>(b: Bounded<T>, ops: seq<Op<T>>)
    requires Sound(b)
    ensures |Run(b, ops).items| == Kept(|b.items|, b.cap, ops)
    ensures !b.jammed ==> |IntendedRun(b, ops).items| == Kept(|b.items|, b.cap, ops)
    decreases |ops|
  {
    if ops == [] {
    } else {
      OneKept(b, ops[0]);
      KeptInTwo(|b.items|, b.cap, ops);
      KeptIsHeld(Apply(b, ops[0]), ops[1..]);
      if !b.jammed {
        KeptIsHeld(Intended(b, ops[0]), ops[1..]);
      }
    }
  }

  /**
   After any run the contents are the newest elements of what was stored since the last Clear, and
   none is given up for which there was room.
   */
  lemma {:induction false} ContentsAreLogSuffix<T>(b: Bounded<T>, log: seq<T>, ops: seq<Op<T>>)
    requires Sound(b) && IsSuffix(b.items, log)
    ensures Sound(Run(b, ops)) && IsSuffix(Run(b, ops).items, Log(b, log, ops))
    ensures |Run(b, ops).items| == Kept(|b.items|, b.cap, ops)
    decreases |ops|
  {
    if ops == [] {
    } else {
      var c := Apply(b, ops[0]);
      var more := match ops[0]
        case Push(x) => if b.jammed then log else log + [x]
        case Resize(_) => log
        case Clear => [];
      match ops[0] {
        case Push(x) =>
          if !b.jammed { SuffixOfMore(b.items, log, [x], b.cap); }
        case Resize(n) =>
          if n > 0 { SuffixOfMore(b.items, log, [], n); }
        case Clear =>
      }
      ContentsAreLogSuffix(c, more, ops[1..]);
    }
    KeptIsHeld(b, ops);
  }

  /** All pushes since the last Clear. */
  function Pushes<T>(log: seq<T>, ops: seq<Op<T>>): seq<T>
    decreases |ops|
  {
    if ops == [] then log
    else
      var more := match ops[0] case Push(x) => log + [x] case Resize(_) => log case Clear => [];
      Pushes(more, ops[1..])
  }

  /** With the intended Resize no push is ever lost before its turn. */
  lemma {:induction false} IntendedContentsAreLogSuffix<T>(b: Bounded<T>, log: seq<T>, ops: seq<Op<T>>)
    requires Sound(b) && !b.jammed && IsSuffix(b.items, log)
    ensures Sound(IntendedRun(b, ops)) && !IntendedRun(b, ops).jammed
    ensures IsSuffix(IntendedRun(b, ops).items, Pushes(log, ops))
    ensures |IntendedRun(b, ops).items| == Kept(|b.items|, b.cap, ops)
    decreases |ops|
  {
    if ops == [] {
    } else {
      var c := Intended(b, ops[0]);
      var more := match ops[0] case Push(x) => log + [x] case Resize(_) => log case Clear => [];
      match ops[0] {
        case Push(x) =>
          SuffixOfMore(b.items, log, [x], b.cap);
        case Resize(n) =>
          if n > 0 { SuffixOfMore(b.items, log, [], n); }
        case Clear =>
      }
      IntendedContentsAreLogSuffix(c, more, ops[1..]);
    }
    KeptIsHeld(b, ops);
  }

  /** Pushing a list onto a working buffer keeps the newest `cap` of everything. */
  function PushAll<T>(b: Bounded<T>, xs: seq<T>): Bounded<T>
    decreases |xs|
  {
    if xs == [] then b else PushAll(Pushed(b, xs[0]), xs[1..])
  }

  lemma {:induction false} PushAllKeepsNewest<T>(b: Bounded<T>, xs: seq<T>)
    requires Sound(b) && !b.jammed
    ensures PushAll(b, xs) == Bounded(LastN(b.items + xs, b.cap), b.cap, false)
    decreases |xs|
  {
    if xs == [] {
      assert b.items + xs == b.items;
    } else {
      var c := Pushed(b, xs[0]);
      PushAllKeepsNewest(c, xs[1..]);
      var whole := b.items + xs;
      assert b.items + [xs[0]] + xs[1..] == whole;
      assert LastN(c.items + xs[1..], b.cap) == LastN(whole, b.cap);
    }
  }
}
