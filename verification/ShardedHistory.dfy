/**
 ShardedHistory of push/history/sharded.go: sixteen ring buffers, a key picks one
 by its hash. A batch is grouped by shard first and then written shard by shard,
 in whatever order the grouping map is walked.
 */
module ShardedHistories {
  import opened RingBuffers

  const SHARD_COUNT: nat := 16

  /** fnv32(key) % shardCount, for any hash. */
  function Slot(hash: string -> nat, key: string): (i: nat)
    ensures i < SHARD_COUNT
  {
    hash(key) % 16
  }

  // ---------------------------------------------------------------------
  // What the operations do to the sixteen contents
  // ---------------------------------------------------------------------

  /** A record together with the key it is filed under. */
  datatype Keyed<T> = Keyed(key: string, x: T)

  predicate Shape<T>(v: seq<Bounded<T>>) {
    |v| == SHARD_COUNT && forall i :: 0 <= i < SHARD_COUNT ==> Sound(v[i])
  }

  /** Push: an empty key has no shard. */
  function PushOne<T>(hash: string -> nat, v: seq<Bounded<T>>, r: Keyed<T>): (w: seq<Bounded<T>>)
    requires |v| == SHARD_COUNT
    ensures |w| == SHARD_COUNT
  {
    if r.key == "" then v else v[Slot(hash, r.key) := Pushed(v[Slot(hash, r.key)], r.x)]
  }

  /** One Push after the other. */
  function PushEach<T>(hash: string -> nat, v: seq<Bounded<T>>, rs: seq<Keyed<T>>): (w: seq<Bounded<T>>)
    requires |v| == SHARD_COUNT
    ensures |w| == SHARD_COUNT
    decreases |rs|
  {
    if rs == [] then v else PushEach(hash, PushOne(hash, v, rs[0]), rs[1..])
  }

  /** The records of rs that fall into shard i, in order. */
  function Share<T>(hash: string -> nat, rs: seq<Keyed<T>>, i: nat): (xs: seq<T>)
    ensures |xs| <= |rs|
    decreases |rs|
  {
    if rs == [] then []
    else (if Slot(hash, rs[0].key) == i then [rs[0].x] else []) + Share(hash, rs[1..], i)
  }

  /** BatchPush, read off the sixteen shares. */
  function PushShares<T>(hash: string -> nat, v: seq<Bounded<T>>, rs: seq<Keyed<T>>): (w: seq<Bounded<T>>)
    requires |v| == SHARD_COUNT
    ensures |w| == SHARD_COUNT
  {
    seq(SHARD_COUNT, i requires 0 <= i < SHARD_COUNT => PushAll(v[i], Share(hash, rs, i)))
  }

  predicate Named<T>(rs: seq<Keyed<T>>) {
    forall k :: 0 <= k < |rs| ==> rs[k].key != ""
  }

  // ---------------------------------------------------------------------
  // A batch is its single pushes
  // ---------------------------------------------------------------------

  /** Single pushes touch each shard with its own share only. */
  lemma {:induction false} PushEachByShare<T>(hash: string -> nat, v: seq<Bounded<T>>, rs: seq<Keyed<T>>, i: nat)
    requires |v| == SHARD_COUNT && i < SHARD_COUNT && Named(rs)
    ensures PushEach(hash, v, rs)[i] == PushAll(v[i], Share(hash, rs, i))
    decreases |rs|
  {
    if rs == [] {
    } else {
      var w := PushOne(hash, v, rs[0]);
      PushEachByShare(hash, w, rs[1..], i);
      var rest := Share(hash, rs[1..], i);
      if Slot(hash, rs[0].key) == i {
        assert ([rs[0].x] + rest)[1..] == rest;
      } else {
        assert [] + rest == rest;
      }
    }
  }

  /** For named records BatchPush leaves every shard as single pushes in the given order would. */
  lemma BatchIsSingles<T>(hash: string -> nat, v: seq<Bounded<T>>, rs: seq<Keyed<T>>)
    requires |v| == SHARD_COUNT && Named(rs)
    ensures PushShares(hash, v, rs) == PushEach(hash, v, rs)
  {
    forall i | 0 <= i < SHARD_COUNT
      ensures PushShares(hash, v, rs)[i] == PushEach(hash, v, rs)[i]
    {
      PushEachByShare(hash, v, rs, i);
    }
  }

  function OnlyNamed<T>(rs: seq<Keyed<T>>): (r: seq<Keyed<T>>)
    ensures Named(r)
    ensures |r| <= |rs| && (|r| == |rs| <==> Named(rs))
    decreases |rs|
  {
    if rs == [] then [] else (if rs[0].key == "" then [] else [rs[0]]) + OnlyNamed(rs[1..])
  }

  lemma {:induction false} UnnamedAreSkipped<T>(hash: string -> nat, v: seq<Bounded<T>>, rs: seq<Keyed<T>>)
    requires |v| == SHARD_COUNT
    ensures PushEach(hash, v, rs) == PushEach(hash, v, OnlyNamed(rs))
    decreases |rs|
  {
    if rs == [] {
    } else {
      UnnamedAreSkipped(hash, PushOne(hash, v, rs[0]), rs[1..]);
      var rest := OnlyNamed(rs[1..]);
      if rs[0].key == "" {
        assert [] + rest == rest;
      } else {
        assert ([rs[0]] + rest)[1..] == rest;
      }
    }
  }

  predicate HasRoom<T>(v: seq<Bounded<T>>, n: nat) {
    Shape(v) && forall i :: 0 <= i < SHARD_COUNT ==> !v[i].jammed && |v[i].items| + n <= v[i].cap
  }

  /** A share with an unnamed record in it is longer than the same share without. */
  lemma {:induction false} UnnamedShare<T>(hash: string -> nat, rs: seq<Keyed<T>>)
    ensures var i := Slot(hash, "");
      |Share(hash, rs, i)| == |Share(hash, OnlyNamed(rs), i)| + |rs| - |OnlyNamed(rs)|
    decreases |rs|
  {
    if rs == [] {
    } else {
      UnnamedShare(hash, rs[1..]);
      var rest := OnlyNamed(rs[1..]);
      if rs[0].key == "" {
        assert [] + rest == rest;
      } else {
        assert ([rs[0]] + rest)[1..] == rest;
      }
    }
  }

  /**
   Batch and single pushes agree exactly for named records (shown on shards with room,
   where no record can be hidden by a later one): BatchPush files an empty key under
   the hash of the empty string, Push drops it.
   */
  lemma BatchIsSinglesIff<T>(hash: string -> nat, v: seq<Bounded<T>>, rs: seq<Keyed<T>>)
    requires HasRoom(v, |rs|)
    ensures PushShares(hash, v, rs) == PushEach(hash, v, rs) <==> Named(rs)
  {
    if Named(rs) {
      BatchIsSingles(hash, v, rs);
    } else {
      var i := Slot(hash, "");
      var named := OnlyNamed(rs);
      UnnamedAreSkipped(hash, v, rs);
      PushEachByShare(hash, v, named, i);
      UnnamedShare(hash, rs);
      PushAllKeepsNewest(v[i], Share(hash, rs, i));
      PushAllKeepsNewest(v[i], Share(hash, named, i));
      assert |PushShares(hash, v, rs)[i].items| != |PushEach(hash, v, rs)[i].items|;
    }
  }

  // ---------------------------------------------------------------------
  // List
  // ---------------------------------------------------------------------

  function ListOf<T>(hash: string -> nat, v: seq<Bounded<T>>, key: string, n: int): seq<T>
    requires |v| == SHARD_COUNT
  {
    if n < 0 || key == "" then []
    else
      var b := v[Slot(hash, key)];
      if n == 0 then b.items else LastN(b.items, n)
  }

  function Empty<T>(cap: nat): (v: seq<Bounded<T>>)
    ensures |v| == SHARD_COUNT
  {
    seq(SHARD_COUNT, i requires 0 <= i < SHARD_COUNT => Bounded([], cap, false))
  }

  /**
   After any pushes into a new history, List(key, n) is the end of the log of all records
   in the shard of key, whichever key they carry: the newest n of the newest cap.
   */
  lemma ListIsNewestOfShard<T>(hash: string -> nat, cap: nat, rs: seq<Keyed<T>>, key: string, n: nat)
    requires cap >= 1 && Named(rs) && key != ""
    ensures var log := Share(hash, rs, Slot(hash, key));
      ListOf(hash, PushEach(hash, Empty(cap), rs), key, n)
      == LastN(log, if n == 0 || n > cap then cap else n)
  {
    var i := Slot(hash, key);
    var v: seq<Bounded<T>> := Empty(cap);
    var log := Share(hash, rs, i);
    PushEachByShare(hash, v, rs, i);
    PushAllKeepsNewest(v[i], log);
    assert v[i].items + log == log;
    LastOfLast(log, cap, n);
  }

  lemma LastOfLast<T>(s: seq<T>, m: nat, n: nat)
    ensures LastN(LastN(s, m), n) == LastN(s, if n > m then m else n)
  {}

  // ---------------------------------------------------------------------
  // The sharded history itself
  // ---------------------------------------------------------------------

  function Labelled<T>(key: T -> string, records: seq<T>): (rs: seq<Keyed<T>>)
    ensures |rs| == |records|
  {
    seq(|records|, k requires 0 <= k < |records| => Keyed(key(records[k]), records[k]))
  }

  /** What the grouping map of a batch holds for shard i. */
  function Group<T>(shardMap: map<nat, seq<T>>, i: nat): seq<T> {
    if i in shardMap then shardMap[i] else []
  }

  lemma {:induction false} ShareOfMore<T>(hash: string -> nat, rs: seq<Keyed<T>>, r: Keyed<T>, i: nat)
    ensures Share(hash, rs + [r], i) == Share(hash, rs, i) + if Slot(hash, r.key) == i then [r.x] else []
    decreases |rs|
  {
    if rs == [] {
      assert [r][1..] == [];
      assert rs + [r] == [r];
    } else {
      ShareOfMore(hash, rs[1..], r, i);
      assert (rs + [r])[0] == rs[0] && (rs + [r])[1..] == rs[1..] + [r];
      var first := if Slot(hash, rs[0].key) == i then [rs[0].x] else [];
      var last := if Slot(hash, r.key) == i then [r.x] else [];
      assert first + (Share(hash, rs[1..], i) + last) == first + Share(hash, rs[1..], i) + last;
    }
  }

  lemma {:induction false} PushAllMore<T>(b: Bounded<T>, xs: seq<T>, x: T)
    ensures PushAll(b, xs + [x]) == Pushed(PushAll(b, xs), x)
    ensures PushAll(b, xs).jammed == b.jammed
    ensures b.jammed ==> PushAll(b, xs) == b
    decreases |xs|
  {
    if xs == [] {
      assert xs + [x] == [x];
      assert [x][1..] == [];
    } else {
      PushAllMore(Pushed(b, xs[0]), xs[1..], x);
      assert (xs + [x])[1..] == xs[1..] + [x];
    }
  }

  /** The grouping loop of BatchPush. */
  method GroupByShard<T>(hash: string -> nat, key: T -> string, records: seq<T>) returns (shardMap: map<nat, seq<T>>)
    ensures forall i :: i in shardMap ==> i < SHARD_COUNT && shardMap[i] != []
    ensures forall i: nat :: Group(shardMap, i) == Share(hash, Labelled(key, records), i)
  {
    ghost var rs := Labelled(key, records);
    shardMap := map[];
    for k := 0 to |records|
      invariant forall i :: i in shardMap ==> i < SHARD_COUNT && shardMap[i] != []
      invariant forall i: nat :: Group(shardMap, i) == Share(hash, rs[..k], i)
    {
      var i := Slot(hash, key(records[k]));
      ghost var before := shardMap;
      shardMap := shardMap[i := (if i in shardMap then shardMap[i] else []) + [records[k]]];
      assert rs[..k + 1] == rs[..k] + [rs[k]];
      forall j: nat
        ensures Group(shardMap, j) == Share(hash, rs[..k + 1], j)
      {
        ShareOfMore(hash, rs[..k], rs[k], j);
        assert Group(before, j) == Share(hash, rs[..k], j);
      }
    }
    assert rs[..|records|] == rs;
  }

  /** The contents when the shards of m outside todo have been written. */
  function Written<T>(v: seq<Bounded<T>>, m: map<nat, seq<T>>, todo: set<nat>): (w: seq<Bounded<T>>)
    requires |v| == SHARD_COUNT
    ensures |w| == SHARD_COUNT
  {
    seq(SHARD_COUNT, i requires 0 <= i < SHARD_COUNT => if i in todo then v[i] else PushAll(v[i], Group(m, i)))
  }

  lemma WrittenOneMore<T>(v: seq<Bounded<T>>, m: map<nat, seq<T>>, todo: set<nat>, i: nat)
    requires |v| == SHARD_COUNT && i < SHARD_COUNT && i in todo && i in m
    ensures Written(v, m, todo)[i] == v[i]
    ensures Written(v, m, todo - {i}) == Written(v, m, todo)[i := PushAll(v[i], m[i])]
  {}

  /** Some shard that gets records of rs panics on a push. */
  ghost predicate HitsJammed<T>(hash: string -> nat, v: seq<Bounded<T>>, rs: seq<Keyed<T>>)
    requires |v| == SHARD_COUNT
  {
    exists i :: 0 <= i < SHARD_COUNT && v[i].jammed && Share(hash, rs, i) != []
  }

  function ResizedAll<T>(v: seq<Bounded<T>>, n: int): seq<Bounded<T>> {
    seq(|v|, i requires 0 <= i < |v| => Resized(v[i], n))
  }

  function ClearedAll<T>(v: seq<Bounded<T>>): seq<Bounded<T>> {
    seq(|v|, i requires 0 <= i < |v| => Cleared(v[i]))
  }

  function Total<T>(v: seq<Bounded<T>>, n: nat): nat
    requires n <= |v|
  {
    if n == 0 then 0 else Total(v, n - 1) + |v[n - 1].items|
  }

  lemma {:induction false} TotalWith<T>(v: seq<Bounded<T>>, n: nat, i: nat, b: Bounded<T>)
    requires i < n <= |v|
    ensures Total(v[i := b], n) == Total(v, n) - |v[i].items| + |b.items|
    decreases n
  {
    if i == n - 1 {
      TotalBelow(v, n - 1, i, b);
    } else {
      TotalWith(v, n - 1, i, b);
    }
  }

  lemma {:induction false} TotalBelow<T>(v: seq<Bounded<T>>, n: nat, i: nat, b: Bounded<T>)
    requires n <= i < |v|
    ensures Total(v[i := b], n) == Total(v, n)
    decreases n
  {
    if n == 0 {
    } else {
      TotalBelow(v, n - 1, i, b);
    }
  }

  lemma {:induction false} TotalOfNothing<T>(v: seq<Bounded<T>>, n: nat)
    requires n <= |v| && forall i :: 0 <= i < n ==> v[i].items == []
    ensures Total(v, n) == 0
    decreases n
  {
    if n == 0 {
    } else {
      TotalOfNothing(v, n - 1);
    }
  }

  /** CountAll counts: one more for every record that is stored and costs no other its place, none after a ClearAll. */
  lemma CountAllCounts<T>(hash: string -> nat, v: seq<Bounded<T>>, r: Keyed<T>)
    requires |v| == SHARD_COUNT && forall i :: 0 <= i < SHARD_COUNT ==> Sound(v[i])
    ensures var b := v[Slot(hash, r.key)];
      Total(PushOne(hash, v, r), SHARD_COUNT) ==
        Total(v, SHARD_COUNT) + if r.key != "" && !b.jammed && |b.items| < b.cap then 1 else 0
    ensures Total(ClearedAll(v), SHARD_COUNT) == 0
  {
    var i := Slot(hash, r.key);
    TotalWith(v, SHARD_COUNT, i, Pushed(v[i], r.x));
    TotalOfNothing(ClearedAll(v), SHARD_COUNT);
  }

  lemma WrittenIsShares<T>(hash: string -> nat, v: seq<Bounded<T>>, rs: seq<Keyed<T>>,
                           m: map<nat, seq<T>>, todo: set<nat>)
    requires |v| == SHARD_COUNT
    requires forall i :: i in m ==> i < SHARD_COUNT && m[i] != []
    requires forall i: nat :: Group(m, i) == Share(hash, rs, i)
    ensures Written(v, m, {}) == PushShares(hash, v, rs)
    ensures forall i :: 0 <= i < SHARD_COUNT ==>
      Written(v, m, todo)[i] == v[i] || Written(v, m, todo)[i] == PushShares(hash, v, rs)[i]
    ensures HitsJammed(hash, v, rs) <==> exists i :: i in m && v[i].jammed
  {
    forall i: nat | i < SHARD_COUNT
      ensures Group(m, i) == Share(hash, rs, i)
      ensures i in m <==> Share(hash, rs, i) != []
    {}
  }

  // ---------------------------------------------------------------------
  // Runs: every shard lives its own life
  // ---------------------------------------------------------------------

  /** One call of the history that does not panic. */
  datatype Call<T> = PushRecord(r: Keyed<T>) | PushBatch(rs: seq<Keyed<T>>) | SetSize(n: int)
                   | ClearKey(key: string) | ClearEverything

  function ClearedAt<T>(hash: string -> nat, v: seq<Bounded<T>>, key: string): (w: seq<Bounded<T>>)
    requires |v| == SHARD_COUNT
    ensures |w| == SHARD_COUNT
  {
    if key == "" then v else v[Slot(hash, key) := Cleared(v[Slot(hash, key)])]
  }

  function Called<T>(hash: string -> nat, v: seq<Bounded<T>>, c: Call<T>): (w: seq<Bounded<T>>)
    requires |v| == SHARD_COUNT
    ensures |w| == SHARD_COUNT
  {
    match c
    case PushRecord(r) => PushOne(hash, v, r)
    case PushBatch(rs) => PushShares(hash, v, rs)
    case SetSize(n) => ResizedAll(v, n)
    case ClearKey(key) => ClearedAt(hash, v, key)
    case ClearEverything => ClearedAll(v)
  }

  function CallAll<T>(hash: string -> nat, v: seq<Bounded<T>>, cs: seq<Call<T>>): (w: seq<Bounded<T>>)
    requires |v| == SHARD_COUNT
    ensures |w| == SHARD_COUNT
    decreases |cs|
  {
    if cs == [] then v else CallAll(hash, Called(hash, v, cs[0]), cs[1..])
  }

  function Pushing<T>(xs: seq<T>): seq<Op<T>> {
    seq(|xs|, k requires 0 <= k < |xs| => Op.Push(xs[k]))
  }

  /** What shard i gets to do in a call. */
  function Seen<T>(hash: string -> nat, c: Call<T>, i: nat): seq<Op<T>> {
    match c
    case PushRecord(r) => if r.key != "" && Slot(hash, r.key) == i then [Op.Push(r.x)] else []
    case PushBatch(rs) => Pushing(Share(hash, rs, i))
    case SetSize(n) => [Op.Resize(n)]
    case ClearKey(key) => if key != "" && Slot(hash, key) == i then [Op.Clear] else []
    case ClearEverything => [Op.Clear]
  }

  function SeenAll<T>(hash: string -> nat, cs: seq<Call<T>>, i: nat): seq<Op<T>>
    decreases |cs|
  {
    if cs == [] then [] else Seen(hash, cs[0], i) + SeenAll(hash, cs[1..], i)
  }

  lemma {:induction false} PushAllIsRun<T>(b: Bounded<T>, xs: seq<T>)
    ensures PushAll(b, xs) == Run(b, Pushing(xs))
    decreases |xs|
  {
    if xs == [] {
    } else {
      assert Pushing(xs)[1..] == Pushing(xs[1..]);
      PushAllIsRun(Pushed(b, xs[0]), xs[1..]);
    }
  }

  lemma CallByShard<T>(hash: string -> nat, v: seq<Bounded<T>>, c: Call<T>, i: nat)
    requires |v| == SHARD_COUNT && i < SHARD_COUNT
    ensures Called(hash, v, c)[i] == Run(v[i], Seen(hash, c, i))
  {
    var ops := Seen(hash, c, i);
    if c.PushBatch? {
      PushAllIsRun(v[i], Share(hash, c.rs, i));
    } else if ops != [] {
      assert ops[1..] == [];
    }
  }

  /** Any run of calls leaves shard i as a single ring buffer that saw only the calls for it. */
  lemma {:induction false} EveryShardIsARingBuffer<T>(hash: string -> nat, v: seq<Bounded<T>>, cs: seq<Call<T>>, i: nat)
    requires |v| == SHARD_COUNT && i < SHARD_COUNT
    ensures CallAll(hash, v, cs)[i] == Run(v[i], SeenAll(hash, cs, i))
    decreases |cs|
  {
    if cs == [] {
    } else {
      var w := Called(hash, v, cs[0]);
      CallByShard(hash, v, cs[0], i);
      EveryShardIsARingBuffer(hash, w, cs[1..], i);
      RunInTwo(v[i], Seen(hash, cs[0], i), SeenAll(hash, cs[1..], i));
    }
  }

  lemma ShardIsEndOfLog<T>(hash: string -> nat, cap: nat, cs: seq<Call<T>>, i: nat)
    requires cap >= 1 && i < SHARD_COUNT
    ensures IsSuffix(CallAll(hash, Empty(cap), cs)[i].items, Log(Bounded([], cap, false), [], SeenAll(hash, cs, i)))
  {
    EveryShardIsARingBuffer(hash, Empty(cap), cs, i);
    ContentsAreLogSuffix(Bounded([], cap, false), [], SeenAll(hash, cs, i));
  }

  /** So what a key lists is the end of what its shard stored since its last Clear, whatever happened elsewhere. */
  lemma ListIsEndOfLog<T>(hash: string -> nat, cap: nat, cs: seq<Call<T>>, key: string, n: int)
    requires cap >= 1 && key != ""
    ensures var i := Slot(hash, key);
      var listed := ListOf(hash, CallAll(hash, Empty(cap), cs), key, n);
      var all := ListOf(hash, CallAll(hash, Empty(cap), cs), key, 0);
      && IsSuffix(listed, Log(Bounded([], cap, false), [], SeenAll(hash, cs, i)))
      && (n > 0 ==> listed == LastN(all, n))
  {
    ShardIsEndOfLog(hash, cap, cs, Slot(hash, key));
  }

  // ---------------------------------------------------------------------
  // Keys that share a shard
  // ---------------------------------------------------------------------

  /** Every record is its own key. */
  predicate Honest(cs: seq<Call<string>>) {
    forall c | c in cs :: HonestCall(c)
  }

  predicate HonestCall(c: Call<string>) {
    match c
    case PushRecord(r) => r.x == r.key
    case PushBatch(rs) => forall k :: 0 <= k < |rs| ==> rs[k].x == rs[k].key
    case _ => true
  }

  /** Every record is in the shard of its key. */
  ghost predicate Home(hash: string -> nat, v: seq<Bounded<string>>) {
    |v| == SHARD_COUNT && forall i :: 0 <= i < SHARD_COUNT ==> HomeAt(hash, v[i], i)
  }

  ghost predicate HomeAt(hash: string -> nat, b: Bounded<string>, i: nat) {
    forall x | x in b.items :: Slot(hash, x) == i
  }

  lemma {:induction false} ShareIsHome(hash: string -> nat, rs: seq<Keyed<string>>, i: nat)
    requires HonestCall(PushBatch(rs))
    ensures forall x | x in Share(hash, rs, i) :: Slot(hash, x) == i
    decreases |rs|
  {
    if rs == [] {
    } else {
      ShareIsHome(hash, rs[1..], i);
      assert rs[0].x == rs[0].key;
    }
  }

  lemma {:induction false} PushAllStaysHome(hash: string -> nat, b: Bounded<string>, xs: seq<string>, i: nat)
    requires HomeAt(hash, b, i) && forall x | x in xs :: Slot(hash, x) == i
    ensures HomeAt(hash, PushAll(b, xs), i)
    decreases |xs|
  {
    if xs == [] {
    } else {
      assert xs[0] in xs && forall x | x in xs[1..] :: x in xs;
      PushAllStaysHome(hash, Pushed(b, xs[0]), xs[1..], i);
    }
  }

  lemma CallStaysHome(hash: string -> nat, v: seq<Bounded<string>>, c: Call<string>)
    requires Home(hash, v) && HonestCall(c)
    ensures Home(hash, Called(hash, v, c))
  {
    var w := Called(hash, v, c);
    forall i | 0 <= i < SHARD_COUNT
      ensures HomeAt(hash, w[i], i)
    {
      assert HomeAt(hash, v[i], i);
      if c.PushBatch? {
        ShareIsHome(hash, c.rs, i);
        PushAllStaysHome(hash, v[i], Share(hash, c.rs, i), i);
      }
    }
  }

  lemma {:induction false} RunStaysHome(hash: string -> nat, v: seq<Bounded<string>>, cs: seq<Call<string>>)
    requires Home(hash, v) && Honest(cs)
    ensures Home(hash, CallAll(hash, v, cs))
    decreases |cs|
  {
    if cs == [] {
    } else {
      assert cs[0] in cs && forall c | c in cs[1..] :: c in cs;
      CallStaysHome(hash, v, cs[0]);
      RunStaysHome(hash, Called(hash, v, cs[0]), cs[1..]);
    }
  }

  /** In every run, what is listed under a key are records of that key. */
  ghost predicate ListsOwnOnly(hash: string -> nat, cap: nat, key: string) {
    forall cs | Honest(cs) ::
      forall x | x in ListOf(hash, CallAll(hash, Empty(cap), cs), key, 0) :: x == key
  }

  lemma OneForeign(hash: string -> nat, cap: nat, key: string, other: string)
    requires cap >= 1 && key != "" && Slot(hash, other) == Slot(hash, key)
    ensures ListOf(hash, CallAll(hash, Empty(cap), [PushBatch([Keyed(other, other)])]), key, 0) == [other]
  {
    var rs, i := [Keyed(other, other)], Slot(hash, key);
    assert rs[1..] == [];
    assert Share(hash, rs, i) == [other];
    assert [other][1..] == [] && [] + [other] == [other];
    var c := Call.PushBatch(rs);
    assert [c][1..] == [];
    var b: Bounded<string> := Bounded([], cap, false);
    PushAllKeepsNewest(b, [other]);
    assert LastN(b.items + [other], cap) == [other];
    var v: seq<Bounded<string>> := Empty(cap);
    assert Called(hash, v, c)[i] == PushAll(b, [other]);
    assert CallAll(hash, v, [c]) == Called(hash, v, c);
  }

  /** "Elements of the key" is what List returns exactly if no other key has the same slot. */
  lemma ListsOwnOnlyIff(hash: string -> nat, cap: nat, key: string)
    requires cap >= 1 && key != ""
    ensures ListsOwnOnly(hash, cap, key) <==> forall other | other != key :: Slot(hash, other) != Slot(hash, key)
  {
    if other :| other != key && Slot(hash, other) == Slot(hash, key) {
      OneForeign(hash, cap, key, other);
      var cs := [Call.PushBatch([Keyed(other, other)])];
      assert Honest(cs) && other in ListOf(hash, CallAll(hash, Empty(cap), cs), key, 0);
    } else {
      forall cs, x | Honest(cs) && x in ListOf(hash, CallAll(hash, Empty(cap), cs), key, 0)
        ensures x == key
      {
        assert Home(hash, Empty(cap));
        RunStaysHome(hash, Empty(cap), cs);
        assert HomeAt(hash, CallAll(hash, Empty(cap), cs)[Slot(hash, key)], Slot(hash, key));
      }
    }
  }

  lemma PushedUpTo<T>(b: Bounded<T>, xs: seq<T>, k: nat)
    requires k < |xs|
    ensures PushAll(b, xs[..k + 1]) == Pushed(PushAll(b, xs[..k]), xs[k])
    ensures PushAll(b, xs[..k]).jammed == b.jammed
  {
    assert xs[..k + 1] == xs[..k] + [xs[k]];
    PushAllMore(b, xs[..k], xs[k]);
  }

  /** What List does not show: anything for a negative n or an empty key, more than n for a positive n. */
  lemma ListLimits<T>(hash: string -> nat, v: seq<Bounded<T>>, key: string, n: int)
    requires |v| == SHARD_COUNT
    ensures n < 0 || key == "" ==> ListOf(hash, v, key, n) == []
    ensures n == 0 && key != "" ==> ListOf(hash, v, key, n) == v[Slot(hash, key)].items
    ensures n > 0 && key != "" ==>
      |ListOf(hash, v, key, n)| <= n && IsSuffix(ListOf(hash, v, key, n), v[Slot(hash, key)].items)
  {}

  class ShardedHistory<T(0)> {
    const hash: string -> nat
    const shards: seq<RingBuffer<T>>
    /** The arrays of the shards, and their contents as a caller sees them. */
    ghost var arrays: seq<array<T>>
    ghost var view: seq<Bounded<T>>

    ghost predicate Valid()
      reads this, shards, arrays
    {
      && |shards| == |arrays| == |view| == SHARD_COUNT
      && (forall i :: 0 <= i < SHARD_COUNT ==> shards[i].data == arrays[i])
      && (forall i, j :: 0 <= i < j < SHARD_COUNT ==> shards[i] != shards[j] && arrays[i] != arrays[j])
      && (forall i :: 0 <= i < SHARD_COUNT ==> shards[i].Valid() && shards[i].View() == view[i])
    }

    /** What an operation may do to the footprint: replace arrays by new ones. */
    twostate predicate Grown()
      reads this
    {
      forall i :: 0 <= i < |arrays| ==> (i < |old(arrays)| && arrays[i] == old(arrays)[i]) || fresh(arrays[i])
    }

    constructor (maxSize: int, hash: string -> nat)
      ensures Valid() && fresh(shards) && fresh(arrays)
      ensures this.hash == hash && |shards| == 16
      ensures view == Empty(if maxSize <= 0 then 1024 else maxSize)
    {
      var made: seq<RingBuffer<T>> := [];
      ghost var data: seq<array<T>> := [];
      for i := 0 to SHARD_COUNT
        invariant |made| == |data| == i
        invariant fresh(made) && fresh(data)
        invariant forall i :: 0 <= i < |made| ==> made[i].data == data[i]
        invariant forall i, j :: 0 <= i < j < |made| ==> made[i] != made[j] && data[i] != data[j]
        invariant forall s :: s in made ==>
          s.Valid() && s.View() == Bounded([], if maxSize <= 0 then 1024 else maxSize, false)
      {
        var buffer := new RingBuffer<T>(maxSize);
        made, data := made + [buffer], data + [buffer.data];
      }
      this.hash := hash;
      shards := made;
      arrays, view := data, Empty(if maxSize <= 0 then 1024 else maxSize);
    }

    /** shard.buffer.Push(x) on one shard. */
    method PushAt(i: nat, x: T) returns (panicked: bool)
      requires Valid() && i < SHARD_COUNT
      modifies this`view, shards[i], arrays[i]
      ensures Valid()
      ensures panicked == old(view)[i].jammed
      ensures view == old(view)[i := Pushed(old(view)[i], x)]
    {
      panicked := shards[i].Push(x);
      view := view[i := Pushed(view[i], x)];
    }

    /** A panic leaves the lock of the shard held; only the panic is modelled. */
    method Push(key: string, x: T) returns (panicked: bool)
      requires Valid()
      modifies this`view, shards, arrays
      ensures Valid()
      ensures panicked == (key != "" && old(view)[Slot(hash, key)].jammed)
      ensures view == PushOne(hash, old(view), Keyed(key, x))
    {
      if key == "" {
        return false;
      }
      panicked := PushAt(Slot(hash, key), x);
    }

    method List(key: string, n: int) returns (result: seq<T>)
      requires Valid()
      ensures result == ListOf(hash, view, key, n)
    {
      if n < 0 || key == "" {
        return [];
      }
      var shard := shards[Slot(hash, key)];
      if n == 0 {
        result := shard.GetAll();
      } else {
        result := shard.GetLast(n);
      }
    }

    /**
     Group the records by shard, then write shard after shard in an order the map chooses.
     Whatever the order, without a panic the shards are left as PushShares says; a panic
     stops the batch with every shard either written completely or not at all.
     */
    method BatchPush(key: T -> string, records: seq<T>) returns (panicked: bool)
      requires Valid()
      modifies this`view, shards, arrays
      ensures Valid()
      ensures panicked == HitsJammed(hash, old(view), Labelled(key, records))
      ensures !panicked ==> view == PushShares(hash, old(view), Labelled(key, records))
      ensures forall i :: 0 <= i < SHARD_COUNT ==>
        view[i] == old(view)[i] || view[i] == PushShares(hash, old(view), Labelled(key, records))[i]
    {
      var shardMap := GroupByShard(hash, key, records);
      ghost var v, left := view, {};
      panicked, left := WriteShards(shardMap);
      WrittenIsShares(hash, v, Labelled(key, records), shardMap, left);
    }

    /** The writing loop of BatchPush: the map is walked in an order of its own. */
    method WriteShards(shardMap: map<nat, seq<T>>) returns (panicked: bool, ghost todo: set<nat>)
      requires Valid() && forall i :: i in shardMap ==> i < SHARD_COUNT && shardMap[i] != []
      modifies this`view, shards, arrays
      ensures Valid()
      ensures panicked == exists i :: i in shardMap && old(view)[i].jammed
      ensures view == Written(old(view), shardMap, todo)
      ensures !panicked ==> todo == {}
    {
      ghost var v := view;
      var rest := shardMap.Keys;
      while rest != {}
        invariant rest <= shardMap.Keys && Valid()
        invariant view == Written(v, shardMap, rest)
        invariant forall i :: i in shardMap && i !in rest ==> !v[i].jammed
        decreases |rest|
      {
        var i :| i in rest;
        WrittenOneMore(v, shardMap, rest, i);
        ghost var before := view;
        panicked := WriteShard(i, shardMap[i]);
        if panicked {
          todo := rest;
          return;
        }
        rest := rest - {i};
        assert view == before[i := PushAll(v[i], shardMap[i])] == Written(v, shardMap, rest);
      }
      panicked, todo := false, rest;
    }

    /** The inner loop of BatchPush, under one lock. */
    method WriteShard(i: nat, recs: seq<T>) returns (panicked: bool)
      requires Valid() && i < SHARD_COUNT && recs != []
      modifies this`view, shards[i], arrays[i]
      ensures Valid()
      ensures panicked == old(view)[i].jammed
      ensures panicked ==> view == old(view)
      ensures view == old(view)[i := PushAll(old(view)[i], recs)]
    {
      for k := 0 to |recs|
        invariant Valid()
        invariant k > 0 ==> !old(view)[i].jammed
        invariant view == old(view)[i := PushAll(old(view)[i], recs[..k])]
      {
        PushedUpTo(old(view)[i], recs, k);
        panicked := PushAt(i, recs[k]);
        if panicked {
          PushAllMore(old(view)[i], recs, recs[k]);
          return;
        }
      }
      assert recs[..|recs|] == recs;
      panicked := false;
    }

    method ClearAt(i: nat)
      requires Valid() && i < SHARD_COUNT
      modifies this`view, shards[i]
      ensures Valid()
      ensures view == old(view)[i := Cleared(old(view)[i])]
    {
      shards[i].Clear();
      view := view[i := Cleared(view[i])];
    }

    method Clear(key: string)
      requires Valid()
      modifies this`view, shards
      ensures Valid()
      ensures view == ClearedAt(hash, old(view), key)
    {
      if key == "" {
        return;
      }
      ClearAt(Slot(hash, key));
    }

    method ResizeAt(i: nat, n: int)
      requires Valid() && i < SHARD_COUNT
      modifies this`arrays, this`view, shards[i]
      ensures Valid() && Grown()
      ensures view == old(view)[i := Resized(old(view)[i], n)]
    {
      shards[i].Resize(n);
      arrays, view := arrays[i := shards[i].data], view[i := Resized(view[i], n)];
    }

    method SetSize(newSize: int)
      requires Valid()
      modifies this`arrays, this`view, shards
      ensures Valid() && Grown()
      ensures view == ResizedAll(old(view), newSize)
    {
      if newSize <= 0 {
        return;
      }
      for k := 0 to SHARD_COUNT
        invariant Valid() && Grown()
        invariant forall i :: 0 <= i < SHARD_COUNT ==>
          view[i] == if i < k then Resized(old(view)[i], newSize) else old(view)[i]
      {
        ResizeAt(k, newSize);
      }
    }

    method CountAll() returns (total: nat)
      requires Valid()
      ensures total == Total(view, SHARD_COUNT)
    {
      total := 0;
      for k := 0 to SHARD_COUNT
        invariant total == Total(view, k)
      {
        var n := shards[k].Count();
        total := total + n;
      }
    }

    method ClearAll()
      requires Valid()
      modifies this`view, shards
      ensures Valid()
      ensures view == ClearedAll(old(view))
    {
      for k := 0 to SHARD_COUNT
        invariant Valid()
        invariant forall i :: 0 <= i < SHARD_COUNT ==>
          view[i] == if i < k then Cleared(old(view)[i]) else old(view)[i]
      {
        ClearAt(k);
      }
    }
  }
}
