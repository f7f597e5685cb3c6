/**
 History of push/history/history.go: one ring buffer a key, made when the key is first
 used. The default capacity is kept as an int32.
 */
module Histories {
  import opened RingBuffers

  const MAX_INT32: int := 0x7FFF_FFFF

  /** The conversion int32(n), with its wrap-around. */
  function Int32(n: int): int {
    (n + 0x8000_0000) % 0x1_0000_0000 - 0x8000_0000
  }

  datatype History<T> = History(buffers: map<string, Bounded<T>>, maxSize: int)

  function Default<T>(h: History<T>): (n: nat)
    ensures n >= 1
  {
    if h.maxSize <= 0 then 1024 else h.maxSize
  }

  /** The buffer of a key, as the next use of the key finds it. */
  function At<T>(h: History<T>, key: string): Bounded<T> {
    if key in h.buffers then h.buffers[key] else Bounded([], Default(h), false)
  }

  function With<T>(h: History<T>, key: string, b: Bounded<T>): History<T> {
    h.(buffers := h.buffers[key := b])
  }

  datatype Call<T> = Push(key: string, x: T) | List(key: string, n: int) | SetSize(n: int)
                   | SetSizeByKey(key: string, n: int) | Clear(key: string)

  function Called<T>(h: History<T>, c: Call<T>): History<T> {
    match c
    case Push(key, x) => With(h, key, Pushed(At(h, key), x))
    case List(key, n) => if n < 0 then h else With(h, key, At(h, key))
    case SetSize(n) =>
      if n <= 0 then h
      else History(map key | key in h.buffers :: Resized(h.buffers[key], n), Int32(n))
    case SetSizeByKey(key, n) => if key == "" || n <= 0 then h else With(h, key, Resized(At(h, key), n))
    case Clear(key) => if key == "" then h else With(h, key, Cleared(At(h, key)))
  }

  function CallAll<T>(h: History<T>, cs: seq<Call<T>>): History<T>
    decreases |cs|
  {
    if cs == [] then h else CallAll(Called(h, cs[0]), cs[1..])
  }

  /** What a buffer of this key that always existed would see of a call. */
  function Seen<T>(c: Call<T>, key: string): seq<Op<T>> {
    match c
    case Push(k, x) => if k == key then [Op.Push(x)] else []
    case List(_, _) => []
    case SetSize(n) => [Op.Resize(n)]
    case SetSizeByKey(k, n) => if k == key && k != "" then [Op.Resize(n)] else []
    case Clear(k) => if k == key && k != "" then [Op.Clear] else []
  }

  function SeenAll<T>(cs: seq<Call<T>>, key: string): seq<Op<T>>
    decreases |cs|
  {
    if cs == [] then [] else Seen(cs[0], key) + SeenAll(cs[1..], key)
  }

  lemma SmallStaysInt32(n: int)
    ensures 0 < n <= MAX_INT32 ==> Int32(n) == n
    ensures Int32(n) <= MAX_INT32
  {}

  lemma CallByKey<T>(h: History<T>, c: Call<T>, key: string)
    requires c.SetSize? ==> c.n <= MAX_INT32
    ensures At(Called(h, c), key) == Run(At(h, key), Seen(c, key))
  {
    var ops := Seen(c, key);
    if ops != [] {
      assert ops[1..] == [];
      if c.SetSize? {
        SmallStaysInt32(c.n);
      }
    }
  }

  /**
   Making buffers late cannot be observed, and keys do not disturb each other: in any run each
   key shows the ring buffer that has been there from the start and saw the calls for its key.
   */
  lemma {:induction false} LazyIsEager<T>(h: History<T>, cs: seq<Call<T>>, key: string)
    requires forall c :: c in cs && c.SetSize? ==> c.n <= MAX_INT32
    ensures At(CallAll(h, cs), key) == Run(At(h, key), SeenAll(cs, key))
    decreases |cs|
  {
    if cs == [] {
    } else {
      assert cs[0] in cs && forall c :: c in cs[1..] ==> c in cs;
      CallByKey(h, cs[0], key);
      LazyIsEager(Called(h, cs[0]), cs[1..], key);
      RunInTwo(At(h, key), Seen(cs[0], key), SeenAll(cs[1..], key));
    }
  }

  /** The limit is exact: a larger size reaches the buffers that exist, but not those made later. */
  lemma SetSizeReachesLaterKeysIff<T>(h: History<T>, n: int, key: string)
    requires key !in h.buffers && n > 0
    ensures At(Called(h, Call.SetSize(n)), key) == Resized(At(h, key), n) <==> n <= 2147483647
  {
    SmallStaysInt32(n);
  }

  /** A key that has not been used is empty, with the size last set for all if that is positive, and 1024 otherwise. */
  lemma UnusedKeys<T>(h: History<T>, n: int, key: string)
    requires key !in h.buffers
    ensures At(h, key) == Bounded([], if h.maxSize <= 0 then 1024 else h.maxSize, false)
    ensures 1 <= n <= 2147483647 ==> At(Called(h, Call.SetSize(n)), key).cap == n
    ensures n < 1 ==> At(Called(h, Call.SetSize(n)), key) == At(h, key)
    ensures At(Called(h, Call.SetSize(2147483648)), key).cap == 1024
  {
    SmallStaysInt32(n);
  }

  /** The calls that make a buffer for a key that has none. */
  predicate Uses<T>(c: Call<T>, key: string) {
    match c
    case Push(k, _) => k == key
    case List(k, n) => k == key && n >= 0
    case SetSize(_) => false
    case SetSizeByKey(k, n) => k == key && k != "" && n > 0
    case Clear(k) => k == key && k != ""
  }

  /** A key has a buffer exactly if one of these calls has named it, reading it included. */
  lemma {:induction false} KeysAreUsed<T>(h: History<T>, cs: seq<Call<T>>, key: string)
    ensures key in CallAll(h, cs).buffers <==> key in h.buffers || exists c :: c in cs && Uses(c, key)
    decreases |cs|
  {
    if cs == [] {
    } else {
      KeysAreUsed(Called(h, cs[0]), cs[1..], key);
      assert key in Called(h, cs[0]).buffers <==> key in h.buffers || Uses(cs[0], key);
      assert cs == [cs[0]] + cs[1..];
    }
  }

  /** So within a run the contents of a key are the end of the log of that key. */
  lemma KeyIsEndOfItsLog<T>(h: History<T>, cs: seq<Call<T>>, key: string)
    requires key !in h.buffers
    requires forall c :: c in cs && c.SetSize? ==> c.n <= MAX_INT32
    ensures IsSuffix(At(CallAll(h, cs), key).items, Log(At(h, key), [], SeenAll(cs, key)))
  {
    LazyIsEager(h, cs, key);
    ContentsAreLogSuffix(At(h, key), [], SeenAll(cs, key));
  }

  // ---------------------------------------------------------------------
  // The history itself: a map of ring buffers
  // ---------------------------------------------------------------------

  /** Every key has a place of its own in a list of n buffers. */
  ghost predicate Fits(pos: map<string, nat>, n: nat) {
    && (forall k :: k in pos ==> pos[k] < n)
    && (forall j, k :: j in pos && k in pos && pos[j] == pos[k] ==> j == k)
  }

  /** What the map of the history shows, if the buffers of the list show `views`. */
  function Shown<T>(pos: map<string, nat>, views: seq<Bounded<T>>): map<string, Bounded<T>>
    requires forall k :: k in pos ==> pos[k] < |views|
  {
    map k | k in pos :: views[pos[k]]
  }

  lemma ShownAfter<T>(pos: map<string, nat>, views: seq<Bounded<T>>, key: string, b: Bounded<T>)
    requires Fits(pos, |views|) && key in pos
    ensures Shown(pos, views[pos[key] := b]) == Shown(pos, views)[key := b]
  {}

  lemma ShownWithNew<T>(pos: map<string, nat>, views: seq<Bounded<T>>, key: string, b: Bounded<T>)
    requires Fits(pos, |views|) && key !in pos
    ensures Fits(pos[key := |views|], |views| + 1)
    ensures Shown(pos[key := |views|], views + [b]) == Shown(pos, views)[key := b]
  {}

  /** getBuffer, on the places and on what they show. */
  function PlacedAt(pos: map<string, nat>, n: nat, key: string): map<string, nat> {
    if key in pos then pos else pos[key := n]
  }

  function PlacedViews<T>(pos: map<string, nat>, views: seq<Bounded<T>>, key: string, size: nat): seq<Bounded<T>> {
    if key in pos then views else views + [Bounded([], size, false)]
  }

  lemma WithTwice<T>(h: History<T>, key: string, a: Bounded<T>, b: Bounded<T>)
    ensures With(With(h, key, a), key, b) == With(h, key, b)
  {
    assert h.buffers[key := a][key := b] == h.buffers[key := b];
  }

  /** What getBuffer leaves for a caller to see. */
  lemma PlacedThen<T>(pos: map<string, nat>, views: seq<Bounded<T>>, maxSize: int, key: string)
    requires Fits(pos, |views|)
    ensures var h := History(Shown(pos, views), maxSize);
      var pos2 := PlacedAt(pos, |views|, key);
      var views2 := PlacedViews(pos, views, key, Default(h));
      && (forall k :: k in pos2 ==> pos2[k] < |views2|)
      && History(Shown(pos2, views2), maxSize) == With(h, key, At(h, key))
  {
    var h := History(Shown(pos, views), maxSize);
    if key in pos {
      assert h.buffers[key := At(h, key)] == h.buffers;
    } else {
      ShownWithNew(pos, views, key, At(h, key));
    }
  }

  /** The buffers of the keys in `done` resized. */
  function ResizedFor<T>(m: map<string, Bounded<T>>, done: seq<string>, n: int): map<string, Bounded<T>> {
    map k | k in m :: if k in done then Resized(m[k], n) else m[k]
  }

  lemma ResizedForOne<T>(m: map<string, Bounded<T>>, keys: seq<string>, i: nat, n: int)
    requires i < |keys| && keys[i] in m && keys[i] !in keys[..i]
    ensures ResizedFor(m, keys[..i], n)[keys[i]] == m[keys[i]]
    ensures ResizedFor(m, keys[..i + 1], n) == ResizedFor(m, keys[..i], n)[keys[i] := Resized(m[keys[i]], n)]
  {
    assert keys[..i + 1] == keys[..i] + [keys[i]];
  }

  lemma ResizedForAll<T>(m: map<string, Bounded<T>>, keys: seq<string>, n: int)
    requires forall k :: k in m <==> k in keys
    ensures ResizedFor(m, keys, n) == map k | k in m :: Resized(m[k], n)
  {}

  /** The keys of a map in an order of its own. */
  method KeysOf<V>(m: map<string, V>) returns (keys: seq<string>)
    ensures forall k :: k in m <==> k in keys
    ensures forall i :: 0 <= i < |keys| ==> keys[i] !in keys[..i]
  {
    keys := [];
    var todo := m.Keys;
    while todo != {}
      invariant todo <= m.Keys && forall k :: k in m <==> k in todo || k in keys
      invariant forall k :: k in keys ==> k !in todo
      invariant forall i :: 0 <= i < |keys| ==> keys[i] !in keys[..i]
      decreases todo
    {
      var key :| key in todo;
      keys := keys + [key];
      todo := todo - {key};
    }
  }

  /** Buffers that share nothing, the arrays they use, and what they show. */
  ghost predicate Listed<T(0)>(order: seq<RingBuffer<T>>, arrays: seq<array<T>>, views: seq<Bounded<T>>)
    reads order, arrays
  {
    && |order| == |arrays| == |views|
    && (forall i :: 0 <= i < |order| ==> order[i].data == arrays[i])
    && (forall i, j :: 0 <= i < j < |order| ==> order[i] != order[j] && arrays[i] != arrays[j])
    && (forall i :: 0 <= i < |order| ==> order[i].Valid() && order[i].View() == views[i])
  }

  method PushOnly<T(0)>(ghost order: seq<RingBuffer<T>>, ghost arrays: seq<array<T>>, ghost views: seq<Bounded<T>>,
                        ghost i: nat, buf: RingBuffer<T>, x: T) returns (panicked: bool)
    requires Listed(order, arrays, views) && i < |order| && order[i] == buf
    modifies buf, buf.data
    ensures Listed(order, arrays, views[i := Pushed(views[i], x)])
    ensures panicked == views[i].jammed
  {
    panicked := buf.Push(x);
  }

  method ResizeOnly<T(0)>(ghost order: seq<RingBuffer<T>>, ghost arrays: seq<array<T>>, ghost views: seq<Bounded<T>>,
                          ghost i: nat, buf: RingBuffer<T>, n: int)
    requires Listed(order, arrays, views) && i < |order| && order[i] == buf
    modifies buf
    ensures buf.data == old(buf.data) || fresh(buf.data)
    ensures Listed(order, arrays[i := buf.data], views[i := Resized(views[i], n)])
  {
    buf.Resize(n);
  }

  method ClearOnly<T(0)>(ghost order: seq<RingBuffer<T>>, ghost arrays: seq<array<T>>, ghost views: seq<Bounded<T>>,
                         ghost i: nat, buf: RingBuffer<T>)
    requires Listed(order, arrays, views) && i < |order| && order[i] == buf
    modifies buf
    ensures Listed(order, arrays, views[i := Cleared(views[i])])
  {
    buf.Clear();
  }

  lemma ListedMore<T(0)>(order: seq<RingBuffer<T>>, arrays: seq<array<T>>, views: seq<Bounded<T>>, buf: RingBuffer<T>)
    requires Listed(order, arrays, views) && buf.Valid() && buf !in order && buf.data !in arrays
    ensures Listed(order + [buf], arrays + [buf.data], views + [buf.View()])
  {}

  /** Every key of the map has its buffer in the list, at a place of its own. */
  ghost predicate Places<T(0)>(buffers: map<string, RingBuffer<T>>, order: seq<RingBuffer<T>>, pos: map<string, nat>) {
    && pos.Keys == buffers.Keys && Fits(pos, |order|)
    && (forall k :: k in pos ==> buffers[k] == order[pos[k]])
  }

  lemma PlacesMore<T(0)>(buffers: map<string, RingBuffer<T>>, order: seq<RingBuffer<T>>, pos: map<string, nat>,
                         key: string, buf: RingBuffer<T>)
    requires Places(buffers, order, pos) && key !in pos
    ensures Places(buffers[key := buf], order + [buf], pos[key := |order|])
  {}

  class KeyedHistory<T(0)> {
    var buffers: map<string, RingBuffer<T>>
    var maxSize: int
    /** The buffers in the order they were made, their arrays, what they show, and where each key has its own. */
    ghost var order: seq<RingBuffer<T>>
    ghost var arrays: seq<array<T>>
    ghost var views: seq<Bounded<T>>
    ghost var pos: map<string, nat>

    ghost predicate Keyed()
      reads this
    {
      |order| == |views| && Places(buffers, order, pos)
    }

    ghost predicate Valid()
      reads this, order, arrays
    {
      Keyed() && Listed(order, arrays, views)
    }

    ghost function View(): History<T>
      reads this
      requires forall k :: k in pos ==> pos[k] < |views|
    {
      History(Shown(pos, views), maxSize)
    }

    constructor (maxSize: int)
      ensures Valid() && order == []
      ensures View() == History(map[], if maxSize > 0 then Int32(maxSize) else 0)
    {
      this.maxSize := if maxSize > 0 then Int32(maxSize) else 0;
      buffers := map[];
      order, arrays, views, pos := [], [], [], map[];
    }

    /** What an operation may do to the footprint: one more buffer, and new arrays. */
    twostate predicate Grown()
      reads this
    {
      && |old(order)| <= |order| && |old(arrays)| <= |arrays|
      && (forall i :: 0 <= i < |order| ==> (i < |old(order)| && order[i] == old(order)[i]) || fresh(order[i]))
      && (forall i :: 0 <= i < |arrays| ==> (i < |old(arrays)| && arrays[i] == old(arrays)[i]) || fresh(arrays[i]))
    }

    /** The array of a key is the old one or a new one. */
    twostate predicate NewArray(key: string)
      requires key in buffers && key in old(buffers)
      reads this, buffers[key]
    {
      buffers[key].data == old(buffers[key].data) || fresh(buffers[key].data)
    }

    /** getBuffer, by the places of the buffers. */
    method Place(key: string) returns (buf: RingBuffer<T>)
      requires Valid()
      modifies this`buffers, this`order, this`arrays, this`views, this`pos
      ensures Valid() && key in buffers && buffers[key] == buf
      ensures Grown()
      ensures pos == PlacedAt(old(pos), |old(views)|, key)
      ensures views == PlacedViews(old(pos), old(views), key, Default(old(View())))
    {
      if key in buffers {
        return buffers[key];
      }
      var size := if maxSize <= 0 then 1024 else maxSize;
      buf := new RingBuffer<T>(size);
      Adopt(key, buf);
    }

    /** buffers.LoadOrStore for a key that is not there. */
    method Adopt(key: string, buf: RingBuffer<T>)
      requires Valid() && key !in buffers && buf.Valid() && buf !in order && buf.data !in arrays
      modifies this`buffers, this`order, this`arrays, this`views, this`pos
      ensures Valid() && key in buffers && buffers[key] == buf
      ensures order == old(order) + [buf] && arrays == old(arrays) + [buf.data]
      ensures pos == old(pos)[key := |old(views)|] && views == old(views) + [buf.View()]
    {
      ghost var order2, arrays2, views2 := order + [buf], arrays + [buf.data], views + [buf.View()];
      ListedMore(order, arrays, views, buf);
      PlacesMore(buffers, order, pos, key, buf);
      buffers, pos := buffers[key := buf], pos[key := |order|];
      order, arrays, views := order2, arrays2, views2;
      assert Listed(order2, arrays2, views2);
    }

    /** buf.Push on the buffer of a key. */
    method PushOn(key: string, x: T) returns (panicked: bool)
      requires Valid() && key in buffers
      modifies this`views, buffers[key], buffers[key].data
      ensures Valid() && panicked == old(views)[pos[key]].jammed
      ensures views == old(views)[pos[key] := Pushed(old(views)[pos[key]], x)]
    {
      panicked := PushOnly(order, arrays, views, pos[key], buffers[key], x);
      views := views[pos[key] := Pushed(views[pos[key]], x)];
    }

    method ResizeOn(key: string, n: int)
      requires Valid() && key in buffers
      modifies this`arrays, this`views, buffers[key]
      ensures Valid() && buffers == old(buffers) && order == old(order) && pos == old(pos)
      ensures arrays == old(arrays)[pos[key] := buffers[key].data] && NewArray(key)
      ensures views == old(views)[pos[key] := Resized(old(views)[pos[key]], n)]
    {
      ResizeOnly(order, arrays, views, pos[key], buffers[key], n);
      ghost var arrays2 := arrays[pos[key] := buffers[key].data];
      ghost var views2 := views[pos[key] := Resized(views[pos[key]], n)];
      arrays, views := arrays2, views2;
      assert Listed(order, arrays2, views2);
    }

    method ClearOn(key: string)
      requires Valid() && key in buffers
      modifies this`views, buffers[key]
      ensures Valid()
      ensures views == old(views)[pos[key] := Cleared(old(views)[pos[key]])]
    {
      ClearOnly(order, arrays, views, pos[key], buffers[key]);
      views := views[pos[key] := Cleared(views[pos[key]])];
    }

    /** getBuffer: load, or make and store a new buffer. */
    method GetBuffer(key: string) returns (buf: RingBuffer<T>)
      requires Valid()
      modifies this`buffers, this`order, this`arrays, this`views, this`pos
      ensures Valid() && key in buffers && buffers[key] == buf && buf.Valid() && buf.View() == At(old(View()), key)
      ensures views[pos[key]] == At(old(View()), key)
      ensures Grown()
      ensures View() == With(old(View()), key, At(old(View()), key))
    {
      ghost var pos0, views0 := pos, views;
      buf := Place(key);
      assert order[pos[key]] == buf;
      PlacedThen(pos0, views0, maxSize, key);
    }

    method PushTo(key: string, x: T) returns (panicked: bool)
      requires Valid()
      modifies this`buffers, this`order, this`arrays, this`views, this`pos, order, arrays
      ensures Grown()
      ensures Valid() && panicked == At(old(View()), key).jammed
      ensures View() == With(old(View()), key, Pushed(At(old(View()), key), x))
    {
      var _ := GetBuffer(key);
      WithTwice(old(View()), key, views[pos[key]], Pushed(views[pos[key]], x));
      panicked := PushShown(key, x);
    }

    method PushShown(key: string, x: T) returns (panicked: bool)
      requires Valid() && key in buffers
      modifies this`views, buffers[key], buffers[key].data
      ensures Valid() && panicked == old(views)[pos[key]].jammed
      ensures Shown(pos, views) == old(Shown(pos, views))[key := Pushed(old(views)[pos[key]], x)]
    {
      ShownAfter(pos, views, key, Pushed(views[pos[key]], x));
      panicked := PushOn(key, x);
    }

    method ResizeTo(key: string, n: int)
      requires Valid()
      modifies this`buffers, this`order, this`arrays, this`views, this`pos, order, arrays
      ensures Grown()
      ensures Valid()
      ensures View() == With(old(View()), key, Resized(At(old(View()), key), n))
    {
      var buf := GetBuffer(key);
      ghost var after := Resized(views[pos[key]], n);
      ShownAfter(pos, views, key, after);
      WithTwice(old(View()), key, views[pos[key]], after);
      ResizeOn(key, n);
    }

    method ClearTo(key: string)
      requires Valid()
      modifies this`buffers, this`order, this`arrays, this`views, this`pos, order, arrays
      ensures Grown()
      ensures Valid()
      ensures View() == With(old(View()), key, Cleared(At(old(View()), key)))
    {
      var buf := GetBuffer(key);
      ghost var after := Cleared(views[pos[key]]);
      ShownAfter(pos, views, key, after);
      WithTwice(old(View()), key, views[pos[key]], after);
      ClearOn(key);
    }

    method Push(key: string, x: T) returns (panicked: bool)
      requires Valid()
      modifies this`buffers, this`order, this`arrays, this`views, this`pos, order, arrays
      ensures Grown()
      ensures Valid() && panicked == At(old(View()), key).jammed
      ensures View() == Called(old(View()), Call.Push(key, x))
    {
      panicked := PushTo(key, x);
    }

    method List(key: string, n: int) returns (result: seq<T>)
      requires Valid()
      modifies this`buffers, this`order, this`arrays, this`views, this`pos
      ensures Valid() && Grown() && View() == Called(old(View()), Call.List(key, n))
      ensures result == if n < 0 then [] else if n == 0 then At(old(View()), key).items
                        else LastN(At(old(View()), key).items, n)
    {
      if n < 0 {
        return [];
      }
      var buf := GetBuffer(key);
      if n == 0 {
        result := buf.GetAll();
      } else {
        result := buf.GetLast(n);
      }
    }

    method SetSizeByKey(key: string, newSize: int)
      requires Valid()
      modifies this`buffers, this`order, this`arrays, this`views, this`pos, order, arrays
      ensures Grown()
      ensures Valid()
      ensures View() == Called(old(View()), Call.SetSizeByKey(key, newSize))
    {
      if key == "" || newSize <= 0 {
        return;
      }
      ResizeTo(key, newSize);
    }

    method Clear(key: string)
      requires Valid()
      modifies this`buffers, this`order, this`arrays, this`views, this`pos, order, arrays
      ensures Grown()
      ensures Valid()
      ensures View() == Called(old(View()), Call.Clear(key))
    {
      if key == "" {
        return;
      }
      ClearTo(key);
    }

    /** buffers.Range: the buffers are resized in whatever order the map is walked. */
    method SetSize(newSize: int)
      requires Valid()
      modifies this`arrays, this`views, this`maxSize, order, arrays
      ensures Grown()
      ensures Valid()
      ensures View() == Called(old(View()), Call.SetSize(newSize))
    {
      if newSize <= 0 {
        return;
      }
      maxSize := Int32(newSize);
      var keys := KeysOf(buffers);
      ResizedForAll(Shown(pos, views), keys, newSize);
      ResizeAll(keys, newSize);
    }

    method ResizeShown(key: string, n: int)
      requires Valid() && key in buffers
      modifies this`arrays, this`views, buffers[key]
      ensures Valid() && buffers == old(buffers) && order == old(order) && pos == old(pos)
      ensures Grown()
      ensures Shown(pos, views) == old(Shown(pos, views))[key := Resized(old(Shown(pos, views))[key], n)]
    {
      ShownAfter(pos, views, key, Resized(views[pos[key]], n));
      ResizeOn(key, n);
    }

    /** The walk of SetSize. */
    method ResizeAll(keys: seq<string>, newSize: int)
      requires Valid() && forall k :: k in keys ==> k in buffers
      requires forall i :: 0 <= i < |keys| ==> keys[i] !in keys[..i]
      modifies this`arrays, this`views, order, arrays
      ensures Grown()
      ensures Valid()
      ensures Shown(pos, views) == ResizedFor(old(Shown(pos, views)), keys, newSize)
    {
      ghost var m := Shown(pos, views);
      for i := 0 to |keys|
        invariant pos == old(pos) && buffers == old(buffers) && order == old(order) && |arrays| == |old(arrays)|
        invariant forall j :: 0 <= j < |arrays| ==> arrays[j] == old(arrays)[j] || fresh(arrays[j])
        invariant Valid()
        invariant Shown(pos, views) == ResizedFor(m, keys[..i], newSize)
      {
        var key := keys[i];
        ResizedForOne(m, keys, i, newSize);
        assert key in buffers;
        ResizeShown(key, newSize);
      }
      assert keys[..|keys|] == keys;
    }
  }
}
