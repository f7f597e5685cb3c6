/**
 Chunked upload of pkg/file: atomic writes (internal.go) and the saving and merging
 of chunks (upload.go) on a disk where every system call may fail. One upload lock
 serialises the operations on a storage directory, so they run one after the other.
 */
module Uploads {
  import opened ChunkNames
  import opened Options

  type Bytes = seq<bv8>

  datatype Entry = File(data: Bytes) | Other

  type Dir = map<string, Entry>

  // ---------------------------------------------------------------------
  // Sizes
  // ---------------------------------------------------------------------

  const MAX_INT64: int := 0x7FFF_FFFF_FFFF_FFFF
  const MIN_INT64: int := -0x8000_0000_0000_0000
  const BYTES_PER_MB: int := 0x10_0000

  /** maxSizeBytes: megabytes to bytes, at least one megabyte, saturating. */
  function MaxSizeBytes(maxSize: int): (limit: int)
    ensures BYTES_PER_MB <= limit <= MAX_INT64
    ensures limit == MAX_INT64 <==> maxSize > MAX_INT64 / BYTES_PER_MB
  {
    var size := if maxSize < 1 then 1 else maxSize;
    if size > MAX_INT64 / BYTES_PER_MB then MAX_INT64 else size * BYTES_PER_MB
  }

  /** limit + 1 in int64 arithmetic. */
  function PlusOne(limit: int): int {
    if limit == MAX_INT64 then MIN_INT64 else limit + 1
  }

  /** Where the bytes of an upload come from; a reader may break off after its data. */
  datatype Source = Reader(stream: Bytes, breaks: bool) | Data(bytes: Bytes) | Missing

  /** What the write callback puts into the file, and whether it reports success. */
  datatype Content = Content(bytes: Bytes, ok: bool)

  /** io.Copy(f, io.LimitReader(src, limit+1)), and the size check after it. */
  function Streamed(stream: Bytes, breaks: bool, limit: int): Content {
    var n := PlusOne(limit);
    if n <= 0 then Content([], true)
    else if |stream| >= n then Content(stream[..n], false)
    else Content(stream, !breaks)
  }

  /**
   A streamed upload is stored whole, and refused when it is too long or broken, exactly if
   limit + 1 does not overflow or the stream is empty; on overflow the reader gets a negative
   budget and an empty file is saved as a success.
   */
  lemma StreamIsFaithfulIff(maxSize: int, stream: Bytes, breaks: bool)
    ensures var limit := MaxSizeBytes(maxSize);
      var c := Streamed(stream, breaks, limit);
      (c.ok <==> |stream| <= limit && !breaks) && (c.ok ==> c.bytes == stream)
      <==> maxSize <= MAX_INT64 / BYTES_PER_MB
           || (stream == [] && !breaks)
  {
    var limit := MaxSizeBytes(maxSize);
    assert limit == MAX_INT64 <==> maxSize > MAX_INT64 / BYTES_PER_MB;
  }

  /** MaxSize counts megabytes of 1048576 bytes, at least one; 8796093022208 of them would overflow an int64. */
  lemma MaxSizeIsMegabytes(maxSize: int)
    ensures maxSize < 1 ==> MaxSizeBytes(maxSize) == 1048576
    ensures 1 <= maxSize <= 8796093022207 ==> MaxSizeBytes(maxSize) == maxSize * 1048576
    ensures maxSize > 8796093022207 ==> MaxSizeBytes(maxSize) == 9223372036854775807
  {}

  // ---------------------------------------------------------------------
  // Names
  // ---------------------------------------------------------------------

  const ILLEGAL: string := "\\/:*?\"<>|"

  /** validUploadID: one plain directory name below the storage directory. */
  predicate ValidId(id: string) {
    && id != "" && id != "." && id != ".."
    && forall k :: 0 <= k < |id| ==>
         id[k] !in ILLEGAL && id[k] as int > 32 && id[k] as int != 0x7F && !IsWideSpace(id[k])
  }

  /** The white space beyond ASCII that unicode.IsSpace knows. */
  predicate IsWideSpace(c: char) {
    var r := c as int;
    r == 0x85 || r == 0xA0 || r == 0x1680 || 0x2000 <= r <= 0x200A || r == 0x2028 || r == 0x2029 || r == 0x202F
    || r == 0x205F || r == 0x3000
  }

  /** An id is one plain name: neither "." nor "..", no separator, no wildcard, no white space, no control character. */
  lemma IdsArePlainNames(id: string, before: string, c: char, after: string)
    ensures !ValidId("") && !ValidId(".") && !ValidId("..")
    ensures ValidId(id) ==> '/' !in id && '\\' !in id && ':' !in id
    ensures (c in "*?\"<>|" || c as int <= 32 || c as int == 127 || c as int == 133 || c as int == 160) ==>
      !ValidId(before + [c] + after)
    ensures (c as int == 5760 || 8192 <= c as int <= 8202 || c as int == 8232 || c as int == 8233
             || c as int == 8239 || c as int == 8287 || c as int == 12288) ==>
      !ValidId(before + [c] + after)
    ensures (id != "" && id != "." && id != ".."
             && forall k :: 0 <= k < |id| ==> 33 <= id[k] as int <= 126 && id[k] !in "\\/:*?\"<>|") ==>
      ValidId(id)
  {
    assert (before + [c] + after)[|before|] == c;
  }

  /** os.CreateTemp(dir, "." + base + ".*.tmp"). */
  function TempName(base: string, random: string): (t: string)
    ensures t != base
    ensures Index(t) == None
  {
    var t := "." + base + "." + random + ".tmp";
    assert |t| > |base| && !IsDigit(t[0]);
    t
  }

  // ---------------------------------------------------------------------
  // Atomic writes
  // ---------------------------------------------------------------------

  /** How the system calls of one atomic write turn out. */
  datatype Luck = Luck(
    created: bool, random: string,    // os.CreateTemp and the name it finds
    written: bool, partial: Bytes,    // the writes to the temporary file; what got there if they fail
    closed: bool, moded: bool,        // Close, Chmod
    renamed: bool, removed: bool)     // Rename; Remove of the temporary file, whose error is ignored

  predicate Lucky(k: Luck) {
    k.created && k.written && k.closed && k.moded && k.renamed
  }

  type Dirs = map<string, Dir>

  function Entries(dirs: Dirs, dir: string): Dir {
    if dir in dirs then dirs[dir] else map[]
  }

  function Put(dirs: Dirs, dir: string, name: string, e: Entry): Dirs
    requires dir in dirs
  {
    dirs[dir := dirs[dir][name := e]]
  }

  function Drop(dirs: Dirs, dir: string, name: string): Dirs
    requires dir in dirs
  {
    dirs[dir := dirs[dir] - {name}]
  }

  lemma PutAgain(dirs: Dirs, dir: string, name: string, e: Entry, f: Entry)
    requires dir in dirs
    ensures Put(Put(dirs, dir, name, e), dir, name, f) == Put(dirs, dir, name, f)
  {
    assert dirs[dir][name := e][name := f] == dirs[dir][name := f];
  }

  lemma PutAndDrop(dirs: Dirs, dir: string, name: string, e: Entry)
    requires dir in dirs && name !in dirs[dir]
    ensures Drop(Put(dirs, dir, name, e), dir, name) == dirs
  {
    assert dirs[dir][name := e] - {name} == dirs[dir];
  }

  /** after is before, but for what the temporary file holds. */
  ghost predicate OnlyTemp(before: Dirs, after: Dirs, dir: string, temp: string) {
    after == before
    || (dir in before && temp !in before[dir] && exists data :: after == Put(before, dir, temp, File(data)))
  }

  // ---------------------------------------------------------------------
  // What a chunk directory holds
  // ---------------------------------------------------------------------

  /** Every regular file is named by an index, no index twice. */
  ghost predicate Readable(e: Dir) {
    && (forall n :: n in e && e[n].File? ==> Index(n).Some?)
    && (forall n1, n2 :: n1 in e && n2 in e && e[n1].File? && e[n2].File? && Index(n1) == Index(n2) ==> n1 == n2)
  }

  /** The files of e are the chunks m. */
  ghost predicate Chunks(e: Dir, m: map<nat, Bytes>) {
    && (forall n :: n in e && e[n].File? ==>
          Index(n).Some? && Index(n).value in m && m[Index(n).value] == e[n].data)
    && (forall i :: i in m ==> exists n :: n in e && e[n].File? && Index(n) == Some(i))
  }

  /** The chunks 0, 1, 2, ... below n that exist, one behind the other. */
  function JoinBelow(m: map<nat, Bytes>, n: nat): Bytes {
    if n == 0 then []
    else if n - 1 in m then JoinBelow(m, n - 1) + m[n - 1]
    else JoinBelow(m, n - 1)
  }

  function Joined(m: map<nat, Bytes>): Bytes {
    JoinBelow(m, MAX_UINT64 + 1)
  }

  datatype ChunkFile = ChunkFile(name: string, index: nat)

  /** files lists the regular files of e. */
  ghost predicate Lists(files: seq<ChunkFile>, e: Dir) {
    && (forall f :: f in files ==> f.name in e && e[f.name].File? && Index(f.name) == Some(f.index))
    && (forall n :: n in e && e[n].File? ==> exists f :: f in files && f.name == n)
  }

  predicate Distinct(files: seq<ChunkFile>) {
    forall j, k :: 0 <= j < k < |files| ==> files[j].index != files[k].index
  }

  predicate Ascending(files: seq<ChunkFile>) {
    forall j, k :: 0 <= j < k < |files| ==> files[j].index < files[k].index
  }

  datatype Part = Part(index: nat, payload: Bytes)

  function Parts(files: seq<ChunkFile>, e: Dir): (parts: seq<Part>)
    requires forall f :: f in files ==> f.name in e && e[f.name].File?
    ensures |parts| == |files|
  {
    seq(|files|, k requires 0 <= k < |files| => Part(files[k].index, e[files[k].name].data))
  }

  function Glued(parts: seq<Part>): Bytes
    decreases |parts|
  {
    if parts == [] then [] else Glued(parts[..|parts| - 1]) + parts[|parts| - 1].payload
  }

  predicate Rising(parts: seq<Part>) {
    forall j, k :: 0 <= j < k < |parts| ==> parts[j].index < parts[k].index
  }

  ghost predicate Covers(parts: seq<Part>, m: map<nat, Bytes>) {
    && (forall k :: 0 <= k < |parts| ==> parts[k].index in m && m[parts[k].index] == parts[k].payload)
    && (forall i :: i in m ==> exists k :: 0 <= k < |parts| && parts[k].index == i)
  }

  /** Gluing the parts before position k gives the chunks below n, if position k is where n divides the indexes. */
  lemma {:induction false} GluedIsJoin(parts: seq<Part>, m: map<nat, Bytes>, k: nat, n: nat)
    requires Rising(parts) && Covers(parts, m) && k <= |parts|
    requires k > 0 ==> parts[k - 1].index < n
    requires k < |parts| ==> n <= parts[k].index
    ensures Glued(parts[..k]) == JoinBelow(m, n)
    decreases n
  {
    if n == 0 {
      assert parts[..k] == [];
    } else if k > 0 && parts[k - 1].index == n - 1 {
      GluedIsJoin(parts, m, k - 1, n - 1);
      OnePartMore(parts, k);
    } else {
      NoneBetween(parts, m, k, n);
      GluedIsJoin(parts, m, k, n - 1);
    }
  }

  lemma OnePartMore(parts: seq<Part>, k: nat)
    requires 0 < k <= |parts|
    ensures Glued(parts[..k]) == Glued(parts[..k - 1]) + parts[k - 1].payload
  {
    assert parts[..k][..k - 1] == parts[..k - 1];
  }

  lemma NoneBetween(parts: seq<Part>, m: map<nat, Bytes>, k: nat, n: nat)
    requires Rising(parts) && Covers(parts, m) && k <= |parts| && n > 0
    requires k > 0 ==> parts[k - 1].index < n - 1
    requires k < |parts| ==> n <= parts[k].index
    ensures n - 1 !in m
  {
    forall j | 0 <= j < |parts|
      ensures parts[j].index != n - 1
    {}
  }

  lemma PartsCover(files: seq<ChunkFile>, e: Dir, m: map<nat, Bytes>)
    requires Lists(files, e) && Chunks(e, m)
    ensures Covers(Parts(files, e), m)
    ensures forall k :: 0 <= k < |files| ==> files[k].index <= MAX_UINT64
  {
    var parts := Parts(files, e);
    forall i | i in m
      ensures exists k :: 0 <= k < |parts| && parts[k].index == i
    {
      var name :| name in e && e[name].File? && Index(name) == Some(i);
      var f :| f in files && f.name == name;
      var k :| 0 <= k < |files| && files[k] == f;
      assert parts[k].index == i;
    }
  }

  /** Copying the listed files in the order of their indexes gives the chunks in numeric order. */
  lemma GluedIsJoined(files: seq<ChunkFile>, e: Dir, m: map<nat, Bytes>)
    requires Lists(files, e) && Ascending(files) && Chunks(e, m)
    ensures Glued(Parts(files, e)) == Joined(m)
  {
    var parts := Parts(files, e);
    PartsCover(files, e, m);
    assert parts[..|parts|] == parts;
    GluedIsJoin(parts, m, |parts|, MAX_UINT64 + 1);
  }

  // ---------------------------------------------------------------------
  // Saving many chunks
  // ---------------------------------------------------------------------

  datatype Save = Save(index: nat, payload: Bytes)

  /** The directory after successful ChunkSave calls. */
  function SavedAll(e: Dir, saves: seq<Save>): Dir
    decreases |saves|
  {
    if saves == [] then e
    else
      var last := saves[|saves| - 1];
      SavedAll(e, saves[..|saves| - 1])[Format(last.index) := File(last.payload)]
  }

  /** The last payload saved under each index. */
  function LastPayloads(saves: seq<Save>): map<nat, Bytes>
    decreases |saves|
  {
    if saves == [] then map[]
    else
      var last := saves[|saves| - 1];
      LastPayloads(saves[..|saves| - 1])[last.index := last.payload]
  }

  predicate Indexable(saves: seq<Save>) {
    forall k :: 0 <= k < |saves| ==> saves[k].index <= MAX_UINT64
  }

  /** Names and chunks correspond exactly. */
  ghost predicate Matches(e: Dir, m: map<nat, Bytes>) {
    && (forall i :: i in m ==> i <= MAX_UINT64 && Format(i) in e && e[Format(i)] == File(m[i]))
    && (forall n :: n in e ==> Index(n).Some? && Index(n).value in m && Format(Index(n).value) == n)
  }

  lemma {:induction false} SavesMatch(saves: seq<Save>)
    requires Indexable(saves)
    ensures Matches(SavedAll(map[], saves), LastPayloads(saves))
    decreases |saves|
  {
    if saves == [] {
    } else {
      var front := saves[..|saves| - 1];
      var last := saves[|saves| - 1];
      SavesMatch(front);
      SaveKeepsMatch(SavedAll(map[], front), LastPayloads(front), last);
    }
  }

  lemma SaveKeepsMatch(e: Dir, m: map<nat, Bytes>, s: Save)
    requires Matches(e, m) && s.index <= MAX_UINT64
    ensures Matches(e[Format(s.index) := File(s.payload)], m[s.index := s.payload])
  {
    IndexRoundTrip(s.index, "");
    forall i | i in m
      ensures Format(i) == Format(s.index) <==> i == s.index
    {
      FormatIsInjective(i, s.index);
    }
  }

  /** A directory filled by ChunkSave is readable, and its chunks are the last payloads. */
  lemma SavedIsReadable(saves: seq<Save>)
    requires Indexable(saves)
    ensures Readable(SavedAll(map[], saves))
    ensures Chunks(SavedAll(map[], saves), LastPayloads(saves))
  {
    SavesMatch(saves);
    MatchedIsReadable(SavedAll(map[], saves), LastPayloads(saves));
  }

  lemma MatchedIsReadable(e: Dir, m: map<nat, Bytes>)
    requires Matches(e, m)
    ensures Readable(e) && Chunks(e, m)
  {
    forall i | i in m
      ensures Format(i) in e && e[Format(i)].File? && Index(Format(i)) == Some(i)
    {
      IndexRoundTrip(i, "");
    }
  }

  /** A directory has one set of chunks, and a readable one has it for certain. */
  lemma ChunksAreUnique(e: Dir, m1: map<nat, Bytes>, m2: map<nat, Bytes>)
    requires Chunks(e, m1) && Chunks(e, m2)
    ensures m1 == m2
  {
    forall i
      ensures i in m1 <==> i in m2
      ensures i in m1 ==> i in m2 && m1[i] == m2[i]
    {}
  }

  lemma {:induction false} ReadableHasChunks(e: Dir) returns (m: map<nat, Bytes>)
    requires Readable(e)
    ensures Chunks(e, m)
    decreases |e.Keys|
  {
    if e == map[] {
      m := map[];
    } else {
      var n :| n in e;
      var rest := e - {n};
      assert rest.Keys == e.Keys - {n};
      m := ReadableHasChunks(rest);
      if e[n].File? {
        m := m[Index(n).value := e[n].data];
      }
    }
  }

  /**
   So after any successful ChunkSave calls for a new upload, the chunks a merge glues together
   are the last payload saved under each index.
   */
  lemma MergedChunksAreLastPayloads(saves: seq<Save>, chunks: map<nat, Bytes>)
    requires Indexable(saves)
    ensures Readable(SavedAll(map[], saves))
    ensures Chunks(SavedAll(map[], saves), chunks) <==> chunks == LastPayloads(saves)
  {
    SavedIsReadable(saves);
    if Chunks(SavedAll(map[], saves), chunks) {
      ChunksAreUnique(SavedAll(map[], saves), chunks, LastPayloads(saves));
    }
  }

  /**
   A call that leaves no temporary file: a ChunkSave that saved; a call that failed, perhaps after
   making the directory; a merge that went through; a merge whose RemoveAll failed half way, with the
   destination complete and only the names in `left` left in the chunk directory.
   */
  datatype Event =
    | Saved(id: string, save: Save)
    | Refused(id: string, madeDir: bool)
    | Merged(id: string, dst: string, bytes: Bytes)
    | HalfMerged(id: string, dst: string, bytes: Bytes, left: set<string>)

  /** What a RemoveAll that failed has left of a directory. */
  function Kept(e: Dir, left: set<string>): Dir {
    map n | n in e && n in left :: e[n]
  }

  function Occurred(dirs: Dirs, e: Event): Dirs {
    match e
    case Saved(id, s) => Put(WithDir(dirs, id), id, Format(s.index), File(s.payload))
    case Refused(id, made) => if made then WithDir(dirs, id) else dirs
    case Merged(id, dst, bytes) => Put(WithDir(dirs, ""), "", dst, File(bytes)) - {id}
    case HalfMerged(id, dst, bytes, left) =>
      Put(WithDir(dirs, ""), "", dst, File(bytes))[id := Kept(Entries(dirs, id), left)]
  }

  function OccurredAll(dirs: Dirs, events: seq<Event>): Dirs
    decreases |events|
  {
    if events == [] then dirs
    else Occurred(OccurredAll(dirs, events[..|events| - 1]), events[|events| - 1])
  }

  /** What has been saved for one upload since it was last merged. */
  function SavesOf(events: seq<Event>, id: string): seq<Save>
    decreases |events|
  {
    if events == [] then []
    else
      var front, last := SavesOf(events[..|events| - 1], id), events[|events| - 1];
      if last.id != id then front
      else match last
        case Saved(_, s) => front + [s]
        case Merged(_, _, _) => []
        case _ => front
  }

  /** What the calls for one upload make of its directory. */
  function OwnDir(events: seq<Event>, id: string): Dir
    decreases |events|
  {
    if events == [] then map[]
    else
      var front, last := OwnDir(events[..|events| - 1], id), events[|events| - 1];
      if last.id != id then front
      else match last
        case Saved(_, s) => front[Format(s.index) := File(s.payload)]
        case Refused(_, _) => front
        case Merged(_, _, _) => map[]
        case HalfMerged(_, _, _, left) => Kept(front, left)
  }

  /** The chunks that are there: saved, and not removed since by a merge. */
  function Surviving(events: seq<Event>, id: string): map<nat, Bytes>
    decreases |events|
  {
    if events == [] then map[]
    else
      var front, last := Surviving(events[..|events| - 1], id), events[|events| - 1];
      if last.id != id then front
      else match last
        case Saved(_, s) => front[s.index := s.payload]
        case Refused(_, _) => front
        case Merged(_, _, _) => map[]
        case HalfMerged(_, _, _, left) => map i | i in front && Format(i) in left :: front[i]
  }

  /** A RemoveAll that failed has removed chunk i, and it has not been saved again. */
  predicate Lost(events: seq<Event>, id: string, i: nat)
    decreases |events|
  {
    events != [] &&
    var front, last := events[..|events| - 1], events[|events| - 1];
    if last.id != id then Lost(front, id, i)
    else match last
      case Saved(_, s) => s.index != i && Lost(front, id, i)
      case Refused(_, _) => Lost(front, id, i)
      case Merged(_, _, _) => false
      case HalfMerged(_, _, _, left) => (i in Surviving(front, id) && Format(i) !in left) || Lost(front, id, i)
  }

  predicate AllIndexable(events: seq<Event>) {
    forall k :: 0 <= k < |events| && events[k].Saved? ==> events[k].save.index <= MAX_UINT64
  }

  lemma OneEventById(dirs: Dirs, e: Event, id: string)
    requires id != ""
    ensures e.id != id ==> Entries(Occurred(dirs, e), id) == Entries(dirs, id)
    ensures e.id == id ==>
      (Entries(Occurred(dirs, e), id) ==
       match e
       case Saved(_, s) => Entries(dirs, id)[Format(s.index) := File(s.payload)]
       case Refused(_, _) => Entries(dirs, id)
       case Merged(_, _, _) => map[]
       case HalfMerged(_, _, _, left) => Kept(Entries(dirs, id), left))
  {}

  lemma SavedOneMore(saves: seq<Save>, s: Save)
    ensures SavedAll(map[], saves + [s]) == SavedAll(map[], saves)[Format(s.index) := File(s.payload)]
  {
    assert (saves + [s])[..|saves + [s]| - 1] == saves;
  }

  /**
   Neither failed calls nor other uploads reach into the directory of an upload: it holds what its own
   calls make of it, which is what was saved unless a RemoveAll has failed.
   */
  lemma {:induction false} EventsById(dirs: Dirs, events: seq<Event>, id: string)
    requires id != "" && id !in dirs && AllIndexable(events)
    ensures Entries(OccurredAll(dirs, events), id) == OwnDir(events, id)
    ensures (forall k | 0 <= k < |events| && events[k].HalfMerged? :: events[k].id != id) ==>
              OwnDir(events, id) == SavedAll(map[], SavesOf(events, id))
    ensures Indexable(SavesOf(events, id))
    decreases |events|
  {
    if events == [] {
    } else {
      var front, last := events[..|events| - 1], events[|events| - 1];
      EventsById(dirs, front, id);
      OneEventById(OccurredAll(dirs, front), last, id);
      if last.Saved? && last.id == id {
        SavedOneMore(SavesOf(front, id), last.save);
      }
    }
  }

  lemma KeptKeepsMatch(e: Dir, m: map<nat, Bytes>, left: set<string>)
    requires Matches(e, m)
    ensures Matches(Kept(e, left), map i | i in m && Format(i) in left :: m[i])
  {}

  lemma {:induction false} OwnDirMatches(events: seq<Event>, id: string)
    requires AllIndexable(events)
    ensures Matches(OwnDir(events, id), Surviving(events, id))
    decreases |events|
  {
    if events == [] {
    } else {
      var front, last := events[..|events| - 1], events[|events| - 1];
      OwnDirMatches(front, id);
      if last.Saved? && last.id == id {
        SaveKeepsMatch(OwnDir(front, id), Surviving(front, id), last.save);
      } else if last.HalfMerged? && last.id == id {
        KeptKeepsMatch(OwnDir(front, id), Surviving(front, id), last.left);
      }
    }
  }

  lemma LastOneMore(saves: seq<Save>, s: Save)
    ensures LastPayloads(saves + [s]) == LastPayloads(saves)[s.index := s.payload]
  {
    assert (saves + [s])[..|saves + [s]| - 1] == saves;
  }

  /** What survives are the last payloads but for the lost ones. */
  lemma {:induction false} SurvivingIsNotLost(events: seq<Event>, id: string, i: nat)
    ensures var all, there := LastPayloads(SavesOf(events, id)), Surviving(events, id);
      && (i in there <==> i in all && !Lost(events, id, i))
      && (i in there ==> there[i] == all[i])
      && (Lost(events, id, i) ==> i in all)
    decreases |events|
  {
    if events == [] {
    } else {
      var front, last := events[..|events| - 1], events[|events| - 1];
      SurvivingIsNotLost(front, id, i);
      if last.Saved? && last.id == id {
        LastOneMore(SavesOf(front, id), last.save);
      }
    }
  }

  /** Leaving chunks out shows in the joined bytes exactly if one of them is not empty. */
  lemma {:induction false} JoinOfFewer(some: map<nat, Bytes>, all: map<nat, Bytes>, n: nat)
    requires forall i :: i in some ==> i in all && some[i] == all[i]
    ensures |JoinBelow(some, n)| <= |JoinBelow(all, n)|
    ensures JoinBelow(some, n) == JoinBelow(all, n) <==> forall i | 0 <= i < n && i in all && i !in some :: all[i] == []
    ensures JoinBelow(some, n) != JoinBelow(all, n) ==> |JoinBelow(some, n)| < |JoinBelow(all, n)|
    decreases n
  {
    if n == 0 {
    } else {
      JoinOfFewer(some, all, n - 1);
    }
  }

  lemma SavedIndexesFit(saves: seq<Save>, i: nat)
    requires Indexable(saves)
    ensures i in LastPayloads(saves) ==> i <= MAX_UINT64
    decreases |saves|
  {
    if saves == [] {
    } else {
      SavedIndexesFit(saves[..|saves| - 1], i);
    }
  }

  /** The last payload saved under an index, if there is one. */
  function LastOf(events: seq<Event>, id: string, i: nat): Bytes {
    var all := LastPayloads(SavesOf(events, id));
    if i in all then all[i] else []
  }

  /** The merged file is what was saved exactly if every chunk that was lost is empty. */
  lemma CompleteIff(events: seq<Event>, id: string)
    requires Indexable(SavesOf(events, id))
    ensures Joined(Surviving(events, id)) == Joined(LastPayloads(SavesOf(events, id))) <==>
            forall i | Lost(events, id, i) :: LastOf(events, id, i) == []
  {
    var all, there := LastPayloads(SavesOf(events, id)), Surviving(events, id);
    forall i: nat
      ensures i in there ==> i in all && there[i] == all[i]
      ensures Lost(events, id, i) <==> i in all && i !in there
      ensures i in all ==> i <= MAX_UINT64
    {
      SurvivingIsNotLost(events, id, i);
      SavedIndexesFit(SavesOf(events, id), i);
    }
    JoinOfFewer(there, all, MAX_UINT64 + 1);
    if forall i | Lost(events, id, i) :: LastOf(events, id, i) == [] {
      forall i: nat | i in all && i !in there
        ensures all[i] == []
      {
        assert Lost(events, id, i);
      }
    }
  }

  /**
   The whole upload. After any calls for any uploads, saves and merges, succeeding or failing in any
   order, the directory of an upload is readable; a MergeFiles that succeeds then (`after` is what its
   contract allows) leaves in the destination the surviving chunks in ascending order, and changes
   nothing else but that the chunks of this upload are gone. The file is the last payload saved under
   each index since the last merge exactly if every chunk that a failed RemoveAll took away has been
   saved again or is empty.
   */
  lemma UploadRoundTrip(dirs: Dirs, events: seq<Event>, id: string, dst: string, after: Dirs)
    requires id != "" && id !in dirs && AllIndexable(events)
    requires "" in OccurredAll(dirs, events)
    requires MergeAllows(OccurredAll(dirs, events), id, dst, after)
    ensures Readable(Entries(OccurredAll(dirs, events), id))
    ensures var file := Joined(Surviving(events, id));
      && after == Put(OccurredAll(dirs, events), "", dst, File(file)) - {id}
      && (file == Joined(LastPayloads(SavesOf(events, id))) <==>
            forall i | Lost(events, id, i) :: LastOf(events, id, i) == [])
  {
    EventsById(dirs, events, id);
    OwnDirMatches(events, id);
    MatchedIsReadable(OwnDir(events, id), Surviving(events, id));
    CompleteIff(events, id);
  }

  /** A stray temporary file in the chunk directory makes it unreadable for good. */
  lemma StrayTempBlocks(saves: seq<Save>, base: string, random: string, data: Bytes, more: seq<Save>)
    requires Indexable(saves) && Indexable(more)
    ensures !Readable(SavedAll(SavedAll(map[], saves)[TempName(base, random) := File(data)], more))
  {
    var e := SavedAll(map[], saves)[TempName(base, random) := File(data)];
    StrayStays(e, TempName(base, random), more);
  }

  lemma {:induction false} StrayStays(e: Dir, stray: string, saves: seq<Save>)
    requires Indexable(saves) && stray in e && e[stray].File? && Index(stray) == None
    ensures stray in SavedAll(e, saves) && SavedAll(e, saves)[stray] == e[stray]
    decreases |saves|
  {
    if saves == [] {
    } else {
      StrayStays(e, stray, saves[..|saves| - 1]);
      IndexRoundTrip(saves[|saves| - 1].index, "");
    }
  }

  /** A successful merge: the chunks in the order of their indexes, and the chunk directory gone. */
  ghost predicate MergeAllows(before: Dirs, id: string, dst: string, after: Dirs)
    requires "" in before
  {
    forall chunks :: Chunks(Entries(before, id), chunks) ==>
      chunks != map[] && after == Put(before, "", dst, File(Joined(chunks))) - {id}
  }

  class Disk {
    /** Directories by name; "" is the storage directory itself. */
    var dirs: Dirs

    constructor ()
      ensures dirs == map["" := map[]]
    {
      dirs := map["" := map[]];
    }

    /**
     writeFileAtomic. `moments` are the states of the disk the write passes through before its
     last step: in all of them every file but the temporary one is as it was, so a reader (or a
     crash) finds the destination either as before or complete.
     */
    method WriteFileAtomic(dir: string, base: string, content: Content, k: Luck)
      returns (ok: bool, ghost moments: seq<Dirs>)
      modifies this
      ensures ok ==> content.ok && Lucky(k) && dir in old(dirs)
      ensures ok ==> dirs == old(dirs)[dir := old(dirs)[dir][base := File(content.bytes)]]
      ensures !ok ==> OnlyTemp(old(dirs), dirs, dir, TempName(base, k.random))
      ensures !ok && k.removed ==> dirs == old(dirs)
      ensures forall d :: d in moments ==> OnlyTemp(old(dirs), d, dir, TempName(base, k.random))
      ensures base != "" && dir in old(dirs) && Lucky(k) && content.ok
              && TempName(base, k.random) !in old(dirs)[dir]
              && (base in old(dirs)[dir] ==> old(dirs)[dir][base].File?)
              ==> ok
    {
      moments := [dirs];
      var temp := TempName(base, k.random);
      if base == "" || !k.created || dir !in dirs || temp in dirs[dir] {
        return false, moments;
      }
      ghost var before := dirs;
      dirs := Put(dirs, dir, temp, File([]));
      moments := moments + [dirs];

      var data := if k.written then content.bytes else k.partial;
      dirs := Put(dirs, dir, temp, File(data));
      assert dirs == Put(before, dir, temp, File(data)) by { PutAgain(before, dir, temp, File([]), File(data)); }
      moments := moments + [dirs];

      PutAndDrop(before, dir, temp, File(data));
      if !k.written || !content.ok || !k.closed || !k.moded || !k.renamed
         || (base in dirs[dir] && dirs[dir][base].Other?)
      {
        if k.removed {
          dirs := Drop(dirs, dir, temp);
        }
        return false, moments;
      }
      dirs := Put(Drop(dirs, dir, temp), dir, base, File(data));
      ok := true;
    }

    /**
     ChunkSave: the chunk is filed under the decimal form of its index. A failed call changes
     nothing, except that it may have created the chunk directory, and may leave the temporary
     file behind when removing that fails too.
     */
    method ChunkSave(maxSize: int, id: string, index: string, src: Source, madeDir: bool, k: Luck)
      returns (ok: bool, ghost event: Event)
      modifies this
      ensures ok ==> ValidId(id) && Index(index).Some? && Accepted(src, MaxSizeBytes(maxSize)).Some?
      ensures ok ==> Accepted(src, MaxSizeBytes(maxSize)).value.ok
      ensures ok ==> dirs == Put(WithDir(old(dirs), id), id, Format(Index(index).value),
                                 File(Accepted(src, MaxSizeBytes(maxSize)).value.bytes))
      ensures !ok ==>
        || dirs == old(dirs)
        || (Index(index).Some?
            && OnlyTemp(WithDir(old(dirs), id), dirs, id, TempName(Format(Index(index).value), k.random)))
      ensures !ok && k.removed ==> (dirs == old(dirs) || dirs == WithDir(old(dirs), id))
      ensures ok || k.removed ==> dirs == Occurred(old(dirs), event) && event.id == id && (event.Saved? <==> ok)
      ensures ok ==> event.save == Save(Index(index).value, Accepted(src, MaxSizeBytes(maxSize)).value.bytes)
      ensures ValidId(id) && Index(index).Some? && !src.Missing? && madeDir && Lucky(k)
              && Accepted(src, MaxSizeBytes(maxSize)).Some? && Accepted(src, MaxSizeBytes(maxSize)).value.ok
              && TempName(Format(Index(index).value), k.random) !in Entries(old(dirs), id)
              && (Format(Index(index).value) in Entries(old(dirs), id) ==>
                    Entries(old(dirs), id)[Format(Index(index).value)].File?)
              ==> ok
    {
      event := Refused(id, false);
      var parsed := Index(index);
      if parsed.None? || !ValidId(id) || src.Missing? {
        return false, event;
      }
      var content := Accepted(src, MaxSizeBytes(maxSize));
      if content.None? || !madeDir {
        return false, event;
      }
      dirs := WithDir(dirs, id);
      ghost var moments;
      ok, moments := WriteFileAtomic(id, Format(parsed.value), content.value, k);
      event := if ok then Saved(id, Save(parsed.value, content.value.bytes)) else Refused(id, true);
    }

    /**
     mergeFiles, for a destination name in the storage directory. On success the destination holds
     the chunks in the order of their indexes and the chunk directory is gone. On failure either no
     chunk is lost and no file but a temporary one has appeared, or the destination is complete and
     only removing the chunks failed.
     */
    method MergeFiles(id: string, dst: string, k: Luck, m: MergeLuck) returns (ok: bool, ghost event: Event)
      requires ValidId(id) && dst != "" && "" in dirs
      modifies this
      ensures ok ==> id in old(dirs) && Readable(old(dirs)[id])
      ensures ok ==> MergeAllows(old(dirs), id, dst, dirs)
      ensures !ok ==>
        || OnlyTemp(old(dirs), dirs, "", TempName(dst, k.random))
        || (!m.removed && id in dirs && dirs[id] == Kept(Entries(old(dirs), id), m.left)
            && forall chunks :: Chunks(Entries(old(dirs), id), chunks) ==>
                 dirs == Put(old(dirs), "", dst, File(Joined(chunks)))[id := dirs[id]])
      ensures event.id == id && !event.Saved? && (event.Merged? <==> ok)
      ensures ok || event.HalfMerged? || k.removed ==> dirs == Occurred(old(dirs), event)
      ensures id in old(dirs) && m.listed && !Readable(old(dirs)[id]) ==> !ok && dirs == old(dirs)
      ensures id in old(dirs) && Readable(old(dirs)[id]) && (exists n :: n in old(dirs)[id] && old(dirs)[id][n].File?)
              && m == MergeLuck(true, true, -1, true, m.left) && Lucky(k)
              && TempName(dst, k.random) !in old(dirs)[""]
              && (dst in old(dirs)[""] ==> old(dirs)[""][dst].File?)
              ==> ok
    {
      event := Refused(id, false);
      if id !in dirs || !m.listed {
        return false, event;
      }
      var e := dirs[id];
      var copied;
      ok, copied := GatherChunks(e, m.fault);
      if !ok || !m.madeDir {
        return false, event;
      }
      ghost var before := dirs;
      ghost var moments;
      ok, moments := WriteFileAtomic("", dst, copied, k);
      if !ok {
        return false, event;
      }
      if !m.removed {
        dirs := dirs[id := Kept(dirs[id], m.left)];
        return false, HalfMerged(id, dst, copied.bytes, m.left);
      }
      dirs := dirs - {id};
      event := Merged(id, dst, copied.bytes);
    }
  }

  /** How the other system calls of a merge turn out. */
  datatype MergeLuck = MergeLuck(
    listed: bool, madeDir: bool,        // ReadDir, MkdirAll
    fault: int,                         // the position of the chunk whose Open, Copy or Close fails, if there is one
    removed: bool, left: set<string>)   // RemoveAll; what it may leave behind when it fails

  function WithDir(dirs: Dirs, dir: string): Dirs {
    if dir in dirs then dirs else dirs[dir := map[]]
  }

  /** What will be written; data that is too long is refused before anything happens. */
  function Accepted(src: Source, limit: int): Option<Content> {
    match src
    case Reader(stream, breaks) => Some(Streamed(stream, breaks, limit))
    case Data(bytes) => if |bytes| > limit then None else Some(Content(bytes, true))
    case Missing => None
  }

  /** Data is stored byte for byte, exactly if it is no longer than MaxSize megabytes. */
  lemma DataIsStoredIff(maxSize: int, bytes: Bytes)
    requires 1 <= maxSize <= 8796093022207
    ensures var c := Accepted(Data(bytes), MaxSizeBytes(maxSize));
      (c == Some(Content(bytes, true)) <==> |bytes| <= maxSize * 1048576) && (c.Some? ==> c.value.bytes == bytes)
  {
    MaxSizeIsMegabytes(maxSize);
  }

  /** readChunkFiles on the entries of an existing directory. */
  method ReadChunkFiles(e: Dir) returns (ok: bool, files: seq<ChunkFile>)
    ensures ok <==> Readable(e)
    ensures ok ==> Lists(files, e) && Ascending(files)
  {
    files := [];
    var seen: set<nat> := {};
    var todo := e.Keys;
    while todo != {}
      invariant todo <= e.Keys
      invariant forall f :: f in files ==>
        f.name in e && f.name !in todo && e[f.name].File? && Index(f.name) == Some(f.index)
      invariant forall n :: n in e && n !in todo && e[n].File? ==> exists f :: f in files && f.name == n
      invariant forall i :: i in seen <==> exists f :: f in files && f.index == i
      invariant Distinct(files)
      decreases |todo|
    {
      var n :| n in todo;
      todo := todo - {n};
      if e[n].File? {
        var index := Index(n);
        if index.None? {
          return false, [];
        }
        if index.value in seen {
          return false, [];
        }
        seen := seen + {index.value};
        files := files + [ChunkFile(n, index.value)];
      }
    }
    files := SortByIndex(files);
    ok := true;
  }

  /** sort.Slice by index. */
  method SortByIndex(files: seq<ChunkFile>) returns (r: seq<ChunkFile>)
    requires Distinct(files)
    ensures Ascending(r) && |r| == |files|
    ensures forall f :: f in r <==> f in files
  {
    r := [];
    for i := 0 to |files|
      invariant Ascending(r) && |r| == i
      invariant forall f :: f in r <==> f in files[..i]
    {
      var p := 0;
      while p < |r| && r[p].index < files[i].index
        invariant 0 <= p <= |r|
        invariant forall k :: 0 <= k < p ==> r[k].index < files[i].index
      {
        p := p + 1;
      }
      assert files[..i + 1] == files[..i] + [files[i]];
      forall k | p <= k < |r|
        ensures files[i].index < r[k].index
      {
        assert r[k] in files[..i];
      }
      InsertedAscends(r, p, files[i]);
      r := r[..p] + [files[i]] + r[p..];
    }
    assert files[..|files|] == files;
  }

  lemma InsertedAscends(r: seq<ChunkFile>, p: nat, f: ChunkFile)
    requires Ascending(r) && p <= |r|
    requires forall k :: 0 <= k < p ==> r[k].index < f.index
    requires forall k :: p <= k < |r| ==> f.index < r[k].index
    ensures Ascending(r[..p] + [f] + r[p..])
    ensures forall g :: g in r[..p] + [f] + r[p..] <==> g in r || g == f
  {
    assert r == r[..p] + r[p..];
  }

  /** What mergeFiles reads: the chunks of the directory, in the order of their indexes. */
  method GatherChunks(e: Dir, fault: int) returns (ok: bool, c: Content)
    ensures ok <==> Readable(e) && exists n :: n in e && e[n].File?
    ensures ok && fault == -1 ==> c.ok
    ensures ok && c.ok ==> forall chunks :: Chunks(e, chunks) ==> chunks != map[] && c.bytes == Joined(chunks)
  {
    var files;
    ok, files := ReadChunkFiles(e);
    if !ok || |files| == 0 {
      return false, Content([], false);
    }
    assert files[0] in files;
    files := SortByIndex(files);
    c := CopyChunks(files, e, fault);
    forall chunks | Chunks(e, chunks)
      ensures chunks != map[] && (c.ok ==> c.bytes == Joined(chunks))
    {
      GluedIsJoined(files, e, chunks);
      assert files[0] in files;
    }
  }

  /** The copy loop of mergeFiles. */
  method CopyChunks(files: seq<ChunkFile>, e: Dir, fault: int) returns (c: Content)
    requires forall f :: f in files ==> f.name in e && e[f.name].File?
    ensures c.ok <==> !(0 <= fault < |files|)
    ensures c.ok ==> c.bytes == Glued(Parts(files, e))
  {
    var out := [];
    ghost var parts := Parts(files, e);
    for i := 0 to |files|
      invariant out == Glued(parts[..i]) && !(0 <= fault < i)
    {
      if i == fault {
        return Content(out, false);
      }
      OnePartMore(parts, i + 1);
      out := out + e[files[i].name].data;
    }
    assert parts[..|files|] == parts;
    c := Content(out, true);
  }
}
