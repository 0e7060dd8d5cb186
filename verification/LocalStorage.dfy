/**
 * The local storage adapter: part files kept by name in one directory per upload, objects kept by key.
 * `Disk()` is the storage as the rest of the model sees it, with part files by number.
 */
module LocalStorage {
  import opened Basics
  import opened Sorting
  import opened Decimal
  import opened Server

  const CHUNK: nat := 1_048_576

  datatype UploadedPart = UploadedPart(number: nat, etag: string, size: nat)

  // ------------------------------------------------------------------ part files by name and by number

  ghost predicate IsPartName(name: string) { exists n: nat :: name == PartName(n) }

  ghost function NumberOf(name: string): (n: nat)
    requires IsPartName(name)
    ensures name == PartName(n)
  {
    var n: nat :| name == PartName(n);
    n
  }

  /** The number that `int(path.stem)` reads from a part file's name is the number it was named after. */
  lemma NameReads(name: string)
    requires IsPartName(name)
    ensures |name| >= 5 && PartNumber(name) == Some(NumberOf(name))
  {
    PartNameRoundTrip(NumberOf(name));
  }

  ghost predicate NamesOk(dir: map<string, bytes>) { forall name :: name in dir ==> IsPartName(name) }

  ghost function ByNumber(dir: map<string, bytes>): map<nat, bytes>
    requires NamesOk(dir)
  {
    map name | name in dir :: NumberOf(name) := dir[name]
  }

  lemma NameOk(n: nat)
    ensures IsPartName(PartName(n)) && NumberOf(PartName(n)) == n
  {
    PartNameRoundTrip(n);
    PartNameRoundTrip(NumberOf(PartName(n)));
  }

  lemma ByNumberAt(dir: map<string, bytes>, n: nat)
    requires NamesOk(dir)
    ensures n in ByNumber(dir) <==> PartName(n) in dir
    ensures PartName(n) in dir ==> ByNumber(dir)[n] == dir[PartName(n)]
  {
    NameOk(n);
    if n in ByNumber(dir) {
      var name :| name in dir && NumberOf(name) == n;
    }
  }

  lemma ByNumberPut(dir: map<string, bytes>, n: nat, content: bytes)
    requires NamesOk(dir)
    ensures NamesOk(dir[PartName(n) := content])
    ensures ByNumber(dir[PartName(n) := content]) == ByNumber(dir)[n := content]
  {
    NameOk(n);
    var dir' := dir[PartName(n) := content];
    forall m: nat
      ensures m in ByNumber(dir') <==> m in ByNumber(dir)[n := content]
      ensures m in ByNumber(dir') ==> ByNumber(dir')[m] == ByNumber(dir)[n := content][m]
    {
      ByNumberAt(dir, m);
      ByNumberAt(dir', m);
      NameOk(m);
    }
  }

  lemma ByNumberDrop(dir: map<string, bytes>, n: nat)
    requires NamesOk(dir)
    ensures NamesOk(dir - {PartName(n)})
    ensures ByNumber(dir - {PartName(n)}) == ByNumber(dir) - {n}
  {
    NameOk(n);
    var dir' := dir - {PartName(n)};
    forall m: nat
      ensures m in ByNumber(dir') <==> m in ByNumber(dir) - {n}
      ensures m in ByNumber(dir') ==> ByNumber(dir')[m] == (ByNumber(dir) - {n})[m]
    {
      ByNumberAt(dir, m);
      ByNumberAt(dir', m);
      NameOk(m);
    }
  }

  ghost predicate TreeOk(tree: map<Id, map<string, bytes>>) { forall id :: id in tree ==> NamesOk(tree[id]) }

  ghost function TreeByNumber(tree: map<Id, map<string, bytes>>): map<Id, map<nat, bytes>>
    requires TreeOk(tree)
  {
    map id | id in tree :: ByNumber(tree[id])
  }

  lemma TreePut(tree: map<Id, map<string, bytes>>, id: Id, dir: map<string, bytes>)
    requires TreeOk(tree) && NamesOk(dir)
    ensures TreeOk(tree[id := dir]) && TreeByNumber(tree[id := dir]) == TreeByNumber(tree)[id := ByNumber(dir)]
  {}

  lemma TreeDrop(tree: map<Id, map<string, bytes>>, id: Id)
    requires TreeOk(tree)
    ensures TreeOk(tree - {id}) && TreeByNumber(tree - {id}) == TreeByNumber(tree) - {id}
  {}

  /** What `complete_multipart_upload` answers and does to storage, for part numbers in order. */
  ghost function Completion(disk: Disk, key: Key, id: Id, ns: seq<nat>, failure: Option<Option<bytes>>,
                            sha: bytes -> string): (Disk, Result<string, Error>)
  {
    var stored := Stored(disk, id);
    var cleared := WithoutParts(disk, id);
    var content := Assembled(stored, ns);
    if failure.Some? then (cleared.(objects := LeaveDebris(disk.objects, key, failure.value)), Err(StorageUnavailable))
    else if AllIn(ns, stored) then (cleared.(objects := Replace(disk.objects, key, content)), Ok(sha(content)))
    else (cleared.(objects := LeaveDebris(disk.objects, key, Some(content))), Err(PartFileMissing))
  }

  ghost predicate AllIn(ns: seq<nat>, files: map<nat, bytes>)
    ensures AllIn(ns, files) <==> forall n :: n in ns ==> n in files
  {
    if ns == [] then true
    else
      assert forall n :: n in ns <==> n == ns[0] || n in ns[1..];
      ns[0] in files && AllIn(ns[1..], files)
  }

  /** What `put_object` answers and does to storage. */
  ghost function Putting(disk: Disk, key: Key, content: bytes, checksum: Option<string>, ioError: bool,
                         sha: bytes -> string): (Disk, Result<string, Error>)
  {
    var replaced := Replace(disk.objects, key, content);
    if ioError then (disk.(objects := disk.objects - {TempKey(key)}), Err(StorageUnavailable))
    else if checksum.Some? && checksum.value != sha(content) then
      (disk.(objects := replaced - {key}), Err(ChecksumMismatch))
    else (disk.(objects := replaced), Ok(sha(content)))
  }

  /** The stretch of an object that starts at `offset` and is at most `length` long. */
  function Stretch(data: bytes, offset: nat, length: Option<nat>): bytes {
    var from := Min(offset, |data|);
    data[from..if length.None? then |data| else Min(from + length.value, |data|)]
  }

  // ------------------------------------------------------------------ loops over streams and lists

  /** The read loop shared by every copy: the stream in chunks of at most 1 MiB, joined again. */
  method ReadAll(stream: bytes) returns (content: bytes, written: nat)
    ensures content == stream && written == |stream|
  {
    content, written := [], 0;
    while written < |stream|
      invariant written == |content| <= |stream|
      invariant content == stream[..written]
    {
      var chunk := stream[written..Min(written + CHUNK, |stream|)];
      written := written + |chunk|;
      content := content + chunk;
    }
  }

  /** The names of a directory, in no particular order. */
  method Names(dir: map<string, bytes>) returns (names: seq<string>)
    ensures Distinct(names) && forall name :: name in names <==> name in dir
  {
    names := [];
    var todo := dir.Keys;
    while todo != {}
      invariant Distinct(names) && todo <= dir.Keys
      invariant forall name :: name in names <==> name in dir.Keys - todo
      decreases |todo|
    {
      var name :| name in todo;
      assert forall i :: 0 <= i < |names| ==> names[i] in names;
      names := names + [name];
      todo := todo - {name};
    }
  }

  lemma LexStrictTotal(s: set<string>)
    ensures StrictOn(LexLess, s) && TotalOn(LexLess, s)
  {
    forall x, y | LexLess(x, y) ensures !LexLess(y, x) { LexAsymmetric(x, y); }
    forall x, y, z | LexLess(x, y) && LexLess(y, z) ensures LexLess(x, z) { LexTransitive(x, y, z); }
    forall x, y | x != y ensures LexLess(x, y) || LexLess(y, x) { LexTotal(x, y); }
  }

  predicate Below(a: nat, b: nat) { a < b }

  lemma BelowStrictTotal(s: set<nat>)
    ensures StrictOn(Below, s) && TotalOn(Below, s)
  {}

  ghost function Numbers(parts: seq<UploadedPart>): (ns: seq<nat>)
    ensures |ns| == |parts| && forall i :: 0 <= i < |ns| ==> ns[i] == parts[i].number
  {
    seq(|parts|, i requires 0 <= i < |parts| => parts[i].number)
  }

  /** An increasing list of exactly the numbers of a set is the list `Increasing`. */
  lemma IncreasingUnique(ns: seq<nat>, s: set<nat>)
    requires forall n :: n in ns <==> n in s
    requires forall i, j :: 0 <= i < j < |ns| ==> ns[i] < ns[j]
    ensures ns == Increasing(s)
  {
    IncreasingMeans(s);
    BelowStrictTotal(Elements(ns));
    AscendingUnique(Below, ns, Increasing(s));
  }

  /** The part files up to the first of `ns` that is missing, joined. */
  ghost function Assembled(files: map<nat, bytes>, ns: seq<nat>): bytes {
    if ns == [] || ns[0] !in files then [] else files[ns[0]] + Assembled(files, ns[1..])
  }

  lemma {:induction false} AssembledAll(files: map<nat, bytes>, ns: seq<nat>)
    requires forall n :: n in ns ==> n in files
    ensures Assembled(files, ns) == Assemble(files, ns)
  {
    if ns != [] {
      assert ns[0] in ns && forall n :: n in ns[1..] ==> n in ns;
      AssembledAll(files, ns[1..]);
      AssembleFront(files, ns);
    }
  }

  lemma Regroup(a: bytes, b: bytes, c: bytes)
    ensures (a + b) + c == a + (b + c)
  {}

  lemma {:induction false} AssembleFront(files: map<nat, bytes>, ns: seq<nat>)
    requires ns != [] && forall n :: n in ns ==> n in files
    ensures ns[0] in files
    ensures Assemble(files, ns) == files[ns[0]] + Assemble(files, ns[1..])
  {
    assert ns[0] in ns;
    var k := |ns| - 1;
    var first, rest := ns[..k], ns[1..];
    AssembleLast(files, ns);
    if k > 0 {
      assert forall n :: n in first ==> n in ns;
      AssembleFront(files, first);
      AssembleLast(files, rest);
      assert first[1..] == rest[..k - 1] && rest[k - 1] == ns[k];
      Regroup(files[ns[0]], Assemble(files, first[1..]), files[ns[k]]);
    }
  }

  lemma AssembleLast(files: map<nat, bytes>, ns: seq<nat>)
    requires ns != [] && forall n :: n in ns ==> n in files
    ensures ns[|ns| - 1] in files
    ensures Assemble(files, ns) == Assemble(files, ns[..|ns| - 1]) + files[ns[|ns| - 1]]
  {
    assert ns[|ns| - 1] in ns;
  }

  // ------------------------------------------------------------------ the adapter

  class LocalStorageAdapter {
    const sha: bytes -> string
    var parts: map<Id, map<string, bytes>>
    var objects: map<Key, bytes>

    constructor (sha: bytes -> string)
      ensures this.sha == sha && Valid() && Disk() == Server.Disk(map[], map[])
    {
      this.sha := sha;
      parts := map[];
      objects := map[];
    }

    ghost predicate Valid()
      reads this
    {
      TreeOk(parts)
    }

    ghost function Disk(): Disk
      reads this
      requires Valid()
    {
      Server.Disk(TreeByNumber(parts), objects)
    }

    function Directory(id: Id): map<string, bytes>
      reads this
    {
      if id in parts then parts[id] else map[]
    }

    lemma DirectoryIsStored(id: Id)
      requires Valid()
      ensures NamesOk(Directory(id)) && ByNumber(Directory(id)) == Stored(Disk(), id)
    {}

    /** Writes a part file chunk by chunk; an I/O error or a size other than declared removes the file. */
    method UploadPart(id: Id, n: nat, stream: bytes, declared: int, ioError: bool)
      returns (r: Result<UploadedPart, Error>)
      requires Valid()
      modifies this`parts
      ensures Valid()
      ensures !ioError && |stream| == declared ==>
        r == Ok(UploadedPart(n, sha(stream), |stream|))
        && Disk() == WithParts(old(Disk()), id, Stored(old(Disk()), id)[n := stream])
      ensures ioError || |stream| != declared ==>
        r == Err(if ioError then StorageUnavailable else PartSizeMismatch)
        && Disk() == WithParts(old(Disk()), id, Stored(old(Disk()), id) - {n})
    {
      DirectoryIsStored(id);
      var dir := Directory(id);
      var content, written := ReadAll(stream);
      if ioError || written != declared {
        ByNumberDrop(dir, n);
        TreePut(parts, id, dir - {PartName(n)});
        parts := parts[id := dir - {PartName(n)}];
        r := Err(if ioError then StorageUnavailable else PartSizeMismatch);
      } else {
        ByNumberPut(dir, n, content);
        TreePut(parts, id, dir[PartName(n) := content]);
        parts := parts[id := dir[PartName(n) := content]];
        r := Ok(UploadedPart(n, sha(content), written));
      }
    }

    /**
     * `sorted(parts_dir.glob("*.part"))`: each stored part once with its size and no etag, in the order
     * of the file names. Below 10^8 that is the order of the numbers.
     */
    method ListParts(id: Id) returns (r: seq<UploadedPart>)
      requires Valid()
      ensures Listing(r, Stored(Disk(), id)) && ByName(r)
      ensures (forall n :: n in Stored(Disk(), id) ==> n < 100_000_000) ==>
        Numbers(r) == Increasing(Stored(Disk(), id).Keys)
    {
      DirectoryIsStored(id);
      var dir := Directory(id);
      var names := Names(dir);
      var sorted := SortBy(LexLess, names);
      SortedNames(names, sorted);
      r := Describe(dir, sorted);
      ListingComplete(dir, sorted, r);
      ListedInOrder(dir, sorted, r);
      ListedByName(dir, sorted, r);
    }

    /** Joins the given part files through a temporary file; removes the upload's directory in any case. */
    method CompleteMultipart(key: Key, id: Id, numbers: seq<nat>, failure: Option<Option<bytes>>)
      returns (r: Result<string, Error>)
      requires Valid()
      modifies this
      ensures Valid()
      ensures (Disk(), r) == Completion(old(Disk()), key, id, SortBy(Below, numbers), failure, sha)
    {
      DirectoryIsStored(id);
      TreeDrop(parts, id);
      if failure.Some? {
        if failure.value.Some? {
          objects := objects[TempKey(key) := failure.value.value];
        }
        parts := parts - {id};
        return Err(StorageUnavailable);
      }
      var content, complete := JoinParts(Directory(id), SortBy(Below, numbers));
      parts := parts - {id};
      if !complete {
        objects := objects[TempKey(key) := content];
        return Err(PartFileMissing);
      }
      objects := (objects - {TempKey(key)})[key := content];
      r := Ok(sha(content));
    }

    method AbortMultipart(id: Id)
      requires Valid()
      modifies this`parts
      ensures Valid() && Disk() == WithoutParts(old(Disk()), id)
    {
      TreeDrop(parts, id);
      parts := parts - {id};
    }

    /** Writes an object through its temporary file and checks the client's checksum afterwards. */
    method PutObject(key: Key, stream: bytes, checksum: Option<string>, ioError: bool)
      returns (r: Result<string, Error>)
      requires Valid()
      modifies this`objects
      ensures Valid()
      ensures (Disk(), r) == Putting(old(Disk()), key, stream, checksum, ioError, sha)
    {
      var content, _ := ReadAll(stream);
      objects := objects - {TempKey(key)};
      if ioError {
        return Err(StorageUnavailable);
      }
      objects := objects[key := content];
      if checksum.Some? && checksum.value != sha(content) {
        objects := objects - {key};
        return Err(ChecksumMismatch);
      }
      r := Ok(sha(content));
    }

    /** The chunk loop of `get_object`: non-empty chunks that join to the requested stretch. */
    method GetObject(key: Key, offset: nat, length: Option<nat>) returns (r: Result<seq<bytes>, Error>)
      ensures key !in objects ==> r == Err(FileNotFound)
      ensures key in objects ==> r.Ok? && Flatten(r.value) == Stretch(objects[key], offset, length)
      ensures r.Ok? ==> forall i :: 0 <= i < |r.value| ==> 1 <= |r.value[i]| <= CHUNK
    {
      if key !in objects {
        return Err(FileNotFound);
      }
      var chunks := ReadChunks(objects[key], Min(offset, |objects[key]|), length);
      r := Ok(chunks);
    }

    /** `path.unlink(missing_ok=True)` */
    method DeleteObject(key: Key, ioError: bool) returns (ok: bool)
      requires Valid()
      modifies this`objects
      ensures Valid() && ok == !ioError
      ensures Disk() == if ioError then old(Disk()) else old(Disk()).(objects := old(Disk()).objects - {key})
    {
      if !ioError {
        objects := objects - {key};
      }
      ok := !ioError;
    }
  }

  lemma StretchGrows(data: bytes, a: nat, b: nat, c: nat)
    requires a <= b <= c <= |data|
    ensures data[a..b] + data[b..c] == data[a..c]
  {}

  /** Reads from position `from` to the end, or until `length` bytes were read. */
  method ReadChunks(data: bytes, from: nat, length: Option<nat>) returns (chunks: seq<bytes>)
    requires from <= |data|
    ensures Flatten(chunks) == Stretch(data, from, length)
    ensures forall i :: 0 <= i < |chunks| ==> 1 <= |chunks[i]| <= CHUNK
  {
    var position, remaining := from, length;
    ghost var end := if length.None? then |data| else Min(from + length.value, |data|);
    chunks := [];
    var more := true;
    while more && (remaining.None? || remaining.value > 0)
      invariant from <= position <= end && (remaining.None? <==> length.None?)
      invariant remaining.Some? ==> remaining.value == length.value - (position - from)
      invariant !more ==> position == end
      invariant Flatten(chunks) == data[from..position]
      invariant forall i :: 0 <= i < |chunks| ==> 1 <= |chunks[i]| <= CHUNK
      decreases more, |data| - position
    {
      var size := if remaining.None? then CHUNK else Min(CHUNK, remaining.value);
      var chunk := data[position..Min(position + size, |data|)];
      if chunk == [] {
        more := false;
      } else {
        FlattenPush(chunks, chunk);
        StretchGrows(data, from, position, position + |chunk|);
        if remaining.Some? {
          remaining := Some(remaining.value - |chunk|);
        }
        position := position + |chunk|;
        chunks := chunks + [chunk];
      }
    }
  }

  /** Copies the part files into the temporary file, stopping at the first that does not exist. */
  method JoinParts(dir: map<string, bytes>, ns: seq<nat>) returns (content: bytes, complete: bool)
    requires NamesOk(dir)
    ensures content == Assembled(ByNumber(dir), ns) && complete == AllIn(ns, ByNumber(dir))
  {
    ghost var stored := ByNumber(dir);
    content := [];
    assert ns[0..] == ns;
    for i := 0 to |ns|
      invariant AllIn(ns, stored) == AllIn(ns[i..], stored)
      invariant Assembled(stored, ns) == content + Assembled(stored, ns[i..])
    {
      ByNumberAt(dir, ns[i]);
      AssembledFront(stored, ns, i, content);
      if PartName(ns[i]) !in dir {
        return content, false;
      }
      var part, _ := ReadAll(dir[PartName(ns[i])]);
      content := content + part;
    }
    complete := true;
  }

  lemma AssembledFront(files: map<nat, bytes>, ns: seq<nat>, i: nat, before: bytes)
    requires i < |ns|
    ensures ns[i] in files ==>
      before + Assembled(files, ns[i..]) == (before + files[ns[i]]) + Assembled(files, ns[i + 1..])
    ensures ns[i] in files ==> AllIn(ns[i..], files) == AllIn(ns[i + 1..], files)
    ensures ns[i] !in files ==> before + Assembled(files, ns[i..]) == before && !AllIn(ns[i..], files)
  {
    assert ns[i..][1..] == ns[i + 1..];
  }

  method Describe(dir: map<string, bytes>, sorted: seq<string>) returns (r: seq<UploadedPart>)
    requires forall k :: 0 <= k < |sorted| ==> sorted[k] in dir && IsPartName(sorted[k])
    ensures |r| == |sorted| && forall k :: 0 <= k < |r| ==> Lists(r[k], sorted[k], dir)
  {
    r := [];
    for i := 0 to |sorted|
      invariant |r| == i
      invariant forall k :: 0 <= k < i ==> Lists(r[k], sorted[k], dir)
    {
      var part := DescribeOne(dir, sorted[i]);
      ListedPush(r, part, sorted, dir);
      r := r + [part];
    }
  }

  lemma ListedPush(r: seq<UploadedPart>, part: UploadedPart, sorted: seq<string>, dir: map<string, bytes>)
    requires |r| < |sorted| && Lists(part, sorted[|r|], dir) && forall k :: 0 <= k < |r| ==> Lists(r[k], sorted[k], dir)
    ensures forall k :: 0 <= k < |r| + 1 ==> Lists((r + [part])[k], sorted[k], dir)
  {
    forall k | 0 <= k < |r| + 1 ensures Lists((r + [part])[k], sorted[k], dir) {
      if k < |r| {
        assert (r + [part])[k] == r[k];
      }
    }
  }

  method DescribeOne(dir: map<string, bytes>, name: string) returns (part: UploadedPart)
    requires name in dir && IsPartName(name)
    ensures Lists(part, name, dir)
  {
    NameReads(name);
    part := UploadedPart(PartNumber(name).value, "", |dir[name]|);
  }

  /** `part` describes the file `name`. */
  ghost predicate Lists(part: UploadedPart, name: string, dir: map<string, bytes>) {
    IsPartName(name) && name in dir && part == UploadedPart(NumberOf(name), "", |dir[name]|)
  }

  /** Each stored part once, with its size and without an etag. */
  ghost predicate Listing(r: seq<UploadedPart>, stored: map<nat, bytes>) {
    && (forall i :: 0 <= i < |r| ==>
          r[i].number in stored && r[i].etag == "" && r[i].size == |stored[r[i].number]|)
    && (forall n :: n in stored ==> exists i :: 0 <= i < |r| && r[i].number == n)
  }

  lemma ListingComplete(dir: map<string, bytes>, sorted: seq<string>, r: seq<UploadedPart>)
    requires NamesOk(dir) && |r| == |sorted| && (forall name :: name in sorted <==> name in dir)
    requires forall k :: 0 <= k < |r| ==> Lists(r[k], sorted[k], dir)
    ensures Listing(r, ByNumber(dir))
  {
    forall k | 0 <= k < |r| ensures r[k].number in ByNumber(dir) && |ByNumber(dir)[r[k].number]| == r[k].size {
      ByNumberAt(dir, r[k].number);
    }
    forall n | n in ByNumber(dir) ensures exists i :: 0 <= i < |r| && r[i].number == n {
      ByNumberAt(dir, n);
      NameOk(n);
      var k :| 0 <= k < |sorted| && sorted[k] == PartName(n);
      assert r[k].number == n;
    }
  }

  lemma SortedNames(names: seq<string>, sorted: seq<string>)
    requires Distinct(names) && sorted == SortBy(LexLess, names)
    ensures Ascending(LexLess, sorted) && forall name :: name in sorted <==> name in names
  {
    LexStrictTotal(Elements(names));
    SortByAscending(LexLess, names);
    SameElements(sorted, names);
  }

  /** Strictly ascending by file name, so no part is listed twice. */
  ghost predicate ByName(r: seq<UploadedPart>) {
    && (forall i, j :: 0 <= i < j < |r| ==> LexLess(PartName(r[i].number), PartName(r[j].number)))
    && (forall i, j :: 0 <= i < j < |r| ==> r[i].number != r[j].number)
  }

  lemma {:induction false} ListedByName(dir: map<string, bytes>, sorted: seq<string>, r: seq<UploadedPart>)
    requires |r| == |sorted| && Ascending(LexLess, sorted)
    requires forall k :: 0 <= k < |r| ==> Lists(r[k], sorted[k], dir)
    ensures ByName(r)
  {
    forall i, j | 0 <= i < j < |r|
      ensures LexLess(PartName(r[i].number), PartName(r[j].number)) && r[i].number != r[j].number
    {
      assert Lists(r[i], sorted[i], dir) && Lists(r[j], sorted[j], dir);
      assert LexLess(sorted[i], sorted[j]);
      if r[i].number == r[j].number { LexAsymmetric(sorted[i], sorted[j]); }
    }
  }

  lemma ListedInOrder(dir: map<string, bytes>, sorted: seq<string>, r: seq<UploadedPart>)
    requires NamesOk(dir) && |r| == |sorted| && Ascending(LexLess, sorted)
    requires (forall name :: name in sorted <==> name in dir)
    requires forall k :: 0 <= k < |r| ==> Lists(r[k], sorted[k], dir)
    ensures (forall n :: n in ByNumber(dir) ==> n < 100_000_000) ==> Numbers(r) == Increasing(ByNumber(dir).Keys)
  {
    if forall n :: n in ByNumber(dir) ==> n < 100_000_000 {
      var ns := Numbers(r);
      ListingComplete(dir, sorted, r);
      forall n ensures n in ns <==> n in ByNumber(dir).Keys {
        if n in ns {
          var k :| 0 <= k < |ns| && ns[k] == n;
          assert r[k].number == n;
        }
        if n in ByNumber(dir) {
          var k :| 0 <= k < |r| && r[k].number == n;
          assert ns[k] == n;
        }
      }
      forall i, j | 0 <= i < j < |ns| ensures ns[i] < ns[j] {
        assert ns[i] in ns && ns[j] in ns;
        PartNameOrder(ns[i], ns[j]);
        assert Lists(r[i], sorted[i], dir) && Lists(r[j], sorted[j], dir) && LexLess(sorted[i], sorted[j]);
      }
      IncreasingUnique(ns, ByNumber(dir).Keys);
    }
  }
}
