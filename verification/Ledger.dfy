/** What a Pool and its surroundings agree on between operations: manifest rows, remote
    objects, the in-memory account map, and the bytes every file was given. */
module Ledger {
  import opened Prelude
  import opened Codec
  import opened Manifest
  import opened Drive

  /** Account, as far as the pool keeps it in memory. */
  datatype Member = Member(tag: string, healthy: bool)

  /** `contents` remembers the bytes each file was put with. `torn` are the files whose
      purge was interrupted, `leaked` the objects no row will ever name. */
  datatype Book = Book(
    user: UserId, suite: Suite, db: Db, stores: Stores, members: map<AccountId, Member>,
    contents: map<FileId, Bytes>, torn: set<FileId>, leaked: set<Loc>)

  ghost predicate MembersOk(b: Book) {
    && (forall a :: a in b.members <==> OwnAccount(b.db, b.user, a))
    && (forall a :: a in b.members ==> b.members[a].tag == b.db.accounts[a].tag && a in b.stores)
    && (forall a :: a in b.stores ==> RemoteOk(b.stores[a]))
  }

  ghost predicate FileOk(s: Suite, row: FileRow, data: Bytes) {
    row.size == |data| && row.chunkSize > 0 && row.hash == s.sha256(data)
  }

  ghost predicate FilesOk(b: Book) {
    forall f :: OwnFile(b.db, b.user, f) ==> f in b.contents && FileOk(b.suite, b.db.files[f], b.contents[f])
  }

  /** The row describes chunk `idx` of `data`. */
  ghost predicate RowMatches(s: Suite, c: nat, data: Bytes, idx: nat, row: ChunkRow) {
    && c > 0 && idx < |Chunks(data, c)|
    && row.plainSize == |Chunks(data, c)[idx]| && row.sha == s.sha256(Chunks(data, c)[idx])
    && row.packedSize <= row.plainSize && (row.packedSize == 0 <==> row.plainSize == 0)
  }

  /** If the object the row names is there, it is that chunk. */
  ghost predicate RowStored(s: Suite, key: Bytes, plain: Bytes, row: ChunkRow, r: Remote) {
    && row.remote in r.used && row.folder in r.used
    && row.remote !in r.folders && row.folder !in r.objects
    && (row.remote in r.objects ==>
          r.objects[row.remote].folder == row.folder &&
          Holds(s, key, row.algo, row.packedSize, r.objects[row.remote].bytes, plain))
  }

  ghost predicate RowOk(b: Book, k: Slot)
    requires k in b.db.chunks
  {
    var row := b.db.chunks[k];
    && OwnFile(b.db, b.user, k.file) && k.file in b.contents
    && RowMatches(b.suite, b.db.files[k.file].chunkSize, b.contents[k.file], k.idx, row)
    && (row.account.Some? ==>
          && row.account.value in b.stores
          && RowStored(b.suite, b.db.files[k.file].key,
                       Chunks(b.contents[k.file], b.db.files[k.file].chunkSize)[k.idx], row,
                       b.stores[row.account.value])
          && (k.file !in b.torn ==> row.remote in b.stores[row.account.value].objects))
  }

  ghost predicate RowsOk(b: Book) {
    forall k :: OwnChunk(b.db, b.user, k) ==> RowOk(b, k)
  }

  /** The rows of a file are its first rows, and all of them once it is complete. */
  ghost predicate DenseOk(db: Db, user: UserId) {
    && (forall k, i: nat :: OwnChunk(db, user, k) && i < k.idx ==> OwnChunk(db, user, Slot(k.file, i)))
    && (forall f :: OwnFile(db, user, f) && db.files[f].status == Complete ==> Whole(db, user, f))
  }

  ghost predicate Whole(db: Db, user: UserId, f: FileId)
    requires f in db.files
  {
    db.files[f].chunkSize > 0 &&
    forall i: nat :: i < NumChunks(db.files[f].size, db.files[f].chunkSize) ==> OwnChunk(db, user, Slot(f, i))
  }

  /** Two rows on one account name different objects, and share a folder just when they
      belong to the same file. */
  ghost predicate Apart(db: Db, k: Slot, l: Slot)
    requires k in db.chunks && l in db.chunks
  {
    var x, y := db.chunks[k], db.chunks[l];
    x.account.Some? && x.account == y.account ==>
      (x.remote == y.remote ==> k == l) && (x.folder == y.folder <==> k.file == l.file)
  }

  ghost predicate PairsOk(db: Db, user: UserId) {
    forall k, l :: OwnChunk(db, user, k) && OwnChunk(db, user, l) ==> Apart(db, k, l)
  }

  predicate Points(db: Db, k: Slot, l: Loc) {
    k in db.chunks && db.chunks[k].account == Some(l.account) && db.chunks[k].remote == l.id
  }

  ghost predicate Claimed(db: Db, user: UserId, l: Loc) {
    exists k :: OwnChunk(db, user, k) && Points(db, k, l)
  }

  predicate Healthy(b: Book, a: AccountId) {
    a in b.members && b.members[a].healthy
  }

  ghost predicate Live(b: Book, l: Loc) {
    l.account in b.stores && l.id in b.stores[l.account].objects
  }

  /** An object on a healthy account is named by a row or known to be leaked. */
  ghost predicate OrphansOk(b: Book) {
    forall l :: Live(b, l) && Healthy(b, l.account) ==> l in b.leaked || Claimed(b.db, b.user, l)
  }

  ghost predicate LeakedOk(b: Book) {
    forall l :: l in b.leaked ==>
      l.account in b.stores && l.id in b.stores[l.account].used && !Claimed(b.db, b.user, l)
  }

  ghost predicate Inv(b: Book) {
    && Sane(b.db) && MembersOk(b) && FilesOk(b) && RowsOk(b)
    && DenseOk(b.db, b.user) && PairsOk(b.db, b.user) && OrphansOk(b) && LeakedOk(b)
  }

  // ---- consequences ----

  lemma InvParts(b: Book)
    requires Inv(b)
    ensures Sane(b.db) && MembersOk(b) && Viewable(b)
  {
  }

  lemma InvReads(b: Book)
    requires Inv(b)
    ensures Viewable(b) && DenseOk(b.db, b.user) && RowsOk(b)
  {
  }

  /** Agreement between manifest and remote state: with nothing leaked and no purge
      interrupted, the objects on a healthy account are exactly those its rows name. */
  lemma Agreement(b: Book, l: Loc)
    requires Inv(b) && b.leaked == {} && b.torn == {} && Healthy(b, l.account)
    ensures Live(b, l) <==> Claimed(b.db, b.user, l)
  {
    if Claimed(b.db, b.user, l) {
      var k :| OwnChunk(b.db, b.user, k) && Points(b.db, k, l);
      assert RowOk(b, k);
    }
  }

  /** A complete file has exactly the rows 0 to N-1, each of its prescribed size, and the
      sizes add up to the file's. */
  lemma CompleteShape(b: Book, f: FileId)
    requires Inv(b) && OwnFile(b.db, b.user, f) && b.db.files[f].status == Complete
    ensures var row := b.db.files[f];
      && row.chunkSize > 0
      && (forall i: nat :: Slot(f, i) in b.db.chunks <==> i < NumChunks(row.size, row.chunkSize))
      && (forall i: nat :: i < NumChunks(row.size, row.chunkSize) ==>
            && b.db.chunks[Slot(f, i)].plainSize == Min(row.chunkSize, row.size - i * row.chunkSize)
            && b.db.chunks[Slot(f, i)].packedSize <= b.db.chunks[Slot(f, i)].plainSize)
      && SizesTo(b.db, f, NumChunks(row.size, row.chunkSize)) == row.size
  {
    var row, data := b.db.files[f], b.contents[f];
    var n := NumChunks(row.size, row.chunkSize);
    ChunksShape(data, row.chunkSize);
    forall i: nat | Slot(f, i) in b.db.chunks ensures i < n {
      assert ChunkRef(b.db, Slot(f, i));
      assert OwnChunk(b.db, b.user, Slot(f, i));
      assert RowOk(b, Slot(f, i));
    }
    forall i: nat | i < n ensures Slot(f, i) in b.db.chunks && RowOk(b, Slot(f, i)) {
      assert OwnChunk(b.db, b.user, Slot(f, i));
    }
    SizesConcat(b, f, n);
    ChunksConcat(data, row.chunkSize);
    assert Chunks(data, row.chunkSize)[..n] == Chunks(data, row.chunkSize);
  }

  /** The rows of any file, complete or not, are the first rows of its listing. */
  lemma RowsArePrefix(b: Book, f: FileId) returns (k: nat)
    requires Inv(b) && OwnFile(b.db, b.user, f)
    ensures b.db.files[f].chunkSize > 0 && k <= NumChunks(b.db.files[f].size, b.db.files[f].chunkSize)
    ensures forall i: nat :: Slot(f, i) in b.db.chunks <==> i < k
  {
    var n := NumChunks(b.db.files[f].size, b.db.files[f].chunkSize);
    ChunksShape(b.contents[f], b.db.files[f].chunkSize);
    k := 0;
    while k < n && Slot(f, k) in b.db.chunks
      invariant k <= n && forall i: nat :: i < k ==> Slot(f, i) in b.db.chunks
    {
      k := k + 1;
    }
    forall i: nat | Slot(f, i) in b.db.chunks ensures i < k {
      assert ChunkRef(b.db, Slot(f, i));
      assert OwnChunk(b.db, b.user, Slot(f, i)) && RowOk(b, Slot(f, i));
      assert i > k ==> OwnChunk(b.db, b.user, Slot(f, k));
    }
  }

  /** Plaintext sizes recorded for the first `n` rows of `f`, added up. */
  function SizesTo(db: Db, f: FileId, n: nat): nat {
    if n == 0 then 0
    else SizesTo(db, f, n - 1) + if Slot(f, n - 1) in db.chunks then db.chunks[Slot(f, n - 1)].plainSize else 0
  }

  lemma {:induction false} SizesConcat(b: Book, f: FileId, n: nat)
    requires f in b.db.files && f in b.contents && b.db.files[f].chunkSize > 0
    requires n <= |Chunks(b.contents[f], b.db.files[f].chunkSize)|
    requires forall i: nat :: i < n ==> Slot(f, i) in b.db.chunks && RowOk(b, Slot(f, i))
    ensures SizesTo(b.db, f, n) == |Concat(Chunks(b.contents[f], b.db.files[f].chunkSize)[..n])|
    decreases n
  {
    var all := Chunks(b.contents[f], b.db.files[f].chunkSize);
    if n > 0 {
      SizesConcat(b, f, n - 1);
      assert all[..n] == all[..n - 1] + [all[n - 1]];
      ConcatSnoc(all[..n - 1], all[n - 1]);
      assert RowOk(b, Slot(f, n - 1));
    }
  }

  // ---- operations keep the invariant ----

  /** `now` has everything `was` had, and new objects only where `extra` says. */
  ghost predicate Grows(was: Remote, now: Remote, a: AccountId, extra: set<Loc>) {
    && RemoteOk(now) && was.used <= now.used
    && (forall id :: id in was.objects ==> id in now.objects && now.objects[id] == was.objects[id])
    && (forall id :: id in now.objects ==> id in was.objects || Loc(a, id) in extra)
    && (forall f :: f in now.folders ==> f in was.folders || f !in was.used)
  }

  ghost predicate FreshLocs(b: Book, stores: Stores, extra: set<Loc>) {
    forall l :: l in extra ==>
      && l.account in b.stores && l.account in stores
      && l.id !in b.stores[l.account].used && l.id in stores[l.account].used
  }

  function Uploaded(b: Book, stores: Stores, extra: set<Loc>): Book {
    b.(stores := stores, leaked := b.leaked + extra)
  }

  lemma RowSurvives(b: Book, c: Book, k: Slot)
    requires k in b.db.chunks && RowOk(b, k) && c.db == b.db && c.contents == b.contents && c.suite == b.suite
    requires c.user == b.user && b.torn <= c.torn
    requires b.db.chunks[k].account.Some? ==>
      var a, row := b.db.chunks[k].account.value, b.db.chunks[k];
      && a in c.stores && b.stores[a].used <= c.stores[a].used
      && (row.remote in c.stores[a].objects ==>
            row.remote in b.stores[a].objects && c.stores[a].objects[row.remote] == b.stores[a].objects[row.remote])
      && (row.remote in b.stores[a].objects && k.file !in c.torn ==> row.remote in c.stores[a].objects)
      && row.remote !in c.stores[a].folders && row.folder !in c.stores[a].objects
    ensures RowOk(c, k)
  {
  }

  lemma UploadKeeps(b: Book, stores: Stores, extra: set<Loc>)
    requires Inv(b) && stores.Keys == b.stores.Keys && FreshLocs(b, stores, extra)
    requires forall a :: a in stores ==> Grows(b.stores[a], stores[a], a, extra)
    ensures Inv(Uploaded(b, stores, extra))
  {
    var c := Uploaded(b, stores, extra);
    assert MembersOk(c);
    forall k | OwnChunk(c.db, c.user, k) ensures RowOk(c, k) {
      assert RowOk(b, k);
      if b.db.chunks[k].account.Some? {
        var a := b.db.chunks[k].account.value;
        assert Grows(b.stores[a], stores[a], a, extra);
        assert Loc(a, b.db.chunks[k].remote) !in extra && Loc(a, b.db.chunks[k].folder) !in extra;
      }
      RowSurvives(b, c, k);
    }
    UploadOrphans(b, stores, extra);
    UploadLeaks(b, stores, extra);
  }

  lemma UploadOrphans(b: Book, stores: Stores, extra: set<Loc>)
    requires OrphansOk(b) && stores.Keys == b.stores.Keys
    requires forall a :: a in stores ==> Grows(b.stores[a], stores[a], a, extra)
    ensures OrphansOk(Uploaded(b, stores, extra))
  {
    var c := Uploaded(b, stores, extra);
    forall l | Live(c, l) && Healthy(c, l.account) ensures l in c.leaked || Claimed(c.db, c.user, l) {
      assert Grows(b.stores[l.account], stores[l.account], l.account, extra);
      assert l == Loc(l.account, l.id);
      assert l in extra || Live(b, l);
    }
  }

  lemma UploadLeaks(b: Book, stores: Stores, extra: set<Loc>)
    requires RowsOk(b) && LeakedOk(b) && stores.Keys == b.stores.Keys && FreshLocs(b, stores, extra)
    requires forall a :: a in stores ==> Grows(b.stores[a], stores[a], a, extra)
    ensures LeakedOk(Uploaded(b, stores, extra))
  {
    var c := Uploaded(b, stores, extra);
    forall l | l in c.leaked
      ensures l.account in c.stores && l.id in c.stores[l.account].used && !Claimed(c.db, c.user, l)
    {
      if l in extra {
        forall k | OwnChunk(c.db, c.user, k) ensures !Points(c.db, k, l) {
          assert RowOk(b, k);
        }
      } else {
        assert Grows(b.stores[l.account], stores[l.account], l.account, extra);
      }
    }
  }

  // ---- a leaked object goes ----

  function Swept(b: Book, l: Loc, forget: bool): Book
    requires l.account in b.stores
  {
    b.(stores := b.stores[l.account := Without(b.stores[l.account], l.id)],
       leaked := if forget then b.leaked - {l} else b.leaked)
  }

  /** Deleting a leaked object harms no row. */
  lemma SweepKeeps(b: Book, l: Loc, forget: bool)
    requires Inv(b) && l in b.leaked && l.account in b.stores && l.id !in b.stores[l.account].folders
    ensures Inv(Swept(b, l, forget))
  {
    var c := Swept(b, l, forget);
    WithoutOk(b.stores[l.account], l.id);
    assert MembersOk(c);
    forall k | OwnChunk(c.db, c.user, k) ensures RowOk(c, k) {
      assert RowOk(b, k);
      assert !Points(b.db, k, l);
      RowSurvives(b, c, k);
    }
    forall m | Live(c, m) && Healthy(c, m.account) ensures m in c.leaked || Claimed(c.db, c.user, m) {
      assert Live(b, m);
    }
    assert LeakedOk(c);
  }

  // ---- rows are written ----

  ghost function Created(b: Book, row: FileRow, data: Bytes): Book {
    b.(db := Exec(b.db, b.user, CreateFile(row)), contents := b.contents[b.db.nextFile := data])
  }

  lemma CreateKeeps(b: Book, row: FileRow, data: Bytes)
    requires Inv(b) && !NameTaken(b.db, b.user, row.name) && row.status == Incomplete && FileOk(b.suite, row, data)
    ensures Inv(Created(b, row, data))
    ensures OwnFile(Created(b, row, data).db, b.user, b.db.nextFile)
    ensures forall k :: k in Created(b, row, data).db.chunks ==> k.file != b.db.nextFile
  {
    var c := Created(b, row, data);
    var f := b.db.nextFile;
    ExecSane(b.db, b.user, CreateFile(row));
    assert f !in b.db.files;
    assert c.db.chunks == b.db.chunks && c.db.accounts == b.db.accounts;
    forall k | k in c.db.chunks ensures k.file != f {
      assert ChunkRef(b.db, k);
    }
    forall k | OwnChunk(c.db, c.user, k) ensures RowOk(c, k) {
      assert OwnChunk(b.db, b.user, k);
      assert RowOk(b, k);
    }
    CreateDense(b, row);
    SameChunksPairs(b.db, c.db, b.user);
    SameClaims(b, c);
  }

  lemma CreateDense(b: Book, row: FileRow)
    requires DenseOk(b.db, b.user) && row.status == Incomplete && b.db.nextFile !in b.db.files
    ensures DenseOk(Exec(b.db, b.user, CreateFile(row)), b.user)
  {
    var d := Exec(b.db, b.user, CreateFile(row));
    forall k, i: nat | OwnChunk(d, b.user, k) && i < k.idx ensures OwnChunk(d, b.user, Slot(k.file, i)) {
      assert OwnChunk(b.db, b.user, k);
      assert OwnChunk(b.db, b.user, Slot(k.file, i));
    }
    forall f | OwnFile(d, b.user, f) && d.files[f].status == Complete ensures Whole(d, b.user, f) {
      assert OwnFile(b.db, b.user, f);
      WholeKept(b.db, d, b.user, f);
    }
  }

  lemma WholeKept(db: Db, d: Db, user: UserId, f: FileId)
    requires f in db.files && f in d.files && d.files[f].size == db.files[f].size
    requires d.files[f].chunkSize == db.files[f].chunkSize
    requires forall i: nat :: OwnChunk(db, user, Slot(f, i)) ==> OwnChunk(d, user, Slot(f, i))
    requires Whole(db, user, f)
    ensures Whole(d, user, f)
  {
  }

  lemma SameChunksPairs(db: Db, d: Db, user: UserId)
    requires d.chunks == db.chunks && PairsOk(db, user)
    ensures PairsOk(d, user)
  {
    forall k, l | OwnChunk(d, user, k) && OwnChunk(d, user, l) ensures Apart(d, k, l) {
      assert OwnChunk(db, user, k) && OwnChunk(db, user, l);
      assert Apart(db, k, l);
    }
  }

  /** Chunk rows, stores, members and leaks the same: the remote side still agrees. */
  lemma SameClaims(b: Book, c: Book)
    requires c.user == b.user && c.db.chunks == b.db.chunks && c.stores == b.stores
    requires c.members == b.members && c.leaked == b.leaked
    requires OrphansOk(b) && LeakedOk(b)
    ensures OrphansOk(c) && LeakedOk(c)
  {
    forall l ensures Claimed(b.db, b.user, l) <==> Claimed(c.db, c.user, l) {
      ClaimSame(b.db, c.db, b.user, l);
      ClaimSame(c.db, b.db, b.user, l);
    }
    forall l | Live(c, l) && Healthy(c, l.account) ensures l in c.leaked || Claimed(c.db, c.user, l) {
      assert Live(b, l) && Healthy(b, l.account);
    }
  }

  lemma ClaimSame(db: Db, d: Db, user: UserId, l: Loc)
    requires d.chunks == db.chunks
    ensures Claimed(db, user, l) ==> Claimed(d, user, l)
  {
    if Claimed(db, user, l) {
      var k :| OwnChunk(db, user, k) && Points(db, k, l);
      assert OwnChunk(d, user, k) && Points(d, k, l);
    }
  }

  ghost function Recorded(b: Book, k: Slot, row: ChunkRow): Book
    requires row.account.Some?
  {
    b.(db := Exec(b.db, b.user, AddChunk(k, row)), leaked := b.leaked - {Loc(row.account.value, row.remote)})
  }

  /** A row may be added for the object `row` names: it is there, nobody names it yet,
      and its folder is this file's folder on that account. */
  ghost predicate Recordable(b: Book, k: Slot, row: ChunkRow) {
    && row.account.Some? && row.account.value in b.members && row.account.value in b.stores
    && OwnFile(b.db, b.user, k.file) && k.file in b.contents && k !in b.db.chunks
    && (forall i: nat :: i < k.idx ==> OwnChunk(b.db, b.user, Slot(k.file, i)))
    && RowMatches(b.suite, b.db.files[k.file].chunkSize, b.contents[k.file], k.idx, row)
    && RowStored(b.suite, b.db.files[k.file].key,
                 Chunks(b.contents[k.file], b.db.files[k.file].chunkSize)[k.idx], row, b.stores[row.account.value])
    && row.remote in b.stores[row.account.value].objects
    && Loc(row.account.value, row.remote) in b.leaked
    && (forall l :: OwnChunk(b.db, b.user, l) && b.db.chunks[l].account == row.account ==>
          (b.db.chunks[l].folder == row.folder <==> l.file == k.file))
  }

  lemma RecordKeeps(b: Book, k: Slot, row: ChunkRow)
    requires Inv(b) && Recordable(b, k, row)
    ensures Accepts(b.db, b.user, AddChunk(k, row)) && Inv(Recorded(b, k, row))
  {
    var c := Recorded(b, k, row);
    var a := row.account.value;
    assert OwnAccount(b.db, b.user, a);
    ExecSane(b.db, b.user, AddChunk(k, row));
    assert c.db.files == b.db.files && c.db.accounts == b.db.accounts;
    assert c.db.chunks == b.db.chunks[k := row.(user := b.user)];
    assert MembersOk(c) by {
      assert forall x :: OwnAccount(c.db, c.user, x) == OwnAccount(b.db, b.user, x);
    }
    assert FilesOk(c) by {
      assert forall f :: OwnFile(c.db, c.user, f) == OwnFile(b.db, b.user, f);
    }
    forall l | OwnChunk(c.db, c.user, l) ensures RowOk(c, l) {
      if l != k {
        assert OwnChunk(b.db, b.user, l);
        assert RowOk(b, l);
      }
    }
    RecordDense(b, k, row);
    RecordPairs(b, k, row);
    RecordClaims(b, k, row);
  }

  lemma RecordDense(b: Book, k: Slot, row: ChunkRow)
    requires DenseOk(b.db, b.user) && Recordable(b, k, row) && Accepts(b.db, b.user, AddChunk(k, row))
    ensures DenseOk(Recorded(b, k, row).db, b.user)
  {
    var d := Recorded(b, k, row).db;
    assert forall l :: OwnChunk(b.db, b.user, l) ==> OwnChunk(d, b.user, l);
    forall l, i: nat | OwnChunk(d, b.user, l) && i < l.idx ensures OwnChunk(d, b.user, Slot(l.file, i)) {
      assert l != k ==> OwnChunk(b.db, b.user, l);
      assert OwnChunk(b.db, b.user, Slot(l.file, i));
    }
    forall f | OwnFile(d, b.user, f) && d.files[f].status == Complete ensures Whole(d, b.user, f) {
      assert OwnFile(b.db, b.user, f);
      WholeKept(b.db, d, b.user, f);
    }
  }

  lemma RecordPairs(b: Book, k: Slot, row: ChunkRow)
    requires PairsOk(b.db, b.user) && LeakedOk(b) && Recordable(b, k, row) && Accepts(b.db, b.user, AddChunk(k, row))
    ensures PairsOk(Recorded(b, k, row).db, b.user)
  {
    var d := Recorded(b, k, row).db;
    forall l, m | OwnChunk(d, b.user, l) && OwnChunk(d, b.user, m) ensures Apart(d, l, m) {
      if l != k && m != k {
        assert OwnChunk(b.db, b.user, l) && OwnChunk(b.db, b.user, m);
        assert Apart(b.db, l, m);
      } else if l != m {
        var o := if l == k then m else l;
        assert OwnChunk(b.db, b.user, o);
        assert !Points(b.db, o, Loc(row.account.value, row.remote));
      }
    }
  }

  lemma RecordClaims(b: Book, k: Slot, row: ChunkRow)
    requires OrphansOk(b) && LeakedOk(b) && Recordable(b, k, row) && Accepts(b.db, b.user, AddChunk(k, row))
    ensures OrphansOk(Recorded(b, k, row)) && LeakedOk(Recorded(b, k, row))
  {
    var c := Recorded(b, k, row);
    var here := Loc(row.account.value, row.remote);
    assert OwnChunk(c.db, c.user, k) && Points(c.db, k, here);
    forall l | Live(c, l) && Healthy(c, l.account) ensures l in c.leaked || Claimed(c.db, c.user, l) {
      assert Live(b, l) && Healthy(b, l.account);
      if Claimed(b.db, b.user, l) {
        var m :| OwnChunk(b.db, b.user, m) && Points(b.db, m, l);
        assert OwnChunk(c.db, c.user, m) && Points(c.db, m, l);
      }
    }
    forall l | l in c.leaked ensures !Claimed(c.db, c.user, l) {
      forall m | OwnChunk(c.db, c.user, m) ensures !Points(c.db, m, l) {
        assert m != k ==> OwnChunk(b.db, b.user, m);
      }
    }
  }

  // ---- status changes ----

  function Restatused(b: Book, which: set<FileId>, status: Status): Book {
    b.(db := WithStatus(b.db, which, status))
  }

  lemma StatusKeeps(b: Book, which: set<FileId>, status: Status)
    requires Inv(b) && Sane(WithStatus(b.db, which, status))
    requires status == Complete ==> forall f :: f in which && OwnFile(b.db, b.user, f) ==> Whole(b.db, b.user, f)
    ensures Inv(Restatused(b, which, status))
  {
    var c := Restatused(b, which, status);
    StatusRows(b, which, status);
    StatusDense(b, which, status);
    SameChunksPairs(b.db, c.db, b.user);
    SameClaims(b, c);
  }

  lemma StatusRows(b: Book, which: set<FileId>, status: Status)
    requires MembersOk(b) && FilesOk(b) && RowsOk(b)
    ensures var c := Restatused(b, which, status); MembersOk(c) && FilesOk(c) && RowsOk(c)
  {
    var c := Restatused(b, which, status);
    assert forall x :: OwnAccount(c.db, c.user, x) == OwnAccount(b.db, b.user, x);
    assert forall f :: OwnFile(c.db, c.user, f) == OwnFile(b.db, b.user, f);
    forall k | OwnChunk(c.db, c.user, k) ensures RowOk(c, k) {
      assert OwnChunk(b.db, b.user, k);
      assert RowOk(b, k);
    }
  }

  lemma StatusDense(b: Book, which: set<FileId>, status: Status)
    requires DenseOk(b.db, b.user)
    requires status == Complete ==> forall f :: f in which && OwnFile(b.db, b.user, f) ==> Whole(b.db, b.user, f)
    ensures DenseOk(WithStatus(b.db, which, status), b.user)
  {
    var d := WithStatus(b.db, which, status);
    assert forall k :: OwnChunk(d, b.user, k) == OwnChunk(b.db, b.user, k);
    forall f | OwnFile(d, b.user, f) && d.files[f].status == Complete ensures Whole(d, b.user, f) {
      assert OwnFile(b.db, b.user, f);
      WholeKept(b.db, d, b.user, f);
    }
  }

  // ---- purge ----

  /** `id` is the object or the folder that row `k` of file `f` has on account `a`. */
  ghost predicate Holder(b: Book, f: FileId, a: AccountId, id: RemoteId, k: Slot) {
    && a in b.stores && OwnChunk(b.db, b.user, k) && k.file == f && b.db.chunks[k].account == Some(a)
    && (b.db.chunks[k].remote == id || b.db.chunks[k].folder == id)
  }

  function Tearing(b: Book, f: FileId, a: AccountId, id: RemoteId): Book
    requires a in b.stores
  {
    b.(stores := b.stores[a := Without(b.stores[a], id)], torn := b.torn + {f})
  }

  lemma TearRow(b: Book, f: FileId, a: AccountId, id: RemoteId, k: Slot, l: Slot)
    requires Holder(b, f, a, id, k) && RowsOk(b) && PairsOk(b.db, b.user) && OwnChunk(b.db, b.user, l)
    ensures RowOk(Tearing(b, f, a, id), l)
  {
    hide RowMatches, Codec.Holds;
    assert RowOk(b, k) && RowOk(b, l);
    assert Apart(b.db, k, l);
    RowSurvives(b, Tearing(b, f, a, id), l);
  }

  /** Deleting an object or folder of `f` leaves the rows of every other file intact. */
  lemma TearKeeps(b: Book, f: FileId, a: AccountId, id: RemoteId, k: Slot)
    requires Inv(b) && Holder(b, f, a, id, k)
    ensures Inv(Tearing(b, f, a, id))
  {
    var c := Tearing(b, f, a, id);
    WithoutOk(b.stores[a], id);
    assert MembersOk(c);
    forall l | OwnChunk(c.db, c.user, l) ensures RowOk(c, l) {
      TearRow(b, f, a, id, k, l);
    }
    forall m | Live(c, m) && Healthy(c, m.account) ensures m in c.leaked || Claimed(c.db, c.user, m) {
      assert Live(b, m);
    }
    assert LeakedOk(c);
  }

  lemma TornKeeps(b: Book, f: FileId)
    requires Inv(b)
    ensures Inv(b.(torn := b.torn + {f}))
  {
    var c := b.(torn := b.torn + {f});
    forall k | OwnChunk(c.db, c.user, k) ensures RowOk(c, k) {
      assert RowOk(b, k);
      RowSurvives(b, c, k);
    }
    SameClaims(b, c);
  }

  /** The object `k` names, if it is on a healthy account, does not exist. */
  ghost predicate RowGone(b: Book, k: Slot)
    requires k in b.db.chunks
  {
    var row := b.db.chunks[k];
    row.account.Some? && Healthy(b, row.account.value) ==> !Live(b, Loc(row.account.value, row.remote))
  }

  ghost predicate Emptied(b: Book, f: FileId) {
    forall k :: OwnChunk(b.db, b.user, k) && k.file == f ==> RowGone(b, k)
  }

  ghost function Purged(b: Book, f: FileId, name: string): Book {
    b.(db := Exec(b.db, b.user, PurgeFile(name)), torn := b.torn - {f})
  }

  /** Once the objects of `f` on healthy accounts are gone, its rows may go. */
  lemma PurgeKeeps(b: Book, f: FileId, name: string)
    requires Inv(b) && IsFile(b.db, b.user, name, f)
    requires Emptied(b, f)
    ensures Inv(Purged(b, f, name))
  {
    var c := Purged(b, f, name);
    ExecSane(b.db, b.user, PurgeFile(name));
    PurgeDb(b.db, b.user, f, name);
    assert MembersOk(c) by {
      assert forall x :: OwnAccount(c.db, c.user, x) == OwnAccount(b.db, b.user, x);
    }
    assert FilesOk(c) by {
      assert forall g :: OwnFile(c.db, c.user, g) ==> OwnFile(b.db, b.user, g);
    }
    forall k | OwnChunk(c.db, c.user, k) ensures RowOk(c, k) {
      assert OwnChunk(b.db, b.user, k);
      assert RowOk(b, k);
    }
    PurgeDense(b.db, c.db, b.user, f);
    forall k, l | OwnChunk(c.db, c.user, k) && OwnChunk(c.db, c.user, l) ensures Apart(c.db, k, l) {
      assert OwnChunk(b.db, b.user, k) && OwnChunk(b.db, b.user, l);
      assert Apart(b.db, k, l);
    }
    PurgeClaims(b, c, f);
  }

  lemma PurgeDb(db: Db, user: UserId, f: FileId, name: string)
    requires UniqueNames(db) && IsFile(db, user, name, f)
    ensures Exec(db, user, PurgeFile(name)) == WithoutFiles(db, {f})
  {
    forall g | IsFile(db, user, name, g) ensures g == f {
      assert SameName(db.files[f], db.files[g]);
    }
    assert Named(db, user, name) == {f};
  }

  lemma PurgeDense(db: Db, d: Db, user: UserId, f: FileId)
    requires DenseOk(db, user) && d == WithoutFiles(db, {f})
    ensures DenseOk(d, user)
  {
    forall k, i: nat | OwnChunk(d, user, k) && i < k.idx ensures OwnChunk(d, user, Slot(k.file, i)) {
      assert OwnChunk(db, user, k);
      assert OwnChunk(db, user, Slot(k.file, i));
    }
    forall g | OwnFile(d, user, g) && d.files[g].status == Complete ensures Whole(d, user, g) {
      assert OwnFile(db, user, g);
      assert forall i: nat :: OwnChunk(db, user, Slot(g, i)) ==> OwnChunk(d, user, Slot(g, i));
      WholeKept(db, d, user, g);
    }
  }

  lemma PurgeClaims(b: Book, c: Book, f: FileId)
    requires OrphansOk(b) && LeakedOk(b) && c.db == WithoutFiles(b.db, {f})
    requires c.user == b.user && c.stores == b.stores && c.members == b.members && c.leaked == b.leaked
    requires Emptied(b, f)
    ensures OrphansOk(c) && LeakedOk(c)
  {
    forall l | Live(c, l) && Healthy(c, l.account) ensures l in c.leaked || Claimed(c.db, c.user, l) {
      assert Live(b, l) && Healthy(b, l.account);
      if Claimed(b.db, b.user, l) {
        var k :| OwnChunk(b.db, b.user, k) && Points(b.db, k, l);
        assert l == Loc(b.db.chunks[k].account.value, b.db.chunks[k].remote);
        assert k.file != f;
        assert OwnChunk(c.db, c.user, k) && Points(c.db, k, l);
      }
    }
    forall l | l in c.leaked ensures !Claimed(c.db, c.user, l) {
      forall k | OwnChunk(c.db, c.user, k) ensures !Points(c.db, k, l) {
        assert OwnChunk(b.db, b.user, k);
      }
    }
  }

  // ---- an account leaves ----

  ghost function Disconnected(b: Book, a: AccountId, tag: string): Book {
    b.(db := Exec(b.db, b.user, DropAccount(tag)), members := b.members - {a})
  }

  lemma DisconnectKeeps(b: Book, a: AccountId, tag: string)
    requires Inv(b) && a in b.db.accounts && b.db.accounts[a] == AccountRow(b.user, tag)
    ensures Inv(Disconnected(b, a, tag))
  {
    var c := Disconnected(b, a, tag);
    ExecSane(b.db, b.user, DropAccount(tag));
    DropDb(b.db, b.user, a, tag);
    DropMembers(b, c, a);
    DropRows(b, c, a);
    DropPairs(b.db, c.db, b.user, a);
    DropClaims(b, c, a);
  }

  lemma DropMembers(b: Book, c: Book, a: AccountId)
    requires MembersOk(b) && FilesOk(b) && c == b.(db := WithoutAccounts(b.db, {a}), members := b.members - {a})
    ensures MembersOk(c) && FilesOk(c)
  {
    assert forall x :: OwnAccount(c.db, c.user, x) <==> OwnAccount(b.db, b.user, x) && x != a;
    assert forall f :: OwnFile(c.db, c.user, f) == OwnFile(b.db, b.user, f);
  }

  lemma DropRows(b: Book, c: Book, a: AccountId)
    requires RowsOk(b) && c == b.(db := WithoutAccounts(b.db, {a}), members := b.members - {a})
    ensures RowsOk(c)
  {
    forall k | OwnChunk(c.db, c.user, k) ensures RowOk(c, k) {
      assert OwnChunk(b.db, b.user, k);
      assert RowOk(b, k);
    }
  }

  lemma DropPairs(db: Db, d: Db, user: UserId, a: AccountId)
    requires DenseOk(db, user) && PairsOk(db, user) && d == WithoutAccounts(db, {a})
    ensures DenseOk(d, user) && PairsOk(d, user)
  {
    assert forall k :: OwnChunk(d, user, k) == OwnChunk(db, user, k);
    forall f | OwnFile(d, user, f) && d.files[f].status == Complete ensures Whole(d, user, f) {
      assert OwnFile(db, user, f);
      WholeKept(db, d, user, f);
    }
    forall k, l | OwnChunk(d, user, k) && OwnChunk(d, user, l) ensures Apart(d, k, l) {
      assert Apart(db, k, l);
    }
  }

  lemma DropDb(db: Db, user: UserId, a: AccountId, tag: string)
    requires UniqueLabels(db) && a in db.accounts && db.accounts[a] == AccountRow(user, tag)
    ensures Exec(db, user, DropAccount(tag)) == WithoutAccounts(db, {a})
  {
    assert Labelled(db, user, tag) == {a};
  }

  lemma DropClaims(b: Book, c: Book, a: AccountId)
    requires OrphansOk(b) && LeakedOk(b) && c.db == WithoutAccounts(b.db, {a}) && c.members == b.members - {a}
    requires c.user == b.user && c.stores == b.stores && c.leaked == b.leaked
    ensures OrphansOk(c) && LeakedOk(c)
  {
    forall l | Live(c, l) && Healthy(c, l.account) ensures l in c.leaked || Claimed(c.db, c.user, l) {
      assert Live(b, l) && Healthy(b, l.account);
      if Claimed(b.db, b.user, l) {
        var k :| OwnChunk(b.db, b.user, k) && Points(b.db, k, l);
        assert OwnChunk(c.db, c.user, k) && Points(c.db, k, l);
      }
    }
    forall l | l in c.leaked ensures !Claimed(c.db, c.user, l) {
      forall k | OwnChunk(c.db, c.user, k) ensures !Points(c.db, k, l) {
        assert OwnChunk(b.db, b.user, k);
      }
    }
  }

  // ---- the simple view ----

  /** What a user of the pool sees under a name. */
  datatype Entry = Entry(bytes: Bytes, hidden: bool)

  ghost function EntryOf(b: Book, f: FileId): Entry
    requires f in b.db.files && f in b.contents
  {
    Entry(b.contents[f], b.db.files[f].status == Deleted)
  }

  ghost predicate Viewable(b: Book) {
    UniqueNames(b.db) && FilesOk(b)
  }

  /** The pool as a map from names to bytes. */
  ghost function Abs(b: Book): map<string, Entry>
    requires Viewable(b)
  {
    map n | n in NamesOf(b.db, b.user) :: EntryOf(b, FileNamed(b.db, b.user, n))
  }

  function NamesOf(db: Db, user: UserId): set<string> {
    set f | f in db.files && db.files[f].user == user :: db.files[f].name
  }

  ghost function FileNamed(db: Db, user: UserId, n: string): (f: FileId)
    requires n in NamesOf(db, user)
    ensures OwnFile(db, user, f) && db.files[f].name == n
  {
    var f :| f in db.files && db.files[f].user == user && db.files[f].name == n;
    f
  }

  lemma AbsAt(b: Book, f: FileId)
    requires Viewable(b) && OwnFile(b.db, b.user, f)
    ensures b.db.files[f].name in Abs(b) && Abs(b)[b.db.files[f].name] == EntryOf(b, f)
  {
    var n := b.db.files[f].name;
    assert n in NamesOf(b.db, b.user);
    assert SameName(b.db.files[f], b.db.files[FileNamed(b.db, b.user, n)]);
  }

  lemma AbsTaken(b: Book, n: string)
    requires Viewable(b)
    ensures n in Abs(b) <==> NameTaken(b.db, b.user, n)
  {
    if NameTaken(b.db, b.user, n) {
      var f :| IsFile(b.db, b.user, n, f);
      assert b.db.files[f].name in NamesOf(b.db, b.user);
    }
    if n in Abs(b) {
      assert IsFile(b.db, b.user, n, FileNamed(b.db, b.user, n));
    }
  }

  lemma IsTaken(db: Db, user: UserId, n: string, f: FileId)
    requires IsFile(db, user, n, f)
    ensures NameTaken(db, user, n)
  {
  }

  lemma NotTaken(db: Db, user: UserId, n: string)
    requires !NameTaken(db, user, n)
    ensures forall f :: !IsFile(db, user, n, f)
  {
  }

  /** Two books show the same under `n` if the file of that name is the same. */
  lemma AbsAgree(b: Book, c: Book, n: string)
    requires Viewable(b) && Viewable(c) && c.user == b.user
    requires forall f :: IsFile(b.db, b.user, n, f) ==> IsFile(c.db, c.user, n, f) && EntryOf(c, f) == EntryOf(b, f)
    requires forall f :: IsFile(c.db, c.user, n, f) ==> IsFile(b.db, b.user, n, f)
    ensures n in Abs(b) <==> n in Abs(c)
    ensures n in Abs(b) ==> Abs(c)[n] == Abs(b)[n]
  {
    AbsTaken(b, n);
    AbsTaken(c, n);
    if n in Abs(b) {
      var f := FileNamed(b.db, b.user, n);
      assert IsFile(b.db, b.user, n, f);
      AbsAt(b, f);
      AbsAt(c, f);
    }
  }

  /** Same files, same contents: the same view. */
  lemma AbsSame(b: Book, c: Book)
    requires Viewable(b) && Viewable(c) && c.user == b.user && c.db.files == b.db.files
    requires forall f :: OwnFile(b.db, b.user, f) ==> c.contents[f] == b.contents[f]
    ensures Abs(c) == Abs(b)
  {
    forall n ensures (n in Abs(b) <==> n in Abs(c)) && (n in Abs(b) ==> Abs(c)[n] == Abs(b)[n]) {
      AbsAgree(b, c, n);
    }
  }

  /** The files of the two books differ at most under the name `n`. */
  ghost predicate Alike(b: Book, c: Book, n: string)
    requires FilesOk(b) && FilesOk(c)
  {
    && c.user == b.user
    && (forall f :: OwnFile(b.db, b.user, f) && b.db.files[f].name != n ==>
          OwnFile(c.db, c.user, f) && c.db.files[f] == b.db.files[f] && c.contents[f] == b.contents[f])
    && (forall f :: OwnFile(c.db, c.user, f) && c.db.files[f].name != n ==>
          OwnFile(b.db, b.user, f) && c.db.files[f] == b.db.files[f])
  }

  lemma AbsOther(b: Book, c: Book, n: string, m: string)
    requires Viewable(b) && Viewable(c) && Alike(b, c, n) && m != n
    ensures m in Abs(b) <==> m in Abs(c)
    ensures m in Abs(b) ==> Abs(c)[m] == Abs(b)[m]
  {
    forall f | IsFile(b.db, b.user, m, f) ensures IsFile(c.db, c.user, m, f) && EntryOf(c, f) == EntryOf(b, f) {
      assert OwnFile(b.db, b.user, f);
    }
    forall f | IsFile(c.db, c.user, m, f) ensures IsFile(b.db, b.user, m, f) {
      assert OwnFile(c.db, c.user, f);
    }
    AbsAgree(b, c, m);
  }

  lemma AbsUpdate(b: Book, c: Book, n: string, f: FileId)
    requires Viewable(b) && Viewable(c) && Alike(b, c, n) && IsFile(c.db, c.user, n, f)
    ensures Abs(c) == Abs(b)[n := EntryOf(c, f)]
  {
    AbsAt(c, f);
    var x, y := Abs(b), Abs(c);
    forall m | m != n ensures (m in x <==> m in y) && (m in x ==> y[m] == x[m]) {
      AbsOther(b, c, n, m);
    }
    MapUpdate(x, y, n);
  }

  lemma MapUpdate(x: map<string, Entry>, y: map<string, Entry>, n: string)
    requires n in y && forall m :: m != n ==> (m in x <==> m in y) && (m in x ==> y[m] == x[m])
    ensures y == x[n := y[n]]
  {
  }

  lemma AbsCreate(b: Book, c: Book, f: FileId, n: string, data: Bytes)
    requires Viewable(b) && Viewable(c) && c.user == b.user && !NameTaken(b.db, b.user, n)
    requires f !in b.db.files && f in c.db.files && c.db.files == b.db.files[f := c.db.files[f]]
    requires IsFile(c.db, c.user, n, f) && c.db.files[f].status != Deleted && c.contents == b.contents[f := data]
    ensures Abs(c) == Abs(b)[n := Entry(data, false)]
  {
    AbsUpdate(b, c, n, f);
  }

  lemma UniqueFile(db: Db, user: UserId, n: string, f: FileId)
    requires UniqueNames(db) && IsFile(db, user, n, f)
    ensures forall g :: IsFile(db, user, n, g) ==> g == f
    ensures Named(db, user, n) == {f}
  {
    forall g | IsFile(db, user, n, g) ensures g == f {
      assert SameName(db.files[f], db.files[g]);
    }
  }

  lemma AbsHide(b: Book, f: FileId, n: string)
    requires Viewable(b) && IsFile(b.db, b.user, n, f) && Viewable(Restatused(b, {f}, Deleted))
    ensures Abs(Restatused(b, {f}, Deleted)) == Abs(b)[n := Entry(b.contents[f], true)]
  {
    AbsUpdate(b, Restatused(b, {f}, Deleted), n, f);
  }

  lemma AbsPurge(b: Book, f: FileId, n: string, c: Book)
    requires Viewable(b) && Viewable(c) && IsFile(b.db, b.user, n, f) && c.user == b.user
    requires c.db.files == b.db.files - {f} && c.contents == b.contents
    ensures Abs(c) == Abs(b) - {n}
  {
    UniqueFile(b.db, b.user, n, f);
    assert !NameTaken(c.db, c.user, n) by {
      forall g ensures !IsFile(c.db, c.user, n, g) {
        assert IsFile(c.db, c.user, n, g) ==> IsFile(b.db, b.user, n, g);
      }
    }
    AbsTaken(c, n);
    var x, y := Abs(b), Abs(c);
    forall m | m != n ensures (m in x <==> m in y) && (m in x ==> y[m] == x[m]) {
      AbsOther(b, c, n, m);
    }
    MapRemove(x, y, n);
  }

  lemma MapRemove(x: map<string, Entry>, y: map<string, Entry>, n: string)
    requires n !in y && forall m :: m != n ==> (m in x <==> m in y) && (m in x ==> y[m] == x[m])
    ensures y == x - {n}
  {
  }

  // ---- runs without faults ----

  /** No live file has lost an account. */
  ghost predicate Connected(b: Book) {
    forall k :: OwnChunk(b.db, b.user, k) && k.file in b.db.files && b.db.files[k.file].status != Deleted ==>
      b.db.chunks[k].account.Some? && b.db.chunks[k].account.value in b.members
  }

  /** Nothing leaked, no purge interrupted, every file complete in its rows. */
  ghost predicate Clean(b: Book) {
    && b.leaked == {} && b.torn == {}
    && (forall f :: OwnFile(b.db, b.user, f) ==> Whole(b.db, b.user, f))
  }
}
