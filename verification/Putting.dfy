/** How the outcome of the upload workers becomes manifest rows (the second half of
    PutStream, drivepool/pool.go): until a row names them, uploaded objects count as leaked. */
module Putting {
  import opened Prelude
  import opened Codec
  import opened Manifest
  import opened Drive
  import opened Placement
  import L = Ledger
  import U = Upload

  function RowOf(u: U.Upl, user: UserId): ChunkRow {
    ChunkRow(user, Some(u.account), u.remote, u.folder, u.plainSize, u.sha, u.algo, u.packedSize)
  }

  function LocOf(u: U.Upl): Loc {
    Loc(u.account, u.remote)
  }

  ghost function Extra(c: U.Cloud): set<Loc> {
    c.mine.Keys + c.lost.Keys
  }

  /** The book once the workers are done. */
  ghost function Landed(b: L.Book, c: U.Cloud): L.Book {
    L.Uploaded(b, c.stores, Extra(c))
  }

  lemma LandedInv(b: L.Book, j: U.Job, c: U.Cloud)
    requires L.Inv(b) && j.start == b.stores && U.Remotes(j, c)
    ensures L.Inv(Landed(b, c))
  {
    forall a | a in c.stores ensures L.Grows(b.stores[a], c.stores[a], a, Extra(c)) {
      assert U.StoreOk(j, c, a);
    }
    forall l | l in Extra(c) ensures U.LocOk(j, c, l) {
    }
    L.UploadKeeps(b, c.stores, Extra(c));
  }

  /** Chunk `k` of file `f` is uploaded and waits for its row. */
  ghost predicate Ready(b: L.Book, f: FileId, k: nat, u: U.Upl)
    requires f in b.db.files && f in b.contents
  {
    && u.account in b.members && u.account in b.stores
    && L.RowMatches(b.suite, b.db.files[f].chunkSize, b.contents[f], k, RowOf(u, b.user))
    && L.RowStored(b.suite, b.db.files[f].key, Chunks(b.contents[f], b.db.files[f].chunkSize)[k],
                   RowOf(u, b.user), b.stores[u.account])
    && u.remote in b.stores[u.account].objects
    && LocOf(u) in b.leaked
    && (forall l :: OwnChunk(b.db, b.user, l) && b.db.chunks[l].account == Some(u.account) ==>
          (b.db.chunks[l].folder == u.folder <==> l.file == f))
  }

  ghost predicate RowIs(b: L.Book, k: Slot, u: U.Upl) {
    k in b.db.chunks && b.db.chunks[k] == RowOf(u, b.user)
  }

  /** Rows 0 to i-1 of file `f` are written, the others wait. */
  ghost predicate Waiting(b: L.Book, f: FileId, ups: seq<U.Upl>, i: nat) {
    && i <= |ups| && OwnFile(b.db, b.user, f) && f in b.contents
    && (forall k: nat :: Slot(f, k) in b.db.chunks <==> k < i)
    && (forall k: nat :: k < i ==> RowIs(b, Slot(f, k), ups[k]))
    && (forall k :: i <= k < |ups| ==> Ready(b, f, k, ups[k]))
    && Coherent(ups)
  }

  /** Different objects, and one folder per account. */
  ghost predicate Coherent(ups: seq<U.Upl>) {
    forall k, l :: 0 <= k < l < |ups| ==> LocOf(ups[k]) != LocOf(ups[l]) && OneFolder(ups[k], ups[l])
  }

  ghost predicate OneFolder(x: U.Upl, y: U.Upl) {
    x.account == y.account ==> x.folder == y.folder
  }

  lemma NextRecordable(b: L.Book, f: FileId, ups: seq<U.Upl>, i: nat)
    requires Waiting(b, f, ups, i) && i < |ups|
    ensures L.Recordable(b, Slot(f, i), RowOf(ups[i], b.user))
  {
    assert Ready(b, f, i, ups[i]);
    forall k: nat | k < i ensures OwnChunk(b.db, b.user, Slot(f, k)) {
      assert RowIs(b, Slot(f, k), ups[k]);
    }
  }

  lemma NextWaiting(b: L.Book, f: FileId, ups: seq<U.Upl>, i: nat)
    requires Waiting(b, f, ups, i) && i < |ups| && Accepts(b.db, b.user, AddChunk(Slot(f, i), RowOf(ups[i], b.user)))
    ensures Waiting(L.Recorded(b, Slot(f, i), RowOf(ups[i], b.user)), f, ups, i + 1)
  {
    var row := RowOf(ups[i], b.user);
    var c := L.Recorded(b, Slot(f, i), row);
    assert c.db.chunks == b.db.chunks[Slot(f, i) := row];
    assert c.db.files == b.db.files;
    forall k: nat | k < i + 1 ensures RowIs(c, Slot(f, k), ups[k]) {
      assert k < i ==> RowIs(b, Slot(f, k), ups[k]);
    }
    forall k | i + 1 <= k < |ups| ensures Ready(c, f, k, ups[k]) {
      assert Ready(b, f, k, ups[k]);
      assert LocOf(ups[i]) != LocOf(ups[k]) && OneFolder(ups[i], ups[k]);
      ReadyKept(b, c, f, i, ups[i], k, ups[k]);
    }
  }

  lemma ReadyKept(b: L.Book, c: L.Book, f: FileId, i: nat, x: U.Upl, k: nat, u: U.Upl)
    requires f in b.db.files && f in b.contents && Ready(b, f, k, u) && LocOf(x) != LocOf(u) && OneFolder(x, u)
    requires c.db.files == b.db.files && c.db.chunks == b.db.chunks[Slot(f, i) := RowOf(x, b.user)]
    requires c.user == b.user && c.suite == b.suite && c.members == b.members && c.stores == b.stores
    requires c.contents == b.contents && c.leaked == b.leaked - {LocOf(x)}
    ensures Ready(c, f, k, u)
  {
    forall l | OwnChunk(c.db, c.user, l) && c.db.chunks[l].account == Some(u.account)
      ensures c.db.chunks[l].folder == u.folder <==> l.file == f
    {
      assert l != Slot(f, i) ==> OwnChunk(b.db, b.user, l);
    }
  }

  // ---- from the upload state to the first row ----

  /** The job was set up for this book. */
  ghost predicate JobFor(j: U.Job, b: L.Book) {
    j.start == b.stores && j.suite == b.suite && j.chunkSize > 0
  }

  /** Facts about one finished upload, seen from the book before the job started. */
  ghost predicate Arrived(b: L.Book, j: U.Job, c: U.Cloud, k: nat, u: U.Upl)
    requires j.chunkSize > 0
  {
    && u.account in b.members && u.account in b.stores && u.account in c.stores
    && k < |Chunks(j.data, j.chunkSize)|
    && u.folder !in b.stores[u.account].used && u.folder in c.stores[u.account].folders
    && u.plainSize == |Chunks(j.data, j.chunkSize)[k]| && u.sha == j.suite.sha256(Chunks(j.data, j.chunkSize)[k])
    && u.packedSize <= u.plainSize && (u.packedSize == 0 <==> u.plainSize == 0)
    && u.remote in c.stores[u.account].objects
    && c.stores[u.account].objects[u.remote].folder == u.folder
    && Holds(j.suite, j.key, u.algo, u.packedSize, c.stores[u.account].objects[u.remote].bytes,
             Chunks(j.data, j.chunkSize)[k])
    && LocOf(u) in c.mine && RemoteOk(c.stores[u.account])
  }

  lemma UploadArrived(b: L.Book, j: U.Job, s: U.State, k: nat, u: U.Upl)
    requires JobFor(j, b) && U.Remotes(j, s.cl) && U.UplOk(j, s.rd, s.cl, k, u) && s.rd.accs[k] in b.members
    requires s.rd.bufs == Chunks(j.data, j.chunkSize)
    ensures Arrived(b, j, s.cl, k, u)
  {
    assert U.StoreOk(j, s.cl, u.account);
  }

  lemma ArrivedReady(b: L.Book, j: U.Job, c: U.Cloud, row: FileRow, k: nat, u: U.Upl)
    requires L.Inv(b) && JobFor(j, b) && Arrived(b, j, c, k, u)
    requires row.chunkSize == j.chunkSize && row.key == j.key
    requires !NameTaken(b.db, b.user, row.name)
    ensures var d := L.Created(Landed(b, c), row, j.data);
      b.db.nextFile in d.db.files && Ready(d, b.db.nextFile, k, u)
  {
    var d := L.Created(Landed(b, c), row, j.data);
    var f := b.db.nextFile;
    assert d.db.chunks == b.db.chunks;
    forall l | OwnChunk(d.db, d.user, l) && d.db.chunks[l].account == Some(u.account)
      ensures d.db.chunks[l].folder == u.folder <==> l.file == f
    {
      assert OwnChunk(b.db, b.user, l);
      assert L.RowOk(b, l);
      assert ChunkRef(b.db, l);
    }
  }

  /** After an error-free upload and the insertion of the file row, every chunk waits for
      its row. */
  lemma StartWaiting(b: L.Book, j: U.Job, c: U.Cloud, row: FileRow, ups: seq<U.Upl>)
    requires L.Inv(b) && JobFor(j, b) && Coherent(ups)
    requires forall k :: 0 <= k < |ups| ==> Arrived(b, j, c, k, ups[k])
    requires row.chunkSize == j.chunkSize && row.key == j.key && !NameTaken(b.db, b.user, row.name)
    ensures Waiting(L.Created(Landed(b, c), row, j.data), b.db.nextFile, ups, 0)
  {
    var d := L.Created(Landed(b, c), row, j.data);
    var f := b.db.nextFile;
    forall k: nat ensures Slot(f, k) !in d.db.chunks {
      assert Slot(f, k) in b.db.chunks ==> ChunkRef(b.db, Slot(f, k));
    }
    forall k | 0 <= k < |ups| ensures Ready(d, f, k, ups[k]) {
      ArrivedReady(b, j, c, row, k, ups[k]);
    }
  }

  lemma UploadsCoherent(j: U.Job, s: U.State, ups: seq<U.Upl>)
    requires forall k :: 0 <= k < |ups| ==> U.UplOk(j, s.rd, s.cl, k, ups[k])
    ensures Coherent(ups)
  {
    forall k, l | 0 <= k < l < |ups| ensures LocOf(ups[k]) != LocOf(ups[l]) && OneFolder(ups[k], ups[l]) {
      assert U.UplOk(j, s.rd, s.cl, k, ups[k]) && U.UplOk(j, s.rd, s.cl, l, ups[l]);
    }
  }

  // ---- where the rows say the chunks are ----

  function UpPicks(ups: seq<U.Upl>): seq<Pick> {
    seq(|ups|, k requires 0 <= k < |ups| => Pick(ups[k].account, ups[k].plainSize))
  }

  function RowPick(chunks: map<Slot, ChunkRow>, k: Slot): Pick {
    if k in chunks && chunks[k].account.Some? then Pick(chunks[k].account.value, chunks[k].plainSize) else Pick("", 0)
  }

  /** The reservations that the rows of file `f` record. */
  function RowPicks(chunks: map<Slot, ChunkRow>, f: FileId, n: nat): seq<Pick> {
    seq(n, k requires 0 <= k < n => RowPick(chunks, Slot(f, k)))
  }

  /** `picks` follow the choice: all on the one account, or a run of the tracker. */
  ghost predicate Follows(picks: seq<Pick>, choice: U.Choice) {
    match choice
    case Single(a) => forall k :: 0 <= k < |picks| ==> picks[k].id == a
    case Tracked(b) => Run(b, picks)
  }

  /** The completed rows of `f` are spread as the placement rules say: the one chunk of a
      small file on an account with the most room, the chunks of a larger one greedily. */
  ghost predicate Spread(db: Db, f: FileId, n: nat, quotas: Quotas) {
    && (forall k: nat :: k < n ==> Slot(f, k) in db.chunks && db.chunks[Slot(f, k)].account.Some?)
    && (if n == 1 then CouldPick(quotas, RowPicks(db.chunks, f, n)[0].id)
        else Run(Opening(quotas), RowPicks(db.chunks, f, n)))
  }

  ghost predicate ChosenFrom(choice: U.Choice, quotas: Quotas, n: nat) {
    if n == 1 then choice.Single? && CouldPick(quotas, choice.account) else choice == U.Tracked(Opening(quotas))
  }

  lemma UploadsFollow(j: U.Job, s: U.State)
    requires j.chunkSize > 0 && U.Inv(j, s) && U.Final(j, s) && !s.rd.halted && !s.wk.firstErr
    ensures Follows(UpPicks(U.Collect(s.wk.results)), j.choice)
  {
    hide Run, U.Outcomes, U.Remotes, U.Slots, U.Accounted, Chunks, U.UplOk, U.Cutting;
    var ups := U.Collect(s.wk.results);
    U.ErrorFreeIsComplete(j, s);
    ChunksShape(j.data, j.chunkSize);
    forall k | 0 <= k < |ups| ensures UpPicks(ups)[k] == U.PicksOf(s.rd)[k] {
      UploadPick(j, s, k, ups[k]);
    }
    assert UpPicks(ups) == U.PicksOf(s.rd);
    AllOnOne(j, s.rd);
  }

  lemma UploadPick(j: U.Job, s: U.State, k: nat, u: U.Upl)
    requires U.UplOk(j, s.rd, s.cl, k, u)
    ensures u.account == s.rd.accs[k] && u.plainSize == |s.rd.bufs[k]|
  {
  }

  lemma AllOnOne(j: U.Job, r: U.Reader)
    requires U.Placed(j, r)
    ensures Follows(U.PicksOf(r), j.choice)
  {
  }

  /** Once all rows are written they record exactly the reservations made. */
  lemma RowsSpread(b: L.Book, d: Db, f: FileId, ups: seq<U.Upl>, choice: U.Choice, quotas: Quotas)
    requires Waiting(b, f, ups, |ups|) && d.chunks == b.db.chunks
    requires Follows(UpPicks(ups), choice) && ChosenFrom(choice, quotas, |ups|)
    ensures Spread(d, f, |ups|, quotas)
  {
    forall k: nat | k < |ups| ensures RowPick(d.chunks, Slot(f, k)) == UpPicks(ups)[k] {
      assert RowIs(b, Slot(f, k), ups[k]);
    }
    assert RowPicks(d.chunks, f, |ups|) == UpPicks(ups);
  }

  /** So on accounts that all have limits, a file of several chunks over-commits none of
      them by more than one chunk, and leaves those it uses balanced to within one chunk. */
  lemma SpreadIsBalanced(db: Db, f: FileId, n: nat, quotas: Quotas, c: nat)
    requires Spread(db, f, n, quotas) && n != 1 && Opening(quotas).unlimited == {}
    requires forall k: nat :: k < n && Slot(f, k) in db.chunks ==> db.chunks[Slot(f, k)].plainSize <= c
    ensures var picks := RowPicks(db.chunks, f, n);
      && (forall a :: a in quotas ==> On(picks, a) <= quotas[a].Available() + c)
      && (forall a, o :: a in quotas && o in quotas && a in Picked(picks) ==>
            quotas[a].Available() - On(picks, a) >= quotas[o].Available() - On(picks, o) - c)
  {
    var b, picks := Opening(quotas), RowPicks(db.chunks, f, n);
    forall k | 0 <= k < |picks| ensures picks[k].size <= c {
      assert Slot(f, k) in db.chunks;
    }
    forall a | a in quotas ensures a in b.available && b.available[a] == quotas[a].Available() {
      assert a !in b.unlimited;
    }
    RunAccounting(b, picks);
    OverCommitBound(b, picks, c);
    GreedyBalance(b, {}, picks, c);
    assert {} + Picked(picks) == Picked(picks);
  }
}
