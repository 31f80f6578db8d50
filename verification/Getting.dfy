/** How a file's rows become the plan of the download workers (GetStream and
    downloadChunk, drivepool/pool.go), and when such a plan reads back. */
module Getting {
  import opened Prelude
  import opened Codec
  import opened Manifest
  import opened Drive
  import L = Ledger
  import D = Download

  /** Which liberties the surroundings take during one GetStream. */
  datatype GetEnv = GetEnv(tamper: bool, short: bool, flaky: bool, brokenPipe: bool, eager: set<nat>)

  predicate Quiet(env: GetEnv) {
    !env.tamper && !env.short && !env.flaky && !env.brokenPipe
  }

  /** What downloadChunk finds behind a row. */
  function AccessOf(members: map<AccountId, L.Member>, stores: Stores, row: ChunkRow): D.Access {
    if row.account.None? || row.account.value !in members || !members[row.account.value].healthy ||
       row.account.value !in stores
    then D.NoAccount
    else if row.remote !in stores[row.account.value].objects then D.Missing
    else D.Has(stores[row.account.value].objects[row.remote].bytes)
  }

  function ItemOf(members: map<AccountId, L.Member>, stores: Stores, row: ChunkRow): D.Item {
    D.Item(row.algo, row.sha, AccessOf(members, stores, row))
  }

  /** Everything one GetStream of file `f` depends on. */
  function PlanOf(b: L.Book, f: FileId, idxs: seq<nat>, par: nat, env: GetEnv): D.Plan
    requires f in b.db.files && forall i :: 0 <= i < |idxs| ==> Slot(f, idxs[i]) in b.db.chunks
  {
    D.Plan(b.suite, b.db.files[f].key,
           seq(|idxs|, i requires 0 <= i < |idxs| => ItemOf(b.members, b.stores, b.db.chunks[Slot(f, idxs[i])])),
           par, env.tamper, env.short, env.flaky, env.brokenPipe, env.eager)
  }

  /** What ListChunks answers: all rows of the file, in order. */
  ghost predicate Listing(db: Db, user: UserId, f: FileId, idxs: seq<nat>) {
    Ascends(idxs) && forall n :: n in idxs <==> n in Indices(db, user, f)
  }

  ghost function PartsOf(b: L.Book, f: FileId): seq<Bytes>
    requires f in b.db.files && f in b.contents && b.db.files[f].chunkSize > 0
  {
    Chunks(b.contents[f], b.db.files[f].chunkSize)
  }

  lemma ListedRow(db: Db, user: UserId, f: FileId, idxs: seq<nat>, n: nat)
    requires Listing(db, user, f, idxs)
    ensures n in idxs <==> OwnChunk(db, user, Slot(f, n))
  {
    if OwnChunk(db, user, Slot(f, n)) {
      assert Slot(f, n).idx in Indices(db, user, f);
    }
    if n in idxs {
      assert n in Indices(db, user, f);
    }
  }

  /** The rows of a file are listed as 0, 1, 2 and so on. */
  lemma ListedInOrder(db: Db, user: UserId, f: FileId, idxs: seq<nat>)
    requires L.DenseOk(db, user) && Listing(db, user, f, idxs)
    ensures forall i :: 0 <= i < |idxs| ==> idxs[i] == i && OwnChunk(db, user, Slot(f, i))
  {
    forall n: nat, m: nat | n in idxs && m < n ensures m in idxs {
      ListedRow(db, user, f, idxs, n);
      assert OwnChunk(db, user, Slot(f, n));
      ListedRow(db, user, f, idxs, m);
    }
    ListingDense(idxs);
    forall i | 0 <= i < |idxs| ensures OwnChunk(db, user, Slot(f, i)) {
      assert idxs[i] in idxs;
      ListedRow(db, user, f, idxs, i);
    }
  }

  /** The plan names the first chunks of what the file was put with. */
  lemma PlanRows(b: L.Book, f: FileId, idxs: seq<nat>, par: nat, env: GetEnv)
    requires L.DenseOk(b.db, b.user) && L.RowsOk(b) && L.FilesOk(b) && OwnFile(b.db, b.user, f)
    requires Listing(b.db, b.user, f, idxs)
    ensures forall i :: 0 <= i < |idxs| ==> idxs[i] == i && OwnChunk(b.db, b.user, Slot(f, i))
    ensures b.db.files[f].chunkSize > 0 && D.RowsOf(PlanOf(b, f, idxs, par, env), PartsOf(b, f))
  {
    ListedInOrder(b.db, b.user, f, idxs);
    forall i | 0 <= i < |idxs| ensures L.RowOk(b, Slot(f, i)) {
    }
    if |idxs| > 0 {
      assert L.RowOk(b, Slot(f, |idxs| - 1));
    }
  }

  /** The row's object is on a healthy account of the pool. */
  ghost predicate Reachable(b: L.Book, k: Slot) {
    && k in b.db.chunks && b.db.chunks[k].account.Some? && L.Healthy(b, b.db.chunks[k].account.value)
    && L.Live(b, Loc(b.db.chunks[k].account.value, b.db.chunks[k].remote))
  }

  lemma ReachableReads(b: L.Book, f: FileId, idxs: seq<nat>, par: nat, env: GetEnv, i: nat)
    requires f in b.db.files && i < |idxs| && idxs[i] == i && Slot(f, i) in b.db.chunks && L.RowOk(b, Slot(f, i))
    requires forall n :: 0 <= n < |idxs| ==> Slot(f, idxs[n]) in b.db.chunks
    ensures D.Expected(PlanOf(b, f, idxs, par, env), i).Good? <==>
      Reachable(b, Slot(f, i)) && !(i in env.eager && b.db.chunks[Slot(f, i)].packedSize == 0)
  {
  }

  /** Only the one chunk of an empty file is stored in no more than 16 bytes. */
  lemma EmptyChunk(b: L.Book, k: Slot)
    requires k in b.db.chunks && L.RowOk(b, k)
    ensures b.db.chunks[k].packedSize == 0 <==> b.contents[k.file] == []
    ensures b.contents[k.file] == [] ==> k.idx == 0
  {
    if b.contents[k.file] != [] {
      ChunksNonEmpty(b.contents[k.file], b.db.files[k.file].chunkSize);
    }
  }

  /** Every chunk of the file has a row, and every row leads to its object. */
  ghost predicate Fetchable(b: L.Book, f: FileId)
    requires f in b.db.files
  {
    L.Whole(b.db, b.user, f) && forall k :: OwnChunk(b.db, b.user, k) && k.file == f ==> Reachable(b, k)
  }

  /** The file is empty and its reader reports the end together with the vector, which
      CopyDecrypt takes for a failure. */
  ghost predicate Swallowed(b: L.Book, f: FileId, eager: set<nat>)
    requires f in b.contents
  {
    b.contents[f] == [] && 0 in eager
  }

  lemma PlanReads(b: L.Book, f: FileId, idxs: seq<nat>, par: nat, env: GetEnv)
    requires L.DenseOk(b.db, b.user) && L.RowsOk(b) && L.FilesOk(b) && OwnFile(b.db, b.user, f)
    requires Listing(b.db, b.user, f, idxs)
    requires forall i :: 0 <= i < |idxs| ==> idxs[i] == i && OwnChunk(b.db, b.user, Slot(f, i))
    ensures var p := PlanOf(b, f, idxs, par, env);
      (b.db.files[f].chunkSize > 0 && D.N(p) == |PartsOf(b, f)| &&
       forall i :: 0 <= i < D.N(p) ==> D.Expected(p, i).Good?)
      <==> Fetchable(b, f) && !Swallowed(b, f, env.eager)
  {
    var p := PlanOf(b, f, idxs, par, env);
    ChunksShape(b.contents[f], b.db.files[f].chunkSize);
    forall i | 0 <= i < |idxs|
      ensures D.Expected(p, i).Good? <==> Reachable(b, Slot(f, i)) && !(i in env.eager && b.contents[f] == [])
      ensures b.contents[f] == [] ==> i == 0
    {
      ReachableReads(b, f, idxs, par, env, i);
      EmptyChunk(b, Slot(f, i));
    }
    forall k | OwnChunk(b.db, b.user, k) && k.file == f ensures k.idx < |idxs| && k == Slot(f, k.idx) {
      ListedRow(b.db, b.user, f, idxs, k.idx);
    }
    assert !OwnChunk(b.db, b.user, Slot(f, |idxs|));
    assert L.Whole(b.db, b.user, f) <==> |PartsOf(b, f)| <= |idxs|;
    if |idxs| > 0 {
      assert L.RowOk(b, Slot(f, |idxs| - 1));
    }
  }

  /** `out` is made of the first chunks of the file, whole. */
  ghost predicate FrontOf(b: L.Book, f: FileId, out: Bytes)
    requires f in b.db.files && f in b.contents && b.db.files[f].chunkSize > 0
  {
    exists k :: 0 <= k <= |PartsOf(b, f)| && out == Concat(PartsOf(b, f)[..k])
  }

  /** The outcome of the workers, whatever they met. */
  lemma ReadOutcome(b: L.Book, f: FileId, p: D.Plan, s: D.State)
    requires Lawful(p.suite) && p.suite == b.suite && f in b.db.files && f in b.contents && b.db.files[f].chunkSize > 0
    requires D.RowsOf(p, PartsOf(b, f)) && D.Inv(p, s) && D.Final(p, s)
    ensures s.wr.out <= b.contents[f]
    ensures !p.brokenPipe ==> FrontOf(b, f, s.wr.out)
    ensures D.Ok(p, s, b.suite.sha256(b.contents[f])) ==> s.wr.out == b.contents[f]
    ensures D.Settled(p, s.fs) && !p.brokenPipe && D.N(p) > 0 ==>
      (D.Ok(p, s, b.suite.sha256(b.contents[f])) <==>
         D.N(p) == |PartsOf(b, f)| && forall i :: 0 <= i < D.N(p) ==> D.Expected(p, i).Good?)
  {
    hide Lawful;
    var parts := PartsOf(b, f);
    ChunksConcat(b.contents[f], b.db.files[f].chunkSize);
    D.OutputIsPrefix(p, s, parts);
    if D.Ok(p, s, b.suite.sha256(b.contents[f])) {
      D.OkMeansAll(p, s, parts);
    }
    if D.Settled(p, s.fs) && !p.brokenPipe && D.N(p) > 0 {
      if b.contents[f] != [] {
        ChunksNonEmpty(b.contents[f], b.db.files[f].chunkSize);
      }
      D.QuietOutcome(p, s, parts);
    }
  }

  // ---- when a file can be read ----

  /** The file called `name` was written from its start in whole chunks. */
  ghost predicate WholeChunks(b: L.Book, name: string, out: Bytes) {
    exists f :: IsFile(b.db, b.user, name, f) && f in b.contents && b.db.files[f].chunkSize > 0 && FrontOf(b, f, out)
  }

  ghost predicate CanFetch(b: L.Book, name: string, eager: set<nat>) {
    exists f :: IsFile(b.db, b.user, name, f) && f in b.contents && Fetchable(b, f) && !Swallowed(b, f, eager)
  }

  /** What GetStream may answer for `name`. */
  ghost predicate Answers(b: L.Book, name: string, env: GetEnv, out: Bytes, ok: bool)
    requires L.Viewable(b)
  {
    var view := L.Abs(b);
    && (name !in view ==> !ok && out == [])
    && (name in view ==> out <= view[name].bytes && (ok ==> out == view[name].bytes))
    && (name in view && !env.brokenPipe ==> WholeChunks(b, name, out))
    && (Quiet(env) ==> (ok <==> CanFetch(b, name, env.eager)))
  }

  /** The workers ended in state `s`, on the file's plan with `par` of them at once. */
  ghost predicate Ran(b: L.Book, name: string, par: nat, env: GetEnv, s: D.State, out: Bytes, ok: bool) {
    exists f, idxs :: RanOn(b, name, par, env, s, out, ok, f, idxs)
  }

  ghost predicate RanOn(b: L.Book, name: string, par: nat, env: GetEnv, s: D.State, out: Bytes, ok: bool,
                        f: FileId, idxs: seq<nat>) {
    && IsFile(b.db, b.user, name, f) && Listing(b.db, b.user, f, idxs)
    && (forall i :: 0 <= i < |idxs| ==> Slot(f, idxs[i]) in b.db.chunks)
    && PlanOf(b, f, idxs, par, env).par == par
    && D.Inv(PlanOf(b, f, idxs, par, env), s) && D.Final(PlanOf(b, f, idxs, par, env), s)
    && out == s.wr.out && ok == D.Ok(PlanOf(b, f, idxs, par, env), s, b.db.files[f].hash)
  }

  /** There is no file of that name, or it has no rows. */
  ghost predicate NothingListed(b: L.Book, name: string) {
    forall f, k :: IsFile(b.db, b.user, name, f) && OwnChunk(b.db, b.user, k) ==> k.file != f
  }

  lemma NoAnswer(b: L.Book, name: string, env: GetEnv)
    requires L.Viewable(b) && !NameTaken(b.db, b.user, name)
    ensures Answers(b, name, env, [], false) && NothingListed(b, name)
  {
    L.AbsTaken(b, name);
    L.NotTaken(b.db, b.user, name);
  }

  lemma EmptyAnswer(b: L.Book, name: string, env: GetEnv, f: FileId, idxs: seq<nat>)
    requires L.Viewable(b) && L.DenseOk(b.db, b.user) && L.RowsOk(b) && IsFile(b.db, b.user, name, f)
    requires Listing(b.db, b.user, f, idxs) && idxs == []
    ensures Answers(b, name, env, [], false) && NothingListed(b, name)
  {
    assert OwnFile(b.db, b.user, f);
    forall k | OwnChunk(b.db, b.user, k) ensures k.file != f {
      ListedRow(b.db, b.user, f, idxs, k.idx);
    }
    L.AbsAt(b, f);
    L.UniqueFile(b.db, b.user, name, f);
    assert FrontOf(b, f, []) by {
      assert [] == Concat(PartsOf(b, f)[..0]);
    }
    PlanReads(b, f, idxs, 1, env);
  }

  lemma WorkerAnswer(b: L.Book, name: string, env: GetEnv, f: FileId, idxs: seq<nat>, p: D.Plan, s: D.State)
    requires Lawful(b.suite) && L.Viewable(b) && L.DenseOk(b.db, b.user) && L.RowsOk(b)
    requires IsFile(b.db, b.user, name, f) && Listing(b.db, b.user, f, idxs) && idxs != []
    requires forall i :: 0 <= i < |idxs| ==> Slot(f, idxs[i]) in b.db.chunks
    requires p == PlanOf(b, f, idxs, p.par, env) && D.Inv(p, s) && D.Final(p, s)
    requires D.Honest(p) ==> D.Settled(p, s.fs)
    ensures Answers(b, name, env, s.wr.out, D.Ok(p, s, b.db.files[f].hash))
    ensures Ran(b, name, p.par, env, s, s.wr.out, D.Ok(p, s, b.db.files[f].hash))
  {
    hide Lawful, L.RowsOk, L.DenseOk, D.Inv, D.Final, D.Ok, D.Settled, Listing, Fetchable, FrontOf, D.RowsOf;
    assert OwnFile(b.db, b.user, f);
    L.AbsAt(b, f);
    L.UniqueFile(b.db, b.user, name, f);
    assert RanOn(b, name, p.par, env, s, s.wr.out, D.Ok(p, s, b.db.files[f].hash), f, idxs);
    PlanRows(b, f, idxs, p.par, env);
    PlanReads(b, f, idxs, p.par, env);
    ReadOutcome(b, f, p, s);
    assert L.FileOk(b.suite, b.db.files[f], b.contents[f]);
  }

  ghost predicate AllHealthy(b: L.Book) {
    forall a :: a in b.members ==> b.members[a].healthy
  }

  /** A complete file whose purge was never tried can be fetched, whatever became of other
      files, as long as it is connected and the accounts are healthy. */
  lemma CompleteIsFetchable(b: L.Book, f: FileId)
    requires L.Inv(b) && L.Connected(b) && AllHealthy(b)
    requires OwnFile(b.db, b.user, f) && b.db.files[f].status == Complete && f !in b.torn
    ensures Fetchable(b, f)
  {
    forall k | OwnChunk(b.db, b.user, k) && k.file == f ensures Reachable(b, k) {
      assert L.RowOk(b, k);
    }
  }
}
