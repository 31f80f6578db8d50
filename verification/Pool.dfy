/** Pool (drivepool/pool.go): the operations on one user's pool of accounts, each over
    every worker schedule and every failure its environment allows. */
module Pool {
  import opened Prelude
  import opened Codec
  import opened Placement
  import opened Manifest
  import opened Drive
  import L = Ledger
  import U = Upload
  import D = Download
  import P = Putting
  import O = Outcome
  import G = Getting
  import R = Removing
  import V = Leaving

  const DEFAULT_CHUNK_SIZE: nat := 128 * 1024 * 1024
  const DEFAULT_PARALLEL: nat := 4

  /** Some chunk row on the user's account of that label is of a file that is not deleted. */
  ghost predicate InUse(db: Db, user: UserId, tag: string) {
    exists a, k :: HasLabel(db, user, tag, a) && LiveOn(db, user, a, k)
  }

  ghost predicate HasLabel(db: Db, user: UserId, tag: string, a: AccountId) {
    a in db.accounts && db.accounts[a] == AccountRow(user, tag)
  }

  lemma InUseTaken(db: Db, user: UserId, tag: string)
    ensures InUse(db, user, tag) ==> LabelTaken(db, user, tag)
  {
  }

  lemma InUseAt(db: Db, user: UserId, tag: string, a: AccountId)
    requires UniqueLabels(db) && HasLabel(db, user, tag, a)
    ensures InUse(db, user, tag) <==> exists k :: LiveOn(db, user, a, k)
  {
    if k :| LiveOn(db, user, a, k) {
      assert HasLabel(db, user, tag, a) && LiveOn(db, user, a, k);
    }
  }

  /** What surrounds one PutStream: the answers to its quota queries, how many of the
      announced bytes the reader yields, the random key and folder name, and which calls
      fail: in a calm put no read and no remote call of the upload, in a lossy one such a
      call may take effect all the same; `stuck` are the chunks whose cleanup has no effect. */
  datatype PutEnv = PutEnv(
    quotas: Quotas, avail: nat, key: Bytes, folderName: string,
    calm: bool, lossy: bool, stuck: set<nat>, writes: O.Writes)

  predicate FreshName(stores: Stores, name: string) {
    forall a :: a in stores ==> !HasFolder(stores[a], name)
  }

  /** The random folder name is new. */
  ghost predicate EnvOk(b: L.Book, env: PutEnv, data: Bytes) {
    && env.avail <= |data| && FreshName(b.stores, env.folderName)
    && (env.calm ==> env.avail == |data| && !env.lossy)
  }

  /** The accounts a put considers: usable, and their quota query was answered. */
  function Candidates(members: map<AccountId, L.Member>, quotas: Quotas): Quotas {
    map a | a in quotas && a in members && members[a].healthy :: quotas[a]
  }

  /** A usable account of the pool answered its quota query. */
  predicate Answered(members: map<AccountId, L.Member>, quotas: Quotas, a: AccountId) {
    a in members && members[a].healthy && a in quotas
  }

  /** The bytes that each limited account which answered has left. */
  function FreeBytes(members: map<AccountId, L.Member>, quotas: Quotas): map<AccountId, int> {
    map a | a in quotas && Answered(members, quotas, a) && !quotas[a].unlimited ::
      if quotas[a].limit <= quotas[a].usage then 0 else quotas[a].limit - quotas[a].usage
  }

  /** Some account has no limit, or the limited ones have `size` bytes left together. */
  ghost predicate Enough(members: map<AccountId, L.Member>, quotas: Quotas, size: nat) {
    exists a :: Answered(members, quotas, a) && (quotas[a].unlimited || size <= Total(FreeBytes(members, quotas)))
  }

  /** The file's one row is on an account that offers as much as any that answered. */
  ghost predicate BestPlaced(db: Db, f: FileId, members: map<AccountId, L.Member>, quotas: Quotas) {
    && Slot(f, 0) in db.chunks && db.chunks[Slot(f, 0)].account.Some?
    && Answered(members, quotas, db.chunks[Slot(f, 0)].account.value)
    && forall o, n: nat :: Answered(members, quotas, o) && Offers(quotas[o], n) ==>
         Offers(quotas[db.chunks[Slot(f, 0)].account.value], n)
  }

  lemma CandidatesAre(members: map<AccountId, L.Member>, quotas: Quotas)
    ensures forall a :: a in Candidates(members, quotas) <==> Answered(members, quotas, a)
    ensures Candidates(members, quotas) == map[] <==> forall a :: !Answered(members, quotas, a)
  {
    if Candidates(members, quotas) != map[] {
      var a :| a in Candidates(members, quotas);
      assert Answered(members, quotas, a);
    }
  }

  lemma EnoughIsRoom(members: map<AccountId, L.Member>, quotas: Quotas, size: nat)
    requires Enough(members, quotas, size)
    ensures Room(Candidates(members, quotas), size)
  {
    var q := Candidates(members, quotas);
    CandidatesAre(members, quotas);
    var a :| Answered(members, quotas, a) && (quotas[a].unlimited || size <= Total(FreeBytes(members, quotas)));
    assert a in q;
    if Opening(q).unlimited == {} {
      assert a !in Opening(q).unlimited;
      assert Opening(q).available == FreeBytes(members, quotas);
    }
  }

  lemma OneChunkPlace(db: Db, f: FileId, c: nat, members: map<AccountId, L.Member>, quotas: Quotas)
    requires Completed(db, f, c, Candidates(members, quotas)) && NumChunks(db.files[f].size, c) == 1
    ensures BestPlaced(db, f, members, quotas)
  {
    var q := Candidates(members, quotas);
    var k := Slot(f, 0);
    assert k in db.chunks && db.chunks[k].account.Some?;
    var a := db.chunks[k].account.value;
    assert P.RowPicks(db.chunks, f, 1)[0].id == a;
    CandidatesAre(members, quotas);
    forall o, n: nat | Answered(members, quotas, o) && Offers(quotas[o], n) ensures Offers(quotas[a], n) {
      AvailableIsOffer(quotas[o], n);
      AvailableIsOffer(quotas[a], n);
      assert o in q;
    }
  }

  /** File `f` is stored as its row says: complete, cut into chunks of the row's size, its
      rows spread over the accounts that answered as the placement rules say, a single one
      on an account that offers as much as any. */
  ghost predicate StoredAs(db: Db, f: FileId, members: map<AccountId, L.Member>, quotas: Quotas, row: FileRow) {
    && FileIs(db, f, row) && Completed(db, f, row.chunkSize, Candidates(members, quotas))
    && (row.chunkSize > 0 && NumChunks(row.size, row.chunkSize) == 1 ==> BestPlaced(db, f, members, quotas))
  }

  lemma PutPlaced(db: Db, f: FileId, members: map<AccountId, L.Member>, quotas: Quotas, row: FileRow)
    requires FileIs(db, f, row) && Completed(db, f, row.chunkSize, Candidates(members, quotas))
    ensures StoredAs(db, f, members, quotas, row)
  {
    if NumChunks(row.size, row.chunkSize) == 1 {
      OneChunkPlace(db, f, row.chunkSize, members, quotas);
    }
  }

  /** `picks` are the accounts and sizes in the first `n` rows of `f`. */
  ghost predicate PicksAre(db: Db, f: FileId, n: nat, picks: seq<Pick>) {
    |picks| == n &&
    forall k: nat :: k < n ==>
      && Slot(f, k) in db.chunks && db.chunks[Slot(f, k)].account == Some(picks[k].id)
      && db.chunks[Slot(f, k)].plainSize == picks[k].size && picks[k].id in Picked(picks)
  }

  /** Among the limited accounts that answered, a file of several chunks over-commits none
      by more than one chunk, and leaves those it uses balanced to within one chunk. */
  lemma PutIsBalanced(db: Db, f: FileId, c: nat, members: map<AccountId, L.Member>, quotas: Quotas)
    requires Completed(db, f, c, Candidates(members, quotas)) && NumChunks(db.files[f].size, c) != 1
    requires forall a :: Answered(members, quotas, a) ==> !quotas[a].unlimited
    requires forall k: nat :: Slot(f, k) in db.chunks ==> db.chunks[Slot(f, k)].plainSize <= c
    ensures var picks := P.RowPicks(db.chunks, f, NumChunks(db.files[f].size, c));
      var free := FreeBytes(members, quotas);
      && PicksAre(db, f, NumChunks(db.files[f].size, c), picks)
      && (forall a :: Answered(members, quotas, a) ==> a in free && On(picks, a) <= free[a] + c)
      && (forall a, o :: Answered(members, quotas, a) && Answered(members, quotas, o) && a in Picked(picks) ==>
            free[a] - On(picks, a) >= free[o] - On(picks, o) - c)
  {
    var q, n := Candidates(members, quotas), NumChunks(db.files[f].size, c);
    CandidatesAre(members, quotas);
    assert Opening(q).unlimited == {};
    P.SpreadIsBalanced(db, f, n, q, c);
    forall a | Answered(members, quotas, a) ensures a in q && FreeBytes(members, quotas)[a] == q[a].Available() {
    }
  }

  /** When some healthy account answered that it is unlimited, every chunk of a file of
      several goes to such an account. */
  lemma PutPrefersUnlimited(db: Db, f: FileId, c: nat, members: map<AccountId, L.Member>, quotas: Quotas, k: nat)
    requires Completed(db, f, c, Candidates(members, quotas)) && k < NumChunks(db.files[f].size, c) != 1
    requires exists a :: Answered(members, quotas, a) && quotas[a].unlimited
    ensures Slot(f, k) in db.chunks && db.chunks[Slot(f, k)].account.Some?
    ensures Answered(members, quotas, db.chunks[Slot(f, k)].account.value)
    ensures quotas[db.chunks[Slot(f, k)].account.value].unlimited
  {
    var q, n := Candidates(members, quotas), NumChunks(db.files[f].size, c);
    CandidatesAre(members, quotas);
    var a :| Answered(members, quotas, a) && quotas[a].unlimited;
    assert a in q && a in Opening(q).unlimited;
    UnlimitedTakesAll(Opening(q), P.RowPicks(db.chunks, f, n));
    assert P.RowPicks(db.chunks, f, n)[k].id in Opening(q).unlimited;
  }

  /** The accounts offer room for `size` bytes. */
  ghost predicate Room(quotas: Quotas, size: nat) {
    quotas != map[] &&
    (Opening(quotas).unlimited == {} ==> size <= Total(Opening(quotas).available))
  }

  /** File `f` is complete, was cut into chunks of `c` bytes, and its rows are spread as
      the placement rules say. */
  ghost predicate Completed(db: Db, f: FileId, c: nat, quotas: Quotas) {
    && f in db.files && db.files[f].status == Complete && db.files[f].chunkSize == c && c > 0
    && P.Spread(db, f, NumChunks(db.files[f].size, c), quotas)
  }

  /** No file row was removed or changed, and no id is given out twice. */
  ghost predicate FilesKept(x: Db, y: Db) {
    x.nextFile <= y.nextFile && forall f :: f in x.files ==> f in y.files && y.files[f] == x.files[f]
  }

  ghost predicate FileIs(db: Db, f: FileId, row: FileRow) {
    f in db.files && db.files[f] == row
  }

  /** Rows may have been added, none was removed. */
  ghost predicate RowsKept(x: Db, y: Db, user: UserId) {
    forall k :: OwnChunk(x, user, k) ==> OwnChunk(y, user, k)
  }

  /** The upload a put starts. */
  function JobOf(b: L.Book, env: PutEnv, data: Bytes, c: nat, par: nat, choice: U.Choice): U.Job {
    U.Job(b.suite, env.key, data, env.avail, c, par, env.folderName, b.stores, choice, env.calm, env.lossy)
  }

  /** The workers ended in state `s`, and the put took the books from `b` to `d`. */
  ghost predicate Ran(b: L.Book, d: L.Book, name: string, data: Bytes, env: PutEnv, c: nat, par: nat, s: U.State,
                      ok: bool) {
    c > 0 && exists choice :: RanBy(b, d, name, data, env, c, par, s, ok, choice)
  }

  ghost predicate RanBy(b: L.Book, d: L.Book, name: string, data: Bytes, env: PutEnv, c: nat, par: nat, s: U.State,
                        ok: bool,
                        choice: U.Choice)
    requires c > 0
  {
    var j := JobOf(b, env, data, c, par, choice);
    && P.ChosenFrom(choice, Candidates(b.members, env.quotas), NumChunks(|data|, c)) && j.par == par
    && U.Inv(j, s) && U.Final(j, s) && O.Settles(b, d, j, s, name, env.stuck, env.writes, ok)
  }

  /** The account map Open builds: every row of the user, those in `broken` with a client
      that could not be built. */
  function Loaded(db: Db, user: UserId, broken: set<AccountId>): map<AccountId, L.Member> {
    map a | a in db.accounts && db.accounts[a].user == user :: L.Member(db.accounts[a].tag, a !in broken)
  }

  /** A user without files whose accounts hold no objects starts in agreement. */
  lemma NewUserInv(user: UserId, suite: Suite, db: Db, stores: Stores, broken: set<AccountId>)
    requires Sane(db) && (forall f :: !OwnFile(db, user, f))
    requires forall a :: OwnAccount(db, user, a) ==> a in stores && stores[a].objects == map[]
    requires forall a :: a in stores ==> RemoteOk(stores[a])
    ensures L.Inv(L.Book(user, suite, db, stores, Loaded(db, user, broken), map[], {}, {}))
    ensures L.Clean(L.Book(user, suite, db, stores, Loaded(db, user, broken), map[], {}, {}))
  {
    var b := L.Book(user, suite, db, stores, Loaded(db, user, broken), map[], {}, {});
    forall k ensures !OwnChunk(db, user, k) {
      if OwnChunk(db, user, k) {
        assert ChunkRef(db, k);
        assert OwnFile(db, user, k.file);
      }
    }
    assert L.MembersOk(b) by {
      assert forall a :: a in b.members <==> OwnAccount(db, user, a);
    }
    assert L.OrphansOk(b);
  }

  /** Objects no row names on accounts that are usable now, not known before. */
  ghost function Revealed(b: L.Book, members: map<AccountId, L.Member>): set<Loc> {
    set a, id | a in members && members[a].healthy && a in b.stores && id in b.stores[a].objects &&
                Loc(a, id) !in b.leaked && !L.Claimed(b.db, b.user, Loc(a, id)) :: Loc(a, id)
  }

  ghost function Reopened(b: L.Book, broken: set<AccountId>): L.Book {
    var members := Loaded(b.db, b.user, broken);
    b.(members := members, leaked := b.leaked + Revealed(b, members))
  }

  /** The same accounts are out of reach as before. */
  ghost predicate AsBefore(b: L.Book, broken: set<AccountId>) {
    forall a :: a in b.members ==> (b.members[a].healthy <==> a !in broken)
  }

  lemma LoadedOk(b: L.Book, broken: set<AccountId>, leaked: set<Loc>)
    requires L.Inv(b)
    ensures var c := b.(members := Loaded(b.db, b.user, broken), leaked := leaked);
      && Sane(c.db) && L.MembersOk(c) && L.FilesOk(c) && L.RowsOk(c)
      && L.DenseOk(c.db, c.user) && L.PairsOk(c.db, c.user)
  {
    var c := b.(members := Loaded(b.db, b.user, broken), leaked := leaked);
    assert forall a :: a in c.members <==> OwnAccount(b.db, b.user, a);
    forall k | OwnChunk(c.db, c.user, k) ensures L.RowOk(c, k) {
      assert L.RowOk(b, k);
    }
  }

  lemma ReopenClaims(b: L.Book, broken: set<AccountId>)
    requires L.MembersOk(b) && L.LeakedOk(b)
    ensures L.OrphansOk(Reopened(b, broken)) && L.LeakedOk(Reopened(b, broken))
  {
    var c := Reopened(b, broken);
    forall l | L.Live(c, l) && L.Healthy(c, l.account) ensures l in c.leaked || L.Claimed(c.db, c.user, l) {
      assert l == Loc(l.account, l.id);
    }
  }

  lemma ReopenKeeps(b: L.Book, broken: set<AccountId>)
    requires L.Inv(b)
    ensures L.Inv(Reopened(b, broken)) && L.Abs(Reopened(b, broken)) == L.Abs(b)
  {
    hide L.RowsOk, L.MembersOk, L.PairsOk, L.DenseOk, L.OrphansOk, L.LeakedOk, Revealed, Loaded, ChunkRefs;
    var c := Reopened(b, broken);
    LoadedOk(b, broken, c.leaked);
    ReopenClaims(b, broken);
    L.AbsSame(b, c);
  }

  lemma ReopenSame(b: L.Book, broken: set<AccountId>)
    requires L.Inv(b) && AsBefore(b, broken)
    ensures Reopened(b, broken) == b
  {
    var members := Loaded(b.db, b.user, broken);
    forall a ensures a in members <==> a in b.members {
      assert a in b.members <==> OwnAccount(b.db, b.user, a);
    }
    assert members == b.members;
    forall l | l in Revealed(b, members) ensures false {
      assert L.Live(b, l) && L.Healthy(b, l.account);
    }
  }

  /** Without writing such objects off, reopening keeps the invariant just when there are
      none: the clause at stake is the one about orphans. */
  lemma ReopenExactIff(b: L.Book, broken: set<AccountId>)
    requires L.Inv(b)
    ensures L.Inv(b.(members := Loaded(b.db, b.user, broken))) <==> Revealed(b, Loaded(b.db, b.user, broken)) == {}
    ensures L.Inv(b.(members := Loaded(b.db, b.user, broken))) <==>
      L.OrphansOk(b.(members := Loaded(b.db, b.user, broken)))
  {
    var members := Loaded(b.db, b.user, broken);
    var c := b.(members := members);
    LoadedOk(b, broken, b.leaked);
    assert L.LeakedOk(c);
    if Revealed(b, members) == {} {
      forall l | L.Live(c, l) && L.Healthy(c, l.account) ensures l in c.leaked || L.Claimed(c.db, c.user, l) {
        assert l == Loc(l.account, l.id);
        assert l !in Revealed(b, members);
      }
    } else {
      var l :| l in Revealed(b, members);
      assert L.Live(c, l) && L.Healthy(c, l.account) && l !in c.leaked && !L.Claimed(c.db, c.user, l);
    }
  }

  /** Row `k` of `f` names an object on an account that a purge cannot reach, and that is
      among the usable `members`. */
  ghost predicate SkippedBy(b: L.Book, f: FileId, members: map<AccountId, L.Member>, k: Slot) {
    && R.Holds(b, b.stores, f, k) && !R.Usable(b, k)
    && b.db.chunks[k].account.value in members && members[b.db.chunks[k].account.value].healthy
  }

  ghost function Skipped(b: L.Book, f: FileId, members: map<AccountId, L.Member>): set<Loc> {
    set k | k in b.db.chunks && SkippedBy(b, f, members, k) :: Loc(b.db.chunks[k].account.value, b.db.chunks[k].remote)
  }

  /** What comes to light when accounts come back after a purge: besides what would have
      come to light before it, exactly the objects it skipped on them. */
  lemma PurgeReveals(b: L.Book, d: L.Book, f: FileId, broken: set<AccountId>)
    requires L.Inv(b) && L.Inv(d) && R.PurgedBy(b, d, f)
    ensures var members := Loaded(b.db, b.user, broken);
      Revealed(d, members) == Revealed(b, members) + Skipped(b, f, members)
  {
    var members := Loaded(b.db, b.user, broken);
    forall l | l in Revealed(d, members) ensures l in Revealed(b, members) + Skipped(b, f, members) {
      RevealedFrom(b, d, f, members, l);
    }
    forall l | l in Revealed(b, members) ensures l in Revealed(d, members) {
      RevealedStays(b, d, f, members, l);
    }
    forall l | l in Skipped(b, f, members) ensures l in Revealed(d, members) {
      var k :|
        k in b.db.chunks && SkippedBy(b, f, members, k) &&
        Loc(b.db.chunks[k].account.value, b.db.chunks[k].remote) == l;
      SkippedReveals(b, d, f, members, k, l);
    }
  }

  lemma RevealedFrom(b: L.Book, d: L.Book, f: FileId, members: map<AccountId, L.Member>, l: Loc)
    requires L.Inv(b) && L.Inv(d) && R.PurgedBy(b, d, f) && l in Revealed(d, members)
    ensures l in Revealed(b, members) || l in Skipped(b, f, members)
  {
    hide L.RowsOk, L.FilesOk, L.DenseOk, L.PairsOk, Sane, R.Vacated, R.LeftByPurge;
    assert !L.Healthy(d, l.account) by {
      assert L.Healthy(d, l.account) ==> L.Live(d, l);
    }
    assert L.Live(b, l);
    if L.Claimed(b.db, b.user, l) {
      var k :| OwnChunk(b.db, b.user, k) && L.Points(b.db, k, l);
      assert k.file != f ==> OwnChunk(d.db, d.user, k) && L.Points(d.db, k, l);
      assert SkippedBy(b, f, members, k);
      assert l == Loc(l.account, l.id);
    }
  }

  lemma RevealedStays(b: L.Book, d: L.Book, f: FileId, members: map<AccountId, L.Member>, l: Loc)
    requires L.Inv(b) && R.PurgedBy(b, d, f) && l in Revealed(b, members)
    ensures l in Revealed(d, members)
  {
    hide L.RowsOk, L.FilesOk, L.DenseOk, L.PairsOk, Sane, R.Vacated, R.LeftByPurge;
    assert L.Live(b, l);
    assert !L.Healthy(b, l.account);
    forall k | OwnChunk(d.db, d.user, k) ensures !L.Points(d.db, k, l) {
      assert OwnChunk(b.db, b.user, k);
    }
  }

  lemma SkippedReveals(b: L.Book, d: L.Book, f: FileId, members: map<AccountId, L.Member>, k: Slot, l: Loc)
    requires L.Inv(b) && R.PurgedBy(b, d, f) && SkippedBy(b, f, members, k)
    requires l == Loc(b.db.chunks[k].account.value, b.db.chunks[k].remote)
    ensures l in Revealed(d, members)
  {
    hide L.RowsOk, L.FilesOk, L.DenseOk, Sane, R.Vacated, R.LeftByPurge, L.OrphansOk;
    assert OwnChunk(b.db, b.user, k) && L.Points(b.db, k, l);
    forall m | OwnChunk(d.db, d.user, m) ensures !L.Points(d.db, m, l) {
      assert OwnChunk(b.db, b.user, m);
      assert L.Apart(b.db, k, m);
    }
  }

  /** A pool that would have been in order with these accounts before the purge is in order
      after it if and only if the purge skipped no object on any of them. */
  lemma ReopenAfterPurgeIff(b: L.Book, d: L.Book, f: FileId, broken: set<AccountId>)
    requires L.Inv(b) && L.Inv(d) && R.PurgedBy(b, d, f) && L.Inv(b.(members := Loaded(b.db, b.user, broken)))
    ensures L.Inv(d.(members := Loaded(d.db, d.user, broken))) <==>
      forall k :: !SkippedBy(b, f, Loaded(b.db, b.user, broken), k)
  {
    hide L.Inv, R.PurgedBy, Revealed, Loaded, SkippedBy;
    var members := Loaded(b.db, b.user, broken);
    LoadedSame(b, d, f, broken);
    ReopenExactIff(b, broken);
    ReopenExactIff(d, broken);
    PurgeReveals(b, d, f, broken);
    if k :| SkippedBy(b, f, members, k) {
      SkippedRow(b, f, members, k);
    }
  }

  lemma LoadedSame(b: L.Book, d: L.Book, f: FileId, broken: set<AccountId>)
    requires R.PurgedBy(b, d, f)
    ensures Loaded(d.db, d.user, broken) == Loaded(b.db, b.user, broken)
  {
  }

  lemma SkippedRow(b: L.Book, f: FileId, members: map<AccountId, L.Member>, k: Slot)
    requires SkippedBy(b, f, members, k)
    ensures Skipped(b, f, members) != {}
  {
    assert Loc(b.db.chunks[k].account.value, b.db.chunks[k].remote) in Skipped(b, f, members);
  }

  class Pool {
    const user: UserId
    const suite: Suite
    const chunkSizeSetting: int
    const parallelSetting: int
    const manifest: Manifest
    const drive: Drive
    var members: map<AccountId, L.Member>
    ghost var contents: map<FileId, Bytes>
    ghost var torn: set<FileId>
    ghost var leaked: set<Loc>

    function ChunkSize(): (c: nat)
      ensures c > 0
      ensures if chunkSizeSetting > 0 then c == chunkSizeSetting else c == 128 * 1024 * 1024
    {
      if chunkSizeSetting > 0 then chunkSizeSetting else DEFAULT_CHUNK_SIZE
    }

    function MaxParallel(): (n: nat)
      ensures n > 0
      ensures if parallelSetting > 0 then n == parallelSetting else n == 4
    {
      if parallelSetting > 0 then parallelSetting else DEFAULT_PARALLEL
    }

    ghost function Book(): L.Book
      reads this, manifest, drive
    {
      L.Book(user, suite, manifest.State(), drive.stores, members, contents, torn, leaked)
    }

    ghost predicate Valid()
      reads this, manifest, drive
    {
      Lawful(suite) && L.Inv(Book())
    }

    /** The pool as its user sees it: names to bytes. */
    ghost function View(): map<string, L.Entry>
      requires Valid()
      reads this, manifest, drive
    {
      L.Abs(Book())
    }

    /** Open, on whatever an earlier pool of that user left (`prev`) and any set of accounts
        whose client cannot be built. The view is the same; objects without a row on an
        account that was out of reach before are now known as leaked. */
    constructor Open(manifest: Manifest, drive: Drive, user: UserId, suite: Suite, chunkSize: int, parallel: int,
                     broken: set<AccountId>, ghost prev: L.Book)
      requires Lawful(suite) && L.Inv(prev)
      requires prev.user == user && prev.suite == suite && prev.db == manifest.State() && prev.stores == drive.stores
      ensures Valid() && this.manifest == manifest && this.drive == drive && this.user == user && this.suite == suite
      ensures chunkSizeSetting == chunkSize && parallelSetting == parallel
      ensures Book() == Reopened(prev, broken) && View() == L.Abs(prev)
      ensures AsBefore(prev, broken) ==> Book() == prev
    {
      this.user, this.suite, this.manifest, this.drive := user, suite, manifest, drive;
      chunkSizeSetting, parallelSetting := chunkSize, parallel;
      members := Loaded(manifest.State(), user, broken);
      contents, torn := prev.contents, prev.torn;
      leaked := prev.leaked + Revealed(prev, Loaded(manifest.State(), user, broken));
      new;
      ReopenKeeps(prev, broken);
      if AsBefore(prev, broken) {
        ReopenSame(prev, broken);
      }
    }

    /** cleanupChunks: best effort, one delete after the other. Exactly the objects it can
        reach and whose delete takes effect go; folders and all other objects stay, those
        of the given ones on accounts out of reach among them. */
    method CleanupChunks(ups: seq<U.Upl>, stuck: set<nat>)
      requires L.Inv(Book()) && O.Sweepable(Book(), ups, 0)
      modifies this`leaked, drive
      ensures L.Inv(Book()) && leaked == old(leaked) - O.Gone(members, ups, stuck)
      ensures O.Untouched(old(drive.stores), drive.stores, O.Gone(members, ups, stuck))
      ensures O.AllGone(drive.stores, O.Gone(members, ups, stuck))
    {
      hide L.Inv, O.Sweepable, O.Untouched, O.AllGone;
      var i := 0;
      O.UntouchedSame(drive.stores);
      assert O.Gone(members, ups[..0], stuck) == {};
      while i < |ups|
        invariant i <= |ups| && L.Inv(Book()) && O.Sweepable(Book(), ups, i)
        invariant leaked == old(leaked) - O.Gone(members, ups[..i], stuck)
        invariant O.Untouched(old(drive.stores), drive.stores, O.Gone(members, ups[..i], stuck))
        invariant O.AllGone(drive.stores, O.Gone(members, ups[..i], stuck))
      {
        O.GoneStep(members, ups, stuck, i);
        SweepChunk(ups, i, stuck, old(drive.stores), O.Gone(members, ups[..i], stuck));
        i := i + 1;
      }
      assert ups[..i] == ups;
    }

    method SweepChunk(ups: seq<U.Upl>, i: nat, stuck: set<nat>, ghost start: Stores, ghost locs: set<Loc>)
      requires L.Inv(Book()) && i < |ups| && O.Sweepable(Book(), ups, i)
      requires O.Untouched(start, drive.stores, locs) && O.AllGone(drive.stores, locs)
      modifies this`leaked, drive
      ensures L.Inv(Book()) && O.Sweepable(Book(), ups, i + 1)
      ensures var gone := if O.Deletes(members, ups[i], stuck) then {P.LocOf(ups[i])} else {};
        && leaked == old(leaked) - gone
        && O.Untouched(start, drive.stores, locs + gone) && O.AllGone(drive.stores, locs + gone)
    {
      hide L.Inv, O.Untouched, O.AllGone, O.Locs;
      var u := ups[i];
      assert O.SweepOne(Book(), u) && locs + {} == locs;
      O.SweepSkip(Book(), ups, i);
      if u.account !in members || !members[u.account].healthy {
        return;
      }
      ghost var b, l := Book(), P.LocOf(u);
      L.SweepKeeps(b, l, true);
      O.SweepNext(b, ups, i, true);
      O.UntouchedStep(start, b.stores, locs, l);
      var fails: bool := *;
      var res := drive.Delete(u.account, u.remote, fails || u.idx in stuck, u.idx !in stuck);
      if u.idx !in stuck {
        leaked := leaked - {l};
        assert Book() == L.Swept(b, l, true);
      } else {
        assert Book() == b;
      }
    }

    static method ChoosePlaces(quotas: Quotas, n: nat) returns (choice: Option<U.Choice>)
      ensures choice.None? <==> quotas == map[]
      ensures choice.Some? ==> P.ChosenFrom(choice.value, quotas, n)
    {
      if n == 1 {
        var best := PickAccount(quotas);
        return if best.Some? then Some(U.Single(best.value)) else None;
      }
      if quotas == map[] {
        return None;
      }
      var tracker := new Tracker(quotas);
      return Some(U.Tracked(Budget(tracker.available, tracker.unlimited)));
    }

    /** The workers run; their objects are on the accounts, unnamed as yet. */
    method Land(j: U.Job) returns (s: U.State)
      requires L.Inv(Book()) && U.JobOk(j) && P.JobFor(j, Book())
      modifies this`leaked, drive
      ensures U.Inv(j, s) && U.Final(j, s) && L.Inv(Book())
      ensures Book() == P.Landed(old(Book()), s.cl)
    {
      s := U.RunUploads(j);
      P.LandedInv(Book(), j, s.cl);
      drive.stores := s.cl.stores;
      leaked := leaked + P.Extra(s.cl);
    }

    /** The loop over AddChunk: rows are written in order up to the failing one, and what
        has no row by then stays without one. */
    method RecordChunks(f: FileId, ups: seq<U.Upl>, failing: Option<nat>) returns (ok: bool)
      requires L.Inv(Book()) && P.Waiting(Book(), f, ups, 0)
      modifies manifest, this`leaked
      ensures L.Inv(Book()) && OthersSame(old(manifest.State()), manifest.State(), user)
      ensures manifest.files == old(manifest.files) && manifest.nextFile == old(manifest.nextFile)
      ensures var k := O.Cut(failing, |ups|);
        P.Waiting(Book(), f, ups, k) && leaked == old(leaked) - O.Locs(ups[..k]) && (ok <==> k == |ups|)
      ensures old(L.Connected(Book())) ==> L.Connected(Book())
      ensures RowsKept(old(manifest.State()), manifest.State(), user)
    {
      hide L.Inv, P.Waiting, OthersSame, L.Connected;
      OthersSameRefl(manifest.State(), user);
      var i := 0;
      while i < |ups|
        invariant i <= |ups| && L.Inv(Book()) && P.Waiting(Book(), f, ups, i)
        invariant failing.Some? && failing.value < |ups| ==> i <= failing.value
        invariant OthersSame(old(manifest.State()), manifest.State(), user)
        invariant manifest.files == old(manifest.files) && manifest.nextFile == old(manifest.nextFile)
        invariant leaked == old(leaked) - O.Locs(ups[..i])
        invariant old(L.Connected(Book())) ==> L.Connected(Book())
        invariant RowsKept(old(manifest.State()), manifest.State(), user)
      {
        O.LocsStep(ups, i);
        ok := RecordChunk(f, ups, i, failing == Some(i));
        if !ok {
          return;
        }
        i := i + 1;
      }
      ok := true;
    }

    method RecordChunk(f: FileId, ups: seq<U.Upl>, i: nat, fails: bool) returns (ok: bool)
      requires L.Inv(Book()) && P.Waiting(Book(), f, ups, i) && i < |ups|
      modifies manifest, this`leaked
      ensures L.Inv(Book()) && manifest.files == old(manifest.files) && ok == !fails
      ensures manifest.nextFile == old(manifest.nextFile)
      ensures forall x :: OthersSame(x, old(manifest.State()), user) ==> OthersSame(x, manifest.State(), user)
      ensures ok ==> P.Waiting(Book(), f, ups, i + 1) && leaked == old(leaked) - {P.LocOf(ups[i])}
      ensures !ok ==> Book() == old(Book())
      ensures old(L.Connected(Book())) ==> L.Connected(Book())
      ensures RowsKept(old(manifest.State()), manifest.State(), user)
    {
      hide L.Inv, P.Waiting, OthersSame, L.Connected, L.Recordable;
      var row := P.RowOf(ups[i], user);
      ghost var b := Book();
      assert Sane(b.db) by {
        L.InvParts(b);
      }
      P.NextRecordable(b, f, ups, i);
      L.RecordKeeps(b, Slot(f, i), row);
      P.NextWaiting(b, f, ups, i);
      ConnectedRecord(b, Slot(f, i), row);
      ok := manifest.AddChunk(user, Slot(f, i), row, fails);
      if ok {
        leaked := leaked - {P.LocOf(ups[i])};
        assert Book() == L.Recorded(b, Slot(f, i), row);
        forall x | OthersSame(x, b.db, user) ensures OthersSame(x, manifest.State(), user) {
          OthersSameStep(x, b.db, user, AddChunk(Slot(f, i), row));
        }
      }
    }

    /** CreateVirtualFile for the uploaded data: on a name clash nothing is written. */
    method RecordFile(row: FileRow, ghost data: Bytes, fails: bool) returns (id: Option<FileId>)
      requires L.Inv(Book()) && row.user == user && row.status == Incomplete && L.FileOk(suite, row, data)
      modifies manifest, this`contents
      ensures L.Inv(Book())
      ensures id.None? <==> fails || NameTaken(old(manifest.State()), user, row.name)
      ensures id.None? ==> Book() == old(Book())
      ensures id.Some? ==> id.value == old(manifest.nextFile) && Book() == L.Created(old(Book()), row, data)
      ensures OthersSame(old(manifest.State()), manifest.State(), user)
      ensures id.Some? ==> OwnFile(manifest.State(), user, id.value) && old(manifest.nextFile) !in old(manifest.files)
      ensures old(L.Connected(Book())) ==> L.Connected(Book())
    {
      hide L.Inv, OthersSame, L.Connected, NameTaken;
      ghost var b := Book();
      L.InvParts(b);
      OthersSameRefl(b.db, user);
      id := manifest.CreateVirtualFile(user, row, fails);
      if id.Some? {
        contents := contents[id.value := data];
        L.CreateKeeps(b, row, data);
        ConnectedCreate(b, row, data);
        OthersSameStep(b.db, b.db, user, CreateFile(row));
        assert b.db.nextFile !in b.db.files;
      }
    }

    /** SetVirtualFileStatus(complete). */
    method MarkComplete(f: FileId, fails: bool) returns (ok: bool)
      requires L.Inv(Book()) && OwnFile(manifest.State(), user, f) && L.Whole(manifest.State(), user, f)
      requires manifest.files[f].status != Deleted
      modifies manifest
      ensures L.Inv(Book()) && manifest.chunks == old(manifest.chunks) && ok == !fails
      ensures forall x :: OthersSame(x, old(manifest.State()), user) ==> OthersSame(x, manifest.State(), user)
      ensures Book() == if ok then L.Restatused(old(Book()), {f}, Complete) else old(Book())
      ensures old(L.Connected(Book())) ==> L.Connected(Book())
    {
      hide L.Inv, OthersSame, L.Connected, L.Whole;
      ghost var b := Book();
      L.InvParts(b);
      ExecSane(b.db, user, SetStatus(f, Complete));
      L.StatusKeeps(b, {f}, Complete);
      ConnectedComplete(b, f);
      ok := manifest.SetVirtualFileStatus(user, f, Complete, fails);
      if ok {
        forall x | OthersSame(x, b.db, user) ensures OthersSame(x, manifest.State(), user) {
          OthersSameStep(x, b.db, user, SetStatus(f, Complete));
        }
      }
    }

    /** The upload failed, or its name is taken: what the workers counted is deleted again.
        The lost objects stay, those whose delete has no effect, and every folder. */
    method Abandon(j: U.Job, s: U.State, name: string, stuck: set<nat>, ghost writes: O.Writes, ghost b0: L.Book)
      requires L.Inv(b0) && P.JobFor(j, b0) && U.Inv(j, s) && U.Final(j, s)
      requires L.Inv(Book()) && Book() == P.Landed(b0, s.cl)
      requires forall a :: a in U.Accounts(j.choice) ==> L.Healthy(b0, a)
      requires !O.Committed(s, NameTaken(b0.db, user, name), writes)
      modifies this`leaked, drive
      ensures L.Inv(Book()) && leaked == b0.leaked + s.cl.lost.Keys + O.Stuck(U.Collect(s.wk.results), stuck)
      ensures O.Settles(b0, Book(), j, s, name, stuck, writes, false)
    {
      hide L.Inv, O.Sweepable, U.Final, O.Untouched, O.AllGone, O.Settles, O.Distinct, NameTaken, O.Committed;
      var ups := U.Collect(s.wk.results);
      O.UploadsSweepable(b0, j, s);
      O.UploadsHealthy(b0, j, s);
      O.NewObjects(b0, j, s.cl);
      CleanupChunks(ups, stuck);
      O.CleanedLeak(b0, s.cl, ups, stuck);
      L.InvParts(b0);
      O.AbandonSettles(b0, Book(), j, s, name, stuck, writes);
    }

    /** From the uploaded chunks to a complete file. */
    method Commit(j: U.Job, s: U.State, name: string, stuck: set<nat>, writes: O.Writes, ghost b0: L.Book,
                  ghost quotas: Quotas)
        returns (ok: bool)
      requires L.Inv(b0) && P.JobFor(j, b0) && U.Inv(j, s) && U.Final(j, s) && !s.rd.halted && !s.wk.firstErr
      requires L.Inv(Book()) && Book() == P.Landed(b0, s.cl)
      requires forall a :: a in U.Accounts(j.choice) ==> L.Healthy(b0, a)
      requires P.ChosenFrom(j.choice, quotas, NumChunks(|j.data|, j.chunkSize))
      modifies this`leaked, this`contents, drive, manifest
      ensures ok ==> Completed(manifest.State(), b0.db.nextFile, j.chunkSize, quotas)
      ensures ok ==> FileIs(manifest.State(), b0.db.nextFile,
                            FileRow(user, name, |j.data|, j.chunkSize, suite.sha256(j.data), j.key, Complete))
      ensures ok ==> L.Whole(manifest.State(), user, b0.db.nextFile)
      ensures L.Inv(Book()) && OthersSame(b0.db, manifest.State(), user)
      ensures L.Connected(b0) ==> L.Connected(Book())
      ensures RowsKept(b0.db, manifest.State(), user)
      ensures O.Settles(b0, Book(), j, s, name, stuck, writes, ok)
    {
      hide L.Inv, OthersSame, L.Connected, P.Waiting, NameTaken, U.Final;
      hide U.Inv, L.Whole, P.Follows, P.ChosenFrom, Completed;
      hide O.Settles, O.Put;
      CommitFacts(j, s);
      var row := FileRow(user, name, |j.data|, j.chunkSize, suite.sha256(Concat(s.rd.bufs)), j.key, Incomplete);
      ConnectedLanded(b0, s.cl);
      var id := RecordFile(row, j.data, writes.create);
      if id.None? {
        Abandon(j, s, name, stuck, writes, b0);
        ConnectedSame(b0, Book());
        return false;
      }
      var f := id.value;
      var ups := U.Collect(s.wk.results);
      CommitReady(b0, j, s, row);
      P.UploadsFollow(j, s);
      ok := CommitRows(f, ups, writes, b0, row, j.data, j.choice, quotas);
      O.CommitSettles(b0, Book(), j, s, name, stuck, writes, ok);
    }

    method CommitRows(f: FileId, ups: seq<U.Upl>, writes: O.Writes, ghost b0: L.Book, ghost row: FileRow,
                      ghost data: Bytes,
                      ghost choice: U.Choice, ghost quotas: Quotas) returns (ok: bool)
      requires L.Inv(Book()) && P.Waiting(Book(), f, ups, 0) && f == b0.db.nextFile && f !in b0.db.files
      requires b0.user == user && manifest.files == b0.db.files[f := row] && row.user == user
      requires row.status == Incomplete
      requires manifest.chunks == b0.db.chunks && contents == b0.contents[f := data] && row.chunkSize > 0
      requires |ups| == NumChunks(row.size, row.chunkSize) && !NameTaken(b0.db, user, row.name)
      requires OthersSame(b0.db, manifest.State(), user) && manifest.nextFile == f + 1
      requires P.Follows(P.UpPicks(ups), choice) && P.ChosenFrom(choice, quotas, |ups|)
      modifies this`leaked, manifest
      ensures L.Inv(Book()) && OthersSame(b0.db, manifest.State(), user)
      ensures old(L.Connected(Book())) ==> L.Connected(Book())
      ensures O.Put(b0, Book(), row.name, data)
      ensures var k := O.Cut(writes.row, |ups|);
        && leaked == old(leaked) - O.Locs(ups[..k]) && O.RowsUpTo(manifest.State(), user, f, ups, k)
        && (ok <==> k == |ups| && !writes.status)
      ensures ok ==> L.Whole(manifest.State(), user, f) && Completed(manifest.State(), f, row.chunkSize, quotas)
      ensures ok ==> FileIs(manifest.State(), f, row.(status := Complete))
      ensures RowsKept(b0.db, manifest.State(), user)
    {
      hide L.Inv, OthersSame, L.Connected, P.Waiting, NameTaken, L.Whole, P.Follows, P.ChosenFrom, P.Spread, O.RowsUpTo;
      ghost var mid := manifest.State();
      assert RowsKept(b0.db, mid, user);
      ok := RecordChunks(f, ups, writes.row);
      OthersSameTrans(b0.db, mid, manifest.State(), user);
      assert RowsKept(b0.db, manifest.State(), user);
      ghost var b := Book();
      WaitingRows(b, f, ups, O.Cut(writes.row, |ups|));
      if ok {
        WaitingWhole(b, f, ups);
        ok := MarkComplete(f, writes.status);
        WholeSame(b.db, manifest.State(), user, f);
        P.RowsSpread(b, manifest.State(), f, ups, choice, quotas);
        RowsSame(b.db, manifest.State(), user, f, ups, |ups|);
      }
    }

    /** PutStream. `run` is the state in which the workers ended, over every schedule and
        every failure `env` allows. It decides everything: the result, what is in the
        manifest, which objects stay without a row and which folders there are (Settles).
        Success adds exactly this file and leaves nothing behind; failure leaves the view
        alone or, if a manifest write failed after the file's, an incomplete file of that
        name; no other user's row changes. In a calm put of a free name for which the
        accounts have room, only a failing manifest write is in the way of success. */
    method PutStream(data: Bytes, name: string, env: PutEnv) returns (ok: bool, ghost run: Option<U.State>)
      requires Valid() && EnvOk(Book(), env, data)
      modifies this`leaked, this`contents, drive, manifest
      ensures Valid() && OthersSame(old(manifest.State()), manifest.State(), user)
      ensures run.None? <==> forall a :: !Answered(members, env.quotas, a)
      ensures run.None? ==> !ok && Book() == old(Book())
      ensures run.Some? ==> Ran(old(Book()), Book(), name, data, env, ChunkSize(), MaxParallel(), run.value, ok)
      ensures PutShows(old(Book()), Book(), name, data, env, ok)
      ensures ok ==> StoredAs(manifest.State(), old(manifest.nextFile), members, env.quotas,
                              FileRow(user, name, |data|, ChunkSize(), suite.sha256(data), env.key, Complete))
      ensures old(L.Connected(Book())) ==> L.Connected(Book())
      ensures env.calm && name !in old(View()) && Enough(members, env.quotas, |data|) ==>
        (ok <==> O.AllWritten(env.writes, NumChunks(|data|, ChunkSize())))
    {
      hide L.Inv, OthersSame, L.Connected, L.Clean, NameTaken, L.Abs;
      hide L.Whole, Room, O.Put, O.Unwritten, RowsKept, O.Settles;
      hide Lawful, EnvOk, Candidates, U.JobOk, P.JobFor, L.Viewable, NumChunks;
      hide Opening, Sane, L.MembersOk, L.Healthy, U.Accounts, Completed;
      hide PutShows, StoredAs, FileIs, Answered, Enough, Offers, FreeBytes;
      hide U.Inv, U.Final, Ran, P.ChosenFrom, O.AllWritten;
      ghost var b0 := Book();
      L.InvParts(b0);
      L.AbsTaken(b0, name);
      var c := ChunkSize();
      var quotas := Candidates(members, env.quotas);
      CandidatesAre(members, env.quotas);
      if Enough(members, env.quotas, |data|) {
        EnoughIsRoom(members, env.quotas, |data|);
      }
      var choice := ChoosePlaces(quotas, NumChunks(|data|, c));
      if choice.None? {
        NoRoom(quotas, |data|);
        OthersSameRefl(b0.db, user);
        NothingShown(b0, name, data, env);
        return false, None;
      }
      var j := U.Job(suite, env.key, data, env.avail, c, MaxParallel(), env.folderName, drive.stores, choice.value,
                     env.calm, env.lossy);
      JobReady(b0, env, data, j, quotas);
      ghost var s;
      ok, s := PutChunks(j, name, env.stuck, env.writes, quotas);
      run := Some(s);
      L.InvParts(Book());
      RanIt(b0, Book(), name, data, env, c, MaxParallel(), s, ok, choice.value);
      PutOutcome(b0, Book(), j, s, name, env, ok);
      if ok {
        PutPlaced(manifest.State(), b0.db.nextFile, members, env.quotas,
                  FileRow(user, name, |data|, c, suite.sha256(data), env.key, Complete));
      }
    }

    /** Upload, then either record or clean up. */
    method PutChunks(j: U.Job, name: string, stuck: set<nat>, writes: O.Writes, ghost quotas: Quotas)
        returns (ok: bool, ghost s: U.State)
      requires L.Inv(Book()) && U.JobOk(j) && P.JobFor(j, Book())
      requires forall a :: a in U.Accounts(j.choice) ==> L.Healthy(Book(), a)
      requires P.ChosenFrom(j.choice, quotas, NumChunks(|j.data|, j.chunkSize))
      modifies this`leaked, this`contents, drive, manifest
      ensures U.Inv(j, s) && U.Final(j, s) && O.Settles(old(Book()), Book(), j, s, name, stuck, writes, ok)
      ensures ok ==> Completed(manifest.State(), old(manifest.nextFile), j.chunkSize, quotas)
      ensures ok ==> FileIs(manifest.State(), old(manifest.nextFile),
                            FileRow(user, name, |j.data|, j.chunkSize, suite.sha256(j.data), j.key, Complete))
      ensures ok ==> L.Whole(manifest.State(), user, old(manifest.nextFile))
      ensures L.Inv(Book()) && OthersSame(old(manifest.State()), manifest.State(), user)
      ensures old(L.Connected(Book())) ==> L.Connected(Book())
      ensures RowsKept(old(manifest.State()), manifest.State(), user)
      ensures j.calm && Room(quotas, |j.data|) ==> !s.rd.halted && !s.wk.firstErr
    {
      hide L.Inv, OthersSame, L.Connected, U.Inv, U.Final, NameTaken, L.Whole, Room, U.JobOk, Completed, O.Settles;
      ghost var b0 := Book();
      OthersSameRefl(b0.db, user);
      var end := Land(j);
      s := end;
      CalmRoom(j, s, quotas);
      if end.rd.halted || end.wk.firstErr {
        Abandon(j, end, name, stuck, writes, b0);
        ConnectedSame(b0, Book());
        return false, s;
      }
      ok := Commit(j, end, name, stuck, writes, b0, quotas);
    }

    /** GetStream. It changes nothing; over every worker schedule and whatever the remote
        side delivers, it writes a front part of the bytes originally put, reports success
        only for all of them, and in quiet surroundings succeeds just when every chunk can
        be fetched. Hidden files are read like others. */
    method GetStream(name: string, env: G.GetEnv) returns (out: Bytes, ok: bool, ghost run: Option<D.State>)
      requires Valid()
      ensures G.Answers(Book(), name, env, out, ok)
      ensures run.Some? ==> G.Ran(Book(), name, MaxParallel(), env, run.value, out, ok)
      ensures run.None? ==> !ok && out == [] && G.NothingListed(Book(), name)
    {
      hide L.Inv, Lawful, L.Viewable, G.Answers, NameTaken, L.DenseOk, L.RowsOk, D.Inv, D.Final, D.Settled, D.Ok;
      hide G.Ran, G.NothingListed;
      ghost var b := Book();
      L.InvReads(b);
      var found := manifest.FindFile(user, name);
      if found.None? {
        G.NoAnswer(b, name, env);
        return [], false, None;
      }
      var f := found.value;
      var idxs := manifest.ListChunks(user, f);
      assert G.Listing(b.db, user, f, idxs);
      if idxs == [] {
        G.EmptyAnswer(b, name, env, f, idxs);
        return [], false, None;
      }
      G.ListedInOrder(b.db, user, f, idxs);
      var now := L.Book(user, suite, manifest.State(), drive.stores, members, map[], {}, {});
      var p := G.PlanOf(now, f, idxs, MaxParallel(), env);
      var s := D.RunDownloads(p);
      out, ok, run := s.wr.out, D.Ok(p, s, manifest.files[f].hash), Some(s);
      G.WorkerAnswer(b, name, env, f, idxs, p, s);
    }

    /** One remote delete on behalf of a purge; what is already gone counts as deleted. */
    method TearOne(ghost f: FileId, a: AccountId, id: RemoteId, deletesFail: bool, ghost b0: L.Book, ghost k: Slot)
        returns (ok: bool)
      requires R.Tearing(b0, Book(), f) && OwnChunk(manifest.State(), user, k) && k.file == f && R.Usable(b0, k)
      requires manifest.chunks[k].account == Some(a)
      requires id == manifest.chunks[k].remote || id == manifest.chunks[k].folder
      modifies this`torn, drive
      ensures R.Tearing(b0, Book(), f) && R.Shrunk(old(drive.stores), drive.stores)
      ensures !ok ==> deletesFail
      ensures ok && id == manifest.chunks[k].remote ==> R.ObjectGone(b0, drive.stores, k)
      ensures ok && id == manifest.chunks[k].folder ==> R.FolderGone(b0, drive.stores, k)
    {
      hide L.Inv, R.Spared, R.Shrunk, R.ObjectGone, R.FolderGone;
      ghost var c := Book();
      L.InvParts(c);
      R.JustGone(b0, c.stores, k, id);
      R.TearMore(b0, c, f, a, id, k, true);
      R.TearMore(b0, c, f, a, id, k, false);
      var fails: bool := *;
      var acts: bool := *;
      var res := drive.Delete(a, id, deletesFail && fails, acts);
      torn := torn + {f};
      ok := res != Broken;
      assert Book() == L.Tearing(c, f, a, id) || Book() == c.(torn := c.torn + {f});
    }

    /** The first loop of a purge: the chunk objects, remembering each account's folder. */
    method PurgeObjects(f: FileId, idxs: seq<nat>, deletesFail: bool, ghost b0: L.Book)
        returns (ok: bool, folders: map<AccountId, RemoteId>, ghost via: map<AccountId, Slot>)
      requires b0 == Book() && L.Inv(b0) && G.Listing(b0.db, user, f, idxs)
      modifies this`torn, drive
      ensures R.Tearing(b0, Book(), f)
      ensures !ok ==> deletesFail
      ensures ok ==> R.FolderMap(b0, f, folders, via)
      ensures ok ==> forall i :: 0 <= i < |idxs| ==> R.ObjectCleared(b0, drive.stores, folders, Slot(f, idxs[i]))
    {
      hide L.Inv, R.Tearing, R.Shrunk, R.FolderGone, R.ObjectGone, R.ObjectCleared, G.Listing;
      R.StartTearing(b0, f);
      folders, via := map[], map[];
      for i := 0 to |idxs|
        invariant R.Tearing(b0, Book(), f) && R.FolderMap(b0, f, folders, via)
        invariant forall j :: 0 <= j < i ==> R.ObjectCleared(b0, drive.stores, folders, Slot(f, idxs[j]))
      {
        var k := Slot(f, idxs[i]);
        G.ListedRow(b0.db, user, f, idxs, idxs[i]);
        var row := manifest.chunks[k];
        ghost var was, had := drive.stores, folders;
        if row.account.Some? && row.account.value in members && members[row.account.value].healthy {
          var gone := TearOne(f, row.account.value, row.remote, deletesFail, b0, k);
          if !gone {
            return false, folders, via;
          }
          folders := folders[row.account.value := row.folder];
          via := via[row.account.value := k];
        } else {
          R.ShrunkSame(was);
        }
        R.ObjectDone(b0, drive.stores, folders, k);
        forall j | 0 <= j < i ensures R.ObjectCleared(b0, drive.stores, folders, Slot(f, idxs[j])) {
          R.ObjectStays(b0, was, drive.stores, had, folders, Slot(f, idxs[j]));
        }
      }
      ok := true;
    }

    /** The second loop of a purge: the folders, in any order. */
    method PurgeFolders(f: FileId, folders: map<AccountId, RemoteId>, deletesFail: bool, ghost b0: L.Book,
                        ghost via: map<AccountId, Slot>) returns (ok: bool)
      requires R.Tearing(b0, Book(), f) && R.FolderMap(b0, f, folders, via)
      requires b0.db == manifest.State() && b0.user == user
      modifies this`torn, drive
      ensures R.Tearing(b0, Book(), f) && R.Shrunk(old(drive.stores), drive.stores)
      ensures !ok ==> deletesFail
      ensures ok ==> forall a :: a in via ==> via[a] in b0.db.chunks && R.FolderGone(b0, drive.stores, via[a])
    {
      hide L.Inv, R.Tearing, R.FolderGone, R.ObjectGone, R.Shrunk;
      R.ShrunkSame(drive.stores);
      var rest := folders.Keys;
      while rest != {}
        invariant R.Tearing(b0, Book(), f) && R.Shrunk(old(drive.stores), drive.stores) && rest <= folders.Keys
        invariant forall a :: a in folders && a !in rest ==> R.FolderGone(b0, drive.stores, via[a])
        decreases |rest|
      {
        var a :| a in rest;
        ghost var was := drive.stores;
        assert R.Via(b0, f, a, folders[a], via[a]);
        ok := TearOne(f, a, folders[a], deletesFail, b0, via[a]);
        R.ShrunkTrans(old(drive.stores), was, drive.stores);
        if !ok {
          return;
        }
        rest := rest - {a};
        forall x | x in folders && x !in rest && x != a ensures R.FolderGone(b0, drive.stores, via[x]) {
          assert R.Via(b0, f, x, folders[x], via[x]);
          R.StaysGone(b0, was, drive.stores, via[x]);
        }
      }
      ok := true;
    }

    /** The remote half of a purge. */
    method PurgeRemote(f: FileId, deletesFail: bool, ghost b0: L.Book) returns (ok: bool)
      requires b0 == Book() && L.Inv(b0)
      modifies this`torn, drive
      ensures R.Tearing(b0, Book(), f)
      ensures !ok ==> deletesFail
      ensures ok ==> R.Vacated(b0, drive.stores, f)
    {
      hide L.Inv, R.Tearing, R.Shrunk, R.ObjectCleared, R.FolderMap, R.FolderGone, R.Vacated, Ascends;
      var idxs := manifest.ListChunks(user, f);
      var done, folders, via := PurgeObjects(f, idxs, deletesFail, b0);
      if !done {
        return false;
      }
      ghost var mid := drive.stores;
      ok := PurgeFolders(f, folders, deletesFail, b0, via);
      if ok {
        R.BothLoops(b0, mid, drive.stores, f, idxs, folders, via);
      }
    }

    /** Remove. A soft removal hides the name. A purge first deletes every chunk object and
        folder of the file on its usable accounts, and only then the rows; interrupted, it
        leaves the manifest as it was and can be repeated. Accounts out of reach are not
        touched, so exactly the file's objects there stay. No other file loses an object. */
    method Remove(name: string, purge: bool, deletesFail: bool, writesFail: bool) returns (ok: bool)
      requires Valid()
      modifies this`torn, drive, manifest
      ensures Valid() && OthersSame(old(manifest.State()), manifest.State(), user)
      ensures ok ==> name in old(View())
      ensures ok && !purge ==> View() == old(View())[name := old(View())[name].(hidden := true)]
      ensures ok && purge ==> View() == old(View()) - {name}
      ensures ok ==>
        manifest.State() == Exec(old(manifest.State()), user, if purge then PurgeFile(name) else HideFile(name))
      ensures ok && purge ==>
        exists f :: IsFile(old(manifest.State()), user, name, f) && R.PurgedBy(old(Book()), Book(), f)
      ensures R.OutOfReachSame(old(Book()), drive.stores)
      ensures !ok ==> manifest.State() == old(manifest.State()) && View() == old(View())
      ensures forall f :: IsFile(old(manifest.State()), user, name, f) ==>
        R.Spared(old(Book()), drive.stores, f) && torn <= old(torn) + {f}
      ensures !purge || name !in old(View()) ==> drive.stores == old(drive.stores) && torn == old(torn)
      ensures !deletesFail && !writesFail ==> (ok <==> name in old(View()))
      ensures old(L.Connected(Book())) ==> L.Connected(Book())
      ensures (ok || (!deletesFail && !writesFail)) && old(L.Clean(Book())) ==> L.Clean(Book())
    {
      hide L.Inv, OthersSame, L.Connected, L.Clean, L.Viewable, R.Vacated;
      hide R.Spared, R.Shrunk, NameTaken, Lawful, L.Abs, Sane;
      hide R.PurgedBy, R.OutOfReachSame, R.Fewer, L.MembersOk, UniqueNames;
      ghost var b0 := Book();
      L.InvParts(b0);
      OthersSameRefl(b0.db, user);
      L.AbsTaken(b0, name);
      R.NothingTouched(b0);
      var found := manifest.FindFile(user, name);
      if found.None? {
        L.NotTaken(b0.db, user, name);
        return false;
      }
      ghost var f := found.value;
      L.UniqueFile(b0.db, user, name, f);
      R.StartTearing(b0, f);
      if purge {
        ok := PurgeRemote(found.value, deletesFail, b0);
        if !ok {
          R.TornView(b0, Book(), f);
          return;
        }
        ok := DropRows(name, true, writesFail, b0, f);
      } else {
        ok := DropRows(name, false, writesFail, b0, f);
      }
    }

    /** The manifest half of Remove. */
    method DropRows(name: string, purge: bool, writesFail: bool, ghost b0: L.Book, ghost f: FileId) returns (ok: bool)
      requires L.Inv(b0) && R.Tearing(b0, Book(), f) && IsFile(b0.db, user, name, f) && b0.db == manifest.State()
      requires if purge then R.Vacated(b0, drive.stores, f) else b0 == Book()
      modifies this`torn, manifest
      ensures L.Inv(Book()) && OthersSame(b0.db, manifest.State(), user)
      ensures !ok ==> writesFail && Book() == old(Book()) && L.Abs(Book()) == L.Abs(b0)
      ensures name in L.Abs(b0)
      ensures ok && !purge ==> L.Abs(Book()) == L.Abs(b0)[name := L.Abs(b0)[name].(hidden := true)] && torn == b0.torn
      ensures ok ==> manifest.State() == Exec(b0.db, user, if purge then PurgeFile(name) else HideFile(name))
      ensures ok && purge ==> L.Abs(Book()) == L.Abs(b0) - {name} && torn == b0.torn - {f}
      ensures ok && purge ==> R.PurgedBy(b0, Book(), f)
      ensures L.Connected(b0) ==> L.Connected(Book())
      ensures ok && L.Clean(b0) ==> L.Clean(Book())
    {
      hide L.Inv, OthersSame, L.Connected, L.Clean, L.Viewable, R.Vacated, R.Spared, R.Shrunk, NameTaken, L.Abs, Sane;
      hide R.PurgedBy, R.OutOfReachSame, R.Fewer, L.MembersOk, UniqueNames;
      ghost var c := Book();
      L.InvParts(b0);
      var op := if purge then PurgeFile(name) else HideFile(name);
      OthersSameRefl(b0.db, user);
      OthersSameStep(b0.db, b0.db, user, op);
      var fails: bool := *;
      ok := manifest.DeleteVirtualFile(user, name, purge, writesFail && fails);
      L.AbsTaken(b0, name);
      assert NameTaken(b0.db, user, name) by {
        L.IsTaken(b0.db, user, name, f);
      }
      if !ok {
        R.TornView(b0, c, f);
      } else {
        if purge {
          torn := torn - {f};
          R.PurgedView(b0, c, f, name);
          R.PurgeDone(b0, c, f, name);
          assert Book() == L.Purged(c, f, name);
        } else {
          R.HiddenView(b0, f, name);
          assert Book() == b0.(db := Exec(b0.db, user, HideFile(name)));
        }
        L.InvParts(Book());
        R.FewerKeeps(b0, Book());
      }
    }

    /** RemoveAccount. Refused exactly when the account's stored token cannot be decrypted,
        or live files still have chunks there and `force` is not set; never does it change
        the view, and unforced it is invisible to every read of a live file. */
    method RemoveAccount(tag: string, unreadable: bool, force: bool, writesFail: bool) returns (r: V.Removal)
      requires Valid()
      modifies this`members, manifest
      ensures Valid() && View() == old(View()) && OthersSame(old(manifest.State()), manifest.State(), user)
      ensures r == V.NoSuchAccount <==> !LabelTaken(old(manifest.State()), user, tag)
      ensures r == V.Unreadable <==> unreadable && LabelTaken(old(manifest.State()), user, tag)
      ensures r == V.InUse <==> !unreadable && !force && InUse(old(manifest.State()), user, tag)
      ensures r == V.Failed ==> writesFail
      ensures r == V.Removed ==> !unreadable && (force || !InUse(old(manifest.State()), user, tag))
      ensures !writesFail && !unreadable && (force || !InUse(old(manifest.State()), user, tag)) ==>
        r == V.Removed || r == V.NoSuchAccount
      ensures r != V.Removed ==> Book() == old(Book())
      ensures r == V.Removed ==>
        exists a :: a in old(members) && old(members)[a].tag == tag && Book() == L.Disconnected(old(Book()), a, tag)
      ensures !force ==> V.ReadsKept(old(Book()), Book())
      ensures !force && old(L.Connected(Book())) ==> L.Connected(Book())
      ensures old(L.Clean(Book())) ==> L.Clean(Book())
    {
      hide L.Inv, OthersSame, L.Connected, L.Clean, L.Viewable, NameTaken;
      hide L.Abs, V.ReadsKept, Lawful, InUse, LiveOn, UniqueNames, ChunkRefs;
      ghost var b0 := Book();
      L.InvParts(b0);
      V.ReadsSame(b0);
      OthersSameRefl(b0.db, user);
      OthersSameStep(b0.db, b0.db, user, DropAccount(tag));
      InUseTaken(b0.db, user, tag);
      var found := manifest.FindAccount(user, tag);
      if found.None? {
        return V.NoSuchAccount;
      }
      if unreadable {
        return V.Unreadable;
      }
      var a := found.value;
      assert forall x :: x in b0.db.accounts && b0.db.accounts[x] == AccountRow(user, tag) ==> x == a;
      var n := manifest.CountActiveChunks(user, a);
      InUseAt(b0.db, user, tag, a);
      if !force && n > 0 {
        return V.InUse;
      }
      var fails: bool := *;
      var done := manifest.RemoveAccount(user, tag, writesFail && fails);
      if !done {
        return V.Failed;
      }
      members := members - {a};
      r := V.Removed;
      assert Book() == L.Disconnected(b0, a, tag);
      assert OwnAccount(b0.db, user, a);
      V.RemovalKeepsView(b0, a, tag);
      if n == 0 {
        V.IdleRemovalKeepsReads(b0, a, tag);
        V.IdleRemovalKeepsConnected(b0, a, tag);
      }
    }

    /** ListWithAccounts, for the names `pick` accepts, in the database's order of names. */
    method ListWithAccounts(pick: string -> bool, leq: NameOrder) returns (out: seq<V.Listed>)
      requires Valid() && TotalOrder(leq)
      ensures V.Lists(Book(), pick, leq, out)
    {
      hide L.Inv, Lawful, V.Describes, V.Lists, L.Viewable;
      hide TotalOrder, L.MembersOk, ChunkRefs, UniqueLabels, UniqueNames;
      ghost var b := Book();
      L.InvParts(b);
      var r := manifest.ListVirtualFiles(user, pick, leq);
      out := [];
      for i := 0 to |r|
        invariant |out| == i && forall k :: 0 <= k < i ==> V.EntryOf(b, r[k], out[k])
      {
        assert r[i] in r;
        var info := DescribeFile(r[i]);
        out := out + [V.Listed(manifest.files[r[i]].name, info)];
      }
      V.ListedAll(b, pick, leq, r, out);
    }

    /** ListAccountStatus, given the answers to its quota queries. For an account row that
        has no entry in the pool it reads a field of nothing and crashes; it does so if and
        only if there is such a row, and so never on a pool in order. */
    method ListAccountStatus(quotas: Quotas) returns (out: map<AccountId, V.Status>, crashed: bool)
      ensures crashed <==> V.Dangling(manifest.State(), user, members)
      ensures !crashed ==> forall a :: a in out <==> OwnAccount(manifest.State(), user, a)
      ensures !crashed ==> forall a :: a in out ==> V.StatusRight(members, quotas, a, out[a])
      ensures Valid() ==> !crashed
    {
      hide L.Inv, Lawful;
      if Valid() {
        L.InvParts(Book());
        V.NeverDangling(Book());
      }
      var rest := set a | a in manifest.accounts && manifest.accounts[a].user == user;
      out, crashed := map[], false;
      while rest != {}
        invariant forall a :: a in rest ==> OwnAccount(manifest.State(), user, a)
        invariant forall a :: OwnAccount(manifest.State(), user, a) <==> a in rest || a in out
        invariant forall a :: a in out ==> V.StatusRight(members, quotas, a, out[a])
        decreases |rest|
      {
        var a :| a in rest;
        if a !in members {
          return out, true;
        }
        V.StatusIsRight(members, quotas, a);
        out := out[a := V.StatusOf(members, quotas, a)];
        rest := rest - {a};
      }
    }

    method DescribeFile(f: FileId) returns (info: V.FileInfo)
      requires Valid() && OwnFile(manifest.State(), user, f)
      ensures V.Describes(Book(), f, info)
    {
      hide L.Inv, Lawful, V.Describes, L.DenseOk, L.RowsOk;
      ghost var b := Book();
      L.InvReads(b);
      L.InvParts(b);
      var idxs := manifest.ListChunks(user, f);
      G.ListedInOrder(b.db, user, f, idxs);
      var labels, degraded := V.Describe(members, V.KeysOf(manifest.chunks, f, idxs));
      info := V.FileInfo(manifest.files[f].size, labels, degraded);
      V.DegradedKeys(b, f, idxs);
      V.Described(b, f, idxs, info);
    }

  }

  lemma ConnectedRecord(b: L.Book, k: Slot, row: ChunkRow)
    requires L.Recordable(b, k, row) && Accepts(b.db, b.user, AddChunk(k, row)) && Sane(b.db)
    ensures L.Connected(b) ==> L.Connected(L.Recorded(b, k, row))
  {
    var c := L.Recorded(b, k, row);
    if L.Connected(b) {
      forall l | OwnChunk(c.db, c.user, l) && l.file in c.db.files && c.db.files[l.file].status != Deleted
        ensures c.db.chunks[l].account.Some? && c.db.chunks[l].account.value in c.members
      {
        assert l != k ==> OwnChunk(b.db, b.user, l);
      }
    }
  }

  lemma ConnectedCreate(b: L.Book, row: FileRow, data: Bytes)
    requires Sane(b.db)
    ensures L.Connected(b) ==> L.Connected(L.Created(b, row, data))
  {
    var c := L.Created(b, row, data);
    assert b.db.nextFile !in b.db.files;
    if L.Connected(b) {
      forall l | OwnChunk(c.db, c.user, l) && l.file in c.db.files && c.db.files[l.file].status != Deleted
        ensures c.db.chunks[l].account.Some? && c.db.chunks[l].account.value in c.members
      {
        assert OwnChunk(b.db, b.user, l) && ChunkRef(b.db, l);
      }
    }
  }

  lemma ConnectedComplete(b: L.Book, f: FileId)
    requires f in b.db.files && b.db.files[f].status != Deleted
    ensures L.Connected(b) ==> L.Connected(L.Restatused(b, {f}, Complete))
  {
    var c := L.Restatused(b, {f}, Complete);
    if L.Connected(b) {
      forall l | OwnChunk(c.db, c.user, l) && l.file in c.db.files && c.db.files[l.file].status != Deleted
        ensures c.db.chunks[l].account.Some? && c.db.chunks[l].account.value in c.members
      {
        assert OwnChunk(b.db, b.user, l);
      }
    }
  }

  lemma WholeSame(x: Db, y: Db, user: UserId, f: FileId)
    requires x.chunks == y.chunks && f in x.files && f in y.files
    requires y.files[f].size == x.files[f].size && y.files[f].chunkSize == x.files[f].chunkSize
    ensures L.Whole(x, user, f) ==> L.Whole(y, user, f)
    ensures RowsKept(x, y, user)
  {
    assert forall k :: OwnChunk(x, user, k) == OwnChunk(y, user, k);
  }

  lemma ConnectedSame(b: L.Book, c: L.Book)
    requires c.db == b.db && c.members == b.members && c.user == b.user
    ensures L.Connected(b) ==> L.Connected(c)
  {
  }

  lemma CommitFacts(j: U.Job, s: U.State)
    requires j.chunkSize > 0 && U.Inv(j, s) && U.Final(j, s) && !s.rd.halted && !s.wk.firstErr
    ensures Concat(s.rd.bufs) == j.data && |U.Collect(s.wk.results)| == NumChunks(|j.data|, j.chunkSize)
    ensures U.Remotes(j, s.cl)
  {
    U.ErrorFreeIsComplete(j, s);
    ChunksConcat(j.data, j.chunkSize);
  }

  lemma ConnectedLanded(b: L.Book, c: U.Cloud)
    ensures L.Connected(b) ==> L.Connected(P.Landed(b, c))
  {
  }

  lemma OthersSameTrans(x: Db, y: Db, z: Db, user: UserId)
    requires OthersSame(x, y, user) && OthersSame(y, z, user)
    ensures OthersSame(x, z, user)
  {
    forall other | other != user ensures SameRows(x, z, other) {
      SameRowsTrans(x, y, z, other);
    }
  }

  lemma WaitingWhole(b: L.Book, f: FileId, ups: seq<U.Upl>)
    requires P.Waiting(b, f, ups, |ups|) && f in b.db.files && b.db.files[f].chunkSize > 0
    requires |ups| == NumChunks(b.db.files[f].size, b.db.files[f].chunkSize)
    ensures L.Whole(b.db, b.user, f) && OwnFile(b.db, b.user, f)
  {
  }

  lemma CommitReady(b: L.Book, j: U.Job, s: U.State, row: FileRow)
    requires L.Inv(b) && P.JobFor(j, b) && U.Inv(j, s) && U.Final(j, s) && !s.rd.halted && !s.wk.firstErr
    requires forall a :: a in U.Accounts(j.choice) ==> L.Healthy(b, a)
    requires row.chunkSize == j.chunkSize && row.key == j.key && !NameTaken(b.db, b.user, row.name)
    ensures P.Waiting(L.Created(P.Landed(b, s.cl), row, j.data), b.db.nextFile, U.Collect(s.wk.results), 0)
  {
    hide L.Inv, U.Final;
    var ups := U.Collect(s.wk.results);
    U.ErrorFreeIsComplete(j, s);
    P.UploadsCoherent(j, s, ups);
    forall k | 0 <= k < |ups| ensures P.Arrived(b, j, s.cl, k, ups[k]) {
      P.UploadArrived(b, j, s, k, ups[k]);
    }
    P.StartWaiting(b, j, s.cl, row, ups);
  }

  lemma NoRoom(quotas: Quotas, size: nat)
    requires quotas == map[]
    ensures !Room(quotas, size)
  {
  }

  lemma JobReady(b: L.Book, env: PutEnv, data: Bytes, j: U.Job, quotas: Quotas)
    requires Lawful(b.suite) && L.Inv(b) && EnvOk(b, env, data)
    requires j.suite == b.suite && j.data == data && j.avail == env.avail && j.chunkSize > 0 && j.par > 0
    requires j.folderName == env.folderName && j.start == b.stores && j.calm == env.calm && j.lossy == env.lossy
    requires quotas == Candidates(b.members, env.quotas)
    requires P.ChosenFrom(j.choice, quotas, NumChunks(|data|, j.chunkSize))
    ensures U.JobOk(j) && P.JobFor(j, b)
    ensures forall a :: a in U.Accounts(j.choice) ==> L.Healthy(b, a)
  {
    forall a | a in U.Accounts(j.choice) ensures a in quotas && a in b.stores {
    }
  }

  /** A calm upload with room neither stops early nor fails. */
  lemma CalmRoom(j: U.Job, s: U.State, quotas: Quotas)
    requires U.JobOk(j) && U.Inv(j, s) && U.Final(j, s)
    requires P.ChosenFrom(j.choice, quotas, NumChunks(|j.data|, j.chunkSize))
    ensures j.calm && Room(quotas, |j.data|) ==> !s.rd.halted && !s.wk.firstErr
  {
    if j.calm && Room(quotas, |j.data|) {
      if j.choice.Tracked? && j.choice.budget.unlimited == {} {
        assert j.choice.budget.available != map[] by {
          var q :| q in quotas;
          assert q !in j.choice.budget.unlimited;
          assert q in j.choice.budget.available;
        }
      }
      U.CalmUploadSucceeds(j, s);
    }
  }

  lemma WaitingRows(b: L.Book, f: FileId, ups: seq<U.Upl>, k: nat)
    requires P.Waiting(b, f, ups, k)
    ensures O.RowsUpTo(b.db, b.user, f, ups, k)
  {
    forall i: nat | i < k ensures b.db.chunks[Slot(f, i)] == P.RowOf(ups[i], b.user) {
      assert P.RowIs(b, Slot(f, i), ups[i]);
    }
  }

  lemma RowsSame(x: Db, y: Db, user: UserId, f: FileId, ups: seq<U.Upl>, k: nat)
    requires x.chunks == y.chunks && O.RowsUpTo(x, user, f, ups, k)
    ensures O.RowsUpTo(y, user, f, ups, k)
  {
  }

  lemma RanIt(b: L.Book, d: L.Book, name: string, data: Bytes, env: PutEnv, c: nat, par: nat, s: U.State, ok: bool,
              choice: U.Choice)
    requires c > 0 && RanBy(b, d, name, data, env, c, par, s, ok, choice)
    ensures Ran(b, d, name, data, env, c, par, s, ok)
  {
  }

  /** No upload takes effect unnoticed, no delete and no write fails. */
  predicate Harmless(env: PutEnv) {
    !env.lossy && env.stuck == {} && env.writes == O.WRITES_OK
  }

  /** What a put does to the view and, without harmful failures, to the rest: success adds
      exactly this file and leaves nothing behind; a failure leaves the view alone or, if a
      manifest write failed after that of the file, an incomplete file of that name. */
  ghost predicate PutShows(b: L.Book, d: L.Book, name: string, data: Bytes, env: PutEnv, ok: bool)
    requires L.Viewable(b) && L.Viewable(d)
  {
    var was, now := L.Abs(b), L.Abs(d);
    && (ok ==> name !in was && now == was[name := L.Entry(data, false)] && d.leaked == b.leaked)
    && (!ok && (name in was || !O.Partial(env.writes)) ==> d.db == b.db && now == was)
    && (!ok ==> now == was || now == was[name := L.Entry(data, false)])
    && (Harmless(env) ==> d.leaked == b.leaked && (L.Clean(b) ==> L.Clean(d)))
    && FilesKept(b.db, d.db) && (env.avail < |data| ==> !ok)
  }

  lemma NothingShown(b: L.Book, name: string, data: Bytes, env: PutEnv)
    requires L.Viewable(b)
    ensures PutShows(b, b, name, data, env, false)
  {
  }

  lemma PutOutcome(b: L.Book, d: L.Book, j: U.Job, s: U.State, name: string, env: PutEnv, ok: bool)
    requires O.Settles(b, d, j, s, name, env.stuck, env.writes, ok) && j.chunkSize > 0
    requires U.Inv(j, s) && U.Final(j, s) && j.lossy == env.lossy && j.avail == env.avail
    requires L.Viewable(b) && L.Viewable(d) && d.user == b.user && d.torn == b.torn && RowsKept(b.db, d.db, b.user)
    requires ok ==> L.Whole(d.db, d.user, b.db.nextFile)
    ensures PutShows(b, d, name, j.data, env, ok)
    ensures !s.rd.halted && !s.wk.firstErr && !NameTaken(b.db, b.user, name) ==>
      (ok <==> O.AllWritten(env.writes, U.N(j)))
  {
    hide O.Settles, U.Inv, U.Final, L.Viewable, L.Abs, L.Whole;
    hide O.Put, O.Unwritten, NameTaken, RowsKept, FilesKept, L.Clean;
    L.AbsTaken(b, name);
    SettledMeans(b, d, j, s, name, env, ok);
    PutViews(b, d, name, j.data);
    CleanAfter(b, d, name, j.data, ok);
    PutMeans(b, d, name, j.data);
    if env.avail < |j.data| {
      U.ShortReaderStops(j, s);
      StoppedFails(b, d, j, s, name, env, ok);
    }
  }

  lemma StoppedFails(b: L.Book, d: L.Book, j: U.Job, s: U.State, name: string, env: PutEnv, ok: bool)
    requires O.Settles(b, d, j, s, name, env.stuck, env.writes, ok) && s.rd.halted
    ensures !ok
  {
  }

  /** The effect of a put in terms of its result. */
  lemma SettledMeans(b: L.Book, d: L.Book, j: U.Job, s: U.State, name: string, env: PutEnv, ok: bool)
    requires O.Settles(b, d, j, s, name, env.stuck, env.writes, ok) && j.chunkSize > 0
    requires U.Inv(j, s) && U.Final(j, s) && j.lossy == env.lossy
    ensures ok ==> O.Put(b, d, name, j.data) && d.leaked == b.leaked && !NameTaken(b.db, b.user, name)
    ensures !ok ==> O.Unwritten(b, d) || O.Put(b, d, name, j.data)
    ensures !ok && (NameTaken(b.db, b.user, name) || !O.Partial(env.writes)) ==> O.Unwritten(b, d)
    ensures Harmless(env) ==> d.leaked == b.leaked
    ensures !s.rd.halted && !s.wk.firstErr && !NameTaken(b.db, b.user, name) ==>
      (ok <==> O.AllWritten(env.writes, U.N(j)))
  {
    hide NameTaken, O.Put, O.Unwritten, O.FoldersAre, O.RowsUpTo, U.Cutting, U.Placed, U.Outcomes, U.Accounted;
    O.LeftEmptyIff(s, NameTaken(b.db, b.user, name), env.stuck, env.writes);
    if !s.rd.halted && !s.wk.firstErr {
      U.ErrorFreeIsComplete(j, s);
    }
  }

  lemma PutViews(b: L.Book, c: L.Book, name: string, data: Bytes)
    requires L.Viewable(b) && L.Viewable(c) && c.user == b.user
    ensures O.Put(b, c, name, data) ==> L.Abs(c) == L.Abs(b)[name := L.Entry(data, false)]
    ensures O.Unwritten(b, c) ==> L.Abs(c) == L.Abs(b)
  {
    if O.Put(b, c, name, data) {
      L.AbsCreate(b, c, b.db.nextFile, name, data);
    }
    if O.Unwritten(b, c) {
      L.AbsSame(b, c);
    }
  }

  lemma PutMeans(b: L.Book, c: L.Book, name: string, data: Bytes)
    ensures O.Put(b, c, name, data) ==> IsFile(c.db, b.user, name, b.db.nextFile)
    ensures O.Unwritten(b, c) ==> c.db == b.db
    ensures O.Put(b, c, name, data) || O.Unwritten(b, c) ==> FilesKept(b.db, c.db)
  {
  }

  lemma CleanAfter(b: L.Book, c: L.Book, name: string, data: Bytes, ok: bool)
    requires c.user == b.user && RowsKept(b.db, c.db, b.user)
    requires ok ==> O.Put(b, c, name, data) && L.Whole(c.db, c.user, b.db.nextFile)
    ensures (ok || O.Unwritten(b, c)) && L.Clean(b) && c.leaked == b.leaked && c.torn == b.torn ==> L.Clean(c)
  {
    if (ok || O.Unwritten(b, c)) && L.Clean(b) && c.leaked == b.leaked && c.torn == b.torn {
      forall f | OwnFile(c.db, c.user, f) ensures L.Whole(c.db, c.user, f) {
        if f in b.db.files {
          assert OwnFile(b.db, b.user, f);
          L.WholeKept(b.db, c.db, b.user, f);
        }
      }
    }
  }
}
