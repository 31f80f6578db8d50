/** Runs that show what the failures of a put leave behind, and that the assumptions about
    the library algorithms can be met. */
module Witness {
  import opened Prelude
  import opened Ctr
  import opened Codec
  import opened Placement
  import opened Manifest
  import opened Drive
  import L = Ledger
  import U = Upload
  import P = Putting
  import O = Outcome
  import G = Getting
  import R = Removing
  import Session
  import opened Pool

  // ---- the assumptions can be met ----

  function Letters(x: Bytes): (r: string)
    ensures |r| == |x|
  {
    seq(|x|, i requires 0 <= i < |x| => (x[i] as int) as char)
  }

  lemma LettersApart(x: Bytes, y: Bytes)
    requires Letters(x) == Letters(y)
    ensures x == y
  {
    assert |x| == |Letters(x)| == |y|;
    forall i | 0 <= i < |x| ensures x[i] == y[i] {
      assert Letters(x)[i] == Letters(y)[i];
      SameByte(x[i], y[i]);
    }
  }

  /** A suite that meets every assumption. */
  function PlainSuite(): Suite {
    Suite((key: Bytes, b: Block) => b, (x: Bytes) => Letters(x), (x: Bytes) => None, (x: Bytes) => None)
  }

  lemma PlainSuiteLawful()
    ensures Lawful(PlainSuite())
  {
    var s := PlainSuite();
    forall x, y | s.sha256(x) == s.sha256(y) ensures x == y {
      LettersApart(x, y);
    }
  }

  // ---- a lost upload ----

  lemma RunFirst(j: U.Job, s: U.State, e: U.Event, es: seq<U.Event>)
    requires j.chunkSize > 0 && U.Enabled(j, s, e) && U.IsRun(j, U.Apply(j, s, e), es)
    ensures U.IsRun(j, s, [e] + es) && U.Reached(j, s, [e] + es) == U.Reached(j, U.Apply(j, s, e), es)
  {
    assert ([e] + es)[0] == e && ([e] + es)[1..] == es;
  }

  function OneByteJob(suite: Suite): U.Job {
    U.Job(suite, [], [1], 1, 1, 1, "folder", map["a" := Remote(map[], map[], {})], U.Single("a"), false, true)
  }

  /** The run ended with an error, no result, and an object at `l` nobody knows of. */
  ghost predicate Lost(j: U.Job, s: U.State, l: Loc)
    requires j.chunkSize > 0
  {
    U.Final(j, s) && s.wk.firstErr && U.Collect(s.wk.results) == [] && l in s.cl.lost
  }

  /** The worker of a one-chunk file, its folder at hand, stores the chunk, hears of a
      failure, records it and leaves. */
  lemma LoseChunk(j: U.Job, s: U.State, id: RemoteId, iv: Block) returns (es: seq<U.Event>)
    requires j.chunkSize > 0 && j.lossy && U.N(j) == 1 && s.rd.next == 1 && !s.rd.waiting
    requires s.wk.stage == [U.Foldered] && s.wk.results == [None] && U.CanStore(s, 0, id)
    ensures U.IsRun(j, s, es) && Lost(j, U.Reached(j, s, es), Loc(s.rd.accs[0], id))
  {
    var e4, e5, e6 := U.StoreLost(0, id, iv), U.Record(0), U.Release(0);
    var s4 := U.Apply(j, s, e4);
    var s5 := U.Apply(j, s4, e5);
    var s6 := U.Apply(j, s5, e6);
    assert s6.wk.results == [None] && s6.wk.results[1..] == [];
    RunFirst(j, s5, e6, []);
    RunFirst(j, s4, e5, [e6] + []);
    es := [e5] + ([e6] + []);
    RunFirst(j, s, e4, es);
    es := [e4] + es;
  }

  /** A run in which the only upload stores its object and is reported as failed: the put
      fails, cleanup has nothing to delete, and the object stays. */
  lemma LostUploadLeaks(suite: Suite) returns (es: seq<U.Event>)
    requires Lawful(suite)
    ensures var j := OneByteJob(suite);
      U.JobOk(j) && U.IsRun(j, U.Init(j), es) && Lost(j, U.Reached(j, U.Init(j), es), Loc("a", "object"))
  {
    hide Lawful, Lost;
    var j := OneByteJob(suite);
    var s0 := U.Init(j);
    assert U.N(j) == 1;
    TallySame(U.Weight, s0.wk.stage, U.Idle);
    var s1 := U.Apply(j, s0, U.Place("a"));
    var s2 := U.Apply(j, s1, U.Launch);
    assert s2.wk.stage == [U.Launched];
    var s3 := U.Apply(j, s2, U.Resolve(0, "place"));
    assert s3.wk.stage == [U.Foldered];
    es := LoseChunk(j, s3, "object", seq(16, i => 0));
    RunFirst(j, s2, U.Resolve(0, "place"), es);
    es := [U.Resolve(0, "place")] + es;
    RunFirst(j, s1, U.Launch, es);
    es := [U.Launch] + es;
    RunFirst(j, s0, U.Place("a"), es);
    es := [U.Place("a")] + es;
  }

  // ---- failing deletes and manifest writes ----

  /** A calm put whose uploads all succeed. */
  ghost predicate Smooth(b: L.Book, data: Bytes, env: PutEnv) {
    env.calm && EnvOk(b, env, data) && Enough(b.members, env.quotas, |data|)
  }

  lemma SmoothRun(b: L.Book, d: L.Book, name: string, data: Bytes, env: PutEnv, c: nat, par: nat, s: U.State, ok: bool)
      returns (j: U.Job)
    requires Lawful(b.suite) && L.Inv(b) && Smooth(b, data, env) && par > 0
    requires Ran(b, d, name, data, env, c, par, s, ok)
    ensures j.chunkSize == c > 0 && j.data == data && j.folderName == env.folderName && j.start == b.stores
    ensures U.Inv(j, s) && U.Final(j, s) && !s.rd.halted && !s.wk.firstErr
    ensures O.Settles(b, d, j, s, name, env.stuck, env.writes, ok)
  {
    hide L.Inv, U.Inv, U.Final, Lawful, O.Settles, Room;
    EnoughIsRoom(b.members, env.quotas, |data|);
    var choice :| RanBy(b, d, name, data, env, c, par, s, ok, choice);
    j := JobOf(b, env, data, c, par, choice);
    JobReady(b, env, data, j, Candidates(b.members, env.quotas));
    CalmRoom(j, s, Candidates(b.members, env.quotas));
  }

  /** If the row of chunk `k` cannot be written, the put fails with the rows 0 to k-1 of an
      incomplete file, and the objects of all other chunks stay without a row. */
  method FailingRowLeaves(pool: Pool, data: Bytes, name: string, env: PutEnv, k: nat) returns (ghost left: set<Loc>)
    requires pool.Valid() && Smooth(pool.Book(), data, env) && name !in pool.View()
    requires k < NumChunks(|data|, pool.ChunkSize()) && env.writes == O.Writes(false, Some(k), false)
    modifies pool, pool.manifest, pool.drive
    ensures pool.Valid() && name in pool.View()
    ensures left !! old(pool.leaked) && pool.leaked == old(pool.leaked) + left
    ensures |left| == NumChunks(|data|, pool.ChunkSize()) - k && forall l :: l in left ==> L.Live(pool.Book(), l)
    ensures forall i: nat :: Slot(old(pool.manifest.nextFile), i) in pool.manifest.chunks <==> i < k
  {
    hide L.Inv, Lawful, L.Abs, L.Viewable, OthersSame, L.Connected, L.Clean, NameTaken, Completed, Smooth, EnvOk;
    ghost var b := pool.Book();
    L.InvParts(b);
    L.AbsTaken(b, name);
    SmoothOk(b, data, env);
    var ok, run := pool.PutStream(data, name, env);
    ghost var s := run.value;
    ghost var j := SmoothRun(b, pool.Book(), name, data, env, pool.ChunkSize(), pool.MaxParallel(), s, ok);
    left := UnrecordedLeft(b, pool.Book(), j, s, name, env.stuck, env.writes, ok, k);
    L.InvParts(pool.Book());
    PutViews(b, pool.Book(), name, data);
  }

  lemma SmoothOk(b: L.Book, data: Bytes, env: PutEnv)
    requires Smooth(b, data, env)
    ensures EnvOk(b, env, data) && exists a :: Answered(b.members, env.quotas, a)
  {
  }

  lemma UnrecordedLeft(b: L.Book, d: L.Book, j: U.Job, s: U.State, name: string, stuck: set<nat>, writes: O.Writes,
                       ok: bool, k: nat)
      returns (left: set<Loc>)
    requires j.chunkSize > 0 && U.Inv(j, s) && U.Final(j, s) && !s.rd.halted && !s.wk.firstErr
    requires O.Settles(b, d, j, s, name, stuck, writes, ok) && !NameTaken(b.db, b.user, name)
    requires k < U.N(j) && writes == O.Writes(false, Some(k), false)
    ensures left !! b.leaked && d.leaked == b.leaked + left && |left| == U.N(j) - k
    ensures forall l :: l in left ==> L.Live(d, l)
    ensures O.Put(b, d, name, j.data) && forall i: nat :: Slot(b.db.nextFile, i) in d.db.chunks <==> i < k
  {
    hide NameTaken, O.Put, O.FoldersAre, O.NewOn, O.Sweepable, U.Inv, U.Final, U.UplOk, Chunks;
    var ups := U.Collect(s.wk.results);
    U.ErrorFreeIsComplete(j, s);
    O.UploadsSweepable(b, j, s);
    left := O.Locs(ups[k..]);
    O.LocsCount(ups[k..]);
  }

  /** If the file row cannot be written, the put fails and cleanup takes all its objects,
      except those whose delete fails; its folders stay in any case. */
  method FailingCreateLeaves(pool: Pool, data: Bytes, name: string, env: PutEnv)
      returns (ghost a: AccountId, ghost folder: RemoteId, ghost kept: Loc)
    requires pool.Valid() && Smooth(pool.Book(), data, env) && env.writes.create
    modifies pool, pool.manifest, pool.drive
    ensures pool.Valid() && pool.View() == old(pool.View())
    ensures env.stuck == {} ==> pool.leaked == old(pool.leaked)
    ensures 0 in env.stuck ==> kept in pool.leaked && kept !in old(pool.leaked)
    ensures a in pool.drive.stores && a in old(pool.drive.stores)
    ensures folder in pool.drive.stores[a].folders && folder !in old(pool.drive.stores[a].folders)
  {
    hide L.Inv, Lawful, L.Abs, L.Viewable, OthersSame, L.Connected, L.Clean, NameTaken, Completed, Smooth, EnvOk;
    ghost var b := pool.Book();
    L.InvParts(b);
    SmoothOk(b, data, env);
    var ok, run := pool.PutStream(data, name, env);
    ghost var s := run.value;
    ghost var j := SmoothRun(b, pool.Book(), name, data, env, pool.ChunkSize(), pool.MaxParallel(), s, ok);
    a, folder, kept := AbandonedLeft(b, pool.Book(), j, s, name, env.stuck, env.writes, ok);
  }

  lemma AbandonedLeft(b: L.Book, d: L.Book, j: U.Job, s: U.State, name: string, stuck: set<nat>, writes: O.Writes,
                      ok: bool)
      returns (a: AccountId, folder: RemoteId, kept: Loc)
    requires j.chunkSize > 0 && U.Inv(j, s) && U.Final(j, s) && !s.rd.halted && !s.wk.firstErr && j.start == b.stores
    requires O.Settles(b, d, j, s, name, stuck, writes, ok) && writes.create && L.Inv(b)
    ensures stuck == {} ==> d.leaked == b.leaked
    ensures 0 in stuck ==> kept in d.leaked && kept !in b.leaked
    ensures a in d.stores && a in b.stores && folder in d.stores[a].folders && folder !in b.stores[a].folders
  {
    hide NameTaken, L.Inv, U.Cutting, U.Placed, U.Accounted, O.FoldersAre;
    hide U.Outcomes, U.Remotes, U.Losses, U.Slots, U.UplOk;
    var ups := U.Collect(s.wk.results);
    U.ErrorFreeIsComplete(j, s);
    ChunksShape(j.data, j.chunkSize);
    O.LeftEmptyIff(s, NameTaken(b.db, b.user, name), stuck, writes);
    if s.cl.lost != map[] {
      U.LossIsError(j, s);
    }
    kept := P.LocOf(ups[0]);
    if 0 in stuck {
      assert P.LocOf(ups[0]) in O.Stuck(ups, stuck);
    }
    a, folder := FolderStays(b, d, j, s, ups[0]);
  }

  lemma FolderStays(b: L.Book, d: L.Book, j: U.Job, s: U.State, u: U.Upl) returns (a: AccountId, folder: RemoteId)
    requires U.Remotes(j, s.cl) && U.UplOk(j, s.rd, s.cl, 0, u) && j.start == b.stores && L.Inv(b)
    requires O.FoldersAre(b.stores, d.stores, s.cl.made, j.folderName)
    ensures a in d.stores && a in b.stores && folder in d.stores[a].folders && folder !in b.stores[a].folders
  {
    hide L.Inv;
    L.InvParts(b);
    a := u.account;
    assert U.StoreOk(j, s.cl, a);
    folder := s.cl.made[a];
    assert RemoteOk(b.stores[a]);
  }

  function OneAccountDb(): Db {
    Db(map["a" := AccountRow("u", "one")], map[], map[], 0)
  }

  function OneAccountBook(): L.Book {
    L.Book("u", PlainSuite(), OneAccountDb(), map["a" := Remote(map[], map[], {})],
           map["a" := L.Member("one", true)], map[], {}, {})
  }

  lemma OneAccountOk()
    ensures Lawful(PlainSuite()) && L.Inv(OneAccountBook()) && L.Abs(OneAccountBook()) == map[]
    ensures Reopened(OneAccountBook(), {}) == OneAccountBook() && L.Connected(OneAccountBook())
  {
    PlainSuiteLawful();
    var db, b := OneAccountDb(), OneAccountBook();
    assert Loaded(db, "u", {}) == b.members;
    NewUserInv("u", PlainSuite(), db, b.stores, {});
    ReopenSame(b, {});
  }

  /** A new user with one account and nothing stored. */
  method OneAccountPool() returns (pool: Pool)
    ensures pool.Valid() && fresh(pool) && fresh(pool.manifest) && fresh(pool.drive)
    ensures pool.Book() == OneAccountBook() && pool.View() == map[] && pool.ChunkSize() == 1
    ensures L.Connected(pool.Book())
  {
    hide L.Inv, Lawful, L.Abs, L.Viewable, Reopened, AsBefore, PlainSuite, L.Connected;
    OneAccountOk();
    var manifest := new Manifest(OneAccountDb());
    var drive := new Drive(map["a" := Remote(map[], map[], {})]);
    pool := new Pool.Open(manifest, drive, "u", PlainSuite(), 1, 1, {}, OneAccountBook());
  }

  /** A calm put of `size` bytes on that account. */
  function SmallPut(size: nat, writes: O.Writes): PutEnv {
    PutEnv(map["a" := Quota(9, 0, false)], size, [], "f", true, false, {}, writes)
  }

  lemma SmallIsSmooth(data: Bytes, writes: O.Writes)
    requires |data| <= 9
    ensures Smooth(OneAccountBook(), data, SmallPut(|data|, writes))
    ensures Enough(OneAccountBook().members, SmallPut(|data|, writes).quotas, |data|)
  {
    var b, env := OneAccountBook(), SmallPut(|data|, writes);
    var free := FreeBytes(b.members, env.quotas);
    assert free == map["a" := 9];
    TotalSplit(free, "a");
    assert free - {"a"} == map[];
    assert Answered(b.members, env.quotas, "a");
  }

  /** From nothing: one account, one file of one byte, and a row that cannot be written. */
  method OneByteExample() returns (pool: Pool)
    ensures pool.Valid() && "x" in pool.View() && |pool.leaked| == 1
    ensures forall l :: l in pool.leaked ==> L.Live(pool.Book(), l)
  {
    hide L.Inv, Lawful, L.Abs, L.Viewable, Smooth, Enough, L.Connected;
    pool := OneAccountPool();
    var writes := O.Writes(false, Some(0), false);
    SmallIsSmooth([1], writes);
    ghost var left := FailingRowLeaves(pool, [1], "x", SmallPut(1, writes), 0);
    assert pool.leaked == left;
  }

  // ---- one small file ----

  /** Without failing writes it is stored whole. */
  method SmallFilePool(data: Bytes) returns (pool: Pool, ghost f: FileId)
    requires |data| <= 1
    ensures pool.Valid() && fresh(pool) && fresh(pool.manifest) && fresh(pool.drive)
    ensures pool.View() == map["x" := L.Entry(data, false)] && pool.leaked == {} && pool.torn == {}
    ensures pool.members == map["a" := L.Member("one", true)] && pool.user == "u" && pool.suite == PlainSuite()
    ensures L.Connected(pool.Book()) && Session.Sound(pool.Book(), "x", f)
  {
    hide L.Inv, Lawful, L.Abs, L.Viewable, Smooth, Enough, Ran;
    hide L.Connected, OthersSame, L.Clean, PlainSuite, FilesKept, P.Spread;
    hide Candidates;
    pool := OneAccountPool();
    ghost var env := SmallPut(|data|, O.WRITES_OK);
    SmallIsSmooth(data, O.WRITES_OK);
    SmoothOk(pool.Book(), data, env);
    var ok, run := pool.PutStream(data, "x", SmallPut(|data|, O.WRITES_OK));
    f := 0;
  }

  /** The empty file: put without trouble, it reads back, but not through a reader that
      reports its end together with the sixteen bytes stored for it. */
  method EmptyFileExample() returns (lazy: bool, eager: bool)
    ensures lazy && !eager
  {
    hide L.Inv, Lawful, L.Abs, L.Viewable, L.Connected, Session.Sound, G.CanFetch, PlainSuite;
    var pool, f := SmallFilePool([]);
    ghost var b := pool.Book();
    L.InvParts(b);
    Session.SoundFetchable(b, "x", f, [], {});
    Session.SoundFetchable(b, "x", f, [], {0});
    var out;
    ghost var run;
    out, lazy, run := pool.GetStream("x", G.GetEnv(false, false, false, false, {}));
    out, eager, run := pool.GetStream("x", G.GetEnv(false, false, false, false, {0}));
  }

  // ---- a purge while an account is out of reach ----

  /** The row of the only chunk there is names the object at `l`. */
  ghost predicate OneRow(b: L.Book, f: FileId, l: Loc) {
    && IsFile(b.db, b.user, "x", f) && (forall k :: OwnChunk(b.db, b.user, k) ==> k == Slot(f, 0))
    && R.Holds(b, b.stores, f, Slot(f, 0)) && L.Points(b.db, Slot(f, 0), l) && l.account == "a"
  }

  lemma OnlyRow(b: L.Book, f: FileId) returns (l: Loc)
    requires L.Inv(b) && L.Connected(b) && b.torn == {} && Session.Sound(b, "x", f)
    requires L.Abs(b) == map["x" := L.Entry([1], false)] && b.members == map["a" := L.Member("one", true)]
    ensures OneRow(b, f, l)
  {
    hide L.PairsOk, L.OrphansOk, L.LeakedOk, L.Abs;
    assert OwnFile(b.db, b.user, f);
    L.AbsAt(b, f);
    L.UniqueFile(b.db, b.user, "x", f);
    L.CompleteShape(b, f);
    OneChunk(b.db.files[f].chunkSize);
    forall k | OwnChunk(b.db, b.user, k) ensures k == Slot(f, 0) {
      assert ChunkRef(b.db, k);
      assert OwnFile(b.db, b.user, k.file);
      L.AbsAt(b, k.file);
      assert Slot(f, k.idx) in b.db.chunks;
    }
    assert ChunkRef(b.db, Slot(f, 0));
    assert OwnChunk(b.db, b.user, Slot(f, 0)) && L.RowOk(b, Slot(f, 0));
    var row := b.db.chunks[Slot(f, 0)];
    l := Loc(row.account.value, row.remote);
  }

  lemma OneChunk(c: nat)
    requires c > 0
    ensures NumChunks(1, c) == 1
  {
    DivIs(1 + c - 1, c, 1);
  }

  /** With the account out of reach, then back, exactly that object comes to light. */
  lemma OneSkipped(b: L.Book, away: L.Book, d: L.Book, f: FileId, l: Loc)
    requires L.Inv(b) && b.leaked == {} && OneRow(b, f, l) && b.members == map["a" := L.Member("one", true)]
    requires away == Reopened(b, {"a"}) && L.Inv(away) && L.Inv(d) && R.PurgedBy(away, d, f)
    ensures Reopened(d, {}).leaked == {l} && L.Live(Reopened(d, {}), l)
  {
    hide L.Inv, Revealed, Loaded, R.PurgedBy, OneRow;
    OutOfReach(b);
    SameAccounts(b);
    PurgeReveals(away, d, f, {});
    LoadedSame(away, d, f, {});
    SkippedIsOne(b, away, f, l);
    SkippedLives(b, away, d, f, l);
  }

  lemma SkippedIsOne(b: L.Book, away: L.Book, f: FileId, l: Loc)
    requires OneRow(b, f, l) && b.members == map["a" := L.Member("one", true)]
    requires away == b.(members := map["a" := L.Member("one", false)])
    ensures Skipped(away, f, b.members) == {l}
  {
    assert SkippedBy(away, f, b.members, Slot(f, 0));
    assert l == Loc(l.account, l.id);
  }

  lemma SkippedLives(b: L.Book, away: L.Book, d: L.Book, f: FileId, l: Loc)
    requires OneRow(b, f, l) && away == b.(members := map["a" := L.Member("one", false)]) && R.PurgedBy(away, d, f)
    ensures l.account in d.stores && l.id in d.stores[l.account].objects && d.leaked == b.leaked
    ensures d.user == b.user && d.members == away.members
  {
    var k := Slot(f, 0);
    assert R.Holds(away, away.stores, f, k) && !R.Usable(away, k);
    assert R.Holds(away, d.stores, f, k);
  }

  lemma OutOfReach(b: L.Book)
    requires L.Inv(b) && b.leaked == {} && b.members == map["a" := L.Member("one", true)]
    ensures Reopened(b, {"a"}) == b.(members := map["a" := L.Member("one", false)])
    ensures Revealed(Reopened(b, {"a"}), Loaded(b.db, b.user, {})) == {}
  {
    var away := map["a" := L.Member("one", false)];
    LoadedAway(b);
    assert Revealed(b, away) == {};
    assert Reopened(b, {"a"}).leaked == {};
    SameAccounts(b);
    ReopenSame(b, {});
    assert Reopened(b, {}).leaked == b.leaked + Revealed(b, b.members);
    assert Revealed(b, b.members) == {} by {
      NoneKnown(b);
    }
    SameRevealed(b, away, b.members);
  }

  lemma SameAccounts(b: L.Book)
    requires L.Inv(b) && b.members == map["a" := L.Member("one", true)]
    ensures Loaded(b.db, b.user, {}) == b.members
  {
    hide L.Inv;
    L.InvParts(b);
    assert forall a :: a in b.members <==> OwnAccount(b.db, b.user, a);
  }

  lemma LoadedAway(b: L.Book)
    requires L.Inv(b) && b.members == map["a" := L.Member("one", true)]
    ensures Loaded(b.db, b.user, {"a"}) == map["a" := L.Member("one", false)]
  {
    hide L.Inv, L.FilesOk, ChunkRefs, UniqueNames, UniqueLabels, RemoteOk;
    L.InvParts(b);
    assert forall a :: a in b.members <==> OwnAccount(b.db, b.user, a);
  }

  lemma NoneKnown(b: L.Book)
    requires b.leaked == {} && b.leaked + Revealed(b, b.members) == b.leaked
    ensures Revealed(b, b.members) == {}
  {
  }

  lemma SameRevealed(b: L.Book, x: map<AccountId, L.Member>, y: map<AccountId, L.Member>)
    ensures Revealed(b.(members := x), y) == Revealed(b, y)
  {
  }

  /** Put, account away, purge, account back: the purge succeeds, the name is gone, and the
      object it could not reach is left without a row. */
  method SkippedPurge() returns (pool: Pool, ghost l: Loc)
    ensures pool.Valid() && pool.View() == map[] && pool.leaked == {l} && L.Live(pool.Book(), l)
  {
    hide L.Inv, Lawful, L.Abs, L.Viewable, L.Connected, Session.Sound;
    hide OneRow, PlainSuite, Reopened, R.PurgedBy, NameTaken;
    PlainSuiteLawful();
    var first, f := SmallFilePool([1]);
    ghost var b := first.Book();
    l := OnlyRow(b, f);
    var second := new Pool.Open(first.manifest, first.drive, "u", PlainSuite(), 1, 1, {"a"}, b);
    ghost var away := second.Book();
    var ok := second.Remove("x", true, false, false);
    ghost var d := second.Book();
    SameFile(b, away, d, f, l);
    pool := new Pool.Open(second.manifest, second.drive, "u", PlainSuite(), 1, 1, {}, d);
    OneSkipped(b, away, d, f, l);
  }

  lemma SameFile(b: L.Book, away: L.Book, d: L.Book, f: FileId, l: Loc)
    requires L.Inv(away) && away == Reopened(b, {"a"}) && OneRow(b, f, l)
    requires exists g :: IsFile(away.db, away.user, "x", g) && R.PurgedBy(away, d, g)
    ensures R.PurgedBy(away, d, f)
  {
    hide R.PurgedBy;
    L.InvParts(away);
    L.UniqueFile(away.db, away.user, "x", f);
  }
}
