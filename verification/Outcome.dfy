/** What a put leaves behind (the end of PutStream and cleanupChunks, drivepool/pool.go):
    exactly which objects no row will ever name, and which folders stay. */
module Outcome {
  import opened Prelude
  import opened Codec
  import opened Manifest
  import opened Drive
  import L = Ledger
  import U = Upload
  import P = Putting

  /** Which manifest write of a put fails: that of the file, that of the given chunk, the
      final status. */
  datatype Writes = Writes(create: bool, row: Option<nat>, status: bool)

  const WRITES_OK := Writes(false, None, false)

  /** A write fails after that of the file. */
  predicate Partial(w: Writes) {
    !w.create && (w.row.Some? || w.status)
  }

  function Locs(ups: seq<U.Upl>): set<Loc> {
    set k | 0 <= k < |ups| :: P.LocOf(ups[k])
  }

  lemma LocsStep(ups: seq<U.Upl>, i: nat)
    requires i < |ups|
    ensures Locs(ups[..i + 1]) == Locs(ups[..i]) + {P.LocOf(ups[i])}
  {
    var x, y := Locs(ups[..i]), Locs(ups[..i + 1]);
    forall l | l in y ensures l in x + {P.LocOf(ups[i])} {
      var k :| 0 <= k < |ups[..i + 1]| && P.LocOf(ups[..i + 1][k]) == l;
      if k < i {
        assert ups[..i][k] == ups[k];
      }
    }
    forall l | l in x ensures l in y {
      var k :| 0 <= k < |ups[..i]| && P.LocOf(ups[..i][k]) == l;
      assert ups[..i + 1][k] == ups[k];
    }
    assert ups[..i + 1][i] == ups[i];
  }

  ghost predicate Distinct(ups: seq<U.Upl>) {
    forall k, l :: 0 <= k < l < |ups| ==> P.LocOf(ups[k]) != P.LocOf(ups[l])
  }

  lemma LocsSplit(ups: seq<U.Upl>, i: nat)
    requires i <= |ups| && Distinct(ups)
    ensures Locs(ups) - Locs(ups[..i]) == Locs(ups[i..])
  {
    forall l | l in Locs(ups) - Locs(ups[..i]) ensures l in Locs(ups[i..]) {
      var k :| 0 <= k < |ups| && P.LocOf(ups[k]) == l;
      assert P.LocOf(ups[i..][k - i]) == l;
    }
    forall l | l in Locs(ups[i..]) ensures l in Locs(ups) && l !in Locs(ups[..i]) {
      var k :| 0 <= k < |ups[i..]| && P.LocOf(ups[i..][k]) == l;
      assert P.LocOf(ups[i + k]) == l;
      forall m | 0 <= m < i ensures P.LocOf(ups[..i][m]) != l {
        assert P.LocOf(ups[m]) != P.LocOf(ups[i + k]);
      }
    }
  }

  // ---- cleanup ----

  /** cleanupChunks reaches this object, and its delete takes effect. */
  predicate Deletes(members: map<AccountId, L.Member>, u: U.Upl, stuck: set<nat>) {
    u.account in members && members[u.account].healthy && u.idx !in stuck
  }

  function Gone(members: map<AccountId, L.Member>, ups: seq<U.Upl>, stuck: set<nat>): set<Loc> {
    set k | 0 <= k < |ups| && Deletes(members, ups[k], stuck) :: P.LocOf(ups[k])
  }

  /** The objects whose delete has no effect. */
  function Stuck(ups: seq<U.Upl>, stuck: set<nat>): set<Loc> {
    set k | 0 <= k < |ups| && ups[k].idx in stuck :: P.LocOf(ups[k])
  }

  ghost predicate NoneStuck(ups: seq<U.Upl>, stuck: set<nat>) {
    forall k :: 0 <= k < |ups| ==> ups[k].idx !in stuck
  }

  lemma GoneStep(members: map<AccountId, L.Member>, ups: seq<U.Upl>, stuck: set<nat>, i: nat)
    requires i < |ups|
    ensures Gone(members, ups[..i + 1], stuck) ==
      Gone(members, ups[..i], stuck) + if Deletes(members, ups[i], stuck) then {P.LocOf(ups[i])} else {}
  {
    var x, y := Gone(members, ups[..i], stuck), Gone(members, ups[..i + 1], stuck);
    forall l | l in y && l !in x ensures l == P.LocOf(ups[i]) && Deletes(members, ups[i], stuck) {
      var k :| 0 <= k < |ups[..i + 1]| && Deletes(members, ups[..i + 1][k], stuck) && P.LocOf(ups[..i + 1][k]) == l;
    }
    forall l | l in x ensures l in y {
      var k :| 0 <= k < |ups[..i]| && Deletes(members, ups[..i][k], stuck) && P.LocOf(ups[..i][k]) == l;
      assert ups[..i + 1][k] == ups[k];
    }
    assert ups[..i + 1][i] == ups[i];
  }

  /** Outside `locs` every object is as it was, and so is every folder. */
  ghost predicate Untouched(s: Stores, t: Stores, locs: set<Loc>) {
    t.Keys == s.Keys && forall a :: a in s ==> AccountUntouched(s[a], t[a], a, locs)
  }

  ghost predicate AccountUntouched(r: Remote, q: Remote, a: AccountId, locs: set<Loc>) {
    && q.folders == r.folders && q.used == r.used
    && forall id :: Loc(a, id) !in locs ==>
         (id in r.objects <==> id in q.objects) && (id in r.objects ==> q.objects[id] == r.objects[id])
  }

  lemma UntouchedStep(s: Stores, t: Stores, locs: set<Loc>, l: Loc)
    requires Untouched(s, t, locs) && AllGone(t, locs) && l.account in t && l.id !in t[l.account].folders
    ensures Untouched(s, t[l.account := Without(t[l.account], l.id)], locs + {l})
    ensures AllGone(t[l.account := Without(t[l.account], l.id)], locs + {l})
  {
    var u := t[l.account := Without(t[l.account], l.id)];
    forall a | a in s ensures AccountUntouched(s[a], u[a], a, locs + {l}) {
      assert AccountUntouched(s[a], t[a], a, locs);
    }
  }

  ghost predicate AllGone(t: Stores, locs: set<Loc>) {
    forall l :: l in locs ==> l.account in t && l.id !in t[l.account].objects
  }

  /** Objects that can be swept one after the other. */
  ghost predicate Sweepable(b: L.Book, ups: seq<U.Upl>, from: nat) {
    && (forall k :: from <= k < |ups| ==> SweepOne(b, ups[k]))
    && (forall k, l :: from <= k < l < |ups| ==> P.LocOf(ups[k]) != P.LocOf(ups[l]))
  }

  ghost predicate SweepOne(b: L.Book, u: U.Upl) {
    P.LocOf(u) in b.leaked && u.account in b.stores && u.remote !in b.stores[u.account].folders
  }

  lemma SweepNext(b: L.Book, ups: seq<U.Upl>, i: nat, forget: bool)
    requires i < |ups| && Sweepable(b, ups, i)
    ensures Sweepable(L.Swept(b, P.LocOf(ups[i]), forget), ups, i + 1)
  {
    var c := L.Swept(b, P.LocOf(ups[i]), forget);
    forall k | i + 1 <= k < |ups| ensures SweepOne(c, ups[k]) {
      assert SweepOne(b, ups[k]);
    }
  }

  lemma SweepSkip(b: L.Book, ups: seq<U.Upl>, i: nat)
    requires i < |ups| && Sweepable(b, ups, i)
    ensures Sweepable(b, ups, i + 1)
  {
  }

  /** What the workers counted can be swept, and is exactly what they stored. */
  lemma UploadsSweepable(b: L.Book, j: U.Job, s: U.State)
    requires j.chunkSize > 0 && U.Inv(j, s) && U.Final(j, s)
    ensures Sweepable(P.Landed(b, s.cl), U.Collect(s.wk.results), 0)
    ensures Locs(U.Collect(s.wk.results)) == s.cl.mine.Keys && Distinct(U.Collect(s.wk.results))
  {
    hide U.Inv, U.Final, U.UplOk, SweepOne, P.Landed;
    var ups := U.Collect(s.wk.results);
    U.UploadedInOrder(j, s);
    assert U.Remotes(j, s.cl) by {
      HasRemotes(j, s);
    }
    forall k | 0 <= k < |ups| ensures SweepOne(P.Landed(b, s.cl), ups[k]) && P.LocOf(ups[k]) in s.cl.mine {
      UploadSweepable(b, j, s, ups[k].idx, ups[k]);
    }
    forall k, l | 0 <= k < l < |ups| ensures P.LocOf(ups[k]) != P.LocOf(ups[l]) {
      UploadsApart(j, s, ups[k], ups[l]);
    }
    LocsAreMine(s.cl, ups);
  }

  lemma HasRemotes(j: U.Job, s: U.State)
    requires j.chunkSize > 0 && U.Inv(j, s)
    ensures U.Remotes(j, s.cl)
  {
  }

  lemma UploadsApart(j: U.Job, s: U.State, u: U.Upl, v: U.Upl)
    requires U.UplOk(j, s.rd, s.cl, u.idx, u) && U.UplOk(j, s.rd, s.cl, v.idx, v) && u.idx != v.idx
    ensures P.LocOf(u) != P.LocOf(v)
  {
  }

  lemma LocsAreMine(c: U.Cloud, ups: seq<U.Upl>)
    requires forall k :: 0 <= k < |ups| ==> P.LocOf(ups[k]) in c.mine
    requires forall m :: m in c.mine ==> exists u :: u in ups && Loc(u.account, u.remote) == m
    ensures Locs(ups) == c.mine.Keys
  {
    forall m | m in c.mine ensures m in Locs(ups) {
      var u :| u in ups && Loc(u.account, u.remote) == m;
      var k :| 0 <= k < |ups| && ups[k] == u;
      assert P.LocOf(ups[k]) == m;
    }
  }

  lemma UploadSweepable(b: L.Book, j: U.Job, s: U.State, i: nat, u: U.Upl)
    requires U.Remotes(j, s.cl) && U.UplOk(j, s.rd, s.cl, i, u)
    ensures SweepOne(P.Landed(b, s.cl), u) && P.LocOf(u) in s.cl.mine
  {
    assert U.StoreOk(j, s.cl, u.account);
  }

  lemma UploadsHealthy(b: L.Book, j: U.Job, s: U.State)
    requires j.chunkSize > 0 && U.Inv(j, s) && forall a :: a in U.Accounts(j.choice) ==> L.Healthy(b, a)
    ensures forall k :: 0 <= k < |U.Collect(s.wk.results)| ==> L.Healthy(b, U.Collect(s.wk.results)[k].account)
  {
    var ups := U.Collect(s.wk.results);
    forall k | 0 <= k < |ups| ensures L.Healthy(b, ups[k].account) {
      U.CollectedOk(j, s, k);
    }
  }

  /** Objects stored by this run were not known as leaked before. */
  lemma NewObjects(b: L.Book, j: U.Job, c: U.Cloud)
    requires L.Inv(b) && P.JobFor(j, b) && U.Remotes(j, c)
    ensures c.mine.Keys !! b.leaked && c.lost.Keys !! b.leaked && c.mine.Keys !! c.lost.Keys
  {
    forall l | l in c.mine || l in c.lost ensures l !in b.leaked {
      assert U.LocOk(j, c, l);
    }
  }

  /** After cleanup exactly the lost objects and the stuck ones are left. */
  lemma CleanedLeak(b: L.Book, c: U.Cloud, ups: seq<U.Upl>, stuck: set<nat>)
    requires Locs(ups) == c.mine.Keys && Distinct(ups)
    requires c.mine.Keys !! b.leaked && c.lost.Keys !! b.leaked && c.mine.Keys !! c.lost.Keys
    requires forall k :: 0 <= k < |ups| ==> L.Healthy(b, ups[k].account)
    ensures b.leaked + P.Extra(c) - Gone(b.members, ups, stuck) == b.leaked + c.lost.Keys + Stuck(ups, stuck)
    ensures (c.lost.Keys + Stuck(ups, stuck)) !! b.leaked
    ensures Gone(b.members, ups, stuck) == c.mine.Keys - Stuck(ups, stuck)
  {
    var gone, kept := Gone(b.members, ups, stuck), Stuck(ups, stuck);
    forall l | l in Locs(ups) ensures l in gone <==> l !in kept {
      var k :| 0 <= k < |ups| && P.LocOf(ups[k]) == l;
      OneOrOther(b, ups, stuck, k);
    }
    forall l | l in gone || l in kept ensures l in Locs(ups) {
    }
  }

  lemma OneOrOther(b: L.Book, ups: seq<U.Upl>, stuck: set<nat>, k: nat)
    requires k < |ups| && Distinct(ups) && L.Healthy(b, ups[k].account)
    ensures P.LocOf(ups[k]) in Gone(b.members, ups, stuck) <==> ups[k].idx !in stuck
    ensures P.LocOf(ups[k]) in Stuck(ups, stuck) <==> ups[k].idx in stuck
  {
    var l := P.LocOf(ups[k]);
    assert forall m :: 0 <= m < |ups| && P.LocOf(ups[m]) == l ==> m == k;
    if ups[k].idx !in stuck {
      assert Deletes(b.members, ups[k], stuck);
    }
  }

  // ---- the whole outcome ----

  /** How many rows are written before the failing one. */
  function Cut(row: Option<nat>, n: nat): (k: nat)
    ensures k <= n && (k < n <==> row == Some(k) && row.value < n)
  {
    if row.Some? && row.value < n then row.value else n
  }

  /** None of the writes for `n` chunks fails. */
  predicate AllWritten(w: Writes, n: nat) {
    !w.create && !w.status && Cut(w.row, n) == n
  }

  /** The put reaches the manifest. */
  ghost predicate Committed(s: U.State, taken: bool, writes: Writes) {
    !s.rd.halted && !s.wk.firstErr && !taken && !writes.create
  }

  /** The objects a put leaves without a row: if it never reached the manifest, those of
      lost uploads and those whose cleanup had no effect; otherwise those whose row was not
      written because a row before them or their own failed. */
  ghost function Left(s: U.State, committed: bool, stuck: set<nat>, writes: Writes): set<Loc> {
    var ups := U.Collect(s.wk.results);
    if committed then Locs(ups[Cut(writes.row, |ups|)..]) else s.cl.lost.Keys + Stuck(ups, stuck)
  }

  /** An object under an id nobody had before, on an account the put could choose. */
  ghost predicate NewOn(b: L.Book, j: U.Job, l: Loc) {
    l.account in U.Accounts(j.choice) && l.account in b.stores && l.id !in b.stores[l.account].used
  }

  /** It is there now, and was not before. */
  ghost predicate Appeared(b: L.Book, c: L.Book, l: Loc) {
    L.Live(c, l) && !L.Live(b, l)
  }

  /** The folders are those from before and the one folder per account the put made. */
  ghost predicate FoldersAre(was: Stores, now: Stores, made: map<AccountId, RemoteId>, name: string) {
    now.Keys == was.Keys &&
    forall a :: a in was ==> now[a].folders == if a in made then was[a].folders[made[a] := name] else was[a].folders
  }

  /** File `f` has the rows of the first `k` uploads, and no others. */
  ghost predicate RowsUpTo(db: Db, user: UserId, f: FileId, ups: seq<U.Upl>, k: nat) {
    && k <= |ups| && (forall i: nat :: Slot(f, i) in db.chunks <==> i < k)
    && (forall i: nat :: i < k ==> db.chunks[Slot(f, i)] == P.RowOf(ups[i], user))
  }

  /** The put left no trace in the manifest. */
  ghost predicate Unwritten(b: L.Book, c: L.Book) {
    c.db == b.db && c.contents == b.contents
  }

  /** The put left a file called `name` with contents `data`. */
  ghost predicate Put(b: L.Book, c: L.Book, name: string, data: Bytes) {
    var f := b.db.nextFile;
    && !NameTaken(b.db, b.user, name) && f !in b.db.files
    && IsFile(c.db, b.user, name, f) && c.db.files == b.db.files[f := c.db.files[f]]
    && c.db.files[f].status != Deleted && c.contents == b.contents[f := data] && c.db.nextFile == f + 1
  }

  /** From the final state of the workers to the whole effect of the put: what is in the
      manifest, which objects are left, which folders there are, and the result. */
  ghost predicate Settles(b: L.Book, c: L.Book, j: U.Job, s: U.State, name: string, stuck: set<nat>, writes: Writes,
                          ok: bool) {
    var ups := U.Collect(s.wk.results);
    var committed := Committed(s, NameTaken(b.db, b.user, name), writes);
    var k := Cut(writes.row, |ups|);
    && c.leaked == b.leaked + Left(s, committed, stuck, writes) && Left(s, committed, stuck, writes) !! b.leaked
    && (forall l :: l in Left(s, committed, stuck, writes) ==> Appeared(b, c, l))
    && (forall l :: Appeared(b, c, l) ==> NewOn(b, j, l))
    && FoldersAre(b.stores, c.stores, s.cl.made, j.folderName)
    && (!committed ==> !ok && Unwritten(b, c))
    && (committed ==> Put(b, c, name, j.data) && RowsUpTo(c.db, c.user, b.db.nextFile, ups, k))
    && (committed ==> (ok <==> k == |ups| && !writes.status))
  }

  lemma FoldersLanded(b: L.Book, j: U.Job, c: U.Cloud, t: Stores, locs: set<Loc>)
    requires j.start == b.stores && U.Remotes(j, c) && Untouched(c.stores, t, locs)
    ensures FoldersAre(b.stores, t, c.made, j.folderName)
  {
    forall a | a in b.stores
      ensures t[a].folders ==
        if a in c.made then b.stores[a].folders[c.made[a] := j.folderName] else b.stores[a].folders
    {
      assert U.StoreOk(j, c, a) && AccountUntouched(c.stores[a], t[a], a, locs);
    }
  }

  /** What the run stored appears, under new ids, on accounts it could choose. */
  lemma StoredIsNew(b: L.Book, j: U.Job, s: U.State, l: Loc)
    requires j.chunkSize > 0 && U.Inv(j, s) && j.start == b.stores && L.MembersOk(b)
    requires l in s.cl.mine || l in s.cl.lost
    ensures NewOn(b, j, l) && !L.Live(b, l)
  {
    hide U.Cutting, U.Control, U.Slots;
    assert U.LocOk(j, s.cl, l) && RemoteOk(b.stores[l.account]);
    if l in s.cl.lost {
      assert U.LostOk(s.rd, s.wk, s.cl, l);
    } else {
      assert U.MineOk(s.wk, s.cl, l);
      var i := s.cl.mine[l];
      assert U.UplOk(j, s.rd, s.cl, i, U.Outcome(s.wk, i).value);
    }
  }

  lemma AppearedIsNew(b: L.Book, c: L.Book, j: U.Job, s: U.State, locs: set<Loc>, l: Loc)
    requires j.chunkSize > 0 && U.Inv(j, s) && j.start == b.stores && L.MembersOk(b)
    requires Untouched(s.cl.stores, c.stores, locs) && AllGone(c.stores, locs) && Appeared(b, c, l)
    ensures NewOn(b, j, l)
  {
    hide U.Cutting, U.Control, U.Slots, U.Outcomes, U.Placed, U.Accounted, U.Losses;
    assert l == Loc(l.account, l.id);
    assert U.StoreOk(j, s.cl, l.account);
    assert AccountUntouched(s.cl.stores[l.account], c.stores[l.account], l.account, locs);
    StoredIsNew(b, j, s, l);
  }

  lemma UntouchedSame(s: Stores)
    ensures Untouched(s, s, {}) && AllGone(s, {})
  {
  }

  /** Lost objects survive the cleanup, and so do counted ones whose delete had no effect. */
  lemma KeptStay(j: U.Job, s: U.State, t: Stores, locs: set<Loc>, l: Loc)
    requires j.chunkSize > 0 && U.Inv(j, s) && U.Final(j, s) && Untouched(s.cl.stores, t, locs) && l !in locs
    requires l in s.cl.lost || l in Locs(U.Collect(s.wk.results))
    ensures l.account in t && l.id in t[l.account].objects
  {
    if l in s.cl.lost {
      assert U.LostOk(s.rd, s.wk, s.cl, l);
    } else {
      var ups := U.Collect(s.wk.results);
      U.UploadedInOrder(j, s);
      var k :| 0 <= k < |ups| && P.LocOf(ups[k]) == l;
      assert U.UplOk(j, s.rd, s.cl, ups[k].idx, ups[k]);
    }
    assert AccountUntouched(s.cl.stores[l.account], t[l.account], l.account, locs);
    assert l == Loc(l.account, l.id);
  }

  /** The put did not reach the manifest: what is left after cleanup. */
  lemma AbandonSettles(b: L.Book, c: L.Book, j: U.Job, s: U.State, name: string, stuck: set<nat>, writes: Writes)
    requires j.chunkSize > 0 && U.Inv(j, s) && U.Final(j, s) && P.JobFor(j, b) && L.MembersOk(b)
    requires !Committed(s, NameTaken(b.db, b.user, name), writes) && Unwritten(b, c)
    requires c.leaked == b.leaked + s.cl.lost.Keys + Stuck(U.Collect(s.wk.results), stuck)
    requires (s.cl.lost.Keys + Stuck(U.Collect(s.wk.results), stuck)) !! b.leaked
    requires s.cl.mine.Keys == Locs(U.Collect(s.wk.results)) && s.cl.mine.Keys !! s.cl.lost.Keys
    requires Untouched(s.cl.stores, c.stores, s.cl.mine.Keys - Stuck(U.Collect(s.wk.results), stuck))
    requires AllGone(c.stores, s.cl.mine.Keys - Stuck(U.Collect(s.wk.results), stuck))
    ensures Settles(b, c, j, s, name, stuck, writes, false)
  {
    hide U.Inv, U.Final, NameTaken, Untouched, AllGone, FoldersAre, L.MembersOk, Stuck, Locs, P.JobFor, NewOn, Appeared;
    var gone := s.cl.mine.Keys - Stuck(U.Collect(s.wk.results), stuck);
    AbandonObjects(b, c, j, s, stuck, gone);
    AbandonFolders(b, c, j, s, gone);
  }

  lemma AbandonFolders(b: L.Book, c: L.Book, j: U.Job, s: U.State, gone: set<Loc>)
    requires j.chunkSize > 0 && U.Inv(j, s) && P.JobFor(j, b) && Untouched(s.cl.stores, c.stores, gone)
    ensures FoldersAre(b.stores, c.stores, s.cl.made, j.folderName)
  {
    FoldersLanded(b, j, s.cl, c.stores, gone);
  }

  lemma AbandonObjects(b: L.Book, c: L.Book, j: U.Job, s: U.State, stuck: set<nat>, gone: set<Loc>)
    requires j.chunkSize > 0 && U.Inv(j, s) && U.Final(j, s) && P.JobFor(j, b) && L.MembersOk(b)
    requires s.cl.mine.Keys == Locs(U.Collect(s.wk.results)) && s.cl.mine.Keys !! s.cl.lost.Keys
    requires gone == s.cl.mine.Keys - Stuck(U.Collect(s.wk.results), stuck)
    requires Untouched(s.cl.stores, c.stores, gone) && AllGone(c.stores, gone)
    ensures forall l :: l in s.cl.lost.Keys + Stuck(U.Collect(s.wk.results), stuck) ==> Appeared(b, c, l)
    ensures forall l :: Appeared(b, c, l) ==> NewOn(b, j, l)
  {
    hide U.Inv, U.Final, Untouched, AllGone, L.MembersOk, Locs;
    StuckAmong(U.Collect(s.wk.results), stuck);
    forall l | l in s.cl.lost.Keys + Stuck(U.Collect(s.wk.results), stuck) ensures Appeared(b, c, l) {
      KeptStay(j, s, c.stores, gone, l);
      StoredIsNew(b, j, s, l);
    }
    forall l | Appeared(b, c, l) ensures NewOn(b, j, l) {
      AppearedIsNew(b, c, j, s, gone, l);
    }
  }

  lemma StuckAmong(ups: seq<U.Upl>, stuck: set<nat>)
    ensures Stuck(ups, stuck) <= Locs(ups)
  {
  }

  /** The rows that were not written leave their objects. */
  lemma CommitObjects(b: L.Book, c: L.Book, j: U.Job, s: U.State, k: nat)
    requires j.chunkSize > 0 && U.Inv(j, s) && U.Final(j, s) && P.JobFor(j, b) && L.MembersOk(b)
    requires s.cl.mine.Keys == Locs(U.Collect(s.wk.results)) && c.stores == s.cl.stores
    requires k <= |U.Collect(s.wk.results)|
    ensures forall l :: l in Locs(U.Collect(s.wk.results)[k..]) ==> Appeared(b, c, l)
    ensures forall l :: Appeared(b, c, l) ==> NewOn(b, j, l)
  {
    hide U.Inv, U.Final, Untouched, AllGone, L.MembersOk, Locs;
    var ups := U.Collect(s.wk.results);
    UntouchedSame(c.stores);
    SuffixAmong(ups, k);
    forall l | l in Locs(ups[k..]) ensures Appeared(b, c, l) {
      KeptStay(j, s, c.stores, {}, l);
      StoredIsNew(b, j, s, l);
    }
    forall l | Appeared(b, c, l) ensures NewOn(b, j, l) {
      AppearedIsNew(b, c, j, s, {}, l);
    }
  }

  lemma SuffixAmong(ups: seq<U.Upl>, k: nat)
    requires k <= |ups|
    ensures Locs(ups[k..]) <= Locs(ups)
  {
    forall l | l in Locs(ups[k..]) ensures l in Locs(ups) {
      var i :| 0 <= i < |ups[k..]| && P.LocOf(ups[k..][i]) == l;
      assert P.LocOf(ups[k + i]) == l;
    }
  }

  /** Without an error nothing was lost, and the left-overs are those without a row. */
  lemma CommitLeak(b: L.Book, j: U.Job, s: U.State, k: nat)
    requires j.chunkSize > 0 && U.Inv(j, s) && U.Final(j, s) && P.JobFor(j, b) && L.Inv(b) && !s.wk.firstErr
    requires k <= |U.Collect(s.wk.results)|
    ensures var ups := U.Collect(s.wk.results);
      && b.leaked + P.Extra(s.cl) - Locs(ups[..k]) == b.leaked + Locs(ups[k..]) && Locs(ups[k..]) !! b.leaked
      && s.cl.mine.Keys == Locs(ups)
  {
    hide L.Inv, U.Final, Distinct, Sweepable, U.Control, U.Cutting;
    hide U.Placed, U.Outcomes, U.Accounted, U.Losses, U.Slots;
    var ups := U.Collect(s.wk.results);
    UploadsSweepable(b, j, s);
    NewObjects(b, j, s.cl);
    LocsSplit(ups, k);
    assert s.cl.lost == map[] by {
      if s.cl.lost != map[] {
        U.LossIsError(j, s);
      }
    }
    LocsBack(b.leaked, Locs(ups), Locs(ups[..k]), ups, k);
  }

  /** The put reached the manifest: what is left if a row was not written. */
  lemma CommitSettles(b: L.Book, c: L.Book, j: U.Job, s: U.State, name: string, stuck: set<nat>, writes: Writes,
                      ok: bool)
    requires j.chunkSize > 0 && U.Inv(j, s) && U.Final(j, s) && P.JobFor(j, b) && L.Inv(b)
    requires Committed(s, NameTaken(b.db, b.user, name), writes) && c.stores == s.cl.stores
    requires var ups := U.Collect(s.wk.results); var k := Cut(writes.row, |ups|);
      && c.leaked == b.leaked + P.Extra(s.cl) - Locs(ups[..k])
      && Put(b, c, name, j.data) && RowsUpTo(c.db, c.user, b.db.nextFile, ups, k)
      && (ok <==> k == |ups| && !writes.status)
    ensures Settles(b, c, j, s, name, stuck, writes, ok)
  {
    hide L.Inv, U.Inv, U.Final, NameTaken, Put, RowsUpTo, Untouched;
    hide Appeared, NewOn, Locs, FoldersAre, P.Extra, P.JobFor;
    var k := Cut(writes.row, |U.Collect(s.wk.results)|);
    L.InvParts(b);
    CommitLeak(b, j, s, k);
    CommitObjects(b, c, j, s, k);
    CommitFolders(b, c, j, s);
  }

  lemma CommitFolders(b: L.Book, c: L.Book, j: U.Job, s: U.State)
    requires j.chunkSize > 0 && U.Inv(j, s) && P.JobFor(j, b) && c.stores == s.cl.stores
    ensures FoldersAre(b.stores, c.stores, s.cl.made, j.folderName)
  {
    UntouchedSame(s.cl.stores);
    FoldersLanded(b, j, s.cl, c.stores, {});
  }

  lemma LocsBack(leaked: set<Loc>, all: set<Loc>, done: set<Loc>, ups: seq<U.Upl>, k: nat)
    requires all !! leaked && k <= |ups| && all == Locs(ups) && done == Locs(ups[..k])
    requires all - done == Locs(ups[k..])
    ensures leaked + all - done == leaked + Locs(ups[k..]) && Locs(ups[k..]) !! leaked
  {
    forall l | l in done ensures l in all {
      var i :| 0 <= i < |ups[..k]| && P.LocOf(ups[..k][i]) == l;
      assert P.LocOf(ups[i]) == l;
    }
  }

  /** An object the put made that no row names. */
  ghost predicate Nameless(b: L.Book, c: L.Book, l: Loc) {
    Appeared(b, c, l) && !L.Claimed(c.db, c.user, l)
  }

  /** The objects that a put really leaves without a row are exactly the left-overs. */
  lemma LeftExactly(b: L.Book, c: L.Book, j: U.Job, s: U.State, name: string, stuck: set<nat>, writes: Writes,
                    ok: bool, l: Loc)
    requires Settles(b, c, j, s, name, stuck, writes, ok) && L.Inv(b) && L.Inv(c) && c.members == b.members
    requires forall a :: a in U.Accounts(j.choice) ==> L.Healthy(b, a)
    ensures Nameless(b, c, l) <==> l in Left(s, Committed(s, NameTaken(b.db, b.user, name), writes), stuck, writes)
  {
    hide L.RowsOk, L.FilesOk, L.DenseOk, L.PairsOk, L.MembersOk, Sane;
    hide FoldersAre, RowsUpTo, Put, Unwritten, NameTaken, Left;
    if Nameless(b, c, l) {
      assert NewOn(b, j, l);
    }
  }

  /** A put leaves no object without a row if and only if it reached the manifest and no
      row failed, or it did not, lost no upload and no delete of its cleanup was without
      effect. */
  lemma NothingLeftIff(b: L.Book, c: L.Book, j: U.Job, s: U.State, name: string, stuck: set<nat>, writes: Writes,
                       ok: bool)
    requires Settles(b, c, j, s, name, stuck, writes, ok) && L.Inv(b) && L.Inv(c) && c.members == b.members
    requires forall a :: a in U.Accounts(j.choice) ==> L.Healthy(b, a)
    ensures (forall l :: !Nameless(b, c, l)) <==> Spotless(s, NameTaken(b.db, b.user, name), stuck, writes)
  {
    hide L.Inv, Settles, Nameless, Spotless;
    var left := Left(s, Committed(s, NameTaken(b.db, b.user, name), writes), stuck, writes);
    forall l ensures Nameless(b, c, l) <==> l in left {
      LeftExactly(b, c, j, s, name, stuck, writes, ok, l);
    }
    LeftEmptyIff(s, NameTaken(b.db, b.user, name), stuck, writes);
  }

  ghost predicate Spotless(s: U.State, taken: bool, stuck: set<nat>, writes: Writes) {
    var ups := U.Collect(s.wk.results);
    if Committed(s, taken, writes) then writes.row.None? || writes.row.value >= |ups|
    else s.cl.lost == map[] && NoneStuck(ups, stuck)
  }

  lemma LeftEmptyIff(s: U.State, taken: bool, stuck: set<nat>, writes: Writes)
    ensures Left(s, Committed(s, taken, writes), stuck, writes) == {} <==> Spotless(s, taken, stuck, writes)
  {
    var ups := U.Collect(s.wk.results);
    if Committed(s, taken, writes) {
      SomeUnrecorded(ups, Cut(writes.row, |ups|));
    } else {
      SomeStuck(ups, stuck);
      assert s.cl.lost == map[] <==> s.cl.lost.Keys == {};
      BothEmpty(s.cl.lost.Keys, Stuck(ups, stuck));
    }
  }

  lemma BothEmpty(x: set<Loc>, y: set<Loc>)
    ensures x + y == {} <==> x == {} && y == {}
  {
    if l :| l in x || l in y {
      assert l in x + y;
    }
  }

  lemma SomeUnrecorded(ups: seq<U.Upl>, k: nat)
    requires k <= |ups|
    ensures Locs(ups[k..]) == {} <==> k == |ups|
  {
    if k < |ups| {
      assert P.LocOf(ups[k..][0]) in Locs(ups[k..]);
    }
  }

  lemma SomeStuck(ups: seq<U.Upl>, stuck: set<nat>)
    ensures Stuck(ups, stuck) == {} <==> NoneStuck(ups, stuck)
  {
    if i :| 0 <= i < |ups| && ups[i].idx in stuck {
      assert P.LocOf(ups[i]) in Stuck(ups, stuck);
    }
  }

  lemma {:induction false} LocsCount(ups: seq<U.Upl>)
    requires Distinct(ups)
    ensures |Locs(ups)| == |ups|
  {
    if ups != [] {
      var n := |ups| - 1;
      LocsCount(ups[..n]);
      LocsStep(ups, n);
      assert ups[..n + 1] == ups;
      forall k | 0 <= k < n ensures P.LocOf(ups[..n][k]) != P.LocOf(ups[n]) {
        assert P.LocOf(ups[k]) != P.LocOf(ups[n]);
      }
    }
  }
}
