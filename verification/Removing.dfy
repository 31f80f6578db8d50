/** What a purge may delete and what it must leave (Remove, drivepool/pool.go). */
module Removing {
  import opened Prelude
  import opened Codec
  import opened Manifest
  import opened Drive
  import L = Ledger
  import G = Getting

  /** The row's object and its folder are gone from its account, if that one is usable. */
  ghost predicate Cleared(b: L.Book, stores: Stores, k: Slot)
    requires k in b.db.chunks
  {
    ObjectGone(b, stores, k) && FolderGone(b, stores, k)
  }

  ghost predicate ObjectGone(b: L.Book, stores: Stores, k: Slot)
    requires k in b.db.chunks
  {
    Usable(b, k) && b.db.chunks[k].account.value in stores ==>
      !Known(stores[b.db.chunks[k].account.value], b.db.chunks[k].remote)
  }

  ghost predicate FolderGone(b: L.Book, stores: Stores, k: Slot)
    requires k in b.db.chunks
  {
    Usable(b, k) && b.db.chunks[k].account.value in stores ==>
      !Known(stores[b.db.chunks[k].account.value], b.db.chunks[k].folder)
  }

  predicate Usable(b: L.Book, k: Slot)
    requires k in b.db.chunks
  {
    b.db.chunks[k].account.Some? && L.Healthy(b, b.db.chunks[k].account.value)
  }

  /** Nothing of file `f` is left on any usable account. */
  ghost predicate Vacated(b: L.Book, stores: Stores, f: FileId) {
    forall k :: OwnChunk(b.db, b.user, k) && k.file == f ==> Cleared(b, stores, k)
  }

  /** The row's object is as it was. */
  ghost predicate SameObject(row: ChunkRow, s: Stores, t: Stores) {
    row.account.Some? && row.account.value in s && row.remote in s[row.account.value].objects ==>
      && row.account.value in t && row.remote in t[row.account.value].objects
      && t[row.account.value].objects[row.remote] == s[row.account.value].objects[row.remote]
  }

  /** Every object that a row of another file names is as it was. */
  ghost predicate Spared(b: L.Book, stores: Stores, f: FileId) {
    forall k :: OwnChunk(b.db, b.user, k) && k.file != f ==> SameObject(b.db.chunks[k], b.stores, stores)
  }

  /** Nothing came into being. */
  ghost predicate Shrunk(s: Stores, t: Stores) {
    t.Keys == s.Keys && forall a, id :: a in s && Known(t[a], id) ==> Known(s[a], id)
  }

  /** Accounts out of reach keep everything they have. */
  ghost predicate OutOfReachSame(b: L.Book, stores: Stores) {
    forall a :: a in b.stores && !L.Healthy(b, a) ==> a in stores && stores[a] == b.stores[a]
  }

  lemma NothingTouched(b: L.Book)
    ensures OutOfReachSame(b, b.stores)
  {
  }

  /** `c` is `b` after some deletes for file `f`. */
  ghost predicate Tearing(b: L.Book, c: L.Book, f: FileId) {
    && c == b.(stores := c.stores, torn := c.torn) && b.torn <= c.torn <= b.torn + {f}
    && L.Inv(c) && Spared(b, c.stores, f) && Shrunk(b.stores, c.stores) && OutOfReachSame(b, c.stores)
  }

  lemma StartTearing(b: L.Book, f: FileId)
    requires L.Inv(b)
    ensures Tearing(b, b, f)
  {
  }

  /** One more delete, of the object or the folder of row `k`, effective or not. */
  lemma TearMore(b: L.Book, c: L.Book, f: FileId, a: AccountId, id: RemoteId, k: Slot, acted: bool)
    requires Tearing(b, c, f) && L.Holder(c, f, a, id, k) && L.Healthy(b, a)
    ensures var d := if acted then L.Tearing(c, f, a, id) else c.(torn := c.torn + {f});
      Tearing(b, d, f) && Shrunk(c.stores, d.stores)
  {
    hide L.Inv;
    if acted {
      var d := L.Tearing(c, f, a, id);
      L.TearKeeps(c, f, a, id, k);
      forall l | OwnChunk(b.db, b.user, l) && l.file != f ensures SameObject(b.db.chunks[l], b.stores, d.stores) {
        TearSpares(c, f, a, id, k, l);
        assert SameObject(b.db.chunks[l], b.stores, c.stores);
      }
    } else {
      L.TornKeeps(c, f);
    }
  }

  lemma TearSpares(c: L.Book, f: FileId, a: AccountId, id: RemoteId, k: Slot, l: Slot)
    requires L.Inv(c) && L.Holder(c, f, a, id, k) && OwnChunk(c.db, c.user, l) && l.file != f
    ensures SameObject(c.db.chunks[l], c.stores, L.Tearing(c, f, a, id).stores)
  {
    assert L.RowOk(c, k) && L.RowOk(c, l);
    assert L.Apart(c.db, k, l);
  }

  /** What is gone stays gone. */
  lemma StaysGone(b: L.Book, s: Stores, t: Stores, k: Slot)
    requires k in b.db.chunks && Shrunk(s, t)
    ensures ObjectGone(b, s, k) ==> ObjectGone(b, t, k)
    ensures FolderGone(b, s, k) ==> FolderGone(b, t, k)
  {
  }

  /** The object or folder just deleted is gone. */
  lemma JustGone(b: L.Book, s: Stores, k: Slot, id: RemoteId)
    requires k in b.db.chunks && Usable(b, k) && b.db.chunks[k].account.value in s
    requires RemoteOk(s[b.db.chunks[k].account.value])
    ensures var a := b.db.chunks[k].account.value;
      var t := s[a := Without(s[a], id)];
      (id == b.db.chunks[k].remote ==> ObjectGone(b, t, k)) && (id == b.db.chunks[k].folder ==> FolderGone(b, t, k))
  {
    WithoutOk(s[b.db.chunks[k].account.value], id);
  }

  /** All of a file's chunks on one account share one folder. */
  lemma OneFolder(b: L.Book, k: Slot, l: Slot)
    requires L.Inv(b) && OwnChunk(b.db, b.user, k) && OwnChunk(b.db, b.user, l) && k.file == l.file
    requires b.db.chunks[k].account.Some? && b.db.chunks[k].account == b.db.chunks[l].account
    ensures b.db.chunks[k].folder == b.db.chunks[l].folder
  {
    assert L.Apart(b.db, k, l);
  }

  /** `folders` holds the folder of file `f` on each of its accounts, as row `via` says. */
  ghost predicate FolderMap(b: L.Book, f: FileId, folders: map<AccountId, RemoteId>, via: map<AccountId, Slot>) {
    via.Keys == folders.Keys && forall a :: a in folders ==> Via(b, f, a, folders[a], via[a])
  }

  ghost predicate Via(b: L.Book, f: FileId, a: AccountId, folder: RemoteId, k: Slot) {
    && OwnChunk(b.db, b.user, k) && k.file == f && Usable(b, k)
    && b.db.chunks[k].account == Some(a) && b.db.chunks[k].folder == folder
  }

  /** Row `k` was dealt with by the first loop. */
  ghost predicate ObjectCleared(b: L.Book, stores: Stores, folders: map<AccountId, RemoteId>, k: Slot) {
    k in b.db.chunks && ObjectGone(b, stores, k) && (Usable(b, k) ==> b.db.chunks[k].account.value in folders)
  }

  lemma ShrunkSame(s: Stores)
    ensures Shrunk(s, s)
  {
  }

  lemma ShrunkTrans(s: Stores, t: Stores, u: Stores)
    requires Shrunk(s, t) && Shrunk(t, u)
    ensures Shrunk(s, u)
  {
  }

  lemma ObjectDone(b: L.Book, stores: Stores, folders: map<AccountId, RemoteId>, k: Slot)
    requires k in b.db.chunks && (Usable(b, k) ==> ObjectGone(b, stores, k) && b.db.chunks[k].account.value in folders)
    ensures ObjectCleared(b, stores, folders, k)
  {
  }

  lemma ObjectStays(b: L.Book, s: Stores, t: Stores, x: map<AccountId, RemoteId>, y: map<AccountId, RemoteId>, k: Slot)
    requires ObjectCleared(b, s, x, k) && Shrunk(s, t) && x.Keys <= y.Keys
    ensures ObjectCleared(b, t, y, k)
  {
    StaysGone(b, s, t, k);
  }

  /** Both loops together leave nothing of the file behind. */
  lemma BothLoops(b: L.Book, s: Stores, t: Stores, f: FileId, idxs: seq<nat>, folders: map<AccountId, RemoteId>,
                  via: map<AccountId, Slot>)
    requires L.Inv(b) && G.Listing(b.db, b.user, f, idxs) && FolderMap(b, f, folders, via) && Shrunk(s, t)
    requires forall i :: 0 <= i < |idxs| ==> ObjectCleared(b, s, folders, Slot(f, idxs[i]))
    requires forall a :: a in via ==> via[a] in b.db.chunks && FolderGone(b, t, via[a])
    ensures Vacated(b, t, f)
  {
    hide L.Inv;
    forall k | OwnChunk(b.db, b.user, k) && k.file == f ensures Cleared(b, t, k) {
      G.ListedRow(b.db, b.user, f, idxs, k.idx);
      assert k == Slot(f, k.idx);
      assert ObjectCleared(b, s, folders, k);
      StaysGone(b, s, t, k);
      if Usable(b, k) {
        var a := b.db.chunks[k].account.value;
        assert Via(b, f, a, folders[a], via[a]);
        OneFolder(b, k, via[a]);
      }
    }
  }

  /** Once nothing is left, the rows may go. */
  lemma VacatedEmptied(b: L.Book, c: L.Book, f: FileId)
    requires Vacated(b, c.stores, f) && c == b.(stores := c.stores, torn := c.torn)
    ensures L.Emptied(c, f)
  {
    forall k | OwnChunk(c.db, c.user, k) && k.file == f ensures L.RowGone(c, k) {
      assert Cleared(b, c.stores, k);
    }
  }

  // ---- what a purge leaves ----

  /** Row `k` of file `f` names an object that exists. */
  ghost predicate Holds(b: L.Book, stores: Stores, f: FileId, k: Slot) {
    && OwnChunk(b.db, b.user, k) && k.file == f && b.db.chunks[k].account.Some?
    && b.db.chunks[k].account.value in stores && b.db.chunks[k].remote in stores[b.db.chunks[k].account.value].objects
  }

  /** After a purge exactly the objects on accounts out of reach are still there. */
  ghost predicate LeftByPurge(b: L.Book, stores: Stores, f: FileId) {
    forall k :: Holds(b, stores, f, k) <==> Holds(b, b.stores, f, k) && !Usable(b, k)
  }

  lemma PurgeLeft(b: L.Book, stores: Stores, f: FileId)
    requires Vacated(b, stores, f) && OutOfReachSame(b, stores) && Shrunk(b.stores, stores) && L.RowsOk(b)
    ensures LeftByPurge(b, stores, f)
  {
    forall k ensures Holds(b, stores, f, k) <==> Holds(b, b.stores, f, k) && !Usable(b, k) {
      if OwnChunk(b.db, b.user, k) && k.file == f {
        assert L.RowOk(b, k) && Cleared(b, stores, k);
      }
    }
  }

  /** A purge leaves an object of the file behind if and only if beforehand some row of the
      file named one on an account out of reach. */
  lemma PurgeLeavesIff(b: L.Book, stores: Stores, f: FileId)
    requires LeftByPurge(b, stores, f)
    ensures (exists k :: Holds(b, stores, f, k)) <==> (exists k :: Holds(b, b.stores, f, k) && !Usable(b, k))
  {
    if k :| Holds(b, stores, f, k) {
      assert Holds(b, b.stores, f, k) && !Usable(b, k);
    }
    if k :| Holds(b, b.stores, f, k) && !Usable(b, k) {
      assert Holds(b, stores, f, k);
    }
  }

  /** On a usable account nothing lies in a folder that a row of the file named there, left
      over objects without a row included. */
  ghost predicate FoldersEmpty(b: L.Book, stores: Stores, f: FileId) {
    forall k :: OwnChunk(b.db, b.user, k) && k.file == f && Usable(b, k) ==> FolderEmpty(b, stores, k)
  }

  ghost predicate FolderEmpty(b: L.Book, stores: Stores, k: Slot)
    requires k in b.db.chunks && Usable(b, k)
  {
    var a, folder := b.db.chunks[k].account.value, b.db.chunks[k].folder;
    a in stores ==>
      folder !in stores[a].folders && forall o :: o in stores[a].objects ==> stores[a].objects[o].folder != folder
  }

  lemma VacatedFolders(b: L.Book, c: L.Book, f: FileId)
    requires Vacated(b, c.stores, f) && L.MembersOk(c)
    ensures FoldersEmpty(b, c.stores, f)
  {
    forall k | OwnChunk(b.db, b.user, k) && k.file == f && Usable(b, k) ensures FolderEmpty(b, c.stores, k) {
      assert Cleared(b, c.stores, k);
    }
  }

  /** `d` is `b` after a complete purge of `f`. */
  ghost predicate PurgedBy(b: L.Book, d: L.Book, f: FileId) {
    && d == b.(db := WithoutFiles(b.db, {f}), stores := d.stores, torn := b.torn - {f})
    && Vacated(b, d.stores, f) && LeftByPurge(b, d.stores, f) && OutOfReachSame(b, d.stores)
    && FoldersEmpty(b, d.stores, f)
    && d.stores.Keys == b.stores.Keys
  }

  lemma PurgeDone(b: L.Book, c: L.Book, f: FileId, name: string)
    requires L.Inv(b) && Tearing(b, c, f) && Vacated(b, c.stores, f) && IsFile(b.db, b.user, name, f)
    ensures PurgedBy(b, L.Purged(c, f, name), f)
  {
    hide Vacated, OutOfReachSame, LeftByPurge, L.Emptied, FoldersEmpty;
    L.InvReads(b);
    VacatedFolders(b, c, f);
    PurgeLeft(b, c.stores, f);
    assert UniqueNames(c.db) by {
      L.InvParts(b);
    }
    L.PurgeDb(c.db, c.user, f, name);
  }

  // ---- what removal does to the view ----

  /** The live files of `d` and their rows are among those of `b`. */
  ghost predicate Fewer(b: L.Book, d: L.Book) {
    && d.user == b.user
    && (forall k :: OwnChunk(d.db, d.user, k) ==> OwnChunk(b.db, b.user, k) && d.db.chunks[k] == b.db.chunks[k])
    && (forall g :: OwnFile(d.db, d.user, g) ==> FileKept(b, d, g))
  }

  ghost predicate FileKept(b: L.Book, d: L.Book, g: FileId) {
    && g in d.db.files && OwnFile(b.db, b.user, g)
    && d.db.files[g].size == b.db.files[g].size && d.db.files[g].chunkSize == b.db.files[g].chunkSize
    && (d.db.files[g].status == b.db.files[g].status || d.db.files[g].status == Deleted)
    && (forall i: nat :: OwnChunk(b.db, b.user, Slot(g, i)) ==> OwnChunk(d.db, d.user, Slot(g, i)))
  }

  lemma FewerKeeps(b: L.Book, d: L.Book)
    requires Fewer(b, d) && Sane(d.db) && d.members == b.members
    ensures L.Connected(b) ==> L.Connected(d)
    ensures L.Clean(b) && d.leaked == b.leaked && d.torn <= b.torn ==> L.Clean(d)
  {
    forall k | OwnChunk(d.db, d.user, k) ensures OwnFile(d.db, d.user, k.file) && FileKept(b, d, k.file) {
      assert ChunkRef(d.db, k);
    }
    if L.Clean(b) {
      forall g | OwnFile(d.db, d.user, g) ensures L.Whole(d.db, d.user, g) {
        assert FileKept(b, d, g);
        L.WholeKept(b.db, d.db, b.user, g);
      }
    }
  }

  /** An interrupted purge shows nowhere in the view. */
  lemma TornView(b: L.Book, c: L.Book, f: FileId)
    requires L.Inv(b) && Tearing(b, c, f)
    ensures L.Abs(c) == L.Abs(b) && (L.Connected(b) ==> L.Connected(c))
  {
    L.AbsSame(b, c);
  }

  /** A purge that cleared the remote side removes the file and nothing else. */
  lemma PurgedView(b: L.Book, c: L.Book, f: FileId, name: string)
    requires L.Inv(b) && Tearing(b, c, f) && IsFile(b.db, b.user, name, f) && Vacated(b, c.stores, f)
    ensures var d := L.Purged(c, f, name);
      L.Inv(d) && L.Abs(d) == L.Abs(b) - {name} && Fewer(b, d) && d.torn == b.torn - {f}
  {
    hide L.Inv, Vacated, Spared, Shrunk, L.Emptied, Fewer;
    var d := L.Purged(c, f, name);
    L.InvParts(b);
    VacatedEmptied(b, c, f);
    L.PurgeKeeps(c, f, name);
    L.InvParts(d);
    L.PurgeDb(c.db, c.user, f, name);
    L.AbsPurge(b, f, name, d);
    FewerWithout(b, d, f);
  }

  lemma FewerWithout(b: L.Book, d: L.Book, f: FileId)
    requires d.user == b.user && d.db == WithoutFiles(b.db, {f})
    ensures Fewer(b, d)
  {
    forall g | OwnFile(d.db, d.user, g) ensures FileKept(b, d, g) {
    }
  }

  /** Hiding a file changes that file's mark and nothing else. */
  lemma HiddenView(b: L.Book, f: FileId, name: string)
    requires L.Inv(b) && IsFile(b.db, b.user, name, f)
    ensures var d := b.(db := Exec(b.db, b.user, HideFile(name)));
      && L.Inv(d) && Fewer(b, d) && name in L.Abs(b)
      && L.Abs(d) == L.Abs(b)[name := L.Abs(b)[name].(hidden := true)]
  {
    hide L.Inv;
    L.InvParts(b);
    L.UniqueFile(b.db, b.user, name, f);
    assert b.(db := Exec(b.db, b.user, HideFile(name))) == L.Restatused(b, {f}, Deleted);
    HiddenInv(b, f, name);
    L.InvParts(L.Restatused(b, {f}, Deleted));
    L.AbsHide(b, f, name);
    assert OwnFile(b.db, b.user, f);
    L.AbsAt(b, f);
  }

  lemma HiddenInv(b: L.Book, f: FileId, name: string)
    requires L.Inv(b) && Exec(b.db, b.user, HideFile(name)) == WithStatus(b.db, {f}, Deleted)
    ensures L.Inv(L.Restatused(b, {f}, Deleted)) && Fewer(b, L.Restatused(b, {f}, Deleted))
  {
    ExecSane(b.db, b.user, HideFile(name));
    L.StatusKeeps(b, {f}, Deleted);
  }
}
