/** The relational manifest (drivepool/manifest/manifest.go over the tables of
    db/migrations/0001_init.up.sql): accounts, virtual files and chunks of all users. */
module Manifest {
  import opened Prelude
  import opened Codec

  datatype Status = Complete | Incomplete | Deleted

  datatype AccountRow = AccountRow(user: UserId, tag: string)

  datatype FileRow = FileRow(
    user: UserId, name: string, size: nat, chunkSize: nat, hash: Digest, key: Bytes, status: Status)

  datatype ChunkRow = ChunkRow(
    user: UserId, account: Option<AccountId>, remote: RemoteId, folder: RemoteId,
    plainSize: nat, sha: Digest, algo: Algo, packedSize: nat)

  /** Chunk rows are unique per file and index, so that pair serves as their key. */
  datatype Slot = Slot(file: FileId, idx: nat)

  datatype Db = Db(
    accounts: map<AccountId, AccountRow>,
    files: map<FileId, FileRow>,
    chunks: map<Slot, ChunkRow>,
    nextFile: FileId)

  // ---- queries ----

  ghost predicate LabelTaken(db: Db, user: UserId, tag: string) {
    exists a :: a in db.accounts && db.accounts[a] == AccountRow(user, tag)
  }

  predicate IsFile(db: Db, user: UserId, name: string, f: FileId) {
    f in db.files && db.files[f].user == user && db.files[f].name == name
  }

  ghost predicate NameTaken(db: Db, user: UserId, name: string) {
    exists f :: IsFile(db, user, name, f)
  }

  /** Indices of the chunk rows of `file` that `user` can see. */
  function Indices(db: Db, user: UserId, file: FileId): set<nat> {
    set k | k in db.chunks && k.file == file && db.chunks[k].user == user :: k.idx
  }

  /** Chunk rows on `account` whose file is not deleted (CountActiveChunks). */
  function Active(db: Db, user: UserId, account: AccountId): set<Slot> {
    set k | k in db.chunks && db.chunks[k].user == user && db.chunks[k].account == Some(account) &&
            k.file in db.files && db.files[k.file].status != Deleted
  }

  /** The files ListVirtualFiles selects: not deleted, with a name `pick` accepts. */
  predicate Wanted(db: Db, user: UserId, pick: string -> bool, f: FileId) {
    f in db.files && db.files[f].user == user && db.files[f].status != Deleted && pick(db.files[f].name)
  }

  // ---- ORDER BY name, in the order the database uses ----

  type NameOrder = (string, string) -> bool

  ghost predicate TotalOrder(leq: NameOrder) {
    && (forall x, y :: leq(x, y) || leq(y, x))
    && (forall x, y, z :: leq(x, y) && leq(y, z) ==> leq(x, z))
  }

  ghost predicate Least(files: map<FileId, FileRow>, rest: set<FileId>, leq: NameOrder, f: FileId)
    requires rest <= files.Keys
  {
    f in rest && forall g :: g in rest ==> leq(files[f].name, files[g].name)
  }

  lemma {:induction false} LeastExists(files: map<FileId, FileRow>, rest: set<FileId>, leq: NameOrder)
      returns (f: FileId)
    requires TotalOrder(leq) && rest <= files.Keys && rest != {}
    ensures Least(files, rest, leq, f)
    decreases |rest|
  {
    f :| f in rest;
    var others := rest - {f};
    assert forall x :: x in rest ==> x == f || x in others;
    assert leq(files[f].name, files[f].name);
    if others != {} {
      var g := LeastExists(files, others, leq);
      var first := f;
      if !leq(files[f].name, files[g].name) {
        f := g;
      }
      forall h | h in rest ensures leq(files[f].name, files[h].name) {
        assert h == first || h in others;
        assert h in others ==> leq(files[g].name, files[h].name);
      }
    }
  }

  /** `r` are the wanted files, each once, by name. */
  ghost predicate Sorted(db: Db, user: UserId, pick: string -> bool, leq: NameOrder, r: seq<FileId>) {
    && (forall f :: f in r <==> Wanted(db, user, pick, f))
    && (forall i, j :: 0 <= i < j < |r| ==> r[i] != r[j] && InOrder(db, leq, r[i], r[j]))
  }

  ghost predicate InOrder(db: Db, leq: NameOrder, f: FileId, g: FileId) {
    f in db.files && g in db.files && leq(db.files[f].name, db.files[g].name)
  }

  // ---- ORDER BY idx ----

  predicate Ascends(s: seq<nat>) {
    forall i, j :: 0 <= i < j < |s| ==> s[i] < s[j]
  }

  function Insert(s: seq<nat>, n: nat): (r: seq<nat>)
    requires Ascends(s) && n !in s
    ensures Ascends(r) && |r| == |s| + 1 && (forall x :: x in r <==> x == n || x in s)
  {
    if s == [] then [n]
    else if n < s[0] then [n] + s
    else
      var t := Insert(s[1..], n);
      assert forall x :: x in s <==> x == s[0] || x in s[1..];
      assert forall i :: 0 <= i < |t| ==> t[i] in t;
      [s[0]] + t
  }

  /** An ascending listing without gaps below its members counts up from 0. */
  lemma ListingDense(r: seq<nat>)
    requires Ascends(r) && forall n: nat, m: nat :: n in r && m < n ==> m in r
    ensures forall i :: 0 <= i < |r| ==> r[i] == i
  {
    var i := 0;
    while i < |r|
      invariant i <= |r| && forall j :: 0 <= j < i ==> r[j] == j
    {
      assert i > 0 ==> r[i - 1] < r[i];
      assert r[i] in r;
      assert r[i] > i ==> i in r;
      i := i + 1;
    }
  }

  // ---- writes ----

  datatype Op =
    | AddAccount(id: AccountId, tag: string)
    | DropAccount(tag: string)
    | CreateFile(row: FileRow)
    | SetStatus(file: FileId, status: Status)
    | HideFile(name: string)
    | PurgeFile(name: string)
    | AddChunk(slot: Slot, chunk: ChunkRow)

  /** The constraints of the schema let the statement through. */
  ghost predicate Accepts(db: Db, user: UserId, op: Op) {
    match op
    case AddAccount(id, tag) => id !in db.accounts && !LabelTaken(db, user, tag)
    case CreateFile(row) => !NameTaken(db, user, row.name)
    case AddChunk(slot, chunk) =>
      slot !in db.chunks && slot.file in db.files && (chunk.account.Some? ==> chunk.account.value in db.accounts)
    case _ => true
  }

  function WithoutAccounts(db: Db, gone: set<AccountId>): Db {
    db.(accounts := db.accounts - gone,
        chunks := map k | k in db.chunks ::
          if db.chunks[k].account.Some? && db.chunks[k].account.value in gone
          then db.chunks[k].(account := None) else db.chunks[k])
  }

  function WithoutFiles(db: Db, gone: set<FileId>): Db {
    db.(files := db.files - gone, chunks := map k | k in db.chunks && k.file !in gone :: db.chunks[k])
  }

  function WithStatus(db: Db, which: set<FileId>, status: Status): Db {
    db.(files := map f | f in db.files ::
          if f in which then db.files[f].(status := status) else db.files[f])
  }

  function Labelled(db: Db, user: UserId, tag: string): set<AccountId> {
    set a | a in db.accounts && db.accounts[a] == AccountRow(user, tag)
  }

  function Named(db: Db, user: UserId, name: string): set<FileId> {
    set f | f in db.files && IsFile(db, user, name, f)
  }

  /** The effect of one statement issued for `user`: removing an account nulls the
      chunk rows that pointed at it, removing a file takes its chunk rows along. */
  ghost function Exec(db: Db, user: UserId, op: Op): Db {
    if !Accepts(db, user, op) then db else
    match op
    case AddAccount(id, tag) => db.(accounts := db.accounts[id := AccountRow(user, tag)])
    case DropAccount(tag) => WithoutAccounts(db, Labelled(db, user, tag))
    case CreateFile(row) =>
      db.(files := db.files[db.nextFile := row.(user := user)], nextFile := db.nextFile + 1)
    case SetStatus(file, status) =>
      WithStatus(db, if file in db.files && db.files[file].user == user then {file} else {}, status)
    case HideFile(name) => WithStatus(db, Named(db, user, name), Deleted)
    case PurgeFile(name) => WithoutFiles(db, Named(db, user, name))
    case AddChunk(slot, chunk) => db.(chunks := db.chunks[slot := chunk.(user := user)])
  }

  /** Row `k` is the user's, on that account, and of a file that is not deleted. */
  ghost predicate LiveOn(db: Db, user: UserId, account: AccountId, k: Slot) {
    && OwnChunk(db, user, k) && db.chunks[k].account == Some(account)
    && k.file in db.files && db.files[k.file].status != Deleted
  }

  lemma ActiveIff(db: Db, user: UserId, account: AccountId)
    ensures forall k :: k in Active(db, user, account) <==> LiveOn(db, user, account, k)
    ensures |Active(db, user, account)| > 0 <==> exists k :: LiveOn(db, user, account, k)
  {
    if k :| LiveOn(db, user, account, k) {
      assert k in Active(db, user, account);
    }
    if Active(db, user, account) != {} {
      var k :| k in Active(db, user, account);
      assert LiveOn(db, user, account, k);
    }
  }

  // ---- what every statement keeps ----

  ghost predicate UniqueLabels(db: Db) {
    forall a, b :: a in db.accounts && b in db.accounts && db.accounts[a] == db.accounts[b] ==> a == b
  }

  ghost predicate SameName(a: FileRow, b: FileRow) {
    a.user == b.user && a.name == b.name
  }

  ghost predicate UniqueNames(db: Db) {
    forall f, g :: f in db.files && g in db.files && SameName(db.files[f], db.files[g]) ==> f == g
  }

  /** Foreign keys, and the tenancy the schema does not state: a chunk has the same
      user as its file and as its account. */
  ghost predicate ChunkRefs(db: Db) {
    forall k :: k in db.chunks ==> ChunkRef(db, k)
  }

  ghost predicate ChunkRef(db: Db, k: Slot)
    requires k in db.chunks
  {
    var c := db.chunks[k];
    && k.file in db.files && db.files[k.file].user == c.user
    && (c.account.Some? ==> c.account.value in db.accounts && db.accounts[c.account.value].user == c.user)
  }

  ghost predicate Sane(db: Db) {
    && UniqueLabels(db)
    && UniqueNames(db)
    && ChunkRefs(db)
    && (forall f :: f in db.files ==> f < db.nextFile)
  }

  /** A chunk row names only a file and an account of the user who inserts it. */
  ghost predicate Owns(db: Db, user: UserId, op: Op) {
    op.AddChunk? ==>
      && (op.slot.file in db.files ==> db.files[op.slot.file].user == user)
      && (op.chunk.account.Some? && op.chunk.account.value in db.accounts ==>
            db.accounts[op.chunk.account.value].user == user)
  }

  lemma ExecSane(db: Db, user: UserId, op: Op)
    requires Sane(db) && Owns(db, user, op)
    ensures Sane(Exec(db, user, op))
  {
    ExecNames(db, user, op);
    ExecRefs(db, user, op);
  }

  lemma ExecRefs(db: Db, user: UserId, op: Op)
    requires Sane(db) && Owns(db, user, op)
    ensures ChunkRefs(Exec(db, user, op))
  {
    var after := Exec(db, user, op);
    forall k | k in after.chunks ensures ChunkRef(after, k) {
      assert k in db.chunks ==> ChunkRef(db, k);
    }
  }

  lemma ExecNames(db: Db, user: UserId, op: Op)
    requires UniqueNames(db) && forall f :: f in db.files ==> f < db.nextFile
    ensures UniqueNames(Exec(db, user, op))
  {
    var after := Exec(db, user, op);
    assert db.nextFile !in db.files;
    forall f, g | f in after.files && g in after.files && SameName(after.files[f], after.files[g]) ensures f == g {
      if op.CreateFile? {
        assert f in db.files && !NameTaken(db, user, op.row.name) ==> !IsFile(db, user, op.row.name, f);
        assert g in db.files && !NameTaken(db, user, op.row.name) ==> !IsFile(db, user, op.row.name, g);
      }
      assert f in db.files && g in db.files ==> SameName(db.files[f], db.files[g]);
    }
  }

  /** The rows of `user` are the same in both: none added, removed or changed. */
  ghost predicate SameRows(x: Db, y: Db, user: UserId) {
    && (forall a :: OwnAccount(x, user, a) || OwnAccount(y, user, a) ==> SameAccount(x, y, a))
    && (forall f :: OwnFile(x, user, f) || OwnFile(y, user, f) ==> SameFile(x, y, f))
    && (forall k :: OwnChunk(x, user, k) || OwnChunk(y, user, k) ==> SameChunk(x, y, k))
  }

  ghost predicate OwnAccount(db: Db, user: UserId, a: AccountId) {
    a in db.accounts && db.accounts[a].user == user
  }

  ghost predicate OwnFile(db: Db, user: UserId, f: FileId) {
    f in db.files && db.files[f].user == user
  }

  ghost predicate OwnChunk(db: Db, user: UserId, k: Slot) {
    k in db.chunks && db.chunks[k].user == user
  }

  ghost predicate SameAccount(x: Db, y: Db, a: AccountId) {
    a in x.accounts && a in y.accounts && x.accounts[a] == y.accounts[a]
  }

  ghost predicate SameFile(x: Db, y: Db, f: FileId) {
    f in x.files && f in y.files && x.files[f] == y.files[f]
  }

  ghost predicate SameChunk(x: Db, y: Db, k: Slot) {
    k in x.chunks && k in y.chunks && x.chunks[k] == y.chunks[k]
  }

  lemma AccountIsolated(db: Db, user: UserId, op: Op, other: UserId, a: AccountId)
    requires other != user
    requires OwnAccount(db, other, a) || OwnAccount(Exec(db, user, op), other, a)
    ensures SameAccount(db, Exec(db, user, op), a)
  {
  }

  lemma FileIsolated(db: Db, user: UserId, op: Op, other: UserId, f: FileId)
    requires Sane(db) && other != user
    requires OwnFile(db, other, f) || OwnFile(Exec(db, user, op), other, f)
    ensures SameFile(db, Exec(db, user, op), f)
  {
  }

  lemma ChunkIsolated(db: Db, user: UserId, op: Op, other: UserId, k: Slot)
    requires Sane(db) && other != user
    requires OwnChunk(db, other, k) || OwnChunk(Exec(db, user, op), other, k)
    ensures SameChunk(db, Exec(db, user, op), k)
  {
    assert k in db.chunks ==> ChunkRef(db, k);
  }

  /** No statement of one user changes a row of another, cascades included. */
  lemma ExecIsolated(db: Db, user: UserId, op: Op, other: UserId)
    requires Sane(db) && other != user
    ensures SameRows(db, Exec(db, user, op), other)
  {
    var after := Exec(db, user, op);
    forall a | OwnAccount(db, other, a) || OwnAccount(after, other, a) ensures SameAccount(db, after, a) {
      AccountIsolated(db, user, op, other, a);
    }
    forall f | OwnFile(db, other, f) || OwnFile(after, other, f) ensures SameFile(db, after, f) {
      FileIsolated(db, user, op, other, f);
    }
    forall k | OwnChunk(db, other, k) || OwnChunk(after, other, k) ensures SameChunk(db, after, k) {
      ChunkIsolated(db, user, op, other, k);
    }
  }

  ghost function ExecAll(db: Db, user: UserId, ops: seq<Op>): Db
    decreases |ops|
  {
    if ops == [] then db else ExecAll(Exec(db, user, ops[0]), user, ops[1..])
  }

  ghost predicate OwnsAll(db: Db, user: UserId, ops: seq<Op>)
    decreases |ops|
  {
    ops == [] || (Owns(db, user, ops[0]) && OwnsAll(Exec(db, user, ops[0]), user, ops[1..]))
  }

  lemma SameRowsTrans(x: Db, y: Db, z: Db, user: UserId)
    requires SameRows(x, y, user) && SameRows(y, z, user)
    ensures SameRows(x, z, user)
  {
    forall a | OwnAccount(x, user, a) || OwnAccount(z, user, a) ensures SameAccount(x, z, a) {
      assert OwnAccount(y, user, a);
    }
    forall f | OwnFile(x, user, f) || OwnFile(z, user, f) ensures SameFile(x, z, f) {
      assert OwnFile(y, user, f);
    }
    forall k | OwnChunk(x, user, k) || OwnChunk(z, user, k) ensures SameChunk(x, z, k) {
      assert OwnChunk(y, user, k);
    }
  }

  /** No row of any other user differs. */
  ghost predicate OthersSame(x: Db, y: Db, user: UserId) {
    forall other :: other != user ==> SameRows(x, y, other)
  }

  lemma OthersSameRefl(x: Db, user: UserId)
    ensures OthersSame(x, x, user)
  {
  }

  lemma OthersSameStep(x: Db, y: Db, user: UserId, op: Op)
    requires OthersSame(x, y, user) && Sane(y)
    ensures OthersSame(x, Exec(y, user, op), user)
  {
    forall other | other != user ensures SameRows(x, Exec(y, user, op), other) {
      ExecIsolated(y, user, op, other);
      SameRowsTrans(x, y, Exec(y, user, op), other);
    }
  }

  /** Tenant non-interference over any sequence of statements. */
  lemma {:induction false} TenantIsolation(db: Db, user: UserId, ops: seq<Op>, other: UserId)
    requires Sane(db) && other != user && OwnsAll(db, user, ops)
    ensures Sane(ExecAll(db, user, ops)) && SameRows(db, ExecAll(db, user, ops), other)
    decreases |ops|
  {
    if ops != [] {
      ExecSane(db, user, ops[0]);
      ExecIsolated(db, user, ops[0], other);
      TenantIsolation(Exec(db, user, ops[0]), user, ops[1..], other);
      SameRowsTrans(db, Exec(db, user, ops[0]), ExecAll(db, user, ops), other);
    }
  }

  /** Tenancy is not implied by the schema: a table that meets every foreign key but
      mixes users lets one user's purge delete another user's chunk row. */
  lemma CascadeNeedsTenancy(a: UserId, b: UserId) returns (db: Db)
    requires a != b
    ensures UniqueLabels(db) && UniqueNames(db) && forall k :: k in db.chunks ==> k.file in db.files
    ensures !SameRows(db, Exec(db, a, PurgeFile("x")), b)
  {
    var row := ChunkRow(b, None, "r", "d", 0, "", NoCompression, 0);
    db := Db(map[], map[0 := FileRow(a, "x", 0, 1, "", [], Complete)], map[Slot(0, 0) := row], 1);
    assert IsFile(db, a, "x", 0);
    assert OwnChunk(db, b, Slot(0, 0));
  }

  // ---- the object the pool talks to ----

  class Manifest {
    var accounts: map<AccountId, AccountRow>
    var files: map<FileId, FileRow>
    var chunks: map<Slot, ChunkRow>
    var nextFile: FileId

    function State(): Db
      reads this
    {
      Db(accounts, files, chunks, nextFile)
    }

    constructor (db: Db)
      ensures State() == db
    {
      accounts, files, chunks, nextFile := db.accounts, db.files, db.chunks, db.nextFile;
    }

    method FindAccount(user: UserId, tag: string) returns (r: Option<AccountId>)
      ensures r.Some? <==> LabelTaken(State(), user, tag)
      ensures r.Some? ==> r.value in accounts && accounts[r.value] == AccountRow(user, tag)
    {
      if a :| a in accounts && accounts[a] == AccountRow(user, tag) {
        return Some(a);
      }
      return None;
    }

    /** GetVirtualFile: any status will do. */
    method FindFile(user: UserId, name: string) returns (r: Option<FileId>)
      ensures r.Some? <==> NameTaken(State(), user, name)
      ensures r.Some? ==> IsFile(State(), user, name, r.value)
    {
      if f :| f in files && IsFile(State(), user, name, f) {
        return Some(f);
      }
      return None;
    }

    method ListChunks(user: UserId, file: FileId) returns (r: seq<nat>)
      ensures Ascends(r) && forall n :: n in r <==> n in Indices(State(), user, file)
    {
      var rest := Indices(State(), user, file);
      r := [];
      while rest != {}
        invariant Ascends(r) && rest <= Indices(State(), user, file)
        invariant forall n :: n in r <==> n in Indices(State(), user, file) && n !in rest
        decreases |rest|
      {
        var n :| n in rest;
        rest := rest - {n};
        r := Insert(r, n);
      }
    }

    method ListVirtualFiles(user: UserId, pick: string -> bool, leq: NameOrder) returns (r: seq<FileId>)
      requires TotalOrder(leq)
      ensures Sorted(State(), user, pick, leq, r)
    {
      hide TotalOrder;
      var db := State();
      var rest := set f | f in db.files && Wanted(db, user, pick, f);
      r := [];
      while rest != {}
        invariant rest <= db.files.Keys && forall f :: f in rest ==> Wanted(db, user, pick, f)
        invariant forall f :: f in r <==> Wanted(db, user, pick, f) && f !in rest
        invariant forall i, j :: 0 <= i < j < |r| ==> r[i] != r[j] && InOrder(db, leq, r[i], r[j])
        invariant forall i, g :: 0 <= i < |r| && g in rest ==> InOrder(db, leq, r[i], g)
        decreases |rest|
      {
        ghost var least := LeastExists(db.files, rest, leq);
        var f :| f in rest && forall g :: g in rest ==> leq(db.files[f].name, db.files[g].name);
        rest := rest - {f};
        assert f !in r;
        r := r + [f];
      }
    }

    /** AddAccount. `broken` is a database that refuses the statement. */
    method AddAccount(user: UserId, id: AccountId, tag: string, broken: bool) returns (ok: bool)
      modifies this
      ensures ok == (!broken && Accepts(old(State()), user, Op.AddAccount(id, tag)))
      ensures State() == if ok then Exec(old(State()), user, Op.AddAccount(id, tag)) else old(State())
    {
      var taken := FindAccount(user, tag);
      ok := !broken && id !in accounts && taken.None?;
      if ok {
        accounts := accounts[id := AccountRow(user, tag)];
      }
    }

    method RemoveAccount(user: UserId, tag: string, broken: bool) returns (ok: bool)
      modifies this
      ensures ok == (!broken && LabelTaken(old(State()), user, tag))
      ensures State() == if ok then Exec(old(State()), user, DropAccount(tag)) else old(State())
    {
      var found := FindAccount(user, tag);
      ok := !broken && found.Some?;
      if ok {
        var gone := Labelled(State(), user, tag);
        accounts := accounts - gone;
        chunks := map k | k in chunks ::
          if chunks[k].account.Some? && chunks[k].account.value in gone then chunks[k].(account := None) else chunks[k];
      }
    }

    method CountActiveChunks(user: UserId, account: AccountId) returns (n: nat)
      ensures n == |Active(State(), user, account)|
      ensures forall k :: k in Active(State(), user, account) <==> LiveOn(State(), user, account, k)
      ensures n > 0 <==> exists k :: LiveOn(State(), user, account, k)
    {
      ActiveIff(State(), user, account);
      n := |Active(State(), user, account)|;
    }

    method CreateVirtualFile(user: UserId, row: FileRow, broken: bool) returns (id: Option<FileId>)
      modifies this
      ensures id.Some? == (!broken && !NameTaken(old(State()), user, row.name))
      ensures id.Some? ==> id.value == old(nextFile) && State() == Exec(old(State()), user, CreateFile(row))
      ensures id.None? ==> State() == old(State())
    {
      var found := FindFile(user, row.name);
      if broken || found.Some? {
        return None;
      }
      id := Some(nextFile);
      files := files[nextFile := row.(user := user)];
      nextFile := nextFile + 1;
    }

    method SetVirtualFileStatus(user: UserId, file: FileId, status: Status, broken: bool) returns (ok: bool)
      modifies this
      ensures ok == !broken
      ensures State() == if ok then Exec(old(State()), user, SetStatus(file, status)) else old(State())
    {
      ok := !broken;
      if ok && file in files && files[file].user == user {
        files := files[file := files[file].(status := status)];
      }
      assert ok ==> files == Exec(old(State()), user, SetStatus(file, status)).files;
    }

    method DeleteVirtualFile(user: UserId, name: string, purge: bool, broken: bool) returns (ok: bool)
      modifies this
      ensures ok == (!broken && (purge || NameTaken(old(State()), user, name)))
      ensures State() == if !ok then old(State())
                         else Exec(old(State()), user, if purge then PurgeFile(name) else HideFile(name))
    {
      var found := FindFile(user, name);
      ok := !broken && (purge || found.Some?);
      if ok {
        var which := Named(State(), user, name);
        if purge {
          files := files - which;
          chunks := map k | k in chunks && k.file !in which :: chunks[k];
        } else {
          files := map f | f in files :: if f in which then files[f].(status := Deleted) else files[f];
        }
      }
    }

    method AddChunk(user: UserId, slot: Slot, chunk: ChunkRow, broken: bool) returns (ok: bool)
      modifies this
      ensures ok == (!broken && Accepts(old(State()), user, Op.AddChunk(slot, chunk)))
      ensures State() == if ok then Exec(old(State()), user, Op.AddChunk(slot, chunk)) else old(State())
    {
      ok := !broken && slot !in chunks && slot.file in files &&
            (chunk.account.Some? ==> chunk.account.value in accounts);
      if ok {
        chunks := chunks[slot := chunk.(user := user)];
      }
    }
  }
}
