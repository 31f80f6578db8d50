/** Whole runs of a pool: any sequence of puts, gets, removals and account removals, each
    under its own failures and schedules, against a plain map from names to bytes. */
module Session {
  import opened Prelude
  import opened Codec
  import opened Manifest
  import opened Drive
  import L = Ledger
  import G = Getting
  import V = Leaving
  import O = Outcome
  import Placement
  import opened Pool

  /** A put's folder name is drawn at random when it runs. */
  datatype Command =
    | PutFile(name: string, data: Bytes, env: PutEnv)
    | GetFile(name: string, get: G.GetEnv)
    | RemoveFile(name: string, purge: bool, deletesFail: bool, writesFail: bool)
    | DropAccount(tag: string, unreadable: bool, force: bool, writesFail: bool)

  datatype Reply = Reply(ok: bool, bytes: Bytes)

  type View = map<string, L.Entry>

  predicate Formed(cmd: Command) {
    cmd.PutFile? ==> cmd.env.avail <= |cmd.data| && (cmd.env.calm ==> cmd.env.avail == |cmd.data| && !cmd.env.lossy)
  }

  /** Calls that fail have no effect, remote deletes and manifest writes succeed. Reads of
      the source, placement and uploads may still fail. */
  predicate Tidy(cmd: Command) {
    match cmd
    case PutFile(_, _, env) => Harmless(env)
    case GetFile(_, _) => true
    case RemoveFile(_, _, deletesFail, writesFail) => !deletesFail && !writesFail
    case DropAccount(_, _, _, writesFail) => !writesFail
  }

  predicate Loyal(cmd: Command) {
    cmd.DropAccount? ==> !cmd.force
  }

  /** The command as an operation on a plain map, with the failures it may report. */
  ghost predicate Meets(m: View, cmd: Command, r: Reply, n: View) {
    match cmd
    case PutFile(name, data, env) =>
      && (r.ok ==> name !in m && n == m[name := L.Entry(data, false)])
      && (!r.ok ==> n == m || (O.Partial(env.writes) && name !in m && n == m[name := L.Entry(data, false)]))
    case GetFile(name, env) =>
      && n == m
      && (name in m ==> r.bytes <= m[name].bytes && (r.ok ==> r.bytes == m[name].bytes))
      && (name !in m ==> !r.ok && r.bytes == [])
    case RemoveFile(name, purge, deletesFail, writesFail) =>
      && (r.ok ==> name in m && n == if purge then m - {name} else m[name := m[name].(hidden := true)])
      && (!r.ok ==> n == m && (name in m ==> deletesFail || writesFail))
    case DropAccount(_, _, _, _) => n == m
  }

  /** The command is a removal of that name which succeeded, or tried to purge it. */
  predicate Touches(cmd: Command, r: Reply, name: string) {
    cmd.RemoveFile? && cmd.name == name && (r.ok || cmd.purge)
  }

  /** The file's row is the same, and it is torn only if it was. */
  ghost predicate FileStays(b: L.Book, c: L.Book, f: FileId) {
    f in b.db.files && f in c.db.files && c.db.files[f] == b.db.files[f] && (f in c.torn ==> f in b.torn)
  }

  ghost predicate OthersStay(b: L.Book, cmd: Command, r: Reply, c: L.Book) {
    forall f :: OwnFile(b.db, b.user, f) && !Touches(cmd, r, b.db.files[f].name) ==> FileStays(b, c, f)
  }

  /** Torn files are older than any file to come. */
  ghost predicate TornOld(b: L.Book) {
    forall f :: f in b.torn ==> f < b.db.nextFile
  }

  /** `f` is the complete file of that name, and no purge of it was tried. */
  ghost predicate Sound(b: L.Book, name: string, f: FileId) {
    IsFile(b.db, b.user, name, f) && b.db.files[f].status == Complete && f !in b.torn
  }

  /** One command takes the books from `b` to `c`. */
  ghost predicate Step(b: L.Book, cmd: Command, r: Reply, c: L.Book) {
    && L.Inv(b) && L.Inv(c) && L.Viewable(b) && L.Viewable(c) && c.user == b.user
    && OthersSame(b.db, c.db, b.user)
    && Meets(L.Abs(b), cmd, r, L.Abs(c))
    && (Tidy(cmd) && L.Clean(b) ==> L.Clean(c))
    && (Loyal(cmd) && L.Connected(b) ==> L.Connected(c))
    && (G.AllHealthy(b) ==> G.AllHealthy(c)) && (TornOld(b) ==> TornOld(c)) && OthersStay(b, cmd, r, c)
    && (cmd.PutFile? && r.ok && TornOld(b) ==> exists f :: Sound(c, cmd.name, f))
    && (cmd.GetFile? && G.Quiet(cmd.get) ==> (r.ok <==> G.CanFetch(b, cmd.name, cmd.get.eager)))
  }

  // ---- runs ----

  ghost predicate IsTrace(books: seq<L.Book>, cmds: seq<Command>, replies: seq<Reply>) {
    && |books| == |cmds| + 1 && |replies| == |cmds|
    && forall i :: 0 <= i < |cmds| ==> Step(books[i], cmds[i], replies[i], books[i + 1])
  }

  /** While deletes and writes succeed the books stay clean, so that manifest and remote
      state agree after every command, failed puts included. */
  lemma {:induction false} CleanThroughout(books: seq<L.Book>, cmds: seq<Command>, replies: seq<Reply>, i: nat)
    requires IsTrace(books, cmds, replies) && i < |books| && L.Inv(books[0]) && L.Clean(books[0])
    requires forall k :: 0 <= k < |cmds| ==> Tidy(cmds[k])
    ensures L.Inv(books[i]) && L.Clean(books[i])
    ensures forall l: Loc :: L.Healthy(books[i], l.account) ==>
      (L.Live(books[i], l) <==> L.Claimed(books[i].db, books[i].user, l))
  {
    hide L.Inv, L.Connected, L.Viewable, L.Live, L.Claimed, Meets, OthersSame;
    if i > 0 {
      CleanThroughout(books, cmds, replies, i - 1);
      assert Step(books[i - 1], cmds[i - 1], replies[i - 1], books[i]);
    }
    forall l: Loc | L.Healthy(books[i], l.account)
      ensures L.Live(books[i], l) <==> L.Claimed(books[i].db, books[i].user, l)
    {
      L.Agreement(books[i], l);
    }
  }

  /** Without forced removals no live file ever loses an account, so none is ever listed
      as degraded. Failures of any kind do not matter. */
  lemma {:induction false} ConnectedThroughout(books: seq<L.Book>, cmds: seq<Command>, replies: seq<Reply>, i: nat)
    requires IsTrace(books, cmds, replies) && i < |books| && L.Inv(books[0]) && L.Connected(books[0])
    requires forall k :: 0 <= k < |cmds| ==> Loyal(cmds[k])
    ensures L.Inv(books[i]) && L.Connected(books[i])
    ensures forall f :: OwnFile(books[i].db, books[i].user, f) && books[i].db.files[f].status != Deleted ==>
      !V.Degraded(books[i], f)
  {
    hide L.Inv, L.Connected, L.Clean, V.Degraded, L.Viewable, Meets, OthersSame, L.MembersOk;
    if i > 0 {
      ConnectedThroughout(books, cmds, replies, i - 1);
      assert Step(books[i - 1], cmds[i - 1], replies[i - 1], books[i]);
    }
    L.InvParts(books[i]);
    forall f | OwnFile(books[i].db, books[i].user, f) && books[i].db.files[f].status != Deleted
      ensures !V.Degraded(books[i], f)
    {
      V.ConnectedNotDegraded(books[i], f);
    }
  }

  lemma {:induction false} HealthyThroughout(books: seq<L.Book>, cmds: seq<Command>, replies: seq<Reply>, i: nat)
    requires IsTrace(books, cmds, replies) && i < |books| && G.AllHealthy(books[0])
    ensures G.AllHealthy(books[i])
  {
    if i > 0 {
      HealthyThroughout(books, cmds, replies, i - 1);
      assert Step(books[i - 1], cmds[i - 1], replies[i - 1], books[i]);
    }
  }

  /** No row of another user changes in the whole run. */
  lemma {:induction false} TenantsApart(books: seq<L.Book>, cmds: seq<Command>, replies: seq<Reply>, i: nat)
    requires IsTrace(books, cmds, replies) && i < |books|
    ensures books[i].user == books[0].user && OthersSame(books[0].db, books[i].db, books[0].user)
  {
    hide OthersSame;
    if i > 0 {
      TenantsApart(books, cmds, replies, i - 1);
      assert Step(books[i - 1], cmds[i - 1], replies[i - 1], books[i]);
      OthersSameTrans(books[0].db, books[i - 1].db, books[i].db, books[0].user);
    } else {
      OthersSameRefl(books[0].db, books[0].user);
    }
  }

  /** What a command with this reply does to a plain map. */
  ghost function Effect(m: View, cmd: Command, ok: bool): View {
    if !ok then m
    else if cmd.PutFile? then m[cmd.name := L.Entry(cmd.data, false)]
    else if cmd.RemoveFile? && cmd.purge then m - {cmd.name}
    else if cmd.RemoveFile? && cmd.name in m then m[cmd.name := m[cmd.name].(hidden := true)]
    else m
  }

  ghost function Replay(m: View, cmds: seq<Command>, replies: seq<Reply>): View
    requires |replies| == |cmds|
  {
    if cmds == [] then m
    else
      var i := |cmds| - 1;
      Effect(Replay(m, cmds[..i], replies[..i]), cmds[i], replies[i].ok)
  }

  /** No manifest write of a put fails after that of its file. */
  predicate Entire(cmd: Command) {
    cmd.PutFile? ==> !O.Partial(cmd.env.writes)
  }

  lemma StepEffect(b: L.Book, cmd: Command, r: Reply, c: L.Book)
    requires Step(b, cmd, r, c) && Entire(cmd)
    ensures L.Viewable(b) && L.Viewable(c) && L.Abs(c) == Effect(L.Abs(b), cmd, r.ok)
  {
    hide L.Inv, L.Connected, L.Clean, OthersSame, L.Abs, L.Viewable;
    hide G.AllHealthy, G.CanFetch, OthersStay, TornOld, Sound;
  }

  /** The pool refines the plain map: what a user sees after any run is what the successful
      commands do to a map, whatever failed in between, lost uploads, failing deletes and
      interrupted purges included, short of a manifest write of a put that had already
      written its file. */
  lemma {:induction false} RunRefinesMap(books: seq<L.Book>, cmds: seq<Command>, replies: seq<Reply>)
    requires IsTrace(books, cmds, replies) && L.Viewable(books[0])
    requires forall k :: 0 <= k < |cmds| ==> Entire(cmds[k])
    ensures L.Viewable(books[|cmds|]) && L.Abs(books[|cmds|]) == Replay(L.Abs(books[0]), cmds, replies)
    decreases |cmds|
  {
    hide L.Abs, L.Viewable, Step, Effect;
    if cmds != [] {
      var i := |cmds| - 1;
      TraceFront(books, cmds, replies, i);
      RunRefinesMap(books[..i + 1], cmds[..i], replies[..i]);
      StepEffect(books[i], cmds[i], replies[i], books[i + 1]);
    }
  }

  lemma TraceFront(books: seq<L.Book>, cmds: seq<Command>, replies: seq<Reply>, i: nat)
    requires IsTrace(books, cmds, replies) && i <= |cmds|
    ensures IsTrace(books[..i + 1], cmds[..i], replies[..i])
  {
    forall k | 0 <= k < i ensures Step(books[..i + 1][k], cmds[..i][k], replies[..i][k], books[..i + 1][k + 1]) {
      assert Step(books[k], cmds[k], replies[k], books[k + 1]);
    }
  }

  /** What was put stays under its name until a removal of that name succeeds. */
  lemma {:induction false} PutStays(books: seq<L.Book>, cmds: seq<Command>, replies: seq<Reply>, i: nat, j: nat)
    requires IsTrace(books, cmds, replies) && i < j <= |cmds| && cmds[i].PutFile? && replies[i].ok
    requires forall k :: i < k < j && cmds[k].RemoveFile? && cmds[k].name == cmds[i].name ==> !replies[k].ok
    ensures L.Viewable(books[j]) && cmds[i].name in L.Abs(books[j])
    ensures L.Abs(books[j])[cmds[i].name] == L.Entry(cmds[i].data, false)
    decreases j
  {
    hide L.Abs, L.Viewable, L.Inv, L.Connected, L.Clean, OthersSame;
    var last := j - 1;
    assert Step(books[last], cmds[last], replies[last], books[last + 1]);
    if last > i {
      PutStays(books, cmds, replies, i, last);
    }
  }

  /** The file of a successful put stays complete and untorn until a removal of its name
      succeeds or a purge of it is tried. */
  lemma {:induction false} PutStaysSound(books: seq<L.Book>, cmds: seq<Command>, replies: seq<Reply>, i: nat, j: nat)
      returns (f: FileId)
    requires IsTrace(books, cmds, replies) && i < j <= |cmds| && cmds[i].PutFile? && replies[i].ok && TornOld(books[i])
    requires forall k :: i < k < j ==> !Touches(cmds[k], replies[k], cmds[i].name)
    ensures Sound(books[j], cmds[i].name, f)
    decreases j
  {
    hide L.Inv, L.Connected, L.Clean, OthersSame, L.Abs, L.Viewable, G.AllHealthy, G.CanFetch, Meets, TornOld;
    var last := j - 1;
    assert Step(books[last], cmds[last], replies[last], books[last + 1]);
    if last > i {
      f := PutStaysSound(books, cmds, replies, i, last);
      assert OwnFile(books[last].db, books[last].user, f);
      assert FileStays(books[last], books[last + 1], f);
    } else {
      f :| Sound(books[j], cmds[i].name, f);
    }
  }

  lemma {:induction false} TornOldThroughout(books: seq<L.Book>, cmds: seq<Command>, replies: seq<Reply>, i: nat)
    requires IsTrace(books, cmds, replies) && i < |books| && TornOld(books[0])
    ensures TornOld(books[i])
  {
    hide TornOld;
    if i > 0 {
      TornOldThroughout(books, cmds, replies, i - 1);
      assert Step(books[i - 1], cmds[i - 1], replies[i - 1], books[i]);
    }
  }

  /** Read your writes: in every run without forced removals on healthy accounts, whatever
      fails in it, under whatever schedules, a get in quiet surroundings returns exactly the
      bytes of the put, provided that in between no removal of that name succeeded and no
      purge of it was tried. The one exception is an empty file whose reader reports its
      end together with the vector. */
  lemma ReadBack(books: seq<L.Book>, cmds: seq<Command>, replies: seq<Reply>, i: nat, j: nat)
    requires IsTrace(books, cmds, replies) && i < j < |cmds| && cmds[i].PutFile? && replies[i].ok
    requires cmds[j].GetFile? && cmds[j].name == cmds[i].name && G.Quiet(cmds[j].get)
    requires forall k :: i < k < j && cmds[k].RemoveFile? && cmds[k].name == cmds[i].name ==>
      !replies[k].ok && !cmds[k].purge
    requires forall k :: 0 <= k < |cmds| ==> Loyal(cmds[k])
    requires L.Inv(books[0]) && L.Connected(books[0]) && G.AllHealthy(books[0]) && TornOld(books[0])
    ensures replies[j].ok <==> !(cmds[i].data == [] && 0 in cmds[j].get.eager)
    ensures replies[j].ok ==> replies[j].bytes == cmds[i].data
  {
    hide L.Inv, L.Connected, G.AllHealthy, G.CanFetch, L.Abs, L.Viewable;
    hide TornOld, Sound, OthersSame, OthersStay, L.Clean;
    PutStays(books, cmds, replies, i, j);
    ConnectedThroughout(books, cmds, replies, j);
    HealthyThroughout(books, cmds, replies, j);
    TornOldThroughout(books, cmds, replies, i);
    var f := PutStaysSound(books, cmds, replies, i, j);
    SoundFetchable(books[j], cmds[j].name, f, cmds[i].data, cmds[j].get.eager);
    assert Step(books[j], cmds[j], replies[j], books[j + 1]);
  }

  lemma SoundFetchable(b: L.Book, name: string, f: FileId, data: Bytes, eager: set<nat>)
    requires L.Inv(b) && L.Connected(b) && G.AllHealthy(b) && L.Viewable(b) && Sound(b, name, f)
    requires name in L.Abs(b) && L.Abs(b)[name] == L.Entry(data, false)
    ensures G.CanFetch(b, name, eager) <==> !(data == [] && 0 in eager)
  {
    hide L.Inv, L.Connected, G.AllHealthy, G.Fetchable;
    assert OwnFile(b.db, b.user, f);
    L.AbsAt(b, f);
    L.UniqueFile(b.db, b.user, name, f);
    G.CompleteIsFetchable(b, f);
  }

  // ---- the driver ----

  lemma {:induction false} FreshFolder(stores: Stores) returns (name: string)
    ensures FreshName(stores, name)
  {
    var names := set a, f | a in stores && f in stores[a].folders :: stores[a].folders[f];
    name := FreshId(names);
  }

  lemma PutOthers(b: L.Book, cmd: Command, r: Reply, c: L.Book)
    requires cmd.PutFile? && FilesKept(b.db, c.db) && c.torn == b.torn
    ensures OthersStay(b, cmd, r, c) && (TornOld(b) ==> TornOld(c))
  {
  }

  lemma PutSound(b: L.Book, c: L.Book, members: map<AccountId, L.Member>, quotas: Placement.Quotas, row: FileRow)
    requires StoredAs(c.db, b.db.nextFile, members, quotas, row) && row.user == c.user && c.torn == b.torn
    ensures TornOld(b) ==> Sound(c, row.name, b.db.nextFile)
  {
  }

  method DoPut(pool: Pool, cmd: Command) returns (r: Reply)
    requires pool.Valid() && Formed(cmd) && cmd.PutFile?
    modifies pool, pool.manifest, pool.drive
    ensures pool.Valid() && Step(old(pool.Book()), cmd, r, pool.Book())
  {
    hide L.Inv, L.Clean, L.Connected, L.Abs, L.Viewable, OthersSame, Lawful;
    hide NameTaken, Ran, Room, Completed, Candidates, O.AllWritten;
    hide FilesKept, OthersStay, TornOld, Sound, IsFile, StoredAs, Enough, Answered;
    ghost var b := pool.Book();
    L.InvParts(b);
    ghost var some := FreshFolder(pool.drive.stores);
    var folder: string :| FreshName(pool.drive.stores, folder);
    var ok, run := pool.PutStream(cmd.data, cmd.name, cmd.env.(folderName := folder));
    L.InvParts(pool.Book());
    r := Reply(ok, []);
    PutOthers(b, cmd, r, pool.Book());
    if ok {
      PutSound(b, pool.Book(), pool.members, cmd.env.quotas,
               FileRow(pool.user, cmd.name, |cmd.data|, pool.ChunkSize(), pool.suite.sha256(cmd.data),
                       cmd.env.key, Complete));
    }
  }

  lemma NothingChanged(b: L.Book, cmd: Command, r: Reply)
    ensures OthersStay(b, cmd, r, b)
  {
  }

  method DoGet(pool: Pool, cmd: Command) returns (r: Reply)
    requires pool.Valid() && cmd.GetFile?
    modifies pool, pool.manifest, pool.drive
    ensures pool.Valid() && Step(old(pool.Book()), cmd, r, pool.Book())
  {
    hide L.Inv, L.Clean, L.Connected, L.Abs, L.Viewable, G.CanFetch, OthersSame, Lawful, OthersStay, TornOld;
    L.InvParts(pool.Book());
    OthersSameRefl(pool.manifest.State(), pool.user);
    var out, ok, run := pool.GetStream(cmd.name, cmd.get);
    r := Reply(ok, out);
    NothingChanged(pool.Book(), cmd, r);
  }

  /** A removal leaves the files of other names alone, and tears only the one it purges. */
  lemma RemoveOthers(b: L.Book, cmd: Command, r: Reply, c: L.Book)
    requires cmd.RemoveFile? && Sane(b.db) && c.user == b.user
    requires c.db ==
      if !r.ok then b.db else Exec(b.db, b.user, if cmd.purge then PurgeFile(cmd.name) else HideFile(cmd.name))
    requires forall f :: IsFile(b.db, b.user, cmd.name, f) ==> c.torn <= b.torn + {f}
    requires !cmd.purge || !NameTaken(b.db, b.user, cmd.name) ==> c.torn == b.torn
    ensures OthersStay(b, cmd, r, c) && (TornOld(b) ==> TornOld(c))
  {
    hide Sane;
    forall f | OwnFile(b.db, b.user, f) && !Touches(cmd, r, b.db.files[f].name) ensures FileStays(b, c, f) {
      if cmd.name == b.db.files[f].name {
        assert IsFile(b.db, b.user, cmd.name, f);
      }
      if g: FileId :| IsFile(b.db, b.user, cmd.name, g) {
        assert c.torn <= b.torn + {g};
      }
    }
    if TornOld(b) {
      RemoveTornOld(b, cmd.name, c);
    }
  }

  lemma RemoveTornOld(b: L.Book, name: string, c: L.Book)
    requires Sane(b.db) && TornOld(b) && c.db.nextFile == b.db.nextFile
    requires forall f :: IsFile(b.db, b.user, name, f) ==> c.torn <= b.torn + {f}
    requires !NameTaken(b.db, b.user, name) ==> c.torn == b.torn
    ensures TornOld(c)
  {
    if f: FileId :| IsFile(b.db, b.user, name, f) {
      assert c.torn <= b.torn + {f} && f < b.db.nextFile;
    }
  }

  method DoRemove(pool: Pool, cmd: Command) returns (r: Reply)
    requires pool.Valid() && cmd.RemoveFile?
    modifies pool, pool.manifest, pool.drive
    ensures pool.Valid() && Step(old(pool.Book()), cmd, r, pool.Book())
  {
    hide L.Inv, L.Clean, L.Connected, L.Abs, L.Viewable, OthersSame, Lawful, OthersStay, TornOld, NameTaken, Sane;
    ghost var b := pool.Book();
    L.InvParts(b);
    L.AbsTaken(b, cmd.name);
    var ok := pool.Remove(cmd.name, cmd.purge, cmd.deletesFail, cmd.writesFail);
    L.InvParts(pool.Book());
    r := Reply(ok, []);
    RemoveOthers(b, cmd, r, pool.Book());
  }

  lemma DropOthers(b: L.Book, cmd: Command, r: Reply, c: L.Book)
    requires cmd.DropAccount? && c.db.files == b.db.files && c.db.nextFile == b.db.nextFile && c.torn == b.torn
    ensures OthersStay(b, cmd, r, c) && (TornOld(b) ==> TornOld(c))
  {
  }

  method DoDrop(pool: Pool, cmd: Command) returns (r: Reply)
    requires pool.Valid() && cmd.DropAccount?
    modifies pool, pool.manifest, pool.drive
    ensures pool.Valid() && Step(old(pool.Book()), cmd, r, pool.Book())
  {
    hide L.Inv, L.Clean, L.Connected, L.Abs, L.Viewable, OthersSame, Lawful, OthersStay, TornOld, V.ReadsKept;
    ghost var b := pool.Book();
    L.InvParts(b);
    var res := pool.RemoveAccount(cmd.tag, cmd.unreadable, cmd.force, cmd.writesFail);
    L.InvParts(pool.Book());
    r := Reply(res == V.Removed, []);
    DropOthers(b, cmd, r, pool.Book());
  }

  /** One command, carried out by the pool. */
  method Do(pool: Pool, cmd: Command) returns (r: Reply)
    requires pool.Valid() && Formed(cmd)
    modifies pool, pool.manifest, pool.drive
    ensures pool.Valid() && Step(old(pool.Book()), cmd, r, pool.Book())
  {
    hide L.Inv, Lawful, Step;
    match cmd
    case PutFile(_, _, _) => r := DoPut(pool, cmd);
    case GetFile(_, _) => r := DoGet(pool, cmd);
    case RemoveFile(_, _, _, _) => r := DoRemove(pool, cmd);
    case DropAccount(_, _, _, _) => r := DoDrop(pool, cmd);
  }

  /** Every run of commands is a trace. */
  method Run(pool: Pool, cmds: seq<Command>) returns (replies: seq<Reply>, ghost books: seq<L.Book>)
    requires pool.Valid() && forall i :: 0 <= i < |cmds| ==> Formed(cmds[i])
    modifies pool, pool.manifest, pool.drive
    ensures pool.Valid() && IsTrace(books, cmds, replies)
    ensures books[0] == old(pool.Book()) && books[|cmds|] == pool.Book()
  {
    hide Step, Lawful, L.Inv;
    replies, books := [], [pool.Book()];
    for i := 0 to |cmds|
      invariant pool.Valid() && |replies| == i && |books| == i + 1
      invariant books[0] == old(pool.Book()) && books[i] == pool.Book()
      invariant forall k :: 0 <= k < i ==> Step(books[k], cmds[k], replies[k], books[k + 1])
    {
      var r := Do(pool, cmds[i]);
      replies, books := replies + [r], books + [pool.Book()];
    }
  }
}
