/** What an account's removal does to the files (RemoveAccount and ListWithAccounts,
    drivepool/pool.go). */
module Leaving {
  import opened Prelude
  import opened Codec
  import opened Manifest
  import opened Drive
  import opened Placement
  import L = Ledger
  import G = Getting

  datatype Removal = Removed | NoSuchAccount | Unreadable | InUse | Failed

  /** A row of a file that is not deleted. */
  ghost predicate LiveRow(b: L.Book, k: Slot) {
    OwnChunk(b.db, b.user, k) && k.file in b.db.files && b.db.files[k.file].status != Deleted
  }

  /** GetStream of `f` cannot tell the two apart: it lists the same rows and hands its
      workers the same plan. */
  ghost predicate SameReads(b: L.Book, c: L.Book, f: FileId)
    requires f in b.db.files
  {
    && f in c.db.files && c.db.files[f] == b.db.files[f]
    && (forall idxs :: G.Listing(b.db, b.user, f, idxs) <==> G.Listing(c.db, c.user, f, idxs))
    && (forall idxs, par, env :: G.Listing(b.db, b.user, f, idxs) ==> SamePlan(b, c, f, idxs, par, env))
  }

  ghost predicate SamePlan(b: L.Book, c: L.Book, f: FileId, idxs: seq<nat>, par: nat, env: G.GetEnv)
    requires f in b.db.files && f in c.db.files
  {
    && (forall i :: 0 <= i < |idxs| ==> Slot(f, idxs[i]) in b.db.chunks && Slot(f, idxs[i]) in c.db.chunks)
    && G.PlanOf(b, f, idxs, par, env) == G.PlanOf(c, f, idxs, par, env)
  }

  /** Every file that is not deleted reads as before. */
  ghost predicate ReadsKept(b: L.Book, c: L.Book) {
    forall f :: OwnFile(b.db, b.user, f) && b.db.files[f].status != Deleted ==> SameReads(b, c, f)
  }

  lemma ReadsSame(b: L.Book)
    ensures ReadsKept(b, b)
  {
    forall f | OwnFile(b.db, b.user, f) ensures SameReads(b, b, f) {
      forall idxs, par, env | G.Listing(b.db, b.user, f, idxs) ensures SamePlan(b, b, f, idxs, par, env) {
        forall i | 0 <= i < |idxs| ensures Slot(f, idxs[i]) in b.db.chunks {
          G.ListedRow(b.db, b.user, f, idxs, idxs[i]);
        }
      }
    }
  }

  lemma RowKept(b: L.Book, a: AccountId, k: Slot)
    requires Active(b.db, b.user, a) == {} && LiveRow(b, k)
    ensures var d := WithoutAccounts(b.db, {a}); k in d.chunks && d.chunks[k] == b.db.chunks[k]
    ensures b.db.chunks[k].account != Some(a)
  {
    assert k !in Active(b.db, b.user, a);
  }

  /** Without active chunks on the account, its removal is invisible to every live file. */
  lemma IdleRemovalKeepsReads(b: L.Book, a: AccountId, tag: string)
    requires Sane(b.db) && Active(b.db, b.user, a) == {} && a in b.db.accounts
    requires b.db.accounts[a] == AccountRow(b.user, tag)
    ensures ReadsKept(b, L.Disconnected(b, a, tag))
  {
    var c := L.Disconnected(b, a, tag);
    L.DropDb(b.db, b.user, a, tag);
    forall f | OwnFile(b.db, b.user, f) && b.db.files[f].status != Deleted ensures SameReads(b, c, f) {
      assert Indices(c.db, c.user, f) == Indices(b.db, b.user, f);
      forall idxs, par, env | G.Listing(b.db, b.user, f, idxs) ensures SamePlan(b, c, f, idxs, par, env) {
        IdleRemovalKeepsPlan(b, a, tag, f, idxs, par, env);
      }
    }
  }

  lemma IdleRemovalKeepsPlan(b: L.Book, a: AccountId, tag: string, f: FileId, idxs: seq<nat>, par: nat, env: G.GetEnv)
    requires Active(b.db, b.user, a) == {} && L.Disconnected(b, a, tag).db == WithoutAccounts(b.db, {a})
    requires OwnFile(b.db, b.user, f) && b.db.files[f].status != Deleted && G.Listing(b.db, b.user, f, idxs)
    ensures SamePlan(b, L.Disconnected(b, a, tag), f, idxs, par, env)
  {
    var c := L.Disconnected(b, a, tag);
    forall i | 0 <= i < |idxs|
      ensures Slot(f, idxs[i]) in b.db.chunks && Slot(f, idxs[i]) in c.db.chunks
      ensures G.ItemOf(b.members, b.stores, b.db.chunks[Slot(f, idxs[i])]) ==
              G.ItemOf(c.members, c.stores, c.db.chunks[Slot(f, idxs[i])])
    {
      G.ListedRow(b.db, b.user, f, idxs, idxs[i]);
      RowKept(b, a, Slot(f, idxs[i]));
    }
  }

  lemma IdleRemovalKeepsConnected(b: L.Book, a: AccountId, tag: string)
    requires Sane(b.db) && Active(b.db, b.user, a) == {} && a in b.db.accounts
    requires b.db.accounts[a] == AccountRow(b.user, tag)
    ensures L.Connected(b) ==> L.Connected(L.Disconnected(b, a, tag))
  {
    var c := L.Disconnected(b, a, tag);
    L.DropDb(b.db, b.user, a, tag);
    forall k | LiveRow(c, k)
      ensures LiveRow(b, k) && c.db.chunks[k] == b.db.chunks[k] && c.db.chunks[k].account != Some(a)
    {
      assert LiveRow(b, k);
      RowKept(b, a, k);
    }
  }

  /** Even a forced removal keeps every file and every row's place. */
  lemma RemovalKeepsView(b: L.Book, a: AccountId, tag: string)
    requires L.Inv(b) && a in b.db.accounts && b.db.accounts[a] == AccountRow(b.user, tag)
    ensures var c := L.Disconnected(b, a, tag);
      L.Inv(c) && L.Abs(c) == L.Abs(b) && (L.Clean(b) ==> L.Clean(c))
  {
    var c := L.Disconnected(b, a, tag);
    L.DisconnectKeeps(b, a, tag);
    L.DropDb(b.db, b.user, a, tag);
    L.AbsSame(b, c);
    if L.Clean(b) {
      forall g | OwnFile(c.db, c.user, g) ensures L.Whole(c.db, c.user, g) {
        assert OwnFile(b.db, b.user, g);
        L.WholeKept(b.db, c.db, b.user, g);
      }
    }
  }

  // ---- listing ----

  datatype FileInfo = FileInfo(size: nat, accounts: seq<string>, degraded: bool)

  /** The row's account is gone, from the manifest or from the pool. */
  ghost predicate Lost(b: L.Book, k: Slot) {
    k in b.db.chunks && (b.db.chunks[k].account.None? || b.db.chunks[k].account.value !in b.members)
  }

  ghost predicate Degraded(b: L.Book, f: FileId) {
    exists k :: OwnChunk(b.db, b.user, k) && k.file == f && Lost(b, k)
  }

  /** The members of `s` in the order in which they first occur. */
  function FirstSeen<T(==)>(s: seq<T>): seq<T> {
    if s == [] then []
    else
      var t := FirstSeen(s[..|s| - 1]);
      if s[|s| - 1] in t then t else t + [s[|s| - 1]]
  }

  lemma {:induction false} FirstSeenOnce<T>(s: seq<T>)
    ensures forall x :: x in FirstSeen(s) <==> x in s
    ensures forall i, j :: 0 <= i < j < |FirstSeen(s)| ==> FirstSeen(s)[i] != FirstSeen(s)[j]
  {
    if s != [] {
      FirstSeenOnce(s[..|s| - 1]);
      assert s == s[..|s| - 1] + [s[|s| - 1]];
    }
  }

  const DISCONNECTED := "disconnected"

  function LabelOf(members: map<AccountId, L.Member>, key: Option<AccountId>): string {
    if key.Some? && key.value in members then members[key.value].tag else DISCONNECTED
  }

  function LabelsOf(members: map<AccountId, L.Member>, keys: seq<Option<AccountId>>): (r: seq<string>)
    ensures |r| == |keys|
  {
    seq(|keys|, i requires 0 <= i < |keys| => LabelOf(members, keys[i]))
  }

  /** The accounts of the listed rows, in index order. */
  function KeysOf(chunks: map<Slot, ChunkRow>, f: FileId, idxs: seq<nat>): (r: seq<Option<AccountId>>)
    requires forall i :: 0 <= i < |idxs| ==> Slot(f, idxs[i]) in chunks
    ensures |r| == |idxs|
  {
    seq(|idxs|, i requires 0 <= i < |idxs| => chunks[Slot(f, idxs[i])].account)
  }

  /** One file's entry: the inner loop of ListWithAccounts. */
  method Describe(members: map<AccountId, L.Member>, keys: seq<Option<AccountId>>)
      returns (labels: seq<string>, degraded: bool)
    ensures labels == LabelsOf(members, FirstSeen(keys))
    ensures degraded <==> exists i :: 0 <= i < |keys| && (keys[i].None? || keys[i].value !in members)
  {
    var seen: set<Option<AccountId>> := {};
    labels, degraded := [], false;
    for i := 0 to |keys|
      invariant seen == set j | 0 <= j < i :: keys[j]
      invariant labels == LabelsOf(members, FirstSeen(keys[..i]))
      invariant degraded <==> exists j :: 0 <= j < i && (keys[j].None? || keys[j].value !in members)
    {
      var key := keys[i];
      FirstSeenOnce(keys[..i]);
      assert keys[..i + 1][..i] == keys[..i];
      assert key in seen <==> key in keys[..i];
      if key !in seen {
        seen := seen + {key};
        if key.None? || key.value !in members {
          degraded := true;
          labels := labels + [DISCONNECTED];
        } else {
          labels := labels + [members[key.value].tag];
        }
      }
    }
    assert keys[..|keys|] == keys;
  }

  lemma DegradedKeys(b: L.Book, f: FileId, idxs: seq<nat>)
    requires G.Listing(b.db, b.user, f, idxs) && forall i :: 0 <= i < |idxs| ==> Slot(f, idxs[i]) in b.db.chunks
    ensures var keys := KeysOf(b.db.chunks, f, idxs);
      (exists i :: 0 <= i < |keys| && (keys[i].None? || keys[i].value !in b.members)) <==> Degraded(b, f)
  {
    var keys := KeysOf(b.db.chunks, f, idxs);
    if i :| 0 <= i < |keys| && (keys[i].None? || keys[i].value !in b.members) {
      G.ListedRow(b.db, b.user, f, idxs, idxs[i]);
      assert Lost(b, Slot(f, idxs[i]));
    }
    if Degraded(b, f) {
      var k :| OwnChunk(b.db, b.user, k) && k.file == f && Lost(b, k);
      assert k == Slot(f, k.idx);
      G.ListedRow(b.db, b.user, f, idxs, k.idx);
      var i :| 0 <= i < |idxs| && idxs[i] == k.idx;
      assert keys[i] == b.db.chunks[k].account;
    }
  }

  /** Row `k` puts the label `x` on its file: the one its account has in the manifest, or,
      if the account is lost, that it is disconnected. */
  ghost predicate Shows(b: L.Book, k: Slot, x: string) {
    k in b.db.chunks &&
    if Lost(b, k) then x == "disconnected"
    else
      var a := b.db.chunks[k].account.value;
      a in b.db.accounts && b.db.accounts[a].tag == x
  }

  /** No earlier row of the file names the account of row `n`. */
  ghost predicate NewName(b: L.Book, f: FileId, n: nat) {
    Slot(f, n) in b.db.chunks && forall m: nat :: m < n ==> OtherName(b, f, m, n)
  }

  ghost predicate OtherName(b: L.Book, f: FileId, m: nat, n: nat)
    requires Slot(f, n) in b.db.chunks
  {
    Slot(f, m) in b.db.chunks ==> b.db.chunks[Slot(f, m)].account != b.db.chunks[Slot(f, n)].account
  }

  /** One label for each account, in the order in which the rows first name them. */
  ghost predicate InFirstOrder(b: L.Book, f: FileId, labels: seq<string>, firsts: seq<nat>) {
    && |firsts| == |labels| && Ascends(firsts)
    && (forall i :: 0 <= i < |firsts| ==> NewName(b, f, firsts[i]) && Shows(b, Slot(f, firsts[i]), labels[i]))
    && (forall n :: NewName(b, f, n) ==> n in firsts)
  }

  /** `info` is the right entry for file `f`. */
  ghost predicate Describes(b: L.Book, f: FileId, info: FileInfo) {
    && f in b.contents && info.size == |b.contents[f]| && (info.degraded <==> Degraded(b, f))
    && (forall x :: x in info.accounts <==> exists k :: OwnChunk(b.db, b.user, k) && k.file == f && Shows(b, k, x))
    && (exists firsts :: InFirstOrder(b, f, info.accounts, firsts))
  }

  /** `firsts` are the positions of the first occurrences, in the order of `seen`. */
  ghost predicate Firsts<T(!new)>(s: seq<T>, seen: seq<T>, firsts: seq<nat>) {
    && Ascends(firsts) && |firsts| == |seen|
    && (forall i :: 0 <= i < |firsts| ==> firsts[i] < |s| && s[firsts[i]] == seen[i])
    && (forall n: nat :: n in firsts <==> FirstAt(s, n))
  }

  predicate FirstAt<T(==)>(s: seq<T>, n: nat) {
    n < |s| && s[n] !in s[..n]
  }

  lemma FirstsFront<T(!new)>(front: seq<T>, last: T, seen: seq<T>, firsts: seq<nat>)
    requires Firsts(front, seen, firsts)
    ensures last in front ==> Firsts(front + [last], seen, firsts)
    ensures last !in front ==> Firsts(front + [last], seen + [last], firsts + [|front|])
  {
    var s := front + [last];
    forall n: nat | n < |front| ensures FirstAt(s, n) <==> FirstAt(front, n) {
      assert s[..n] == front[..n];
    }
    assert s[..|front|] == front;
    forall i | 0 <= i < |firsts| ensures firsts[i] < |front| && s[firsts[i]] == seen[i] {
      assert firsts[i] in firsts;
    }
  }

  lemma {:induction false} FirstSeenAt<T(!new)>(s: seq<T>) returns (firsts: seq<nat>)
    ensures Firsts(s, FirstSeen(s), firsts)
  {
    if s == [] {
      firsts := [];
    } else {
      var n := |s| - 1;
      firsts := FirstSeenAt(s[..n]);
      FirstSeenOnce(s[..n]);
      FirstsFront(s[..n], s[n], FirstSeen(s[..n]), firsts);
      assert s == s[..n] + [s[n]];
      if s[n] !in s[..n] {
        firsts := firsts + [n];
      }
    }
  }

  /** What the code shows for a row is its account's label in the manifest. */
  lemma LabelShows(b: L.Book, k: Slot, x: string)
    requires L.MembersOk(b) && OwnChunk(b.db, b.user, k)
    ensures Shows(b, k, x) <==> x == LabelOf(b.members, b.db.chunks[k].account)
  {
  }

  lemma Described(b: L.Book, f: FileId, idxs: seq<nat>, info: FileInfo)
    requires L.FilesOk(b) && L.MembersOk(b) && ChunkRefs(b.db) && OwnFile(b.db, b.user, f)
    requires G.Listing(b.db, b.user, f, idxs)
    requires forall i :: 0 <= i < |idxs| ==> idxs[i] == i && OwnChunk(b.db, b.user, Slot(f, i))
    requires forall i :: 0 <= i < |idxs| ==> Slot(f, idxs[i]) in b.db.chunks
    requires info.size == b.db.files[f].size && (info.degraded <==> Degraded(b, f))
    requires info.accounts == LabelsOf(b.members, FirstSeen(KeysOf(b.db.chunks, f, idxs)))
    ensures Describes(b, f, info)
  {
    hide L.FilesOk, L.MembersOk, G.Listing, Degraded, Shows, LabelOf, ChunkRefs, InFirstOrder;
    assert f in b.contents && info.size == |b.contents[f]| by {
      SizeIs(b, f);
    }
    LabelsShown(b, f, idxs, info.accounts);
    var firsts := LabelsOrdered(b, f, idxs, info.accounts);
  }

  lemma SizeIs(b: L.Book, f: FileId)
    requires L.FilesOk(b) && OwnFile(b.db, b.user, f)
    ensures f in b.contents && b.db.files[f].size == |b.contents[f]|
  {
  }

  lemma LabelsShown(b: L.Book, f: FileId, idxs: seq<nat>, labels: seq<string>)
    requires L.MembersOk(b) && G.Listing(b.db, b.user, f, idxs)
    requires forall i :: 0 <= i < |idxs| ==> idxs[i] == i && OwnChunk(b.db, b.user, Slot(f, i))
    requires forall i :: 0 <= i < |idxs| ==> Slot(f, idxs[i]) in b.db.chunks
    requires labels == LabelsOf(b.members, FirstSeen(KeysOf(b.db.chunks, f, idxs)))
    ensures forall x :: x in labels <==> exists k :: OwnChunk(b.db, b.user, k) && k.file == f && Shows(b, k, x)
  {
    hide L.MembersOk, G.Listing, Shows, LabelOf;
    var keys := KeysOf(b.db.chunks, f, idxs);
    forall x | x in labels ensures exists k :: OwnChunk(b.db, b.user, k) && k.file == f && Shows(b, k, x) {
      var j := LabelledKey(b.members, keys, x);
      LabelShows(b, Slot(f, j), x);
    }
    forall x, k | OwnChunk(b.db, b.user, k) && k.file == f && Shows(b, k, x) ensures x in labels {
      assert k == Slot(f, k.idx);
      G.ListedRow(b.db, b.user, f, idxs, k.idx);
      var j :| 0 <= j < |idxs| && idxs[j] == k.idx;
      LabelShows(b, k, x);
      KeyLabelled(b.members, keys, j);
    }
  }

  lemma LabelsOrdered(b: L.Book, f: FileId, idxs: seq<nat>, labels: seq<string>) returns (firsts: seq<nat>)
    requires L.MembersOk(b) && ChunkRefs(b.db) && G.Listing(b.db, b.user, f, idxs) && OwnFile(b.db, b.user, f)
    requires forall i :: 0 <= i < |idxs| ==> idxs[i] == i && OwnChunk(b.db, b.user, Slot(f, i))
    requires forall i :: 0 <= i < |idxs| ==> Slot(f, idxs[i]) in b.db.chunks
    requires labels == LabelsOf(b.members, FirstSeen(KeysOf(b.db.chunks, f, idxs)))
    ensures InFirstOrder(b, f, labels, firsts)
  {
    hide L.MembersOk, Shows, LabelOf;
    var keys := KeysOf(b.db.chunks, f, idxs);
    firsts := FirstSeenAt(keys);
    forall n ensures n in firsts <==> NewName(b, f, n) {
      NewNameKey(b, f, idxs, n);
    }
    forall i | 0 <= i < |firsts| ensures NewName(b, f, firsts[i]) && Shows(b, Slot(f, firsts[i]), labels[i]) {
      assert firsts[i] in firsts;
      LabelShows(b, Slot(f, firsts[i]), labels[i]);
    }
  }

  lemma NewNameKey(b: L.Book, f: FileId, idxs: seq<nat>, n: nat)
    requires ChunkRefs(b.db) && G.Listing(b.db, b.user, f, idxs) && OwnFile(b.db, b.user, f)
    requires forall i :: 0 <= i < |idxs| ==> idxs[i] == i && OwnChunk(b.db, b.user, Slot(f, i))
    requires forall i :: 0 <= i < |idxs| ==> Slot(f, idxs[i]) in b.db.chunks
    ensures var keys := KeysOf(b.db.chunks, f, idxs); NewName(b, f, n) <==> FirstAt(keys, n)
  {
    var keys := KeysOf(b.db.chunks, f, idxs);
    forall m: nat ensures Slot(f, m) in b.db.chunks <==> m < |idxs| {
      if Slot(f, m) in b.db.chunks {
        assert ChunkRef(b.db, Slot(f, m));
        G.ListedRow(b.db, b.user, f, idxs, m);
      }
    }
    if n < |keys| {
      assert keys[n] in keys[..n] <==> exists m: nat :: m < n && keys[m] == keys[n];
      assert forall m: nat :: m < n ==> (keys[m] == keys[n] <==> !OtherName(b, f, m, n));
    }
  }

  lemma KeyLabelled(members: map<AccountId, L.Member>, keys: seq<Option<AccountId>>, j: nat)
    requires j < |keys|
    ensures LabelOf(members, keys[j]) in LabelsOf(members, FirstSeen(keys))
  {
    FirstSeenOnce(keys);
    assert keys[j] in FirstSeen(keys);
    var i :| 0 <= i < |FirstSeen(keys)| && FirstSeen(keys)[i] == keys[j];
    assert LabelsOf(members, FirstSeen(keys))[i] == LabelOf(members, keys[j]);
  }

  lemma LabelledKey(members: map<AccountId, L.Member>, keys: seq<Option<AccountId>>, x: string) returns (j: nat)
    requires x in LabelsOf(members, FirstSeen(keys))
    ensures j < |keys| && LabelOf(members, keys[j]) == x
  {
    FirstSeenOnce(keys);
    var i :| 0 <= i < |FirstSeen(keys)| && LabelsOf(members, FirstSeen(keys))[i] == x;
    assert FirstSeen(keys)[i] in FirstSeen(keys);
    j :| 0 <= j < |keys| && keys[j] == FirstSeen(keys)[i];
  }

  datatype Listed = Listed(name: string, info: FileInfo)

  /** What a listing of the names that `pick` accepts is: every visible one once, in name
      order, with its entry, and while nothing is lost none of them degraded. */
  ghost predicate Lists(b: L.Book, pick: string -> bool, leq: NameOrder, out: seq<Listed>)
    requires L.Viewable(b)
  {
    && (forall i :: 0 <= i < |out| ==> EntryRight(b, pick, out[i]))
    && (forall n :: n in L.Abs(b) && !L.Abs(b)[n].hidden && pick(n) ==> exists i :: 0 <= i < |out| && out[i].name == n)
    && (forall i, j :: 0 <= i < j < |out| ==> out[i].name != out[j].name && leq(out[i].name, out[j].name))
  }

  ghost predicate EntryRight(b: L.Book, pick: string -> bool, e: Listed)
    requires L.Viewable(b)
  {
    && e.name in L.Abs(b) && !L.Abs(b)[e.name].hidden && pick(e.name)
    && (exists f :: IsFile(b.db, b.user, e.name, f) && Describes(b, f, e.info))
    && (L.Connected(b) ==> !e.info.degraded)
  }

  /** The entry of file `f`. */
  ghost predicate EntryOf(b: L.Book, f: FileId, e: Listed) {
    f in b.db.files && e.name == b.db.files[f].name && Describes(b, f, e.info)
  }

  lemma ListedOne(b: L.Book, pick: string -> bool, f: FileId, e: Listed)
    requires Sane(b.db) && L.Viewable(b) && Wanted(b.db, b.user, pick, f) && EntryOf(b, f, e)
    ensures EntryRight(b, pick, e)
  {
    assert OwnFile(b.db, b.user, f);
    assert IsFile(b.db, b.user, e.name, f);
    L.AbsAt(b, f);
    if L.Connected(b) {
      ConnectedNotDegraded(b, f);
    }
  }

  lemma NameWanted(b: L.Book, pick: string -> bool, n: string) returns (f: FileId)
    requires L.Viewable(b) && n in L.Abs(b) && !L.Abs(b)[n].hidden && pick(n)
    ensures Wanted(b.db, b.user, pick, f) && b.db.files[f].name == n
  {
    f := L.FileNamed(b.db, b.user, n);
  }

  lemma ListedAll(b: L.Book, pick: string -> bool, leq: NameOrder, r: seq<FileId>, out: seq<Listed>)
    requires Sane(b.db) && L.Viewable(b) && Sorted(b.db, b.user, pick, leq, r) && |out| == |r|
    requires forall i :: 0 <= i < |out| ==> EntryOf(b, r[i], out[i])
    ensures Lists(b, pick, leq, out)
  {
    hide Describes, L.Viewable, L.Abs, L.Connected, ChunkRefs, UniqueLabels, EntryRight;
    forall i | 0 <= i < |out| ensures EntryRight(b, pick, out[i]) {
      assert r[i] in r && EntryOf(b, r[i], out[i]);
      ListedOne(b, pick, r[i], out[i]);
    }
    forall n | n in L.Abs(b) && !L.Abs(b)[n].hidden && pick(n) ensures exists i :: 0 <= i < |out| && out[i].name == n {
      var f := NameWanted(b, pick, n);
      var i :| 0 <= i < |r| && r[i] == f;
      assert EntryOf(b, r[i], out[i]);
    }
    forall i, j | 0 <= i < j < |out| ensures out[i].name != out[j].name && leq(out[i].name, out[j].name) {
      assert EntryOf(b, r[i], out[i]) && EntryOf(b, r[j], out[j]);
      assert r[i] in r && r[j] in r && InOrder(b.db, leq, r[i], r[j]);
      assert !SameName(b.db.files[r[i]], b.db.files[r[j]]);
    }
  }

  /** While no live file has lost an account, none is listed as degraded. */
  lemma ConnectedNotDegraded(b: L.Book, f: FileId)
    requires Sane(b.db) && L.Connected(b) && OwnFile(b.db, b.user, f) && b.db.files[f].status != Deleted
    ensures !Degraded(b, f)
  {
  }

  /** With healthy accounts and nothing lost on the way, the mark in the listing tells
      exactly which files can no longer be read. */
  lemma DegradedMeansUnreadable(b: L.Book, f: FileId)
    requires L.Inv(b) && L.Clean(b) && G.AllHealthy(b) && OwnFile(b.db, b.user, f)
    ensures Degraded(b, f) <==> !G.Fetchable(b, f)
  {
    if !Degraded(b, f) {
      forall k | OwnChunk(b.db, b.user, k) && k.file == f ensures G.Reachable(b, k) {
        assert !Lost(b, k);
        assert L.RowOk(b, k);
      }
    } else {
      var k :| OwnChunk(b.db, b.user, k) && k.file == f && Lost(b, k);
      assert !G.Reachable(b, k);
    }
  }

  // ---- account status ----

  /** What ListAccountStatus reports of one account. */
  datatype Status = Unusable | NoAnswer | Known(available: int, unlimited: bool)

  function StatusOf(members: map<AccountId, L.Member>, quotas: Quotas, a: AccountId): Status
    requires a in members
  {
    if !members[a].healthy then Unusable
    else if a !in quotas then NoAnswer
    else Known(quotas[a].Available(), quotas[a].unlimited)
  }

  /** `s` tells whether the account is usable, whether its quota is known, and exactly how
      many more bytes it offers. */
  ghost predicate StatusRight(members: map<AccountId, L.Member>, quotas: Quotas, a: AccountId, s: Status) {
    && a in members && (s.Unusable? <==> !members[a].healthy)
    && (s.NoAnswer? <==> members[a].healthy && a !in quotas)
    && (s.Known? ==> s.unlimited == quotas[a].unlimited && forall n: nat :: n <= s.available <==> Offers(quotas[a], n))
  }

  lemma StatusIsRight(members: map<AccountId, L.Member>, quotas: Quotas, a: AccountId)
    requires a in members
    ensures StatusRight(members, quotas, a, StatusOf(members, quotas, a))
  {
    if a in quotas {
      forall n: nat ensures n <= quotas[a].Available() <==> Offers(quotas[a], n) {
        AvailableIsOffer(quotas[a], n);
      }
    }
  }

  /** An account row without an entry in the pool. */
  ghost predicate Dangling(db: Db, user: UserId, members: map<AccountId, L.Member>) {
    exists a :: OwnAccount(db, user, a) && a !in members
  }

  lemma NeverDangling(b: L.Book)
    requires L.MembersOk(b)
    ensures !Dangling(b.db, b.user, b.members)
  {
  }
}
