/** The upload half of PutStream (drivepool/pool.go): one goroutine reads, places and
    launches; workers resolve a folder, upload, record their result and release the
    semaphore. A state, the events that may happen in it, and what every run keeps. */
module Upload {
  import opened Prelude
  import opened Ctr
  import opened Codec
  import opened Placement
  import opened Drive

  /** uploadedChunk. */
  datatype Upl = Upl(
    idx: nat, account: AccountId, remote: RemoteId, folder: RemoteId,
    plainSize: nat, sha: Digest, algo: Algo, packedSize: nat)

  /** How far the worker of one chunk has come. From Launched to Recorded it holds a
      place in the semaphore. */
  datatype Stage = Idle | Launched | Foldered | Finished(result: Option<Upl>) | Recorded | Released

  /** A single account for a one-chunk file, the tracker otherwise. */
  datatype Choice = Single(account: AccountId) | Tracked(budget: Budget)

  /** What does not change during one PutStream. The reader is announced to yield
      `data` and really yields its first `avail` bytes. In a calm job no call fails;
      in a lossy one a call may take effect and still be reported as failed. */
  datatype Job = Job(
    suite: Suite, key: Bytes, data: Bytes, avail: nat, chunkSize: nat, par: nat,
    folderName: string, start: Stores, choice: Choice, calm: bool, lossy: bool)

  /** The reading goroutine: chunks read, bytes left, buffers and accounts so far, a
      chunk waiting for the semaphore, and whether reading or placing failed. */
  datatype Reader = Reader(
    next: nat, left: nat, bufs: seq<Bytes>, accs: seq<AccountId>, choice: Choice, waiting: bool, halted: bool)

  /** The workers and what they share under the mutex. */
  datatype Workers = Workers(stage: seq<Stage>, results: seq<Option<Upl>>, firstErr: bool)

  /** The folder cache and the remote side: the folders really made, and which chunk
      stored which object, those that count in `mine` and those no result mentions in `lost`. */
  datatype Cloud = Cloud(
    folders: map<AccountId, RemoteId>, made: map<AccountId, RemoteId>, stores: Stores,
    mine: map<Loc, nat>, lost: map<Loc, nat>)

  datatype State = State(rd: Reader, wk: Workers, cl: Cloud)

  datatype Event =
    | ReadFails
    | Place(account: AccountId)
    | NoPlace
    | Launch
    | Resolve(i: nat, folder: RemoteId)
    | ResolveLost(i: nat, folder: RemoteId)
    | Fail(i: nat)
    | Store(i: nat, id: RemoteId, iv: Block)
    | StoreLost(i: nat, id: RemoteId, iv: Block)
    | Record(i: nat)
    | Release(i: nat)

  /** The accounts a choice draws from. */
  function Accounts(c: Choice): set<AccountId> {
    match c
    case Single(a) => {a}
    case Tracked(b) => b.available.Keys + b.unlimited
  }

  ghost predicate ChoiceOk(c: Choice, start: Stores) {
    Accounts(c) <= start.Keys
  }

  ghost predicate JobOk(j: Job) {
    && Lawful(j.suite) && j.chunkSize > 0 && j.par > 0 && j.avail <= |j.data|
    && (forall a :: a in j.start ==> RemoteOk(j.start[a]) && !HasFolder(j.start[a], j.folderName))
    && ChoiceOk(j.choice, j.start)
    && (j.calm ==> j.avail == |j.data| && !j.lossy)
  }

  function N(j: Job): nat
    requires j.chunkSize > 0
  {
    NumChunks(|j.data|, j.chunkSize)
  }

  function Init(j: Job): State
    requires j.chunkSize > 0
  {
    State(Reader(0, |j.data|, [], [], j.choice, false, false),
          Workers(seq(N(j), i => Idle), seq(N(j), i => None), false),
          Cloud(map[], map[], j.start, map[], map[]))
  }

  /** Size of the next buffer. */
  function Want(j: Job, r: Reader): int {
    Min(j.chunkSize, r.left)
  }

  predicate CanPlace(c: Choice, a: AccountId) {
    match c
    case Single(only) => a == only
    case Tracked(b) => CanReserve(b, a)
  }

  function Charge(c: Choice, a: AccountId, size: nat): Choice {
    match c
    case Single(_) => c
    case Tracked(b) => Tracked(Spend(b, a, size))
  }

  predicate Holding(st: Stage) {
    st.Launched? || st.Foldered? || st.Finished? || st.Recorded?
  }

  function Weight(st: Stage): nat {
    if Holding(st) then 1 else 0
  }

  /** Places taken in the semaphore. */
  function Busy(stage: seq<Stage>): nat {
    Tally(Weight, stage)
  }

  /** The reading goroutine is at the top of its loop with a chunk left to read. */
  predicate Reading(j: Job, r: Reader)
    requires j.chunkSize > 0
  {
    !r.halted && !r.waiting && r.next < N(j)
  }

  predicate HasBytes(j: Job, r: Reader) {
    0 <= Want(j, r) <= r.left <= |j.data| && |j.data| - r.left + Want(j, r) <= j.avail
  }

  predicate At(s: State, i: nat, st: Stage) {
    && i < |s.wk.stage| && i < |s.wk.results| && i < |s.rd.accs| && i < |s.rd.bufs|
    && s.wk.stage[i] == st && s.rd.accs[i] in s.cl.stores
  }

  predicate CanStore(s: State, i: nat, id: RemoteId) {
    At(s, i, Foldered) && s.rd.accs[i] in s.cl.folders && id !in s.cl.stores[s.rd.accs[i]].used
  }

  predicate Enabled(j: Job, s: State, e: Event)
    requires j.chunkSize > 0
  {
    match e
    case ReadFails => Reading(j, s.rd) && Want(j, s.rd) > 0 && (j.calm ==> !HasBytes(j, s.rd))
    case Place(a) => Reading(j, s.rd) && HasBytes(j, s.rd) && CanPlace(s.rd.choice, a)
    case NoPlace => Reading(j, s.rd) && HasBytes(j, s.rd) && s.rd.choice.Tracked? && CannotReserve(s.rd.choice.budget)
    case Launch => s.rd.waiting && 0 < s.rd.next <= |s.wk.stage| && Busy(s.wk.stage) < j.par
    case Resolve(i, f) =>
      At(s, i, Launched) && (s.rd.accs[i] in s.cl.folders || Ensures(s.cl.stores[s.rd.accs[i]], j.folderName, f))
    case ResolveLost(i, f) =>
      && j.lossy && At(s, i, Launched) && s.rd.accs[i] !in s.cl.folders
      && Ensures(s.cl.stores[s.rd.accs[i]], j.folderName, f)
    case Fail(i) => !j.calm && (At(s, i, Launched) || At(s, i, Foldered))
    case Store(i, id, _) => CanStore(s, i, id)
    case StoreLost(i, id, _) => j.lossy && CanStore(s, i, id)
    case Record(i) => i < |s.wk.stage| && i < |s.wk.results| && s.wk.stage[i].Finished?
    case Release(i) => i < |s.wk.stage| && s.wk.stage[i].Recorded?
  }

  function Placing(j: Job, r: Reader, a: AccountId): Reader
    requires 0 <= Want(j, r) <= r.left <= |j.data|
  {
    var n, pos := Want(j, r), |j.data| - r.left;
    Reader(r.next + 1, r.left - n, r.bufs + [j.data[pos..pos + n]], r.accs + [a],
           Charge(r.choice, a, n), true, r.halted)
  }

  function Staged(w: Workers, i: nat, st: Stage): Workers
    requires i < |w.stage|
  {
    w.(stage := w.stage[i := st])
  }

  /** The folder is there; the cache learns of it unless the call was reported as failed. */
  function Resolved(c: Cloud, a: AccountId, f: RemoteId, name: string, cached: bool): Cloud
    requires a in c.stores
  {
    if a in c.folders then c
    else c.(folders := if cached then c.folders[a := f] else c.folders,
            made := c.made[a := f], stores := c.stores[a := WithFolder(c.stores[a], f, name)])
  }

  function UplOf(j: Job, i: nat, a: AccountId, folder: RemoteId, buf: Bytes, id: RemoteId): Upl {
    var p := Pack(j.suite, buf);
    Upl(i, a, id, folder, |buf|, j.suite.sha256(buf), p.algo, |p.payload|)
  }

  function StoredIn(j: Job, c: Cloud, a: AccountId, buf: Bytes, id: RemoteId, iv: Block): Stores
    requires a in c.folders && a in c.stores
  {
    c.stores[a := Uploaded(c.stores[a], id, c.folders[a], Seal(j.suite.block, j.key, iv, Pack(j.suite, buf).payload))]
  }

  /** The cloud after chunk `i` stored an object, counted or lost. */
  function Stored(j: Job, c: Cloud, a: AccountId, buf: Bytes, id: RemoteId, iv: Block, i: nat, lost: bool): Cloud
    requires a in c.folders && a in c.stores
  {
    var l := Loc(a, id);
    Cloud(c.folders, c.made, StoredIn(j, c, a, buf, id, iv),
          if lost then c.mine else c.mine[l := i], if lost then c.lost[l := i] else c.lost)
  }

  function Recording(w: Workers, i: nat): Workers
    requires i < |w.stage| && i < |w.results| && w.stage[i].Finished?
  {
    var r := w.stage[i].result;
    Workers(w.stage[i := Recorded], if r.Some? then w.results[i := r] else w.results, w.firstErr || r.None?)
  }

  function Apply(j: Job, s: State, e: Event): State
    requires j.chunkSize > 0 && Enabled(j, s, e)
  {
    match e
    case ReadFails => s.(rd := s.rd.(halted := true))
    case Place(a) => s.(rd := Placing(j, s.rd, a))
    case NoPlace => s.(rd := s.rd.(halted := true, left := s.rd.left - Want(j, s.rd)))
    case Launch => s.(rd := s.rd.(waiting := false), wk := Staged(s.wk, s.rd.next - 1, Launched))
    case Resolve(i, f) =>
      s.(wk := Staged(s.wk, i, Foldered), cl := Resolved(s.cl, s.rd.accs[i], f, j.folderName, true))
    case ResolveLost(i, f) =>
      s.(wk := Staged(s.wk, i, Finished(None)), cl := Resolved(s.cl, s.rd.accs[i], f, j.folderName, false))
    case Fail(i) => s.(wk := Staged(s.wk, i, Finished(None)))
    case Store(i, id, iv) =>
      var a, buf := s.rd.accs[i], s.rd.bufs[i];
      s.(wk := Staged(s.wk, i, Finished(Some(UplOf(j, i, a, s.cl.folders[a], buf, id)))),
         cl := Stored(j, s.cl, a, buf, id, iv, i, false))
    case StoreLost(i, id, iv) =>
      var a, buf := s.rd.accs[i], s.rd.bufs[i];
      s.(wk := Staged(s.wk, i, Finished(None)),
         cl := Stored(j, s.cl, a, buf, id, iv, i, true))
    case Record(i) => s.(wk := Recording(s.wk, i))
    case Release(i) => s.(wk := Staged(s.wk, i, Released))
  }

  // ---- the invariant ----

  function LaunchedCount(r: Reader): int {
    if r.waiting then r.next - 1 else r.next
  }

  ghost predicate Control(j: Job, r: Reader, w: Workers)
    requires j.chunkSize > 0
  {
    && |w.stage| == |w.results| == N(j) && |r.bufs| == |r.accs| == r.next <= N(j)
    && (r.waiting ==> 0 < r.next && !r.halted)
    && (forall i :: 0 <= i < N(j) ==> (w.stage[i].Idle? <==> LaunchedCount(r) <= i))
    && Busy(w.stage) <= j.par
  }

  /** What was read so far, followed by what is still to be read, is the file in chunks. */
  ghost predicate Cutting(j: Job, r: Reader)
    requires j.chunkSize > 0
  {
    && r.left <= |j.data|
    && (!r.halted ==> |j.data| - r.left <= j.avail && |Concat(r.bufs)| == |j.data| - r.left)
    && (!r.halted && r.next < N(j) ==>
          r.bufs + Chunks(j.data[|j.data| - r.left..], j.chunkSize) == Chunks(j.data, j.chunkSize))
    && r.bufs <= Chunks(j.data, j.chunkSize)
  }

  /** In a calm job reading stops early only because no account is left. */
  ghost predicate Halting(j: Job, r: Reader) {
    j.calm && r.halted ==> r.choice.Tracked? && CannotReserve(r.choice.budget)
  }

  function PicksOf(r: Reader): seq<Pick>
    requires |r.bufs| == |r.accs|
  {
    seq(|r.accs|, i requires 0 <= i < |r.accs| => Pick(r.accs[i], |r.bufs[i]|))
  }

  /** The accounts were chosen by a run of the tracker. */
  ghost predicate Placed(j: Job, r: Reader) {
    && |r.bufs| == |r.accs|
    && (forall i :: 0 <= i < |r.accs| ==> r.accs[i] in j.start && r.accs[i] in Accounts(j.choice))
    && (match j.choice
        case Single(a) => r.choice == j.choice
        case Tracked(b) => Run(b, PicksOf(r)) && r.choice == Tracked(After(b, PicksOf(r))))
  }

  ghost predicate UplOk(j: Job, r: Reader, c: Cloud, i: nat, u: Upl) {
    && i < |r.accs| && i < |r.bufs|
    && r.accs[i] in c.folders && r.accs[i] in c.stores
    && u == UplOf(j, i, r.accs[i], c.folders[r.accs[i]], r.bufs[i], u.remote)
    && u.remote in c.stores[u.account].objects
    && c.stores[u.account].objects[u.remote].folder == u.folder
    && Holds(j.suite, j.key, u.algo, u.packedSize, c.stores[u.account].objects[u.remote].bytes, r.bufs[i])
    && Loc(u.account, u.remote) in c.mine && c.mine[Loc(u.account, u.remote)] == i
    && (u.packedSize == 0 <==> u.plainSize == 0)
  }

  function Outcome(w: Workers, i: nat): Option<Upl>
    requires i < |w.stage| && i < |w.results|
  {
    if w.stage[i].Finished? then w.stage[i].result else w.results[i]
  }

  /** The outcome of every chunk describes the object it stored. */
  ghost predicate Outcomes(j: Job, r: Reader, w: Workers, c: Cloud) {
    && |w.stage| == |w.results|
    && (forall i :: 0 <= i < |w.stage| && Outcome(w, i).Some? ==> UplOk(j, r, c, i, Outcome(w, i).value))
    && (forall i :: 0 <= i < |w.stage| && w.stage[i].Foldered? ==> i < |r.accs| && r.accs[i] in c.folders)
  }

  /** A result slot is filled only when the worker recorded, and an empty one then means an error. */
  ghost predicate SlotOk(j: Job, w: Workers, i: nat)
    requires i < |w.stage| && i < |w.results|
  {
    && (w.results[i].Some? ==> w.stage[i].Recorded? || w.stage[i].Released?)
    && ((w.stage[i].Recorded? || w.stage[i].Released?) && w.results[i].None? ==> w.firstErr)
    && (j.calm ==> w.stage[i] != Finished(None))
  }

  ghost predicate Slots(j: Job, w: Workers) {
    && |w.stage| == |w.results|
    && (forall i :: 0 <= i < |w.stage| ==> SlotOk(j, w, i))
    && (j.calm ==> !w.firstErr)
  }

  ghost predicate StoreOk(j: Job, c: Cloud, a: AccountId)
    requires a in j.start && a in c.stores
  {
    var was, now := j.start[a], c.stores[a];
    && RemoteOk(now) && was.used <= now.used
    && (forall id :: id in was.objects ==> id in now.objects && now.objects[id] == was.objects[id])
    && (forall id :: id in now.objects ==> id in was.objects || Loc(a, id) in c.mine || Loc(a, id) in c.lost)
    && now.folders == (if a in c.made then was.folders[c.made[a] := j.folderName] else was.folders)
    && (a in c.made ==> c.made[a] !in was.used)
    && (a in c.folders ==> a in c.made && c.folders[a] == c.made[a])
  }

  /** An object this run stored, under an id nobody had before. */
  ghost predicate LocOk(j: Job, c: Cloud, l: Loc) {
    && l.account in j.start && l.account in c.stores
    && l.id !in j.start[l.account].used && l.id in c.stores[l.account].used
  }

  ghost predicate Remotes(j: Job, c: Cloud) {
    && c.stores.Keys == j.start.Keys
    && (forall a :: a in j.start ==> StoreOk(j, c, a))
    && (forall l :: l in c.mine ==> LocOk(j, c, l) && l !in c.lost)
    && (forall l :: l in c.lost ==> LocOk(j, c, l))
    && (!j.lossy ==> c.lost == map[])
  }

  /** Every stored object that counts is the outcome of a chunk. */
  ghost predicate MineOk(w: Workers, c: Cloud, l: Loc)
    requires l in c.mine
  {
    var i := c.mine[l];
    && i < |w.stage| && i < |w.results| && Outcome(w, i).Some?
    && Outcome(w, i).value.account == l.account && Outcome(w, i).value.remote == l.id
  }

  ghost predicate Accounted(w: Workers, c: Cloud) {
    forall l :: l in c.mine ==> MineOk(w, c, l)
  }

  /** A lost object is there, no larger than its chunk and 16 bytes, and its worker ends
      with an error. */
  ghost predicate LostOk(r: Reader, w: Workers, c: Cloud, l: Loc)
    requires l in c.lost
  {
    var i := c.lost[l];
    && i < |r.accs| && i < |r.bufs| && i < |w.stage| && i < |w.results|
    && l.account == r.accs[i] && l.account in c.stores && l.id in c.stores[l.account].objects
    && |c.stores[l.account].objects[l.id].bytes| <= |r.bufs[i]| + 16
    && w.results[i].None? && (w.stage[i] == Finished(None) || w.stage[i].Recorded? || w.stage[i].Released?)
  }

  /** And every chunk loses at most one. */
  ghost predicate Losses(r: Reader, w: Workers, c: Cloud) {
    && (forall l :: l in c.lost ==> LostOk(r, w, c, l))
    && (forall l, m :: l in c.lost && m in c.lost && c.lost[l] == c.lost[m] ==> l == m)
  }

  ghost predicate Inv(j: Job, s: State)
    requires j.chunkSize > 0
  {
    && Control(j, s.rd, s.wk) && Cutting(j, s.rd) && Halting(j, s.rd) && Placed(j, s.rd) && Slots(j, s.wk)
    && Outcomes(j, s.rd, s.wk, s.cl) && Remotes(j, s.cl) && Accounted(s.wk, s.cl) && Losses(s.rd, s.wk, s.cl)
  }

  // ---- every event keeps it ----

  lemma InitCutting(j: Job)
    requires j.chunkSize > 0 && j.avail <= |j.data|
    ensures Cutting(j, Init(j).rd)
  {
    hide Chunks;
    assert j.data[0..] == j.data;
    assert [] + Chunks(j.data, j.chunkSize) == Chunks(j.data, j.chunkSize);
  }

  lemma InitRemotes(j: Job)
    requires JobOk(j)
    ensures Remotes(j, Init(j).cl)
  {
    hide Lawful, Chunks;
  }

  lemma InitInv(j: Job)
    requires JobOk(j)
    ensures Inv(j, Init(j))
  {
    hide Chunks, Lawful, Cutting, Remotes, RemoteOk, ChoiceOk, N;
    TallySame(Weight, Init(j).wk.stage, Idle);
    InitCutting(j);
    InitRemotes(j);
    assert PicksOf(Init(j).rd) == [];
  }

  lemma OneChunkLeft(rest: Bytes, c: nat)
    requires c > 0 && |rest| <= c
    ensures Chunks(rest, c) == [rest]
  {
  }

  lemma MoreChunksLeft(rest: Bytes, c: nat)
    requires 0 < c < |rest|
    ensures Chunks(rest, c) == [rest[..c]] + Chunks(rest[c..], c)
  {
  }

  lemma PlaceCutting(j: Job, r: Reader, a: AccountId)
    requires j.chunkSize > 0 && Cutting(j, r) && Reading(j, r) && HasBytes(j, r) && |r.bufs| == r.next
    ensures Cutting(j, Placing(j, r, a))
  {
    hide Chunks, Charge;
    var c, pos, n := j.chunkSize, |j.data| - r.left, Want(j, r);
    var rest := j.data[pos..];
    ChunksShape(j.data, c);
    ConcatSnoc(r.bufs, j.data[pos..pos + n]);
    assert j.data[pos..pos + n] == rest[..n] && j.data[pos + n..] == rest[n..];
    if |rest| <= c {
      assert rest[..n] == rest;
      OneChunkLeft(rest, c);
    } else {
      MoreChunksLeft(rest, c);
      SeqAssoc(r.bufs, [rest[..n]], Chunks(rest[n..], c));
    }
  }

  lemma SeqAssoc(x: seq<Bytes>, y: seq<Bytes>, z: seq<Bytes>)
    ensures x + (y + z) == (x + y) + z && x + y <= x + (y + z)
  {
  }

  lemma {:induction false} RunSnoc(b: Budget, picks: seq<Pick>, p: Pick)
    requires Run(b, picks) && CanReserve(After(b, picks), p.id)
    ensures Run(b, picks + [p]) && After(b, picks + [p]) == Spend(After(b, picks), p.id, p.size)
    decreases |picks|
  {
    if picks == [] {
      assert [p][1..] == [];
    } else {
      var b1 := Spend(b, picks[0].id, picks[0].size);
      RunSnoc(b1, picks[1..], p);
      assert (picks + [p])[1..] == picks[1..] + [p];
    }
  }

  lemma {:induction false} AfterKeys(b: Budget, picks: seq<Pick>)
    ensures After(b, picks).unlimited == b.unlimited && After(b, picks).available.Keys == b.available.Keys
    decreases |picks|
  {
    if picks != [] {
      AfterKeys(Spend(b, picks[0].id, picks[0].size), picks[1..]);
    }
  }

  lemma PlacePlaced(j: Job, r: Reader, a: AccountId)
    requires ChoiceOk(j.choice, j.start) && Placed(j, r) && HasBytes(j, r) && CanPlace(r.choice, a)
    ensures Placed(j, Placing(j, r, a))
  {
    var t := Placing(j, r, a);
    match j.choice
    case Single(_) =>
    case Tracked(b) =>
      AfterKeys(b, PicksOf(r));
      var p := Pick(a, Want(j, r));
      RunSnoc(b, PicksOf(r), p);
      assert PicksOf(t) == PicksOf(r) + [p];
  }

  lemma OutcomesKept(j: Job, r: Reader, w: Workers, c: Cloud, r': Reader, w': Workers)
    requires Outcomes(j, r, w, c)
    requires r.bufs <= r'.bufs && r.accs <= r'.accs
    requires |w'.stage| == |w.stage| && |w'.results| == |w.results|
    requires forall i :: 0 <= i < |w.stage| ==> Outcome(w', i) == Outcome(w, i)
    requires forall i :: 0 <= i < |w.stage| && w'.stage[i].Foldered? ==>
      w.stage[i].Foldered? || (i < |r.accs| && r.accs[i] in c.folders)
    ensures Outcomes(j, r', w', c)
  {
    forall i | 0 <= i < |w'.stage| && Outcome(w', i).Some? ensures UplOk(j, r', c, i, Outcome(w', i).value) {
      assert UplOk(j, r, c, i, Outcome(w, i).value);
    }
  }

  lemma AccountedKept(w: Workers, c: Cloud, w': Workers)
    requires Accounted(w, c)
    requires |w'.stage| == |w.stage| && |w'.results| == |w.results|
    requires forall i :: 0 <= i < |w.stage| && i < |w.results| ==> Outcome(w', i) == Outcome(w, i)
    ensures Accounted(w', c)
  {
    forall l | l in c.mine ensures MineOk(w', c, l) {
      assert MineOk(w, c, l);
    }
  }

  ghost predicate ObjectsKept(c: Cloud, d: Cloud) {
    forall a, id :: a in c.stores && id in c.stores[a].objects ==>
      a in d.stores && id in d.stores[a].objects && d.stores[a].objects[id] == c.stores[a].objects[id]
  }

  lemma ResolvedKeeps(c: Cloud, a: AccountId, f: RemoteId, name: string, cached: bool)
    requires a in c.stores
    ensures ObjectsKept(c, Resolved(c, a, f, name, cached))
  {
  }

  lemma StoredKeeps(j: Job, c: Cloud, a: AccountId, buf: Bytes, id: RemoteId, iv: Block, i: nat, lost: bool,
                    m: map<Loc, nat>)
    requires a in c.folders && a in c.stores && RemoteOk(c.stores[a]) && id !in c.stores[a].used
    ensures ObjectsKept(c, Stored(j, c, a, buf, id, iv, i, lost).(lost := m))
  {
  }

  /** Losses stay accounted for while readers and workers move on. */
  lemma LossesKept(r: Reader, w: Workers, c: Cloud, r': Reader, w': Workers, d: Cloud)
    requires Losses(r, w, c) && d.lost == c.lost && r.bufs <= r'.bufs && r.accs <= r'.accs
    requires |w'.stage| == |w.stage| && |w'.results| == |w.results|
    requires forall l :: l in c.lost ==> StageOn(w, w', c.lost[l])
    requires ObjectsKept(c, d)
    ensures Losses(r', w', d)
  {
    forall l | l in d.lost ensures LostOk(r', w', d, l) {
      assert LostOk(r, w, c, l);
      assert StageOn(w, w', c.lost[l]);
    }
  }

  /** Worker `i` has not gone back, and has no result. */
  ghost predicate StageOn(w: Workers, w': Workers, i: nat) {
    && i < |w.stage| && i < |w.results| && i < |w'.stage| && i < |w'.results|
    && (w'.stage[i] == w.stage[i] || w'.stage[i].Recorded? || w'.stage[i].Released?) && w'.results[i] == w.results[i]
  }

  /** Nobody who lost an object is at stage Launched or Foldered, or about to succeed. */
  lemma LostElsewhere(r: Reader, w: Workers, c: Cloud, i: nat)
    requires Losses(r, w, c) && i < |w.stage| && w.stage[i] != Finished(None) && !w.stage[i].Recorded?
    requires !w.stage[i].Released?
    ensures forall l :: l in c.lost ==> c.lost[l] != i
  {
    forall l | l in c.lost ensures c.lost[l] != i {
      assert LostOk(r, w, c, l);
    }
  }

  lemma LossesStaged(r: Reader, w: Workers, c: Cloud, i: nat, st: Stage, d: Cloud)
    requires Losses(r, w, c) && i < |w.stage| && d.lost == c.lost && |w.stage| == |w.results|
    requires w.stage[i].Idle? || w.stage[i].Launched? || w.stage[i].Foldered? || (w.stage[i].Recorded? && st.Released?)
    requires ObjectsKept(c, d)
    ensures Losses(r, Staged(w, i, st), d)
  {
    if !w.stage[i].Recorded? {
      LostElsewhere(r, w, c, i);
    }
    forall l | l in c.lost ensures StageOn(w, Staged(w, i, st), c.lost[l]) {
      assert LostOk(r, w, c, l);
    }
    LossesKept(r, w, c, r, Staged(w, i, st), d);
  }

  lemma LossesRecorded(r: Reader, w: Workers, c: Cloud, i: nat)
    requires Losses(r, w, c) && i < |w.stage| && |w.stage| == |w.results| && w.stage[i].Finished?
    ensures Losses(r, Recording(w, i), c)
  {
    forall l | l in c.lost ensures StageOn(w, Recording(w, i), c.lost[l]) {
      assert LostOk(r, w, c, l);
    }
    LossesKept(r, w, c, r, Recording(w, i), c);
  }

  lemma LossesRead(r: Reader, w: Workers, c: Cloud, r': Reader)
    requires Losses(r, w, c) && r.bufs <= r'.bufs && r.accs <= r'.accs
    ensures Losses(r', w, c)
  {
    forall l | l in c.lost ensures StageOn(w, w, c.lost[l]) {
      assert LostOk(r, w, c, l);
    }
    LossesKept(r, w, c, r', w, c);
  }

  lemma StagedSlots(j: Job, w: Workers, i: nat, st: Stage)
    requires Slots(j, w) && i < |w.stage|
    requires w.results[i].None? || (w.stage[i].Recorded? && st.Released?)
    requires st.Recorded? || st.Released? ==> w.stage[i].Recorded?
    requires j.calm ==> st != Finished(None)
    ensures Slots(j, Staged(w, i, st))
  {
    assert SlotOk(j, w, i);
    forall k | 0 <= k < |w.stage| ensures SlotOk(j, Staged(w, i, st), k) {
      assert SlotOk(j, w, k);
    }
  }

  lemma RecordingSlots(j: Job, w: Workers, i: nat)
    requires Slots(j, w) && i < |w.stage| && w.stage[i].Finished?
    ensures Slots(j, Recording(w, i))
  {
    assert SlotOk(j, w, i);
    forall k | 0 <= k < |w.stage| ensures SlotOk(j, Recording(w, i), k) {
      assert SlotOk(j, w, k);
    }
  }

  lemma StagedControl(j: Job, r: Reader, w: Workers, i: nat, st: Stage)
    requires j.chunkSize > 0 && Control(j, r, w) && i < LaunchedCount(r) && !st.Idle?
    requires Holding(st) ==> Holding(w.stage[i])
    ensures Control(j, r, Staged(w, i, st))
  {
    TallyUpdate(Weight, w.stage, i, st);
  }

  lemma RecordingControl(j: Job, r: Reader, w: Workers, i: nat)
    requires j.chunkSize > 0 && Control(j, r, w) && i < |w.stage| && w.stage[i].Finished?
    ensures Control(j, r, Recording(w, i))
  {
    TallyUpdate(Weight, w.stage, i, Recorded);
  }

  lemma LaunchControl(j: Job, r: Reader, w: Workers)
    requires j.chunkSize > 0 && Control(j, r, w) && r.waiting && 0 < r.next <= |w.stage| && Busy(w.stage) < j.par
    ensures Control(j, r.(waiting := false), Staged(w, r.next - 1, Launched))
  {
    TallyUpdate(Weight, w.stage, r.next - 1, Launched);
  }

  lemma PlaceControl(j: Job, r: Reader, w: Workers, a: AccountId)
    requires j.chunkSize > 0 && Control(j, r, w) && Reading(j, r) && HasBytes(j, r)
    ensures Control(j, Placing(j, r, a), w)
  {
  }

  lemma PlaceInv(j: Job, s: State, a: AccountId)
    requires j.chunkSize > 0 && ChoiceOk(j.choice, j.start) && Inv(j, s) && Enabled(j, s, Place(a))
    ensures Inv(j, Apply(j, s, Place(a)))
  {
    PlaceControl(j, s.rd, s.wk, a);
    PlaceCutting(j, s.rd, a);
    PlacePlaced(j, s.rd, a);
    OutcomesKept(j, s.rd, s.wk, s.cl, Placing(j, s.rd, a), s.wk);
    LossesRead(s.rd, s.wk, s.cl, Placing(j, s.rd, a));
  }

  lemma HaltInv(j: Job, s: State, e: Event)
    requires j.chunkSize > 0 && (j.calm ==> j.avail == |j.data|)
    requires Inv(j, s) && Enabled(j, s, e) && (e.ReadFails? || e.NoPlace?)
    ensures Inv(j, Apply(j, s, e))
  {
    hide Chunks, Remotes, Accounted, Losses, Outcomes, Run, Busy;
    var t := Apply(j, s, e);
    assert PicksOf(t.rd) == PicksOf(s.rd);
    OutcomesKept(j, s.rd, s.wk, s.cl, t.rd, s.wk);
    LossesRead(s.rd, s.wk, s.cl, t.rd);
  }

  lemma SamePlaced(j: Job, r: Reader, w: bool)
    requires Placed(j, r)
    ensures Placed(j, r.(waiting := w))
  {
    assert PicksOf(r.(waiting := w)) == PicksOf(r);
  }

  lemma LaunchOutcome(j: Job, s: State)
    requires j.chunkSize > 0 && Control(j, s.rd, s.wk) && Slots(j, s.wk) && s.rd.waiting
    requires 0 < s.rd.next <= |s.wk.stage|
    ensures var i := s.rd.next - 1; s.wk.stage[i].Idle? && s.wk.results[i].None?
  {
    assert SlotOk(j, s.wk, s.rd.next - 1);
  }

  lemma LaunchInv(j: Job, s: State)
    requires j.chunkSize > 0 && Inv(j, s) && Enabled(j, s, Launch)
    ensures Inv(j, Apply(j, s, Launch))
  {
    hide Placed, Remotes, Accounted, Losses, Outcomes, Chunks;
    LaunchOutcome(j, s);
    var i := s.rd.next - 1;
    var r, w := s.rd.(waiting := false), Staged(s.wk, i, Launched);
    assert SlotOk(j, s.wk, i);
    LaunchControl(j, s.rd, s.wk);
    SamePlaced(j, s.rd, false);
    StagedSlots(j, s.wk, i, Launched);
    OutcomesKept(j, s.rd, s.wk, s.cl, r, w);
    AccountedKept(s.wk, s.cl, w);
    LossesRead(s.rd, s.wk, s.cl, r);
    LossesStaged(r, s.wk, s.cl, i, Launched, s.cl);
  }

  /** A worker fails before storing anything, or releases the semaphore. */
  lemma StageInv(j: Job, s: State, i: nat, st: Stage)
    requires j.chunkSize > 0 && Inv(j, s) && i < |s.wk.stage|
    requires (st == Finished(None) && !j.calm && (s.wk.stage[i].Launched? || s.wk.stage[i].Foldered?)) ||
             (st == Released && s.wk.stage[i].Recorded?)
    ensures Inv(j, State(s.rd, Staged(s.wk, i, st), s.cl))
  {
    hide Cutting, Placed, Remotes, Accounted, Losses, Outcomes, Busy;
    var w := Staged(s.wk, i, st);
    assert SlotOk(j, s.wk, i);
    StagedControl(j, s.rd, s.wk, i, st);
    StagedSlots(j, s.wk, i, st);
    OutcomesKept(j, s.rd, s.wk, s.cl, s.rd, w);
    AccountedKept(s.wk, s.cl, w);
    LossesStaged(s.rd, s.wk, s.cl, i, st, s.cl);
  }

  lemma RecordInv(j: Job, s: State, i: nat)
    requires j.chunkSize > 0 && Inv(j, s) && i < |s.wk.stage| && s.wk.stage[i].Finished?
    ensures Inv(j, State(s.rd, Recording(s.wk, i), s.cl))
  {
    hide Cutting, Placed, Remotes, Accounted, Losses, Outcomes, Busy, Halting, Chunks;
    var w := Recording(s.wk, i);
    assert SlotOk(j, s.wk, i);
    RecordingControl(j, s.rd, s.wk, i);
    RecordingSlots(j, s.wk, i);
    OutcomesKept(j, s.rd, s.wk, s.cl, s.rd, w);
    AccountedKept(s.wk, s.cl, w);
    LossesRecorded(s.rd, s.wk, s.cl, i);
  }

  /** EnsureFolder finds this run's folder, or makes one. */
  lemma ResolveStore(j: Job, c: Cloud, a: AccountId, f: RemoteId, cached: bool)
    requires a in j.start && a in c.stores && StoreOk(j, c, a) && !HasFolder(j.start[a], j.folderName)
    requires a !in c.folders && Ensures(c.stores[a], j.folderName, f)
    ensures StoreOk(j, Resolved(c, a, f, j.folderName, cached), a)
    ensures c.stores[a].used <= Resolved(c, a, f, j.folderName, cached).stores[a].used
    ensures a in c.made ==> f == c.made[a]
  {
    if a in c.made {
      assert c.stores[a].folders[c.made[a]] == j.folderName;
      assert f in c.stores[a].folders;
      assert f in j.start[a].folders ==> j.start[a].folders[f] != j.folderName;
    } else {
      assert !HasFolder(c.stores[a], j.folderName) by {
        assert c.stores[a].folders == j.start[a].folders;
      }
    }
  }

  /** Stores that grow by one account keep the rest of the picture. */
  lemma RemotesGrow(j: Job, c: Cloud, d: Cloud, a: AccountId)
    requires Remotes(j, c) && a in c.stores && d.stores.Keys == c.stores.Keys
    requires forall x :: x in c.stores && x != a ==> SameAt(c, d, x)
    requires forall l :: l in c.mine ==> l in d.mine
    requires forall l :: l in c.lost ==> l in d.lost
    requires c.stores[a].used <= d.stores[a].used && StoreOk(j, d, a)
    requires forall l :: (l in d.mine && l !in c.mine) || (l in d.lost && l !in c.lost) ==> LocOk(j, d, l)
    requires forall l :: l in d.mine ==> l !in d.lost
    requires !j.lossy ==> d.lost == map[]
    ensures Remotes(j, d)
  {
    hide StoreOk, LocOk, SameAt;
    forall x | x in j.start ensures StoreOk(j, d, x) {
      if x != a {
        StoreOkSame(j, c, d, x);
      }
    }
    forall l | l in d.mine || l in d.lost ensures LocOk(j, d, l) {
      if l in c.mine || l in c.lost {
        LocOkGrows(j, c, d, a, l);
      }
    }
  }

  lemma StoreOkSame(j: Job, c: Cloud, d: Cloud, x: AccountId)
    requires x in j.start && SameAt(c, d, x) && StoreOk(j, c, x)
    requires forall l :: l in c.mine ==> l in d.mine
    requires forall l :: l in c.lost ==> l in d.lost
    ensures StoreOk(j, d, x)
  {
  }

  lemma LocOkGrows(j: Job, c: Cloud, d: Cloud, a: AccountId, l: Loc)
    requires LocOk(j, c, l) && a in c.stores && a in d.stores && c.stores[a].used <= d.stores[a].used
    requires forall x :: x in c.stores && x != a ==> SameAt(c, d, x)
    ensures LocOk(j, d, l)
  {
    assert l.account != a ==> SameAt(c, d, l.account);
  }

  /** Nothing about account `x` changed. */
  ghost predicate SameAt(c: Cloud, d: Cloud, x: AccountId) {
    && x in c.stores && x in d.stores && d.stores[x] == c.stores[x]
    && (x in c.folders <==> x in d.folders) && (x in c.folders ==> d.folders[x] == c.folders[x])
    && (x in c.made <==> x in d.made) && (x in c.made ==> d.made[x] == c.made[x])
  }

  lemma ResolveRemotes(j: Job, c: Cloud, a: AccountId, f: RemoteId, cached: bool)
    requires Remotes(j, c) && a in c.stores && !HasFolder(j.start[a], j.folderName)
    requires a in c.folders || Ensures(c.stores[a], j.folderName, f)
    ensures Remotes(j, Resolved(c, a, f, j.folderName, cached))
  {
    assert StoreOk(j, c, a);
    if a !in c.folders {
      ResolveStore(j, c, a, f, cached);
      RemotesGrow(j, c, Resolved(c, a, f, j.folderName, cached), a);
    }
  }

  lemma ResolveOutcomes(j: Job, r: Reader, w: Workers, c: Cloud, i: nat, f: RemoteId, cached: bool)
    requires Outcomes(j, r, w, c) && i < |w.stage| && i < |r.accs| && r.accs[i] in c.stores && w.stage[i].Launched?
    ensures Outcomes(j, r, Staged(w, i, ResolveStage(cached)), Resolved(c, r.accs[i], f, j.folderName, cached))
  {
    var v, d := Staged(w, i, ResolveStage(cached)), Resolved(c, r.accs[i], f, j.folderName, cached);
    forall k | 0 <= k < |v.stage| && Outcome(v, k).Some? ensures UplOk(j, r, d, k, Outcome(v, k).value) {
      assert UplOk(j, r, c, k, Outcome(w, k).value);
    }
  }

  function ResolveStage(cached: bool): Stage {
    if cached then Foldered else Finished(None)
  }

  lemma ResolveInv(j: Job, s: State, i: nat, f: RemoteId, cached: bool)
    requires j.chunkSize > 0 && Inv(j, s) && Enabled(j, s, if cached then Resolve(i, f) else ResolveLost(i, f))
    requires !HasFolder(j.start[s.rd.accs[i]], j.folderName) && (j.calm ==> cached)
    ensures Inv(j, State(s.rd, Staged(s.wk, i, ResolveStage(cached)),
                         Resolved(s.cl, s.rd.accs[i], f, j.folderName, cached)))
  {
    hide Cutting, Placed, Busy, Remotes, Accounted, Losses, Outcomes, ObjectsKept;
    assert SlotOk(j, s.wk, i);
    ResolvedKeeps(s.cl, s.rd.accs[i], f, j.folderName, cached);
    var d := Resolved(s.cl, s.rd.accs[i], f, j.folderName, cached);
    ResolveWorkers(j, s.rd, s.wk, s.cl, i, d, cached);
    ResolveRemotes(j, s.cl, s.rd.accs[i], f, cached);
    ResolveOutcomes(j, s.rd, s.wk, s.cl, i, f, cached);
    LossesStaged(s.rd, s.wk, s.cl, i, ResolveStage(cached), d);
  }

  lemma ResolveWorkers(j: Job, r: Reader, w: Workers, c: Cloud, i: nat, d: Cloud, cached: bool)
    requires j.chunkSize > 0 && Control(j, r, w) && Slots(j, w) && Accounted(w, c) && d.mine == c.mine
    requires i < |w.stage| && w.stage[i].Launched? && w.results[i].None? && (j.calm ==> cached)
    ensures Control(j, r, Staged(w, i, ResolveStage(cached))) && Slots(j, Staged(w, i, ResolveStage(cached)))
    ensures Accounted(Staged(w, i, ResolveStage(cached)), d)
  {
    var st := ResolveStage(cached);
    StagedControl(j, r, w, i, st);
    StagedSlots(j, w, i, st);
    AccountedKept(w, c, Staged(w, i, st));
    ResolveAccounted(Staged(w, i, st), c, d);
  }

  lemma ResolveAccounted(w: Workers, c: Cloud, d: Cloud)
    requires Accounted(w, c) && d.mine == c.mine
    ensures Accounted(w, d)
  {
    forall l | l in d.mine ensures MineOk(w, d, l) {
      assert MineOk(w, c, l);
    }
  }

  lemma StoreStore(j: Job, c: Cloud, a: AccountId, buf: Bytes, id: RemoteId, iv: Block, i: nat, lost: bool)
    requires a in j.start && a in c.folders && a in c.stores && StoreOk(j, c, a) && id !in c.stores[a].used
    ensures StoreOk(j, Stored(j, c, a, buf, id, iv, i, lost), a)
    ensures LocOk(j, Stored(j, c, a, buf, id, iv, i, lost), Loc(a, id))
  {
  }

  lemma StoreRemotes(j: Job, c: Cloud, a: AccountId, buf: Bytes, id: RemoteId, iv: Block, i: nat, lost: bool)
    requires Remotes(j, c) && a in c.folders && a in c.stores && id !in c.stores[a].used && (lost ==> j.lossy)
    ensures Remotes(j, Stored(j, c, a, buf, id, iv, i, lost))
  {
    hide StoreOk;
    var d := Stored(j, c, a, buf, id, iv, i, lost);
    StoreStore(j, c, a, buf, id, iv, i, lost);
    assert Loc(a, id) !in c.mine && Loc(a, id) !in c.lost by {
      assert !LocOk(j, c, Loc(a, id));
    }
    RemotesGrow(j, c, d, a);
  }

  /** The result of a counted upload describes the object it made. */
  lemma StoreNew(j: Job, r: Reader, c: Cloud, i: nat, id: RemoteId, iv: Block)
    requires Lawful(j.suite) && i < |r.accs| && i < |r.bufs| && r.accs[i] in c.stores && r.accs[i] in c.folders
    ensures UplOk(j, r, Stored(j, c, r.accs[i], r.bufs[i], id, iv, i, false), i,
                  UplOf(j, i, r.accs[i], c.folders[r.accs[i]], r.bufs[i], id))
  {
    ChunkRoundTrip(j.suite, j.key, iv, r.bufs[i]);
    PackEmptyIff(j.suite, r.bufs[i]);
  }

  lemma OutcomesWith(j: Job, r: Reader, w: Workers, c: Cloud, d: Cloud, i: nat, u: Option<Upl>)
    requires Outcomes(j, r, w, c) && i < |w.stage| && c.folders == d.folders
    requires forall k, x :: UplOk(j, r, c, k, x) ==> UplOk(j, r, d, k, x)
    requires u.Some? ==> UplOk(j, r, d, i, u.value)
    ensures Outcomes(j, r, Staged(w, i, Finished(u)), d)
  {
    var v := Staged(w, i, Finished(u));
    forall k | 0 <= k < |v.stage| && Outcome(v, k).Some? ensures UplOk(j, r, d, k, Outcome(v, k).value) {
      if k != i {
        assert UplOk(j, r, c, k, Outcome(w, k).value);
      }
    }
  }

  lemma StoreOutcomes(j: Job, r: Reader, w: Workers, c: Cloud, i: nat, id: RemoteId, iv: Block, lost: bool)
    requires Outcomes(j, r, w, c) && Remotes(j, c)
    requires i < |w.stage| && i < |r.accs| && i < |r.bufs|
    requires r.accs[i] in c.stores && r.accs[i] in c.folders && id !in c.stores[r.accs[i]].used
    requires !lost ==> UplOk(j, r, Stored(j, c, r.accs[i], r.bufs[i], id, iv, i, false), i,
                             UplOf(j, i, r.accs[i], c.folders[r.accs[i]], r.bufs[i], id))
    ensures Outcomes(j, r, Staged(w, i, Finished(StoreResult(j, r, c, i, id, lost))),
                     Stored(j, c, r.accs[i], r.bufs[i], id, iv, i, lost))
  {
    var d := Stored(j, c, r.accs[i], r.bufs[i], id, iv, i, lost);
    assert StoreOk(j, c, r.accs[i]);
    StoreKeepsAll(j, r, c, r.accs[i], r.bufs[i], id, iv, i, lost);
    OutcomesWith(j, r, w, c, d, i, StoreResult(j, r, c, i, id, lost));
  }

  lemma StoreKeepsAll(j: Job, r: Reader, c: Cloud, a: AccountId, buf: Bytes, id: RemoteId, iv: Block, i: nat,
                      lost: bool)
    requires a in c.stores && RemoteOk(c.stores[a]) && a in c.folders && id !in c.stores[a].used
    ensures forall k, x :: UplOk(j, r, c, k, x) ==> UplOk(j, r, Stored(j, c, a, buf, id, iv, i, lost), k, x)
  {
    forall k, x | UplOk(j, r, c, k, x) ensures UplOk(j, r, Stored(j, c, a, buf, id, iv, i, lost), k, x) {
      StoreKeepsOther(j, r, c, k, x, a, buf, id, iv, i, lost);
    }
  }

  lemma StoreKeepsOther(j: Job, r: Reader, c: Cloud, k: nat, u: Upl,
                        a: AccountId, buf: Bytes, id: RemoteId, iv: Block, i: nat, lost: bool)
    requires UplOk(j, r, c, k, u)
    requires a in c.stores && RemoteOk(c.stores[a]) && a in c.folders && id !in c.stores[a].used
    ensures UplOk(j, r, Stored(j, c, a, buf, id, iv, i, lost), k, u)
  {
    assert u.remote in c.stores[u.account].objects;
    assert u.account == a ==> u.remote != id;
  }

  function StoreResult(j: Job, r: Reader, c: Cloud, i: nat, id: RemoteId, lost: bool): Option<Upl>
    requires i < |r.accs| && i < |r.bufs| && r.accs[i] in c.folders
  {
    if lost then None else Some(UplOf(j, i, r.accs[i], c.folders[r.accs[i]], r.bufs[i], id))
  }

  lemma StoreAccounted(w: Workers, c: Cloud, d: Cloud, i: nat, u: Option<Upl>, l: Loc)
    requires Accounted(w, c) && i < |w.stage| && i < |w.results| && Outcome(w, i).None? && !w.stage[i].Finished?
    requires d.mine == if u.None? then c.mine else c.mine[l := i]
    requires u.Some? ==> u.value.account == l.account && u.value.remote == l.id
    ensures Accounted(Staged(w, i, Finished(u)), d)
  {
    forall m | m in d.mine ensures MineOk(Staged(w, i, Finished(u)), d, m) {
      assert m in c.mine ==> MineOk(w, c, m);
    }
  }

  lemma StoreWorkers(j: Job, r: Reader, w: Workers, c: Cloud, i: nat, u: Option<Upl>, d: Cloud, l: Loc)
    requires j.chunkSize > 0 && Control(j, r, w) && Slots(j, w) && Accounted(w, c)
    requires i < |w.stage| && w.stage[i].Foldered? && (j.calm ==> u.Some?)
    requires d.mine == if u.None? then c.mine else c.mine[l := i]
    requires u.Some? ==> u.value.account == l.account && u.value.remote == l.id
    ensures Control(j, r, Staged(w, i, Finished(u))) && Slots(j, Staged(w, i, Finished(u)))
    ensures Accounted(Staged(w, i, Finished(u)), d)
  {
    assert SlotOk(j, w, i);
    StagedControl(j, r, w, i, Finished(u));
    StagedSlots(j, w, i, Finished(u));
    StoreAccounted(w, c, d, i, u, l);
  }

  lemma StoreInv(j: Job, s: State, i: nat, id: RemoteId, iv: Block, lost: bool)
    requires j.chunkSize > 0 && Inv(j, s) && CanStore(s, i, id) && (lost ==> j.lossy) && (j.calm ==> !lost)
    requires !lost ==> UplOk(j, s.rd, Stored(j, s.cl, s.rd.accs[i], s.rd.bufs[i], id, iv, i, false), i,
                             UplOf(j, i, s.rd.accs[i], s.cl.folders[s.rd.accs[i]], s.rd.bufs[i], id))
    ensures Inv(j, State(s.rd, Staged(s.wk, i, Finished(StoreResult(j, s.rd, s.cl, i, id, lost))),
                         Stored(j, s.cl, s.rd.accs[i], s.rd.bufs[i], id, iv, i, lost)))
  {
    hide Cutting, Placed, Busy, Accounted, Losses, Outcomes, UplOk, Stored, StoreResult, UplOf, Halting;
    var a := s.rd.accs[i];
    assert StoreOk(j, s.cl, a);
    assert SlotOk(j, s.wk, i);
    StoreResultIs(j, s.rd, s.cl, i, id, iv, lost);
    var u := StoreResult(j, s.rd, s.cl, i, id, lost);
    var d := Stored(j, s.cl, a, s.rd.bufs[i], id, iv, i, lost);
    StoreWorkers(j, s.rd, s.wk, s.cl, i, u, d, Loc(a, id));
    StoreRemotes(j, s.cl, a, s.rd.bufs[i], id, iv, i, lost);
    StoreOutcomes(j, s.rd, s.wk, s.cl, i, id, iv, lost);
    StoreLosses(j, s.rd, s.wk, s.cl, i, id, iv, lost, u);
  }

  lemma StoreResultIs(j: Job, r: Reader, c: Cloud, i: nat, id: RemoteId, iv: Block, lost: bool)
    requires i < |r.accs| && i < |r.bufs| && r.accs[i] in c.folders && r.accs[i] in c.stores
    ensures var u := StoreResult(j, r, c, i, id, lost);
      && (lost <==> u.None?) && (u.Some? ==> u.value.account == r.accs[i] && u.value.remote == id)
    ensures Stored(j, c, r.accs[i], r.bufs[i], id, iv, i, lost).mine ==
      if lost then c.mine else c.mine[Loc(r.accs[i], id) := i]
  {
  }

  lemma StoreLosses(j: Job, r: Reader, w: Workers, c: Cloud, i: nat, id: RemoteId, iv: Block, lost: bool,
                    u: Option<Upl>)
    requires Losses(r, w, c) && i < |w.stage| && |w.stage| == |w.results| && i < |r.accs| && i < |r.bufs|
    requires w.stage[i].Foldered? && w.results[i].None? && (lost <==> u.None?)
    requires r.accs[i] in c.stores && r.accs[i] in c.folders && RemoteOk(c.stores[r.accs[i]])
    requires id !in c.stores[r.accs[i]].used
    ensures Losses(r, Staged(w, i, Finished(u)), Stored(j, c, r.accs[i], r.bufs[i], id, iv, i, lost))
  {
    var a, v := r.accs[i], Staged(w, i, Finished(u));
    var d := Stored(j, c, a, r.bufs[i], id, iv, i, lost);
    LostElsewhere(r, w, c, i);
    StoredKeeps(j, c, a, r.bufs[i], id, iv, i, lost, c.lost);
    LossesStaged(r, w, c, i, Finished(u), d.(lost := c.lost));
    forall l | l in d.lost ensures LostOk(r, v, d, l) {
      if l in c.lost && l != Loc(a, id) {
        assert LostOk(r, v, d.(lost := c.lost), l);
      }
    }
  }

  /** Every event keeps the invariant. */
  lemma StepInv(j: Job, s: State, e: Event)
    requires JobOk(j) && Inv(j, s) && Enabled(j, s, e)
    ensures Inv(j, Apply(j, s, e))
  {
    hide Remotes, Accounted, Cutting, Busy, Losses;
    match e
    case ReadFails => HaltInv(j, s, e);
    case Place(a) => PlaceInv(j, s, a);
    case NoPlace => HaltInv(j, s, e);
    case Launch => LaunchInv(j, s);
    case Resolve(i, f) => ResolveInv(j, s, i, f, true);
    case ResolveLost(i, f) => ResolveInv(j, s, i, f, false);
    case Fail(i) => StageInv(j, s, i, Finished(None));
    case Store(i, id, iv) =>
      StoreNew(j, s.rd, s.cl, i, id, iv);
      StoreInv(j, s, i, id, iv, false);
    case StoreLost(i, id, iv) => StoreInv(j, s, i, id, iv, true);
    case Record(i) => RecordInv(j, s, i);
    case Release(i) => StageInv(j, s, i, Released);
  }

  // ---- termination and progress ----

  function Rank(st: Stage): nat {
    match st
    case Idle => 5 case Launched => 4 case Foldered => 3 case Finished(_) => 2 case Recorded => 1 case Released => 0
  }

  function Measure(j: Job, s: State): int
    requires j.chunkSize > 0
  {
    Tally(Rank, s.wk.stage) + (N(j) - s.rd.next) + (if s.rd.halted then 0 else 1)
  }

  /** A worker that moves on brings the run closer to its end. */
  lemma WorkerDecreases(j: Job, s: State, t: State, i: nat, st: Stage)
    requires j.chunkSize > 0 && i < |s.wk.stage| && Rank(st) < Rank(s.wk.stage[i])
    requires t.wk.stage == s.wk.stage[i := st] && t.rd.next == s.rd.next && t.rd.halted == s.rd.halted
    ensures Measure(j, t) < Measure(j, s)
  {
    TallyUpdate(Rank, s.wk.stage, i, st);
  }

  lemma ReaderDecreases(j: Job, s: State, t: State)
    requires j.chunkSize > 0 && t.wk.stage == s.wk.stage
    requires (t.rd.next == s.rd.next && t.rd.halted && !s.rd.halted) ||
             (t.rd.next > s.rd.next && t.rd.halted == s.rd.halted)
    ensures Measure(j, t) < Measure(j, s)
  {
  }

  lemma ReadingDecreases(j: Job, s: State, e: Event)
    requires j.chunkSize > 0 && Enabled(j, s, e) && (e.ReadFails? || e.Place? || e.NoPlace?)
    ensures Measure(j, Apply(j, s, e)) < Measure(j, s)
  {
    hide Measure, Charge;
    ReaderDecreases(j, s, Apply(j, s, e));
  }

  lemma StoringDecreases(j: Job, s: State, e: Event)
    requires j.chunkSize > 0 && Enabled(j, s, e) && (e.Store? || e.StoreLost?)
    ensures Measure(j, Apply(j, s, e)) < Measure(j, s)
  {
    hide Measure, StoredIn, UplOf, Stored;
    var t := Apply(j, s, e);
    WorkerDecreases(j, s, t, e.i, t.wk.stage[e.i]);
  }

  lemma ResolvingDecreases(j: Job, s: State, e: Event)
    requires j.chunkSize > 0 && Enabled(j, s, e) && (e.Resolve? || e.ResolveLost? || e.Fail?)
    ensures Measure(j, Apply(j, s, e)) < Measure(j, s)
  {
    hide Measure, Resolved, Ensures;
    WorkerDecreases(j, s, Apply(j, s, e), e.i, if e.Resolve? then Foldered else Finished(None));
  }

  lemma LeavingDecreases(j: Job, s: State, e: Event)
    requires j.chunkSize > 0 && Enabled(j, s, e) && (e.Record? || e.Release?)
    ensures Measure(j, Apply(j, s, e)) < Measure(j, s)
  {
    hide Measure;
    WorkerDecreases(j, s, Apply(j, s, e), e.i, if e.Record? then Recorded else Released);
  }

  /** Every event brings the run closer to its end. */
  lemma StepDecreases(j: Job, s: State, e: Event)
    requires j.chunkSize > 0 && Control(j, s.rd, s.wk) && Enabled(j, s, e)
    ensures Measure(j, Apply(j, s, e)) < Measure(j, s)
  {
    if e.Launch? {
      WorkerDecreases(j, s, Apply(j, s, e), s.rd.next - 1, Launched);
    } else {
      hide Measure, Apply, Enabled;
      if e.ReadFails? || e.Place? || e.NoPlace? {
        ReadingDecreases(j, s, e);
      } else if e.Store? || e.StoreLost? {
        StoringDecreases(j, s, e);
      } else if e.Record? || e.Release? {
        LeavingDecreases(j, s, e);
      } else {
        ResolvingDecreases(j, s, e);
      }
    }
  }

  lemma MeasureNonNegative(j: Job, s: State)
    requires j.chunkSize > 0 && Control(j, s.rd, s.wk)
    ensures Measure(j, s) >= 0
  {
  }

  /** A worker that holds the semaphore can always move, even if no call may fail. */
  lemma WorkerMoves(j: Job, s: State, i: nat) returns (e: Event)
    requires j.chunkSize > 0 && Control(j, s.rd, s.wk) && Placed(j, s.rd) && s.cl.stores.Keys == j.start.Keys
    requires Outcomes(j, s.rd, s.wk, s.cl) && i < |s.wk.stage| && Holding(s.wk.stage[i])
    ensures Enabled(j, s, e)
  {
    var a := s.rd.accs[i];
    assert a in s.cl.stores;
    var r := s.cl.stores[a];
    match s.wk.stage[i]
    case Launched =>
      if HasFolder(r, j.folderName) {
        var f :| f in r.folders && r.folders[f] == j.folderName;
        e := Resolve(i, f);
      } else {
        var f := FreshId(r.used);
        e := Resolve(i, f);
      }
    case Foldered =>
      var id := FreshId(r.used);
      e := Store(i, id, seq(16, k => 0));
    case Finished(_) => e := Record(i);
    case Recorded => e := Release(i);
  }

  lemma {:induction false} LargestBudget(m: map<AccountId, int>) returns (best: AccountId)
    requires m != map[]
    ensures best in m && forall o :: o in m ==> m[o] <= m[best]
    decreases |m|
  {
    best :| best in m;
    var rest := m - {best};
    assert forall o :: o in m && o != best ==> o in rest;
    if rest != map[] {
      var b := LargestBudget(rest);
      best := if m[b] > m[best] then b else best;
    }
  }

  lemma SomeAccountOrNone(b: Budget) returns (id: AccountId)
    ensures CannotReserve(b) || CanReserve(b, id)
  {
    if b.unlimited != {} {
      id :| id in b.unlimited;
    } else if b.available != map[] {
      id := LargestBudget(b.available);
    } else {
      id := "";
    }
  }

  lemma ReaderMoves(j: Job, s: State) returns (e: Event)
    requires j.chunkSize > 0 && Cutting(j, s.rd) && Reading(j, s.rd)
    ensures Enabled(j, s, e)
  {
    if !HasBytes(j, s.rd) {
      e := ReadFails;
    } else if s.rd.choice.Single? {
      e := Place(s.rd.choice.account);
    } else {
      var id := SomeAccountOrNone(s.rd.choice.budget);
      e := if CannotReserve(s.rd.choice.budget) then NoPlace else Place(id);
    }
  }

  /** The point after wg.Wait: nothing left to read or launch, every worker gone. */
  predicate Final(j: Job, s: State)
    requires j.chunkSize > 0
  {
    && (s.rd.halted || s.rd.next == N(j)) && !s.rd.waiting
    && forall i :: 0 <= i < |s.wk.stage| ==> s.wk.stage[i].Idle? || s.wk.stage[i].Released?
  }

  /** No deadlock: short of the end, some event can happen. */
  lemma Progress(j: Job, s: State) returns (e: Event)
    requires j.chunkSize > 0 && j.par > 0 && Inv(j, s) && !Final(j, s)
    ensures Enabled(j, s, e)
  {
    if s.rd.waiting {
      if Busy(s.wk.stage) < j.par {
        e := Launch;
      } else {
        var i := TallyPositive(Weight, s.wk.stage);
        e := WorkerMoves(j, s, i);
      }
    } else if Reading(j, s.rd) {
      e := ReaderMoves(j, s);
    } else {
      var i :| 0 <= i < |s.wk.stage| && !s.wk.stage[i].Idle? && !s.wk.stage[i].Released?;
      e := WorkerMoves(j, s, i);
    }
  }

  // ---- whole runs ----

  ghost predicate IsRun(j: Job, s: State, es: seq<Event>)
    requires j.chunkSize > 0
    decreases |es|
  {
    es == [] || (Enabled(j, s, es[0]) && IsRun(j, Apply(j, s, es[0]), es[1..]))
  }

  ghost function Reached(j: Job, s: State, es: seq<Event>): State
    requires j.chunkSize > 0 && IsRun(j, s, es)
    decreases |es|
  {
    if es == [] then s else Reached(j, Apply(j, s, es[0]), es[1..])
  }

  /** Unless the job is calm, any call of any worker may fail, and the put learns of it. */
  lemma EveryCallMayFail(j: Job, s: State, i: nat)
    requires j.chunkSize > 0 && Inv(j, s) && !j.calm && i < N(j)
    requires s.wk.stage[i].Launched? || s.wk.stage[i].Foldered?
    ensures IsRun(j, s, [Fail(i), Record(i)]) && Reached(j, s, [Fail(i), Record(i)]).wk.firstErr
  {
    hide Cutting, Halting, Outcomes, Accounted, Losses, Slots, Chunks, StoreOk, LocOk;
    AtWorker(j, s, i);
    TwoSteps(j, s, Fail(i), Record(i));
  }

  /** In a lossy job the folder call may act and be reported as failed: the folder is
      there and the next worker on that account does not know it. */
  lemma FolderMayBeLost(j: Job, s: State, i: nat, f: RemoteId)
    requires j.chunkSize > 0 && j.lossy && At(s, i, Launched) && s.rd.accs[i] !in s.cl.folders
    requires RemoteOk(s.cl.stores[s.rd.accs[i]]) && Ensures(s.cl.stores[s.rd.accs[i]], j.folderName, f)
    ensures IsRun(j, s, [ResolveLost(i, f), Record(i)])
    ensures var a, t := s.rd.accs[i], Reached(j, s, [ResolveLost(i, f), Record(i)]);
      && t.wk.firstErr && a !in t.cl.folders && a in t.cl.stores
      && f in t.cl.stores[a].folders && t.cl.stores[a].folders[f] == j.folderName
  {
    TwoSteps(j, s, ResolveLost(i, f), Record(i));
  }

  /** And unless the job is calm, any read of a chunk with bytes may. */
  lemma EveryReadMayFail(j: Job, s: State)
    requires j.chunkSize > 0 && !j.calm && Reading(j, s.rd) && Want(j, s.rd) > 0
    ensures Enabled(j, s, ReadFails) && Apply(j, s, ReadFails).rd.halted
  {
  }

  lemma AtWorker(j: Job, s: State, i: nat)
    requires j.chunkSize > 0 && Control(j, s.rd, s.wk) && Placed(j, s.rd) && Remotes(j, s.cl) && i < N(j)
    requires !s.wk.stage[i].Idle?
    ensures At(s, i, s.wk.stage[i])
  {
  }

  lemma TwoSteps(j: Job, s: State, d: Event, e: Event)
    requires j.chunkSize > 0 && Enabled(j, s, d) && Enabled(j, Apply(j, s, d), e)
    ensures IsRun(j, s, [d, e]) && Reached(j, s, [d, e]) == Apply(j, Apply(j, s, d), e)
  {
    hide Enabled, Apply;
    var t := Apply(j, s, d);
    assert [d, e][1..] == [e] && [e][1..] == [];
    assert IsRun(j, Apply(j, t, e), []) && Reached(j, Apply(j, t, e), []) == Apply(j, t, e);
    assert IsRun(j, t, [e]) && Reached(j, t, [e]) == Apply(j, t, e);
  }

  lemma {:induction false} RunKeeps(j: Job, s: State, es: seq<Event>)
    requires JobOk(j) && Inv(j, s) && IsRun(j, s, es)
    ensures Inv(j, Reached(j, s, es))
    ensures |es| + Measure(j, Reached(j, s, es)) <= Measure(j, s)
    decreases |es|
  {
    if es != [] {
      StepInv(j, s, es[0]);
      StepDecreases(j, s, es[0]);
      RunKeeps(j, Apply(j, s, es[0]), es[1..]);
    }
  }

  lemma StartMeasure(j: Job)
    requires j.chunkSize > 0
    ensures Measure(j, Init(j)) == 6 * N(j) + 1
  {
    TallySame(Rank, Init(j).wk.stage, Idle);
  }

  /** The chunks whose worker was started and has not released the semaphore. */
  function Working(stage: seq<Stage>): set<nat> {
    set i | 0 <= i < |stage| && !stage[i].Idle? && !stage[i].Released? :: i
  }

  lemma BusyIsWorking(stage: seq<Stage>)
    ensures Busy(stage) == |Working(stage)|
  {
    TallyCount(Weight, stage, Working(stage));
  }

  /** For every schedule of the workers and every pattern of failures: the semaphore is
      never exceeded, the run is at most six events per chunk and one more, and it only
      stops at the end. */
  lemma EveryScheduleBounded(j: Job, es: seq<Event>)
    requires JobOk(j) && IsRun(j, Init(j), es)
    ensures |Working(Reached(j, Init(j), es).wk.stage)| <= j.par
    ensures |es| <= 6 * N(j) + 1
    ensures Final(j, Reached(j, Init(j), es)) || exists e :: Enabled(j, Reached(j, Init(j), es), e)
  {
    InitInv(j);
    RunKeeps(j, Init(j), es);
    StartMeasure(j);
    var s := Reached(j, Init(j), es);
    MeasureNonNegative(j, s);
    BusyIsWorking(s.wk.stage);
    if !Final(j, s) {
      var e := Progress(j, s);
    }
  }

  /** The upload phase under an arbitrary schedule: some enabled event happens until none
      is left. */
  method RunUploads(j: Job) returns (s: State)
    requires JobOk(j)
    ensures Inv(j, s) && Final(j, s)
  {
    s := Init(j);
    InitInv(j);
    while !Final(j, s)
      invariant Inv(j, s)
      decreases Measure(j, s)
    {
      MeasureNonNegative(j, s);
      ghost var some := Progress(j, s);
      var e :| Enabled(j, s, e);
      StepInv(j, s, e);
      StepDecreases(j, s, e);
      s := Apply(j, s, e);
    }
  }

  /** A result slot, once written, is never written again. */
  lemma SlotWrittenOnce(j: Job, s: State, e: Event, i: nat)
    requires j.chunkSize > 0 && Slots(j, s.wk) && Enabled(j, s, e) && i < |s.wk.results| && s.wk.results[i].Some?
    ensures Apply(j, s, e).wk.results[i] == s.wk.results[i]
  {
    assert SlotOk(j, s.wk, i);
  }

  // ---- what PutStream sees after the wait ----

  /** The non-empty result slots in index order. */
  function Collect(results: seq<Option<Upl>>): seq<Upl> {
    if results == [] then []
    else (if results[0].Some? then [results[0].value] else []) + Collect(results[1..])
  }

  lemma {:induction false} CollectMembers(results: seq<Option<Upl>>, u: Upl)
    ensures u in Collect(results) <==> Some(u) in results
  {
    if results != [] {
      CollectMembers(results[1..], u);
      assert Some(u) in results <==> results[0] == Some(u) || Some(u) in results[1..];
    }
  }

  ghost predicate Indexed(results: seq<Option<Upl>>, from: nat) {
    forall i :: 0 <= i < |results| && results[i].Some? ==> results[i].value.idx == from + i
  }

  lemma {:induction false} CollectAscending(results: seq<Option<Upl>>, from: nat)
    requires Indexed(results, from)
    ensures forall k :: 0 <= k < |Collect(results)| ==> Collect(results)[k].idx >= from
    ensures forall k, l :: 0 <= k < l < |Collect(results)| ==> Collect(results)[k].idx < Collect(results)[l].idx
  {
    if results != [] {
      assert forall i :: 0 <= i < |results[1..]| ==> results[1..][i] == results[i + 1];
      CollectAscending(results[1..], from + 1);
    }
  }

  lemma {:induction false} CollectFull(results: seq<Option<Upl>>)
    requires forall i :: 0 <= i < |results| ==> results[i].Some?
    ensures |Collect(results)| == |results| && forall i :: 0 <= i < |results| ==>
      Collect(results)[i] == results[i].value
  {
    if results != [] {
      CollectFull(results[1..]);
    }
  }

  lemma ResultOk(j: Job, s: State, i: nat)
    requires Slots(j, s.wk) && Outcomes(j, s.rd, s.wk, s.cl) && i < |s.wk.results| && s.wk.results[i].Some?
    ensures UplOk(j, s.rd, s.cl, i, s.wk.results[i].value)
  {
    assert SlotOk(j, s.wk, i);
    assert Outcome(s.wk, i) == s.wk.results[i];
  }

  lemma CollectedOk(j: Job, s: State, k: nat)
    requires Slots(j, s.wk) && Outcomes(j, s.rd, s.wk, s.cl) && k < |Collect(s.wk.results)|
    ensures UplOk(j, s.rd, s.cl, Collect(s.wk.results)[k].idx, Collect(s.wk.results)[k])
  {
    var rs, u := s.wk.results, Collect(s.wk.results)[k];
    CollectMembers(rs, u);
    var i :| 0 <= i < |rs| && rs[i] == Some(u);
    ResultOk(j, s, i);
  }

  lemma MineCollected(j: Job, s: State, m: Loc)
    requires j.chunkSize > 0 && Control(j, s.rd, s.wk) && Slots(j, s.wk) && Accounted(s.wk, s.cl) && Final(j, s)
    requires m in s.cl.mine
    ensures exists u :: u in Collect(s.wk.results) && Loc(u.account, u.remote) == m
  {
    assert MineOk(s.wk, s.cl, m);
    var i := s.cl.mine[m];
    var u := Outcome(s.wk, i).value;
    assert s.wk.results[i] == Some(u);
    CollectMembers(s.wk.results, u);
  }

  /** Whatever the order in which workers finished, `uploaded` lists exactly the chunks
      whose upload was counted, by ascending index, each with its own bytes stored. */
  lemma UploadedInOrder(j: Job, s: State)
    requires j.chunkSize > 0 && Inv(j, s) && Final(j, s)
    ensures forall k :: 0 <= k < |Collect(s.wk.results)| ==>
      UplOk(j, s.rd, s.cl, Collect(s.wk.results)[k].idx, Collect(s.wk.results)[k])
    ensures forall k, l :: 0 <= k < l < |Collect(s.wk.results)| ==>
      Collect(s.wk.results)[k].idx < Collect(s.wk.results)[l].idx
    ensures forall m :: m in s.cl.mine ==> exists u :: u in Collect(s.wk.results) && Loc(u.account, u.remote) == m
  {
    var rs := s.wk.results;
    forall i | 0 <= i < |rs| && rs[i].Some? ensures rs[i].value.idx == i {
      ResultOk(j, s, i);
    }
    CollectAscending(rs, 0);
    forall k | 0 <= k < |Collect(rs)| ensures UplOk(j, s.rd, s.cl, Collect(rs)[k].idx, Collect(rs)[k]) {
      CollectedOk(j, s, k);
    }
    forall m | m in s.cl.mine ensures exists u :: u in Collect(rs) && Loc(u.account, u.remote) == m {
      MineCollected(j, s, m);
    }
  }

  /** Without an error the chunks 0 to N-1 are all there, in order, and are the file. */
  lemma ErrorFreeIsComplete(j: Job, s: State)
    requires j.chunkSize > 0 && Inv(j, s) && Final(j, s) && !s.rd.halted && !s.wk.firstErr
    ensures s.rd.bufs == Chunks(j.data, j.chunkSize)
    ensures var ups := Collect(s.wk.results);
      |ups| == N(j) && forall k :: 0 <= k < N(j) ==> ups[k].idx == k && UplOk(j, s.rd, s.cl, k, ups[k])
  {
    WholeFileRead(j, s.rd);
    FullResults(j, s);
  }

  lemma FullResults(j: Job, s: State)
    requires Slots(j, s.wk) && Outcomes(j, s.rd, s.wk, s.cl) && !s.wk.firstErr
    requires forall i :: 0 <= i < |s.wk.stage| ==> s.wk.stage[i].Released?
    ensures var ups := Collect(s.wk.results);
      |ups| == |s.wk.results| && forall k :: 0 <= k < |ups| ==> ups[k].idx == k && UplOk(j, s.rd, s.cl, k, ups[k])
  {
    var rs := s.wk.results;
    forall i | 0 <= i < |rs| ensures rs[i].Some? && UplOk(j, s.rd, s.cl, i, rs[i].value) {
      FullSlot(j, s, i);
    }
    CollectFull(rs);
  }

  lemma WholeFileRead(j: Job, r: Reader)
    requires j.chunkSize > 0 && Cutting(j, r) && |r.bufs| == r.next == N(j)
    ensures r.bufs == Chunks(j.data, j.chunkSize)
  {
    ChunksShape(j.data, j.chunkSize);
  }

  lemma FullSlot(j: Job, s: State, i: nat)
    requires Slots(j, s.wk) && Outcomes(j, s.rd, s.wk, s.cl) && i < |s.wk.results|
    requires s.wk.stage[i].Released? && !s.wk.firstErr
    ensures s.wk.results[i].Some? && UplOk(j, s.rd, s.cl, i, s.wk.results[i].value)
  {
    assert SlotOk(j, s.wk, i);
    ResultOk(j, s, i);
  }

  lemma {:induction false} ReservedIsRead(bufs: seq<Bytes>, picks: seq<Pick>)
    requires |picks| == |bufs| && forall i :: 0 <= i < |bufs| ==> picks[i].size == |bufs[i]|
    ensures Reserved(picks) == |Concat(bufs)|
    decreases |bufs|
  {
    if bufs != [] {
      ReservedIsRead(bufs[1..], picks[1..]);
    }
  }

  /** A reader that yields less than announced makes the upload stop. */
  lemma ShortReaderStops(j: Job, s: State)
    requires j.chunkSize > 0 && Inv(j, s) && Final(j, s) && j.avail < |j.data|
    ensures s.rd.halted
  {
    hide Outcomes, Remotes, Accounted, Losses, Slots, Chunks;
    if !s.rd.halted {
      WholeFileRead(j, s.rd);
      ChunksConcat(j.data, j.chunkSize);
    }
  }

  /** When no call fails, a file that fits the budgets is uploaded completely. */
  lemma CalmUploadSucceeds(j: Job, s: State)
    requires JobOk(j) && Inv(j, s) && Final(j, s) && j.calm
    requires j.choice.Tracked? && j.choice.budget.unlimited == {} ==>
      j.choice.budget.available != map[] && |j.data| <= Total(j.choice.budget.available)
    ensures !s.rd.halted && !s.wk.firstErr
  {
    hide Run, Outcomes, Remotes, Accounted, Losses, Chunks, Lawful;
    if s.rd.halted && j.choice.Tracked? {
      ReservedAtMost(j, s.rd);
      NotRefused(j.choice.budget, PicksOf(s.rd), |j.data|);
    }
  }

  /** Only bytes of the file were reserved. */
  lemma ReservedAtMost(j: Job, r: Reader)
    requires j.chunkSize > 0 && |r.bufs| == |r.accs| && r.bufs <= Chunks(j.data, j.chunkSize)
    ensures Reserved(PicksOf(r)) <= |j.data|
  {
    ReservedIsRead(r.bufs, PicksOf(r));
    var all := Chunks(j.data, j.chunkSize);
    assert r.bufs == all[..|r.bufs|];
    ConcatPrefix(all, |r.bufs|);
    ChunksConcat(j.data, j.chunkSize);
  }

  lemma NotRefused(b: Budget, picks: seq<Pick>, size: nat)
    requires Run(b, picks) && Reserved(picks) <= size
    requires b.unlimited == {} ==> b.available != map[] && size <= Total(b.available)
    ensures !CannotReserve(After(b, picks))
  {
    AfterKeys(b, picks);
    if CannotReserve(After(b, picks)) {
      RefusedOnlyWhenFull(b, picks);
    }
  }

  /** Bytes of the object at `l`. */
  function BytesAt(stores: Stores, l: Loc): nat {
    if l.account in stores && l.id in stores[l.account].objects then |stores[l.account].objects[l.id].bytes| else 0
  }

  /** What chunk `i` really has on account `a`: its counted object, or its lost one. */
  ghost function ChunkOn(s: State, i: nat, a: AccountId): nat
    requires i < |s.wk.results|
  {
    var r := s.wk.results[i];
    if r.Some? then (if r.value.account == a then BytesAt(s.cl.stores, Loc(a, r.value.remote)) else 0)
    else if l :| l in s.cl.lost && s.cl.lost[l] == i then (if l.account == a then BytesAt(s.cl.stores, l) else 0)
    else 0
  }

  /** Bytes the first `k` chunks have on `a`. */
  ghost function StoredOn(s: State, k: nat, a: AccountId): nat
    requires k <= |s.wk.results|
  {
    if k == 0 then 0 else StoredOn(s, k - 1, a) + ChunkOn(s, k - 1, a)
  }

  /** Which of the first `k` chunks were placed on `a`. */
  function PlacedOn(accs: seq<AccountId>, k: nat, a: AccountId): set<nat>
    requires k <= |accs|
  {
    set i | 0 <= i < k && accs[i] == a :: i
  }

  lemma PlacedSnoc(accs: seq<AccountId>, k: nat, a: AccountId)
    requires k < |accs|
    ensures forall i :: i in PlacedOn(accs, k, a) <==> 0 <= i < k && accs[i] == a
    ensures |PlacedOn(accs, k + 1, a)| == |PlacedOn(accs, k, a)| + if accs[k] == a then 1 else 0
  {
    assert PlacedOn(accs, k + 1, a) == PlacedOn(accs, k, a) + if accs[k] == a then {k} else {};
  }

  lemma {:induction false} OnSnoc(picks: seq<Pick>, p: Pick, a: AccountId)
    ensures On(picks + [p], a) == On(picks, a) + if p.id == a then p.size else 0
  {
    if picks == [] {
      assert [p][1..] == [];
    } else {
      assert (picks + [p])[1..] == picks[1..] + [p];
      OnSnoc(picks[1..], p, a);
    }
  }

  lemma OneStored(j: Job, s: State, i: nat, a: AccountId)
    requires Slots(j, s.wk) && Outcomes(j, s.rd, s.wk, s.cl) && Losses(s.rd, s.wk, s.cl)
    requires i < |s.wk.results| && i < |s.rd.bufs| && i < |s.rd.accs|
    ensures ChunkOn(s, i, a) <= if s.rd.accs[i] == a then |s.rd.bufs[i]| + 16 else 0
  {
    if s.wk.results[i].Some? {
      ResultOk(j, s, i);
    } else {
      forall l | l in s.cl.lost && s.cl.lost[l] == i ensures LostOk(s.rd, s.wk, s.cl, l) {
      }
    }
  }

  /** Bytes really stored on an account, by uploads that count and by lost ones, exceed
      what was reserved there by at most 16 per chunk. */
  lemma {:induction false} StoredOverReserved(j: Job, s: State, k: nat, a: AccountId)
    requires Slots(j, s.wk) && Outcomes(j, s.rd, s.wk, s.cl) && Losses(s.rd, s.wk, s.cl)
    requires |s.rd.bufs| == |s.rd.accs| <= |s.wk.results| && k <= |s.rd.accs|
    ensures StoredOn(s, k, a) <= On(PicksOf(s.rd)[..k], a) + 16 * |PlacedOn(s.rd.accs, k, a)|
    ensures forall i :: 0 <= i < k ==> ChunkOn(s, i, a) <= if s.rd.accs[i] == a then |s.rd.bufs[i]| + 16 else 0
    decreases k
  {
    hide Slots, Outcomes, Losses, ChunkOn, PlacedOn;
    if k > 0 {
      PlacedSnoc(s.rd.accs, k - 1, a);
      StoredOverReserved(j, s, k - 1, a);
      var picks := PicksOf(s.rd);
      assert picks[..k] == picks[..k - 1] + [picks[k - 1]];
      OnSnoc(picks[..k - 1], picks[k - 1], a);
      OneStored(j, s, k - 1, a);
    }
  }

  /** The chunk an object of this run belongs to. */
  function ChunkOf(c: Cloud, l: Loc): nat
    requires l in c.mine || l in c.lost
  {
    if l in c.mine then c.mine[l] else c.lost[l]
  }

  /** An object that was not there before. */
  predicate NewObject(j: Job, c: Cloud, l: Loc) {
    && l.account in j.start && l.id !in j.start[l.account].objects
    && l.account in c.stores && l.id in c.stores[l.account].objects
  }

  /** And the sum misses none: every new object belongs to a chunk, which counts exactly
      that object's bytes. */
  lemma EveryObjectCounted(j: Job, s: State, l: Loc)
    requires j.chunkSize > 0 && Inv(j, s) && Final(j, s) && NewObject(j, s.cl, l)
    ensures l in s.cl.mine || l in s.cl.lost
    ensures var i := ChunkOf(s.cl, l); i < |s.wk.results| && ChunkOn(s, i, l.account) == BytesAt(s.cl.stores, l)
  {
    hide Cutting, Placed, Outcomes, Busy;
    assert StoreOk(j, s.cl, l.account);
    assert l == Loc(l.account, l.id);
    if l in s.cl.mine {
      assert MineOk(s.wk, s.cl, l);
    } else {
      LostCounted(s, l);
    }
  }

  /** Different objects belong to different chunks, so that no bytes are counted for two. */
  lemma ObjectsApart(j: Job, s: State, l: Loc, m: Loc)
    requires j.chunkSize > 0 && Inv(j, s) && Final(j, s) && l != m
    requires l in s.cl.mine || l in s.cl.lost
    requires m in s.cl.mine || m in s.cl.lost
    ensures ChunkOf(s.cl, l) != ChunkOf(s.cl, m)
  {
    hide Cutting, Placed, Outcomes, Busy, Remotes;
    forall x | x in s.cl.mine ensures s.cl.mine[x] < |s.wk.results| && s.wk.results[s.cl.mine[x]].Some? {
      assert MineOk(s.wk, s.cl, x);
    }
    forall x | x in s.cl.lost ensures s.cl.lost[x] < |s.wk.results| && s.wk.results[s.cl.lost[x]].None? {
      assert LostOk(s.rd, s.wk, s.cl, x);
    }
    if l in s.cl.mine && m in s.cl.mine {
      assert MineOk(s.wk, s.cl, l) && MineOk(s.wk, s.cl, m);
    }
  }

  lemma LostCounted(s: State, l: Loc)
    requires Losses(s.rd, s.wk, s.cl) && l in s.cl.lost
    ensures s.cl.lost[l] < |s.wk.results| && ChunkOn(s, s.cl.lost[l], l.account) == BytesAt(s.cl.stores, l)
  {
    assert LostOk(s.rd, s.wk, s.cl, l);
    assert forall m :: m in s.cl.lost && s.cl.lost[m] == s.cl.lost[l] ==> m == l;
  }

  /** An upload that lost an object reports an error. */
  lemma LossIsError(j: Job, s: State)
    requires j.chunkSize > 0 && Inv(j, s) && Final(j, s) && s.cl.lost != map[]
    ensures s.wk.firstErr
  {
    var l :| l in s.cl.lost;
    assert LostOk(s.rd, s.wk, s.cl, l);
    assert SlotOk(j, s.wk, s.cl.lost[l]);
  }
}
