/** GetStream (drivepool/pool.go): workers fetch and check chunks in any order and hand
    them over through one buffered channel per chunk; a single writer drains the
    channels in index order. Remote contents may be anything at all. */
module Download {
  import opened Prelude
  import opened Codec

  /** What the pool finds for one chunk row. */
  datatype Access = NoAccount | Missing | Has(bytes: Bytes)

  datatype Item = Item(algo: Algo, sha: Digest, access: Access)

  /** What does not change during one GetStream. With `tamper` the remote side may
      deliver any bytes in any pieces, with `short` the first Read of honest bytes may
      give less than it could, with `flaky` a download may fail, with `brokenPipe` the
      caller's writer may. The readers of the chunks in `eager` report their end together
      with their last bytes. */
  datatype Plan = Plan(
    suite: Suite, key: Bytes, items: seq<Item>, par: nat, tamper: bool, short: bool, flaky: bool,
    brokenPipe: bool, eager: set<nat>)

  /** From Running to Posted a worker holds a place in the semaphore. A Failing worker
      has set the first error and not yet closed its channel. */
  datatype Stage = Idle | Running | Failing | Posted | Released

  datatype Cell = Empty | Full(bytes: Bytes) | Closed

  datatype Fetch = Pending | Good(bytes: Bytes) | Bad

  datatype Fetchers = Fetchers(launched: nat, stage: seq<Stage>, ready: seq<Cell>, fetched: seq<Fetch>, firstErr: bool)

  datatype Writer = Writer(turn: nat, broke: bool, out: Bytes, hashed: Bytes, writeErr: bool)

  datatype State = State(fs: Fetchers, wr: Writer)

  datatype Event =
    | Launch
    | Arrive(i: nat, raw: Bytes, first: nat, ended: bool)
    | NoArrive(i: nat)
    | Close(i: nat)
    | Release(i: nat)
    | Take
    | TakeCut(written: nat)
    | Break

  function N(p: Plan): nat {
    |p.items|
  }

  function Init(p: Plan): State {
    State(Fetchers(0, seq(N(p), i => Idle), seq(N(p), i => Empty), seq(N(p), i => Pending), false),
          Writer(0, false, [], [], false))
  }

  predicate Holding(st: Stage) {
    st.Running? || st.Failing? || st.Posted?
  }

  function Weight(st: Stage): nat {
    if Holding(st) then 1 else 0
  }

  function Busy(stage: seq<Stage>): nat {
    Tally(Weight, stage)
  }

  /** The remote side may deliver `raw` for chunk `i`, its first Read giving `first` bytes. */
  predicate Delivers(p: Plan, i: nat, raw: Bytes, first: nat, ended: bool)
    requires i < N(p)
  {
    && !p.items[i].access.NoAccount? && (ended ==> first == |raw|)
    && (p.tamper ||
        (p.items[i].access == Has(raw) &&
         if p.short then first <= Min(16, |raw|) else first == Min(16, |raw|) && ended == Ended(p, i, raw)))
  }

  /** The Read of the vector reports the end: there is nothing, or there is nothing else
      and the reader says so at once. */
  predicate Ended(p: Plan, i: nat, raw: Bytes) {
    raw == [] || (i in p.eager && |raw| <= 16)
  }

  /** The bytes that were stored arrive, the vector in one Read, and no download fails. */
  predicate Honest(p: Plan) {
    !p.tamper && !p.short && !p.flaky
  }

  predicate At(p: Plan, f: Fetchers, i: nat, st: Stage) {
    i < N(p) == |f.stage| == |f.ready| == |f.fetched| && f.stage[i] == st
  }

  predicate Writing(p: Plan, s: State) {
    && |s.fs.ready| == N(p) && s.fs.launched == N(p) && !s.wr.broke && s.wr.turn < N(p)
  }

  predicate Enabled(p: Plan, s: State, e: Event) {
    match e
    case Launch => s.fs.launched < N(p) == |s.fs.stage| && Busy(s.fs.stage) < p.par
    case Arrive(i, raw, first, ended) => At(p, s.fs, i, Running) && Delivers(p, i, raw, first, ended)
    case NoArrive(i) => At(p, s.fs, i, Running) && (p.flaky || !p.items[i].access.Has?)
    case Close(i) => At(p, s.fs, i, Failing)
    case Release(i) => At(p, s.fs, i, Posted)
    case Take => Writing(p, s) && s.fs.ready[s.wr.turn].Full?
    case TakeCut(n) =>
      && p.brokenPipe && Writing(p, s) && !s.wr.writeErr && s.fs.ready[s.wr.turn].Full?
      && n <= |s.fs.ready[s.wr.turn].bytes|
    case Break => Writing(p, s) && s.fs.ready[s.wr.turn].Closed?
  }

  /** A worker learns what became of its chunk. */
  function Learn(f: Fetchers, i: nat, r: Option<Bytes>): Fetchers
    requires i < |f.stage| == |f.ready| == |f.fetched|
  {
    if r.Some? then
      f.(stage := f.stage[i := Posted], ready := f.ready[i := Full(r.value)], fetched := f.fetched[i := Good(r.value)])
    else f.(stage := f.stage[i := Failing], fetched := f.fetched[i := Bad], firstErr := true)
  }

  function Written(w: Writer, bytes: Bytes): Writer {
    if w.writeErr then w.(turn := w.turn + 1)
    else w.(turn := w.turn + 1, out := w.out + bytes, hashed := w.hashed + bytes)
  }

  function Drained(f: Fetchers, i: nat): Fetchers
    requires i < |f.ready|
  {
    f.(ready := f.ready[i := Empty])
  }

  function Apply(p: Plan, s: State, e: Event): State
    requires Enabled(p, s, e)
  {
    match e
    case Launch => s.(fs := s.fs.(launched := s.fs.launched + 1, stage := s.fs.stage[s.fs.launched := Running]))
    case Arrive(i, raw, first, ended) =>
      s.(fs := Learn(s.fs, i, Check(p.suite, p.key, p.items[i].algo, p.items[i].sha, raw, first, ended)))
    case NoArrive(i) => s.(fs := Learn(s.fs, i, None))
    case Close(i) => s.(fs := s.fs.(stage := s.fs.stage[i := Posted], ready := s.fs.ready[i := Closed]))
    case Release(i) => s.(fs := s.fs.(stage := s.fs.stage[i := Released]))
    case Take => State(Drained(s.fs, s.wr.turn), Written(s.wr, s.fs.ready[s.wr.turn].bytes))
    case TakeCut(n) =>
      State(Drained(s.fs, s.wr.turn),
            s.wr.(turn := s.wr.turn + 1, out := s.wr.out + s.fs.ready[s.wr.turn].bytes[..n], writeErr := true))
    case Break => s.(wr := s.wr.(broke := true))
  }

  // ---- the invariant ----

  ghost predicate Control(p: Plan, f: Fetchers) {
    && |f.stage| == |f.ready| == |f.fetched| == N(p) && f.launched <= N(p)
    && (forall i :: 0 <= i < N(p) ==> (f.stage[i].Idle? <==> f.launched <= i))
    && Busy(f.stage) <= p.par
  }

  /** Channel, stage and outcome of chunk `i` agree; `turn` chunks were drained. */
  ghost predicate CellOk(p: Plan, f: Fetchers, turn: nat, i: nat)
    requires i < N(p) == |f.stage| == |f.ready| == |f.fetched|
  {
    && (i < turn ==> f.fetched[i].Good?)
    && (f.fetched[i].Good? ==> p.suite.sha256(f.fetched[i].bytes) == p.items[i].sha)
    && (f.fetched[i].Bad? ==> f.firstErr)
    && match f.stage[i] {
         case Idle => f.ready[i].Empty? && f.fetched[i].Pending?
         case Running => f.ready[i].Empty? && f.fetched[i].Pending?
         case Failing => f.ready[i].Empty? && f.fetched[i].Bad?
         case _ =>
           !f.fetched[i].Pending? &&
           (turn <= i ==> f.ready[i] == if f.fetched[i].Good? then Full(f.fetched[i].bytes) else Closed)
       }
  }

  ghost predicate Cells(p: Plan, f: Fetchers, turn: nat) {
    && |f.stage| == |f.ready| == |f.fetched| == N(p)
    && forall i :: 0 <= i < N(p) ==> CellOk(p, f, turn, i)
  }

  /** An error was set only because some chunk failed. */
  ghost predicate Blame(f: Fetchers) {
    f.firstErr ==> exists i :: 0 <= i < |f.fetched| && f.fetched[i].Bad?
  }

  function Parts(fetched: seq<Fetch>, k: nat): (r: seq<Bytes>)
    requires k <= |fetched| && forall i :: 0 <= i < k ==> fetched[i].Good?
  {
    seq(k, i requires 0 <= i < k => fetched[i].bytes)
  }

  ghost predicate Output(p: Plan, f: Fetchers, w: Writer) {
    && w.turn <= |f.fetched| && (forall i :: 0 <= i < w.turn ==> f.fetched[i].Good?)
    && (w.turn > 0 || w.broke ==> f.launched == N(p))
    && (w.broke ==> w.turn < |f.fetched| && f.fetched[w.turn].Bad?)
    && (w.writeErr ==> p.brokenPipe && w.out <= Concat(Parts(f.fetched, w.turn)))
    && (!w.writeErr ==> w.out == w.hashed == Concat(Parts(f.fetched, w.turn)))
  }

  ghost predicate Inv(p: Plan, s: State) {
    Control(p, s.fs) && Cells(p, s.fs, s.wr.turn) && Blame(s.fs) && Output(p, s.fs, s.wr)
  }

  // ---- every event keeps it ----

  lemma InitInv(p: Plan)
    ensures Inv(p, Init(p))
  {
    TallySame(Weight, Init(p).fs.stage, Idle);
    assert Parts(Init(p).fs.fetched, 0) == [];
  }

  /** What the writer sees does not change when chunk `i`, not yet drained, moves on. */
  lemma OutputKept(p: Plan, f: Fetchers, g: Fetchers, w: Writer)
    requires Output(p, f, w) && |g.fetched| == |f.fetched| && (f.launched == N(p) ==> g.launched == N(p))
    requires forall i :: 0 <= i < |f.fetched| && !f.fetched[i].Pending? ==> g.fetched[i] == f.fetched[i]
    ensures Output(p, g, w)
  {
    assert Parts(g.fetched, w.turn) == Parts(f.fetched, w.turn);
  }

  lemma LaunchInv(p: Plan, s: State)
    requires Inv(p, s) && Enabled(p, s, Launch)
    ensures Inv(p, Apply(p, s, Launch))
  {
    var g := Apply(p, s, Launch).fs;
    TallyUpdate(Weight, s.fs.stage, s.fs.launched, Running);
    forall i | 0 <= i < N(p) ensures CellOk(p, g, s.wr.turn, i) {
      assert CellOk(p, s.fs, s.wr.turn, i);
    }
    OutputKept(p, s.fs, g, s.wr);
  }

  lemma LearnInv(p: Plan, s: State, i: nat, r: Option<Bytes>)
    requires Inv(p, s) && At(p, s.fs, i, Running) && (r.Some? ==> p.suite.sha256(r.value) == p.items[i].sha)
    ensures Inv(p, s.(fs := Learn(s.fs, i, r)))
  {
    var f, g := s.fs, Learn(s.fs, i, r);
    TallyUpdate(Weight, f.stage, i, g.stage[i]);
    assert CellOk(p, f, s.wr.turn, i);
    forall k | 0 <= k < N(p) ensures CellOk(p, g, s.wr.turn, k) {
      assert CellOk(p, f, s.wr.turn, k);
    }
    LearnBlame(f, i, r);
    OutputKept(p, f, g, s.wr);
  }

  lemma LearnBlame(f: Fetchers, i: nat, r: Option<Bytes>)
    requires i < |f.stage| == |f.ready| == |f.fetched| && Blame(f) && f.fetched[i].Pending?
    ensures Blame(Learn(f, i, r))
  {
    var g := Learn(f, i, r);
    if r.None? {
      assert g.fetched[i].Bad?;
    } else if f.firstErr {
      var k :| 0 <= k < |f.fetched| && f.fetched[k].Bad?;
      assert g.fetched[k].Bad?;
    }
  }

  lemma CloseInv(p: Plan, s: State, i: nat)
    requires Inv(p, s) && Enabled(p, s, Close(i))
    ensures Inv(p, Apply(p, s, Close(i)))
  {
    var g := Apply(p, s, Close(i)).fs;
    TallyUpdate(Weight, s.fs.stage, i, Posted);
    forall k | 0 <= k < N(p) ensures CellOk(p, g, s.wr.turn, k) {
      assert CellOk(p, s.fs, s.wr.turn, k);
    }
    OutputKept(p, s.fs, g, s.wr);
  }

  lemma ReleaseInv(p: Plan, s: State, i: nat)
    requires Inv(p, s) && Enabled(p, s, Release(i))
    ensures Inv(p, Apply(p, s, Release(i)))
  {
    var g := Apply(p, s, Release(i)).fs;
    TallyUpdate(Weight, s.fs.stage, i, Released);
    forall k | 0 <= k < N(p) ensures CellOk(p, g, s.wr.turn, k) {
      assert CellOk(p, s.fs, s.wr.turn, k);
    }
    OutputKept(p, s.fs, g, s.wr);
  }

  lemma DrainCells(p: Plan, f: Fetchers, turn: nat)
    requires Cells(p, f, turn) && turn < N(p) && f.ready[turn].Full?
    ensures f.fetched[turn] == Good(f.ready[turn].bytes)
    ensures Cells(p, Drained(f, turn), turn + 1)
  {
    assert CellOk(p, f, turn, turn);
    var g, after := Drained(f, turn), turn + 1;
    forall k | 0 <= k < N(p) ensures CellOk(p, g, after, k) {
      assert CellOk(p, f, turn, k);
    }
  }

  lemma PartsStep(fetched: seq<Fetch>, k: nat)
    requires k < |fetched| && forall i :: 0 <= i <= k ==> fetched[i].Good?
    ensures Concat(Parts(fetched, k + 1)) == Concat(Parts(fetched, k)) + fetched[k].bytes
  {
    assert Parts(fetched, k + 1) == Parts(fetched, k) + [fetched[k].bytes];
    ConcatSnoc(Parts(fetched, k), fetched[k].bytes);
  }

  lemma TakeInv(p: Plan, s: State, e: Event)
    requires Inv(p, s) && Enabled(p, s, e) && (e.Take? || e.TakeCut?)
    ensures Inv(p, Apply(p, s, e))
  {
    var t := s.wr.turn;
    DrainCells(p, s.fs, t);
    PartsStep(s.fs.fetched, t);
    var g := Drained(s.fs, t);
    assert Parts(g.fetched, t + 1) == Parts(s.fs.fetched, t + 1);
  }

  lemma StepInv(p: Plan, s: State, e: Event)
    requires Inv(p, s) && Enabled(p, s, e)
    ensures Inv(p, Apply(p, s, e))
  {
    match e
    case Launch => LaunchInv(p, s);
    case Arrive(i, raw, first, ended) =>
      LearnInv(p, s, i, Check(p.suite, p.key, p.items[i].algo, p.items[i].sha, raw, first, ended));
    case NoArrive(i) => LearnInv(p, s, i, None);
    case Close(i) => CloseInv(p, s, i);
    case Release(i) => ReleaseInv(p, s, i);
    case Take => TakeInv(p, s, e);
    case TakeCut(_) => TakeInv(p, s, e);
    case Break => assert CellOk(p, s.fs, s.wr.turn, s.wr.turn);
  }

  // ---- termination and progress ----

  function Rank(st: Stage): nat {
    match st
    case Idle => 4 case Running => 3 case Failing => 2 case Posted => 1 case Released => 0
  }

  function Measure(p: Plan, s: State): int {
    Tally(Rank, s.fs.stage) + (N(p) - s.wr.turn) + (if s.wr.broke then 0 else 1)
  }

  lemma WorkerDecreases(p: Plan, s: State, t: State, i: nat, st: Stage)
    requires i < |s.fs.stage| && Rank(st) < Rank(s.fs.stage[i])
    requires t.fs.stage == s.fs.stage[i := st] && t.wr == s.wr
    ensures Measure(p, t) < Measure(p, s)
  {
    TallyUpdate(Rank, s.fs.stage, i, st);
  }

  lemma WriterDecreases(p: Plan, s: State, t: State)
    requires t.fs.stage == s.fs.stage
    requires (t.wr.turn > s.wr.turn && t.wr.broke == s.wr.broke) ||
             (t.wr.turn == s.wr.turn && t.wr.broke && !s.wr.broke)
    ensures Measure(p, t) < Measure(p, s)
  {
  }

  lemma StepDecreases(p: Plan, s: State, e: Event)
    requires Control(p, s.fs) && Enabled(p, s, e)
    ensures Measure(p, Apply(p, s, e)) < Measure(p, s)
  {
    hide Measure, Busy, Check;
    var t := Apply(p, s, e);
    match e
    case Launch => WorkerDecreases(p, s, t, s.fs.launched, Running);
    case Arrive(i, _, _, _) => WorkerDecreases(p, s, t, i, t.fs.stage[i]);
    case NoArrive(i) => WorkerDecreases(p, s, t, i, Failing);
    case Close(i) => WorkerDecreases(p, s, t, i, Posted);
    case Release(i) => WorkerDecreases(p, s, t, i, Released);
    case Take => WriterDecreases(p, s, t);
    case TakeCut(_) => WriterDecreases(p, s, t);
    case Break => WriterDecreases(p, s, t);
  }

  lemma WorkerMoves(p: Plan, s: State, i: nat) returns (e: Event)
    requires Control(p, s.fs) && i < N(p) && Holding(s.fs.stage[i])
    ensures Enabled(p, s, e)
  {
    match s.fs.stage[i]
    case Running =>
      var a := p.items[i].access;
      e := if a.Has? then Arrive(i, a.bytes, Min(16, |a.bytes|), Ended(p, i, a.bytes)) else NoArrive(i);
    case Failing => e := Close(i);
    case Posted => e := Release(i);
  }

  /** After wg.Wait. */
  predicate Final(p: Plan, s: State) {
    && s.fs.launched == N(p) && (s.wr.turn == N(p) || s.wr.broke)
    && forall i :: 0 <= i < |s.fs.stage| ==> s.fs.stage[i].Released?
  }

  /** No deadlock: the channels are buffered, so no worker waits for the writer. */
  lemma Progress(p: Plan, s: State) returns (e: Event)
    requires p.par > 0 && Inv(p, s) && !Final(p, s)
    ensures Enabled(p, s, e)
  {
    if s.fs.launched < N(p) {
      if Busy(s.fs.stage) < p.par {
        e := Launch;
      } else {
        var i := TallyPositive(Weight, s.fs.stage);
        e := WorkerMoves(p, s, i);
      }
    } else if i :| 0 <= i < N(p) && Holding(s.fs.stage[i]) {
      e := WorkerMoves(p, s, i);
    } else {
      assert forall i :: 0 <= i < N(p) ==> s.fs.stage[i].Released?;
      assert CellOk(p, s.fs, s.wr.turn, s.wr.turn);
      e := if s.fs.ready[s.wr.turn].Full? then Take else Break;
    }
  }

  // ---- whole runs ----

  ghost predicate IsRun(p: Plan, s: State, es: seq<Event>)
    decreases |es|
  {
    es == [] || (Enabled(p, s, es[0]) && IsRun(p, Apply(p, s, es[0]), es[1..]))
  }

  ghost function Reached(p: Plan, s: State, es: seq<Event>): State
    requires IsRun(p, s, es)
    decreases |es|
  {
    if es == [] then s else Reached(p, Apply(p, s, es[0]), es[1..])
  }

  /** With flaky calls any download may fail, and it always may where there is nothing to
      fetch; the get learns of it. */
  lemma EveryDownloadMayFail(p: Plan, s: State, i: nat)
    requires Inv(p, s) && i < N(p) && s.fs.stage[i].Running? && (p.flaky || !p.items[i].access.Has?)
    ensures Enabled(p, s, NoArrive(i)) && Apply(p, s, NoArrive(i)).fs.firstErr
    ensures Apply(p, s, NoArrive(i)).fs.fetched[i].Bad?
  {
    hide Check, Busy, Delivers;
  }

  /** With a broken pipe any write may fail, after any number of bytes. */
  lemma EveryWriteMayFail(p: Plan, s: State, n: nat)
    requires Writing(p, s) && p.brokenPipe && !s.wr.writeErr
    requires s.fs.ready[s.wr.turn].Full? && n <= |s.fs.ready[s.wr.turn].bytes|
    ensures Enabled(p, s, TakeCut(n)) && Apply(p, s, TakeCut(n)).wr.writeErr
    ensures Apply(p, s, TakeCut(n)).wr.out == s.wr.out + s.fs.ready[s.wr.turn].bytes[..n]
  {
  }

  lemma {:induction false} RunKeeps(p: Plan, s: State, es: seq<Event>)
    requires Inv(p, s) && IsRun(p, s, es)
    ensures Inv(p, Reached(p, s, es))
    ensures |es| + Measure(p, Reached(p, s, es)) <= Measure(p, s)
    decreases |es|
  {
    if es != [] {
      StepInv(p, s, es[0]);
      StepDecreases(p, s, es[0]);
      RunKeeps(p, Apply(p, s, es[0]), es[1..]);
    }
  }

  lemma MeasureNonNegative(p: Plan, s: State)
    requires Inv(p, s)
    ensures Measure(p, s) >= 0
  {
  }

  lemma StartMeasure(p: Plan)
    ensures Measure(p, Init(p)) == 5 * N(p) + 1
  {
    TallySame(Rank, Init(p).fs.stage, Idle);
  }

  /** The chunks whose worker was started and has not released the semaphore. */
  function Working(stage: seq<Stage>): set<nat> {
    set i | 0 <= i < |stage| && !stage[i].Idle? && !stage[i].Released? :: i
  }

  lemma BusyIsWorking(stage: seq<Stage>)
    ensures Busy(stage) == |Working(stage)|
  {
    TallyCount(Weight, stage, Working(stage));
  }

  /** GetStream terminates under every schedule, within its semaphore. */
  lemma EveryScheduleBounded(p: Plan, es: seq<Event>)
    requires p.par > 0 && IsRun(p, Init(p), es)
    ensures |Working(Reached(p, Init(p), es).fs.stage)| <= p.par
    ensures |es| <= 5 * N(p) + 1
    ensures Final(p, Reached(p, Init(p), es)) || exists e :: Enabled(p, Reached(p, Init(p), es), e)
  {
    InitInv(p);
    RunKeeps(p, Init(p), es);
    StartMeasure(p);
    var s := Reached(p, Init(p), es);
    MeasureNonNegative(p, s);
    BusyIsWorking(s.fs.stage);
    if !Final(p, s) {
      var e := Progress(p, s);
    }
  }

  /** The download phase under an arbitrary schedule. */
  method RunDownloads(p: Plan) returns (s: State)
    requires p.par > 0
    ensures Inv(p, s) && Final(p, s)
    ensures Honest(p) ==> Settled(p, s.fs)
  {
    s := Init(p);
    InitInv(p);
    while !Final(p, s)
      invariant Inv(p, s) && (Honest(p) ==> Settled(p, s.fs))
      decreases Measure(p, s)
    {
      MeasureNonNegative(p, s);
      ghost var some := Progress(p, s);
      var e :| Enabled(p, s, e);
      StepInv(p, s, e);
      StepDecreases(p, s, e);
      if Honest(p) {
        SettledStep(p, s, e);
      }
      s := Apply(p, s, e);
    }
  }

  // ---- what GetStream returns ----

  /** nil, as opposed to an error. */
  predicate Ok(p: Plan, s: State, hash: Digest) {
    !s.fs.firstErr && !s.wr.writeErr && p.suite.sha256(s.wr.hashed) == hash
  }

  /** The lowest failing index decides the output; an error is reported for every failure
      and for nothing else. */
  lemma LowestFailureDecides(p: Plan, s: State)
    requires Inv(p, s) && Final(p, s)
    ensures s.fs.firstErr <==> exists i :: 0 <= i < N(p) && s.fs.fetched[i].Bad?
    ensures s.wr.turn <= N(p) && forall i :: 0 <= i < s.wr.turn ==> s.fs.fetched[i].Good?
    ensures s.wr.turn < N(p) ==> s.fs.fetched[s.wr.turn].Bad?
    ensures !s.wr.writeErr ==> s.wr.out == Concat(Parts(s.fs.fetched, s.wr.turn))
    ensures forall hash :: Ok(p, s, hash) ==> !s.wr.writeErr && forall i :: 0 <= i < N(p) ==> s.fs.fetched[i].Good?
  {
    forall i | 0 <= i < N(p) && s.fs.fetched[i].Bad? ensures s.fs.firstErr {
      assert CellOk(p, s.fs, s.wr.turn, i);
    }
  }

  /** The plan's rows are the first rows of a file whose chunks are `parts`. */
  ghost predicate RowsOf(p: Plan, parts: seq<Bytes>) {
    N(p) <= |parts| && forall i :: 0 <= i < N(p) ==> p.items[i].sha == p.suite.sha256(parts[i])
  }

  /** Whatever the remote side delivers, a chunk that was accepted is the original one. */
  lemma AcceptedIsOriginal(p: Plan, s: State, parts: seq<Bytes>)
    requires Lawful(p.suite) && Cells(p, s.fs, s.wr.turn) && RowsOf(p, parts)
    ensures forall i :: 0 <= i < N(p) && s.fs.fetched[i].Good? ==> s.fs.fetched[i].bytes == parts[i]
  {
    forall i | 0 <= i < N(p) && s.fs.fetched[i].Good? ensures s.fs.fetched[i].bytes == parts[i] {
      assert CellOk(p, s.fs, s.wr.turn, i);
    }
  }

  /** Tamper safety, at every moment of every run: what reached the writer is a front
      part of the bytes originally put, whole chunks of it unless the writer failed. */
  lemma OutputIsPrefix(p: Plan, s: State, parts: seq<Bytes>)
    requires Lawful(p.suite) && Inv(p, s) && RowsOf(p, parts)
    ensures s.wr.turn <= |parts| && s.wr.out <= Concat(parts[..s.wr.turn]) <= Concat(parts)
    ensures !s.wr.writeErr ==> s.wr.out == s.wr.hashed == Concat(parts[..s.wr.turn])
  {
    AcceptedIsOriginal(p, s, parts);
    assert Parts(s.fs.fetched, s.wr.turn) == parts[..s.wr.turn];
    ConcatPrefix(parts, s.wr.turn);
  }

  /** nil means that every byte originally put was written, also for a file some of whose
      rows are missing. */
  lemma OkMeansAll(p: Plan, s: State, parts: seq<Bytes>)
    requires Lawful(p.suite) && Inv(p, s) && Final(p, s) && RowsOf(p, parts)
    requires Ok(p, s, p.suite.sha256(Concat(parts)))
    ensures s.wr.out == Concat(parts)
  {
    OutputIsPrefix(p, s, parts);
  }

  /** The outcome depends on which chunks fail and not on timing. */
  lemma TimingDoesNotMatter(p: Plan, s: State, t: State, parts: seq<Bytes>, hash: Digest)
    requires Lawful(p.suite) && RowsOf(p, parts)
    requires Inv(p, s) && Final(p, s) && Inv(p, t) && Final(p, t) && !s.wr.writeErr && !t.wr.writeErr
    requires forall i :: 0 <= i < N(p) ==> (s.fs.fetched[i].Bad? <==> t.fs.fetched[i].Bad?)
    ensures s.wr.out == t.wr.out && Ok(p, s, hash) == Ok(p, t, hash)
  {
    LowestFailureDecides(p, s);
    LowestFailureDecides(p, t);
    assert s.wr.turn == t.wr.turn;
    OutputIsPrefix(p, s, parts);
    OutputIsPrefix(p, t, parts);
  }

  // ---- when the remote side behaves ----

  /** What must become of chunk `i` if its download neither fails nor is tampered with. */
  function Expected(p: Plan, i: nat): Fetch
    requires i < N(p)
  {
    if !p.items[i].access.Has? then Bad
    else
      var raw := p.items[i].access.bytes;
      match Check(p.suite, p.key, p.items[i].algo, p.items[i].sha, raw, Min(16, |raw|), Ended(p, i, raw))
      case Some(plain) => Good(plain)
      case None => Bad
  }

  ghost predicate Settled(p: Plan, f: Fetchers) {
    |f.fetched| == N(p) && forall i :: 0 <= i < N(p) ==> f.fetched[i].Pending? || f.fetched[i] == Expected(p, i)
  }

  lemma SettledStep(p: Plan, s: State, e: Event)
    requires Honest(p) && Control(p, s.fs) && Settled(p, s.fs) && Enabled(p, s, e)
    ensures Settled(p, Apply(p, s, e).fs)
  {
  }

  lemma FinalSettled(p: Plan, s: State, i: nat)
    requires Inv(p, s) && Final(p, s) && Settled(p, s.fs) && i < N(p)
    ensures s.fs.fetched[i] == Expected(p, i)
  {
    assert CellOk(p, s.fs, s.wr.turn, i);
  }

  /** With an honest remote side and a working writer, GetStream succeeds just when every
      chunk of the file has a row and every row reads back. */
  lemma QuietOutcome(p: Plan, s: State, parts: seq<Bytes>)
    requires Lawful(p.suite) && Inv(p, s) && Final(p, s) && RowsOf(p, parts) && Settled(p, s.fs) && !p.brokenPipe
    requires forall i :: N(p) <= i < |parts| ==> parts[i] != []
    ensures Ok(p, s, p.suite.sha256(Concat(parts))) <==>
      N(p) == |parts| && forall i :: 0 <= i < N(p) ==> Expected(p, i).Good?
  {
    LowestFailureDecides(p, s);
    OutputIsPrefix(p, s, parts);
    forall i | 0 <= i < N(p) ensures s.fs.fetched[i] == Expected(p, i) {
      FinalSettled(p, s, i);
    }
    if N(p) < |parts| {
      ConcatShorter(parts, s.wr.turn);
    } else {
      assert parts[..|parts|] == parts;
    }
  }

  lemma ConcatShorter(parts: seq<Bytes>, k: nat)
    requires k < |parts| && parts[|parts| - 1] != []
    ensures |Concat(parts[..k])| < |Concat(parts)|
  {
    var last := |parts| - 1;
    assert parts == parts[..last] + [parts[last]];
    ConcatSnoc(parts[..last], parts[last]);
    assert parts[..last][..k] == parts[..k];
    ConcatPrefix(parts[..last], k);
  }
}
