/** The framing of one peer connection (server.go, p2p/tcp_transport.go, p2p/encoding.go):
    a read loop that decodes messages and parks at a stream byte, and a handler that then
    reads the announced number of bytes from the same connection, or answers a request
    with a stream of its own. Each send arrives as one segment, and the handler reads only
    while the loop is parked. */
module P2P {
  import opened Prelude
  import opened Ctr
  import C = Codec
  import CAS = CasStore

  const INCOMING_MESSAGE: Byte := 1
  const INCOMING_STREAM: Byte := 2
  const PAYLOAD_BUFFER: nat := 1028

  datatype Message = StoreFile(id: string, key: string, size: nat) | GetFile(id: string, key: string)

  /** The gob encoding of messages. */
  datatype Gob = Gob(encode: Message -> Bytes, decode: Bytes -> Option<Message>)

  ghost predicate Faithful(g: Gob) {
    forall m :: g.decode(g.encode(m)) == Some(m)
  }

  /** encoding/binary for an int64. */
  datatype Sizes = Sizes(encode: nat -> Bytes, decode: Bytes -> nat)

  const INT64_LIMIT: nat := 0x8000_0000_0000_0000

  ghost predicate Exact(z: Sizes) {
    forall n: nat :: n < INT64_LIMIT ==> |z.encode(n)| == 8 && z.decode(z.encode(n)) == n
  }

  function ToLittleEndian(n: nat, len: nat): (r: Bytes)
    ensures |r| == len
  {
    if len == 0 then [] else [ToByte(n % 256)] + ToLittleEndian(n / 256, len - 1)
  }

  function LittleEndian(s: Bytes): nat {
    if s == [] then 0 else Nat(s[0]) + 256 * LittleEndian(s[1..])
  }

  lemma {:induction false} LittleEndianBack(n: nat, len: nat)
    requires n < Pow256(len)
    ensures LittleEndian(ToLittleEndian(n, len)) == n
  {
    if len > 0 {
      hide Nat, ToByte;
      var low, high := ToByte(n % 256), ToLittleEndian(n / 256, len - 1);
      ToByteIs(n % 256);
      LittleEndianBack(n / 256, len - 1);
      assert ([low] + high)[1..] == high;
    }
  }

  /** Eight bytes, least significant first, are such an encoding. */
  lemma LittleEndianExact()
    ensures Exact(Sizes((n: nat) => ToLittleEndian(n, 8), (s: Bytes) => LittleEndian(s)))
  {
    assert Pow256(4) == 0x1_0000_0000;
    assert Pow256(8) == 0x1_0000_0000_0000_0000;
    forall n: nat | n < INT64_LIMIT ensures LittleEndian(ToLittleEndian(n, 8)) == n {
      LittleEndianBack(n, 8);
    }
  }

  // ---- segments ----

  type Segments = seq<Bytes>

  ghost predicate Solid(q: Segments) {
    forall i :: 0 <= i < |q| ==> q[i] != []
  }

  /** What is left after a Read took `n` bytes of the first segment. */
  function Drop(q: Segments, n: nat): Segments
    requires q != [] && n <= |q[0]|
  {
    if n == |q[0]| then q[1..] else [q[0][n..]] + q[1..]
  }

  lemma DropConcat(q: Segments, n: nat)
    requires q != [] && n <= |q[0]|
    ensures Concat(q) == q[0][..n] + Concat(Drop(q, n))
  {
    var d, h, t, c := Drop(q, n), q[0][..n], q[0][n..], Concat(q[1..]);
    if n < |q[0]| {
      assert d[0] == t && d[1..] == q[1..];
    }
    assert Concat(d) == t + c;
    Regroup(h, t, c);
    assert q[0] == h + t;
  }

  lemma Regroup(a: Bytes, b: Bytes, c: Bytes)
    ensures (a + b) + c == a + (b + c)
  {
  }

  // ---- what a node sends ----

  /** One Store call as its peers see it: the id and hashed key it announces, and the
      writes of the encrypted stream; or one request of Get. */
  datatype Item = Frame(id: string, key: string, body: Segments) | Ask(id: string, key: string)

  function Announcement(f: Item): Message {
    match f
    case Frame(id, key, body) => StoreFile(id, key, |Concat(body)|)
    case Ask(id, key) => GetFile(id, key)
  }

  function PayloadOf(g: Gob, f: Item): Bytes {
    g.encode(Announcement(f))
  }

  function StreamOf(f: Item): Segments {
    match f
    case Frame(_, _, body) => [[INCOMING_STREAM]] + body
    case Ask(_, _) => []
  }

  function Sends(g: Gob, f: Item): Segments {
    [[INCOMING_MESSAGE], PayloadOf(g, f)] + StreamOf(f)
  }

  function Wire(g: Gob, fs: seq<Item>): Segments {
    if fs == [] then [] else Sends(g, fs[0]) + Wire(g, fs[1..])
  }

  ghost predicate ItemOk(g: Gob, f: Item) {
    (f.Frame? ==> Solid(f.body)) && 0 < |PayloadOf(g, f)| <= PAYLOAD_BUFFER
  }

  ghost predicate ItemsOk(g: Gob, fs: seq<Item>) {
    forall i :: 0 <= i < |fs| ==> ItemOk(g, fs[i])
  }

  function NameOf(f: Item): CAS.Key {
    CAS.Key(f.id, f.key)
  }

  /** The files a receiver ends up with. */
  function Kept(fs: seq<Item>): map<CAS.Key, Bytes> {
    if fs == [] then map[]
    else
      var n := |fs| - 1;
      if fs[n].Frame? then Kept(fs[..n])[NameOf(fs[n]) := Concat(fs[n].body)] else Kept(fs[..n])
  }

  /** Under every name that was stored a receiver keeps what was stored there last,
      whatever was stored or asked for under other names since. */
  lemma {:induction false} LastStoreCounts(fs: seq<Item>, i: nat)
    requires i < |fs| && fs[i].Frame?
    requires forall k :: i < k < |fs| && fs[k].Frame? ==> NameOf(fs[k]) != NameOf(fs[i])
    ensures NameOf(fs[i]) in Kept(fs) && Kept(fs)[NameOf(fs[i])] == Concat(fs[i].body)
    decreases |fs|
  {
    var n := |fs| - 1;
    if i < n {
      assert fs[..n][i] == fs[i];
      forall k | i < k < |fs[..n]| && fs[..n][k].Frame? ensures NameOf(fs[..n][k]) != NameOf(fs[..n][i]) {
        assert fs[..n][k] == fs[k];
      }
      LastStoreCounts(fs[..n], i);
    }
  }

  lemma {:induction false} StoredNames(fs: seq<Item>, name: CAS.Key)
    ensures name in Kept(fs) <==> exists i :: 0 <= i < |fs| && fs[i].Frame? && NameOf(fs[i]) == name
    decreases |fs|
  {
    if fs != [] {
      var n := |fs| - 1;
      StoredNames(fs[..n], name);
      assert forall i :: 0 <= i < n ==> fs[..n][i] == fs[i];
    }
  }

  /** A file as io.Copy sends it. */
  function Pieces(bytes: Bytes): Segments {
    if bytes == [] then [] else C.Chunks(bytes, BUFFER)
  }

  /** handleMessageGetFile: a stream byte, the size and the file, or nothing. */
  function Reply(z: Sizes, disk: map<CAS.Key, Bytes>, name: CAS.Key): Segments {
    if name !in disk then [] else [[INCOMING_STREAM], z.encode(|disk[name]|)] + Pieces(disk[name])
  }

  /** All that a receiver answers: each request from what it had been sent before it. */
  function Answers(z: Sizes, fs: seq<Item>): Segments {
    if fs == [] then []
    else
      var n := |fs| - 1;
      Answers(z, fs[..n]) + if fs[n].Ask? then Reply(z, Kept(fs[..n]), NameOf(fs[n])) else []
  }

  lemma AnswersMore(z: Sizes, fs: seq<Item>, name: CAS.Key)
    ensures Answers(z, fs + [Ask(name.id, name.key)]) == Answers(z, fs) + Reply(z, Kept(fs), name)
  {
    var all := fs + [Ask(name.id, name.key)];
    assert all[..|fs|] == fs && all[|fs|].Ask?;
  }

  /** A stream byte, the size of the file, and the file in some pieces. */
  ghost predicate Delivers(z: Sizes, reply: Segments, bytes: Bytes) {
    |reply| >= 2 && reply[0] == [2] && reply[1] == z.encode(|bytes|) && Concat(reply[2..]) == bytes
  }

  lemma ReplyDelivers(z: Sizes, disk: map<CAS.Key, Bytes>, name: CAS.Key)
    requires name in disk
    ensures Delivers(z, Reply(z, disk, name), disk[name])
  {
    hide Concat;
    PiecesAre(disk[name]);
    assert Reply(z, disk, name)[2..] == Pieces(disk[name]);
  }

  /** A request is answered, behind all earlier answers, with the file stored last under its
      name before it, and with nothing if none was. */
  lemma RequestAnswered(z: Sizes, fs: seq<Item>, name: CAS.Key)
    ensures var had, has := Answers(z, fs), Answers(z, fs + [Ask(name.id, name.key)]);
      && had <= has && (NeverStored(fs, name) ==> has == had)
      && (forall i: nat :: LastStore(fs, name, i) ==> Delivers(z, has[|had|..], Concat(fs[i].body)))
  {
    hide Answers, Reply, Kept, Delivers, Concat;
    AnswersMore(z, fs, name);
    StoredNames(fs, name);
    if NeverStored(fs, name) {
      NoReply(z, Kept(fs), name);
    }
    forall i: nat | LastStore(fs, name, i) ensures Delivers(z, Reply(z, Kept(fs), name), Concat(fs[i].body)) {
      LastStoreCounts(fs, i);
      ReplyDelivers(z, Kept(fs), name);
    }
  }

  lemma NoReply(z: Sizes, disk: map<CAS.Key, Bytes>, name: CAS.Key)
    requires name !in disk
    ensures Reply(z, disk, name) == []
  {
  }

  ghost predicate NeverStored(fs: seq<Item>, name: CAS.Key) {
    forall i :: 0 <= i < |fs| && fs[i].Frame? ==> NameOf(fs[i]) != name
  }

  ghost predicate LastStore(fs: seq<Item>, name: CAS.Key, i: nat) {
    && i < |fs| && fs[i].Frame? && NameOf(fs[i]) == name
    && forall k :: i < k < |fs| && fs[k].Frame? ==> NameOf(fs[k]) != name
  }

  lemma PiecesAre(bytes: Bytes)
    ensures Concat(Pieces(bytes)) == bytes
  {
    if bytes != [] {
      C.ChunksConcat(bytes, BUFFER);
    }
  }

  // ---- the receiving node ----

  /** Where the read loop is: before the framing byte, before the payload, or in Wait. */
  datatype Phase = Peeking | Reading | Parked

  datatype Job = Job(id: string, key: string, size: nat, got: Bytes)

  datatype Node = Node(
    unsent: Segments, queue: Segments, phase: Phase, rpcs: seq<Bytes>, job: Option<Job>,
    disk: map<CAS.Key, Bytes>, outbox: Segments)

  datatype Event = Arrive | Peek | ReadPayload | Pick | Take(n: nat) | Finish

  predicate IsRequest(g: Gob, payload: Bytes) {
    g.decode(payload).Some? && g.decode(payload).value.GetFile?
  }

  predicate Enabled(g: Gob, s: Node, e: Event) {
    match e
    case Arrive => s.unsent != []
    case Peek => s.phase == Peeking && s.queue != [] && s.queue[0] != []
    case ReadPayload => s.phase == Reading && s.queue != [] && s.queue[0] != []
    case Pick => s.job.None? && s.rpcs != [] && (s.phase == Parked || IsRequest(g, s.rpcs[0]))
    case Take(n) =>
      && s.phase == Parked && s.job.Some? && s.queue != [] && 0 < n <= |s.queue[0]|
      && |s.job.value.got| + n <= s.job.value.size
    case Finish => s.phase == Parked && s.job.Some? && |s.job.value.got| == s.job.value.size
  }

  /** handleMessage, up to the first byte it reads. */
  function Picked(g: Gob, z: Sizes, s: Node): Node
    requires s.rpcs != []
  {
    var t := s.(rpcs := s.rpcs[1..]);
    match g.decode(s.rpcs[0])
    case Some(StoreFile(id, key, size)) => t.(job := Some(Job(id, key, size, [])))
    case Some(GetFile(id, key)) => t.(outbox := s.outbox + Reply(z, s.disk, CAS.Key(id, key)))
    case None => t
  }

  function Apply(g: Gob, z: Sizes, s: Node, e: Event): Node
    requires Enabled(g, s, e)
  {
    match e
    case Arrive => s.(unsent := s.unsent[1..], queue := s.queue + [s.unsent[0]])
    case Peek =>
      s.(queue := Drop(s.queue, 1), phase := if s.queue[0][0] == INCOMING_STREAM then Parked else Reading)
    case ReadPayload =>
      var n := Min(|s.queue[0]|, PAYLOAD_BUFFER);
      s.(queue := Drop(s.queue, n), phase := Peeking, rpcs := s.rpcs + [s.queue[0][..n]])
    case Pick => Picked(g, z, s)
    case Take(n) =>
      s.(queue := Drop(s.queue, n), job := Some(s.job.value.(got := s.job.value.got + s.queue[0][..n])))
    case Finish =>
      var j := s.job.value;
      s.(job := None, phase := Peeking, disk := s.disk[CAS.Key(j.id, j.key) := j.got])
  }

  function Fresh(arriving: Segments): Node {
    Node(arriving, [], Peeking, [], None, map[], [])
  }

  /** A message comes through whole, with the next frame behind it, exactly when it fits
      the decoder's buffer. */
  lemma MessageIntactIff(g: Gob, z: Sizes, s: Node, payload: Bytes, rest: Segments)
    requires s.phase == Peeking && s.queue == [[1], payload] + rest && payload != []
    ensures Enabled(g, s, Peek) && Enabled(g, Apply(g, z, s, Peek), ReadPayload)
    ensures Apply(g, z, Apply(g, z, s, Peek), ReadPayload) == s.(queue := rest, rpcs := s.rpcs + [payload]) <==>
      |payload| <= 1028
  {
    var t := Apply(g, z, s, Peek);
    assert t.queue == [payload] + rest;
    assert ([payload] + rest)[1..] == rest;
    var u := Apply(g, z, t, ReadPayload);
    if |payload| <= PAYLOAD_BUFFER {
      assert payload[..|payload|] == payload;
    } else {
      assert |u.rpcs[|s.rpcs|]| != |payload|;
    }
  }

  // ---- the invariant ----

  /** Which part of the current item is still to come. */
  datatype Stage = AtBoundary | InMessage | Told | Waiting | Streaming(tail: Segments)

  /** How far the connection is: requests handled, items read, stage of the next one. */
  datatype Place = Place(handled: nat, read: nat, stage: Stage)

  ghost predicate InRange(fs: seq<Item>, at: Place) {
    && at.handled <= at.read <= |fs| && (at.stage != AtBoundary ==> at.read < |fs|)
    && (at.stage.Told? || at.stage.Waiting? || at.stage.Streaming? ==> fs[at.read].Frame?)
    && (forall t :: at.handled <= t < at.read ==> fs[t].Ask?)
  }

  ghost function Ahead(g: Gob, fs: seq<Item>, at: Place): Segments
    requires InRange(fs, at)
  {
    if at.stage == AtBoundary then Wire(g, fs[at.read..])
    else StageAhead(g, fs[at.read], at.stage) + Wire(g, fs[at.read + 1..])
  }

  function StageAhead(g: Gob, f: Item, st: Stage): Segments {
    match st
    case AtBoundary => []
    case InMessage => [PayloadOf(g, f)] + StreamOf(f)
    case Told => StreamOf(f)
    case Waiting => if f.Frame? then f.body else []
    case Streaming(tail) => tail
  }

  function Payloads(g: Gob, fs: seq<Item>): (r: seq<Bytes>)
    ensures |r| == |fs|
  {
    seq(|fs|, i requires 0 <= i < |fs| => PayloadOf(g, fs[i]))
  }

  /** What loop and handler hold. */
  ghost predicate Holds(g: Gob, fs: seq<Item>, at: Place, s: Node)
    requires InRange(fs, at)
  {
    var asked := Payloads(g, fs[at.handled..at.read]);
    match at.stage
    case AtBoundary => s.phase == Peeking && s.rpcs == asked && s.job.None?
    case InMessage => s.phase == Reading && s.rpcs == asked && s.job.None?
    case Told => s.phase == Peeking && s.rpcs == asked + [PayloadOf(g, fs[at.read])] && s.job.None?
    case Waiting => s.phase == Parked && s.rpcs == asked + [PayloadOf(g, fs[at.read])] && s.job.None?
    case Streaming(tail) =>
      && s.phase == Parked && at.handled == at.read && s.rpcs == [] && s.job.Some?
      && s.job.value == Job(fs[at.read].id, fs[at.read].key, |Concat(fs[at.read].body)|, s.job.value.got)
      && s.job.value.got + Concat(tail) == Concat(fs[at.read].body) && Solid(tail)
  }

  ghost predicate Inv(g: Gob, z: Sizes, fs: seq<Item>, at: Place, s: Node) {
    && InRange(fs, at) && s.queue + s.unsent == Ahead(g, fs, at) && Holds(g, fs, at, s)
    && s.disk == Kept(fs[..at.handled]) && s.outbox == Answers(z, fs[..at.handled])
  }

  lemma StartInv(g: Gob, z: Sizes, fs: seq<Item>)
    ensures Inv(g, z, fs, Place(0, 0, AtBoundary), Fresh(Wire(g, fs)))
  {
    assert fs[0..] == fs && fs[..0] == [] && fs[0..0] == [];
  }

  lemma WireNext(g: Gob, fs: seq<Item>, i: nat)
    requires i < |fs|
    ensures Wire(g, fs[i..]) == [[1]] + (StageAhead(g, fs[i], InMessage) + Wire(g, fs[i + 1..]))
  {
    assert fs[i..][0] == fs[i] && fs[i..][1..] == fs[i + 1..];
  }

  lemma WireEnds(g: Gob, fs: seq<Item>, i: nat)
    requires i <= |fs|
    ensures i == |fs| ==> Wire(g, fs[i..]) == []
  {
  }

  /** What the next item does to disk and answers. */
  lemma NextItem(z: Sizes, fs: seq<Item>, i: nat)
    requires i < |fs|
    ensures fs[i].Frame? ==> Kept(fs[..i + 1]) == Kept(fs[..i])[NameOf(fs[i]) := Concat(fs[i].body)]
    ensures fs[i].Frame? ==> Answers(z, fs[..i + 1]) == Answers(z, fs[..i])
    ensures fs[i].Ask? ==> Kept(fs[..i + 1]) == Kept(fs[..i])
    ensures fs[i].Ask? ==> Answers(z, fs[..i + 1]) == Answers(z, fs[..i]) + Reply(z, Kept(fs[..i]), NameOf(fs[i]))
  {
    assert fs[..i + 1][..i] == fs[..i] && fs[..i + 1][i] == fs[i];
    assert Answers(z, fs[..i]) + [] == Answers(z, fs[..i]);
  }

  /** Reading from the queue is reading from everything still to come. */
  lemma DropFront(q: Segments, u: Segments, n: nat)
    requires q != [] && n <= |q[0]|
    ensures (q + u)[0] == q[0] && Drop(q, n) + u == Drop(q + u, n)
  {
    assert (q + u)[1..] == q[1..] + u;
  }

  lemma DropAll(x: Bytes, q: Segments)
    ensures ([x] + q)[0] == x && Drop([x] + q, |x|) == q
  {
  }

  /** The first segment of all that is still to come is read whole. */
  lemma FrontGone(q: Segments, u: Segments, x: Bytes, rest: Segments)
    requires q != [] && q + u == [x] + rest
    ensures q[0] == x && Drop(q, |x|) + u == rest
  {
    hide Drop;
    assert (q + u)[0] == q[0];
    DropFront(q, u, |x|);
    DropAll(x, rest);
  }

  lemma AheadPeeked(g: Gob, fs: seq<Item>, at: Place)
    requires InRange(fs, at) && Ahead(g, fs, at) != [] && (at.stage.AtBoundary? || at.stage.Told?)
    ensures at.read < |fs|
    ensures at.stage.AtBoundary? ==> Ahead(g, fs, at) == [[1]] + Ahead(g, fs, at.(stage := InMessage))
    ensures at.stage.Told? ==> Ahead(g, fs, at) == [[2]] + Ahead(g, fs, at.(stage := Waiting))
  {
    hide PayloadOf, Concat;
    if at.stage.AtBoundary? {
      WireEnds(g, fs, at.read);
      WireNext(g, fs, at.read);
    }
  }

  lemma PeekInv(g: Gob, z: Sizes, fs: seq<Item>, at: Place, s: Node) returns (to: Place)
    requires Inv(g, z, fs, at, s) && Enabled(g, s, Peek)
    ensures Inv(g, z, fs, to, Apply(g, z, s, Peek))
  {
    hide Kept, Answers, Payloads, Reply, Concat, PayloadOf, Ahead, Drop;
    AheadPeeked(g, fs, at);
    to := at.(stage := if at.stage.AtBoundary? then InMessage else Waiting);
    var first := if at.stage.AtBoundary? then [INCOMING_MESSAGE] else [INCOMING_STREAM];
    FrontGone(s.queue, s.unsent, first, Ahead(g, fs, to));
  }

  lemma AheadRead(g: Gob, fs: seq<Item>, at: Place)
    requires InRange(fs, at) && at.stage.InMessage?
    ensures InRange(fs, AfterPayload(fs, at))
    ensures Ahead(g, fs, at) == [PayloadOf(g, fs[at.read])] + Ahead(g, fs, AfterPayload(fs, at))
  {
    hide PayloadOf, Concat, Wire;
  }

  /** The place once the payload of the current message is read. */
  ghost function AfterPayload(fs: seq<Item>, at: Place): Place
    requires InRange(fs, at) && at.stage.InMessage?
  {
    if fs[at.read].Frame? then at.(stage := Told) else Place(at.handled, at.read + 1, AtBoundary)
  }

  lemma ReadPayloadInv(g: Gob, z: Sizes, fs: seq<Item>, at: Place, s: Node) returns (to: Place)
    requires ItemsOk(g, fs) && Inv(g, z, fs, at, s) && Enabled(g, s, ReadPayload)
    ensures Inv(g, z, fs, to, Apply(g, z, s, ReadPayload))
  {
    hide Kept, Answers, Reply, Wire, Concat, PayloadOf, Ahead, Drop;
    assert ItemOk(g, fs[at.read]);
    var payload := PayloadOf(g, fs[at.read]);
    to := AfterPayload(fs, at);
    AheadRead(g, fs, at);
    FrontGone(s.queue, s.unsent, payload, Ahead(g, fs, to));
    assert payload[..|payload|] == payload;
    PayloadsNext(g, fs, at.handled, at.read);
  }

  lemma PayloadsNext(g: Gob, fs: seq<Item>, h: nat, n: nat)
    requires h <= n < |fs|
    ensures Payloads(g, fs[h..n + 1]) == Payloads(g, fs[h..n]) + [PayloadOf(g, fs[n])]
  {
  }

  lemma PayloadsFirst(g: Gob, fs: seq<Item>, h: nat, n: nat)
    requires h < n <= |fs|
    ensures Payloads(g, fs[h..n]) == [PayloadOf(g, fs[h])] + Payloads(g, fs[h + 1..n])
  {
  }

  lemma PickAsk(g: Gob, z: Sizes, fs: seq<Item>, at: Place, s: Node)
    requires Faithful(g) && Inv(g, z, fs, at, s) && Enabled(g, s, Pick) && at.handled < at.read
    ensures Inv(g, z, fs, at.(handled := at.handled + 1), Apply(g, z, s, Pick))
  {
    hide Wire, Kept, Answers, Reply, Payloads, PayloadOf, Picked, StageAhead, Concat, Faithful;
    PayloadsFirst(g, fs, at.handled, at.read);
    AnswerOne(g, z, fs, at, s);
  }

  lemma PickStore(g: Gob, z: Sizes, fs: seq<Item>, at: Place, s: Node)
    requires Faithful(g) && ItemsOk(g, fs) && Inv(g, z, fs, at, s) && Enabled(g, s, Pick) && at.handled == at.read
    ensures at.read < |fs| && fs[at.read].Frame?
    ensures Inv(g, z, fs, at.(stage := Streaming(fs[at.read].body)), Apply(g, z, s, Pick))
  {
    hide Wire, Kept, Answers, Reply, ItemsOk, Payloads, PayloadOf, Picked, Faithful;
    StorePicked(g, z, fs, at, s);
    assert [] + Concat(fs[at.read].body) == Concat(fs[at.read].body);
  }

  lemma PickInv(g: Gob, z: Sizes, fs: seq<Item>, at: Place, s: Node) returns (to: Place)
    requires Faithful(g) && ItemsOk(g, fs) && Inv(g, z, fs, at, s) && Enabled(g, s, Pick)
    ensures Inv(g, z, fs, to, Apply(g, z, s, Pick))
  {
    hide Faithful, ItemsOk, Ahead, Holds, Picked, Enabled, Kept, Answers;
    if at.handled < at.read {
      PickAsk(g, z, fs, at, s);
      to := at.(handled := at.handled + 1);
    } else {
      PickStore(g, z, fs, at, s);
      to := at.(stage := Streaming(fs[at.read].body));
    }
  }

  lemma AnswerOne(g: Gob, z: Sizes, fs: seq<Item>, at: Place, s: Node)
    requires Faithful(g) && InRange(fs, at) && at.handled < at.read && s.rpcs != []
    requires s.rpcs[0] == PayloadOf(g, fs[at.handled])
    requires s.disk == Kept(fs[..at.handled]) && s.outbox == Answers(z, fs[..at.handled])
    ensures Picked(g, z, s) ==
      s.(rpcs := s.rpcs[1..], disk := Kept(fs[..at.handled + 1]), outbox := Answers(z, fs[..at.handled + 1]))
  {
    NextItem(z, fs, at.handled);
  }

  lemma StorePicked(g: Gob, z: Sizes, fs: seq<Item>, at: Place, s: Node)
    requires Faithful(g) && ItemsOk(g, fs) && InRange(fs, at) && Holds(g, fs, at, s) && at.handled == at.read
    requires Enabled(g, s, Pick)
    ensures at.stage == Waiting && Solid(fs[at.read].body)
    ensures var f := fs[at.read]; Picked(g, z, s) == s.(rpcs := [], job := Some(Job(f.id, f.key, |Concat(f.body)|, [])))
  {
    assert fs[at.handled..at.read] == [];
    if at.stage.Told? || at.stage.Waiting? {
      assert ItemOk(g, fs[at.read]);
      assert s.rpcs == [PayloadOf(g, fs[at.read])];
      assert s.rpcs[1..] == [];
    }
  }

  /** `n` bytes go from the queue, and from the front of the stream still to come. */
  lemma TakeFront(q: Segments, u: Segments, tail: Segments, rest: Segments, n: nat)
    requires q != [] && tail != [] && q + u == tail + rest && Solid(tail) && n <= |q[0]|
    ensures q[0] == tail[0] && Drop(q, n) + u == Drop(tail, n) + rest && Solid(Drop(tail, n))
    ensures Concat(tail) == q[0][..n] + Concat(Drop(tail, n))
  {
    hide Drop, Concat, Solid;
    assert (q + u)[0] == q[0] && (tail + rest)[0] == tail[0];
    DropFront(q, u, n);
    DropFront(tail, rest, n);
    DropConcat(tail, n);
    DropSolid(tail, n);
  }

  lemma DropSolid(q: Segments, n: nat)
    requires Solid(q) && q != [] && n <= |q[0]|
    ensures Solid(Drop(q, n))
  {
  }

  lemma TakeInv(g: Gob, z: Sizes, fs: seq<Item>, at: Place, s: Node, n: nat) returns (to: Place)
    requires Inv(g, z, fs, at, s) && Enabled(g, s, Take(n))
    ensures Inv(g, z, fs, to, Apply(g, z, s, Take(n)))
  {
    hide Kept, Answers, Reply, Wire, Payloads, PayloadOf, Drop, Concat, Solid;
    var j, rest, tail := s.job.value, Wire(g, fs[at.read + 1..]), at.stage.tail;
    assert |j.got| + |Concat(tail)| == j.size;
    NotDone(tail);
    TakeFront(s.queue, s.unsent, tail, rest, n);
    to := at.(stage := Streaming(Drop(tail, n)));
    Regroup(j.got, s.queue[0][..n], Concat(to.stage.tail));
  }

  lemma NotDone(tail: Segments)
    ensures |Concat(tail)| > 0 ==> tail != []
  {
  }

  lemma SolidEmpty(q: Segments)
    requires Solid(q) && Concat(q) == []
    ensures q == []
  {
  }

  /** The handler stops exactly at the end of the frame. */
  lemma FinishInv(g: Gob, z: Sizes, fs: seq<Item>, at: Place, s: Node)
    requires Inv(g, z, fs, at, s) && Enabled(g, s, Finish)
    ensures at.read < |fs| && Inv(g, z, fs, Place(at.read + 1, at.read + 1, AtBoundary), Apply(g, z, s, Finish))
  {
    hide Answers, Reply, Wire;
    var j, n := s.job.value, at.read + 1;
    assert |j.got| + |Concat(at.stage.tail)| == j.size;
    SolidEmpty(at.stage.tail);
    assert j.got == Concat(fs[at.read].body);
    NextItem(z, fs, at.read);
    assert fs[n..n] == [];
  }

  lemma StepInv(g: Gob, z: Sizes, fs: seq<Item>, at: Place, s: Node, e: Event) returns (to: Place)
    requires Faithful(g) && ItemsOk(g, fs) && Inv(g, z, fs, at, s) && Enabled(g, s, e)
    ensures Inv(g, z, fs, to, Apply(g, z, s, e))
  {
    hide Faithful, ItemsOk, Wire, Kept, Answers, Reply;
    to := at;
    match e
    case Arrive =>
      assert s.queue + [s.unsent[0]] + s.unsent[1..] == s.queue + s.unsent;
    case Peek =>
      to := PeekInv(g, z, fs, at, s);
    case ReadPayload =>
      to := ReadPayloadInv(g, z, fs, at, s);
    case Pick =>
      to := PickInv(g, z, fs, at, s);
    case Take(n) =>
      to := TakeInv(g, z, fs, at, s, n);
    case Finish =>
      FinishInv(g, z, fs, at, s);
      to := Place(at.read + 1, at.read + 1, AtBoundary);
  }

  // ---- termination and progress ----

  function Measure(s: Node): nat {
    |s.unsent| + 3 * |Concat(s.queue + s.unsent)| + 2 * |s.rpcs| + if s.job.Some? then 1 else 0
  }

  lemma ConsumeShrinks(q: Segments, u: Segments, n: nat)
    requires q != [] && 0 < n <= |q[0]|
    ensures |Concat(Drop(q, n) + u)| == |Concat(q + u)| - n
  {
    DropFront(q, u, n);
    DropConcat(q + u, n);
  }

  lemma StepDecreases(g: Gob, z: Sizes, s: Node, e: Event)
    requires Enabled(g, s, e)
    ensures Measure(Apply(g, z, s, e)) < Measure(s)
  {
    match e
    case Arrive =>
      assert s.queue + [s.unsent[0]] + s.unsent[1..] == s.queue + s.unsent;
    case Peek => ConsumeShrinks(s.queue, s.unsent, 1);
    case ReadPayload => ConsumeShrinks(s.queue, s.unsent, Min(|s.queue[0]|, PAYLOAD_BUFFER));
    case Pick =>
    case Take(n) => ConsumeShrinks(s.queue, s.unsent, n);
    case Finish =>
  }

  predicate Final(s: Node) {
    s.unsent == [] && s.queue == [] && s.phase == Peeking && s.rpcs == [] && s.job.None?
  }

  /** Nothing gets stuck: some step is possible until everything has been dealt with. */
  lemma Progress(g: Gob, z: Sizes, fs: seq<Item>, at: Place, s: Node) returns (e: Event)
    requires Faithful(g) && ItemsOk(g, fs) && Inv(g, z, fs, at, s) && !Final(s)
    ensures Enabled(g, s, e)
  {
    hide Kept, Answers, Reply;
    if s.unsent != [] {
      e := Arrive;
    } else if at.handled < at.read && !at.stage.Streaming? {
      PayloadsFirst(g, fs, at.handled, at.read);
      assert fs[at.handled].Ask?;
      e := Pick;
    } else {
      assert s.queue == Ahead(g, fs, at);
      match at.stage
      case AtBoundary =>
        WireEnds(g, fs, at.read);
        assert at.read < |fs|;
        WireNext(g, fs, at.read);
        e := Peek;
      case InMessage =>
        assert ItemOk(g, fs[at.read]);
        e := ReadPayload;
      case Told => e := Peek;
      case Waiting => e := Pick;
      case Streaming(tail) =>
        if tail == [] {
          e := Finish;
        } else {
          assert s.queue[0] == tail[0];
          assert |s.job.value.got| + |Concat(tail)| == s.job.value.size;
          e := Take(1);
        }
    }
  }

  // ---- every schedule ----

  ghost predicate IsRun(g: Gob, z: Sizes, s: Node, es: seq<Event>)
    decreases |es|
  {
    es == [] || (Enabled(g, s, es[0]) && IsRun(g, z, Apply(g, z, s, es[0]), es[1..]))
  }

  ghost function Reached(g: Gob, z: Sizes, s: Node, es: seq<Event>): Node
    requires IsRun(g, z, s, es)
    decreases |es|
  {
    if es == [] then s else Reached(g, z, Apply(g, z, s, es[0]), es[1..])
  }

  lemma {:induction false} RunKeeps(g: Gob, z: Sizes, fs: seq<Item>, at: Place, s: Node, es: seq<Event>)
      returns (to: Place)
    requires Faithful(g) && ItemsOk(g, fs) && Inv(g, z, fs, at, s) && IsRun(g, z, s, es)
    ensures Inv(g, z, fs, to, Reached(g, z, s, es))
    ensures |es| + Measure(Reached(g, z, s, es)) <= Measure(s)
    decreases |es|
  {
    hide Faithful, ItemsOk, Inv, Measure;
    if es == [] {
      to := at;
    } else {
      var mid := StepInv(g, z, fs, at, s, es[0]);
      StepDecreases(g, z, s, es[0]);
      to := RunKeeps(g, z, fs, mid, Apply(g, z, s, es[0]), es[1..]);
    }
  }

  /** At the end everything is on disk and every request answered. */
  lemma FinalIsAll(g: Gob, z: Sizes, fs: seq<Item>, at: Place, s: Node)
    requires Inv(g, z, fs, at, s) && Final(s)
    ensures at == Place(|fs|, |fs|, AtBoundary) && s.disk == Kept(fs) && s.outbox == Answers(z, fs)
  {
    hide Kept, Answers, Reply;
    if at.stage == AtBoundary {
      assert |Payloads(g, fs[at.handled..at.read])| == 0;
      if at.read < |fs| {
        WireNext(g, fs, at.read);
      }
      assert fs[..|fs|] == fs;
    }
  }

  /** For any sequence of stores and requests and any schedule: whenever the loop is back
      before a framing byte with nothing in progress, exactly the first `k` items have been
      dealt with, byte for byte, and what is still to come are exactly the others. */
  lemma ResumesAtBoundary(g: Gob, z: Sizes, fs: seq<Item>, es: seq<Event>) returns (k: nat)
    requires Faithful(g) && ItemsOk(g, fs) && IsRun(g, z, Fresh(Wire(g, fs)), es)
    ensures k <= |fs|
    ensures var s := Reached(g, z, Fresh(Wire(g, fs)), es);
      && s.disk == Kept(fs[..k]) && s.outbox == Answers(z, fs[..k])
      && (s.phase == Peeking && s.rpcs == [] && s.job.None? ==> s.queue + s.unsent == Wire(g, fs[k..]))
      && |es| <= Measure(Fresh(Wire(g, fs))) && (Final(s) ==> k == |fs|) && (Final(s) || exists e :: Enabled(g, s, e))
  {
    hide Kept, Answers, Reply, Faithful, ItemsOk, Measure;
    StartInv(g, z, fs);
    var at := RunKeeps(g, z, fs, Place(0, 0, AtBoundary), Fresh(Wire(g, fs)), es);
    var s := Reached(g, z, Fresh(Wire(g, fs)), es);
    k := at.handled;
    if Final(s) {
      FinalIsAll(g, z, fs, at, s);
    } else {
      var e := Progress(g, z, fs, at, s);
    }
    assert |Payloads(g, fs[at.handled..at.read])| == at.read - at.handled;
  }

  /** The receiving side under an arbitrary schedule. */
  method Receive(g: Gob, z: Sizes, fs: seq<Item>) returns (s: Node)
    requires Faithful(g) && ItemsOk(g, fs)
    ensures Final(s) && s.disk == Kept(fs) && s.outbox == Answers(z, fs)
  {
    hide Faithful, ItemsOk, Inv, Measure;
    s := Fresh(Wire(g, fs));
    StartInv(g, z, fs);
    ghost var at := Place(0, 0, AtBoundary);
    while !Final(s)
      invariant Inv(g, z, fs, at, s)
      decreases Measure(s)
    {
      ghost var some := Progress(g, z, fs, at, s);
      var e :| Enabled(g, s, e);
      at := StepInv(g, z, fs, at, s, e);
      StepDecreases(g, z, s, e);
      s := Apply(g, z, s, e);
    }
    FinalIsAll(g, z, fs, at, s);
  }

  // ---- Store ----

  /** The writes of CopyEncrypt for a source read in `pieces`. */
  function CipherPieces(ks: KeyStream, pos: nat, pieces: Segments): Segments
    decreases |pieces|
  {
    if pieces == [] then [] else [XorAt(ks, pos, pieces[0])] + CipherPieces(ks, pos + |pieces[0]|, pieces[1..])
  }

  function SealedPieces(e: Cipher, key: Bytes, iv: Block, pieces: Segments): Segments {
    [iv] + CipherPieces(Keys(e, key, iv), 0, pieces)
  }

  lemma {:induction false} CipherConcat(ks: KeyStream, pos: nat, pieces: Segments)
    requires Solid(pieces)
    ensures Concat(CipherPieces(ks, pos, pieces)) == XorAt(ks, pos, Concat(pieces))
    ensures Solid(CipherPieces(ks, pos, pieces))
    decreases |pieces|
  {
    if pieces != [] {
      var first, later := XorAt(ks, pos, pieces[0]), CipherPieces(ks, pos + |pieces[0]|, pieces[1..]);
      CipherConcat(ks, pos + |pieces[0]|, pieces[1..]);
      XorAppend(ks, pos, pieces[0], Concat(pieces[1..]));
      FirstLater(first, later);
    } else {
      assert XorAt(ks, pos, []) == [];
    }
  }

  lemma FirstLater(first: Bytes, later: Segments)
    requires Solid(later) && first != []
    ensures Concat([first] + later) == first + Concat(later) && Solid([first] + later)
  {
    assert ([first] + later)[1..] == later;
  }

  /** A stored file is announced with its size plus 16, and arrives in sealed form. */
  lemma StoreFrame(e: Cipher, key: Bytes, iv: Block, id: string, name: string, pieces: Segments)
    requires Solid(pieces)
    ensures var f := Frame(id, name, SealedPieces(e, key, iv, pieces));
      && Solid(f.body) && Concat(f.body) == Seal(e, key, iv, Concat(pieces))
      && Announcement(f) == StoreFile(id, name, |Concat(pieces)| + 16)
  {
    CipherConcat(Keys(e, key, iv), 0, pieces);
    var body := SealedPieces(e, key, iv, pieces);
    assert body[1..] == CipherPieces(Keys(e, key, iv), 0, pieces);
  }

  /** One Store call: the name it is given, the random vector, and how its copy is read. */
  datatype Upload = Upload(name: string, iv: Block, pieces: Segments)

  /** What every peer is sent for it; `hash` is HashKey. */
  function FrameOf(e: Cipher, key: Bytes, hash: string -> string, id: string, u: Upload): Item {
    Frame(id, hash(u.name), SealedPieces(e, key, u.iv, u.pieces))
  }

  function FramesOf(e: Cipher, key: Bytes, hash: string -> string, id: string, us: seq<Upload>): (r: seq<Item>)
    ensures |r| == |us|
  {
    seq(|us|, i requires 0 <= i < |us| => FrameOf(e, key, hash, id, us[i]))
  }

  /** HashKey has no collision among the names stored. */
  ghost predicate NamesApart(hash: string -> string, us: seq<Upload>) {
    forall i, j :: 0 <= i < |us| && 0 <= j < |us| && hash(us[i].name) == hash(us[j].name) ==> us[i].name == us[j].name
  }

  /** `i` is the last store under its name. */
  ghost predicate Latest(us: seq<Upload>, i: nat) {
    i < |us| && forall k :: i < k < |us| ==> us[k].name != us[i].name
  }

  /** After any sequence of stores, a peer's replica under a name is the file stored last
      under that name, in sealed form. */
  lemma ReplicaIsSealed(e: Cipher, key: Bytes, hash: string -> string, id: string, us: seq<Upload>, i: nat)
    requires NamesApart(hash, us) && Latest(us, i) && Solid(us[i].pieces)
    ensures var fs := FramesOf(e, key, hash, id, us); var name := CAS.Key(id, hash(us[i].name));
      name in Kept(fs) && Kept(fs)[name] == Seal(e, key, us[i].iv, Concat(us[i].pieces))
  {
    var fs := FramesOf(e, key, hash, id, us);
    forall k | i < k < |fs| && fs[k].Frame? ensures NameOf(fs[k]) != NameOf(fs[i]) {
      assert us[k].name != us[i].name;
    }
    LastStoreCounts(fs, i);
    StoreFrame(e, key, us[i].iv, id, hash(us[i].name), us[i].pieces);
  }

  lemma {:induction false} NoRequests(z: Sizes, fs: seq<Item>)
    requires forall i :: 0 <= i < |fs| ==> fs[i].Frame?
    ensures Answers(z, fs) == []
  {
    if fs != [] {
      NoRequests(z, fs[..|fs| - 1]);
    }
  }

  /** A peer that was sent the stores and then the request answers with the replica. */
  lemma AnswersWithReplica(z: Sizes, fs: seq<Item>, name: CAS.Key)
    requires forall i :: 0 <= i < |fs| ==> fs[i].Frame?
    ensures Answers(z, fs + [Ask(name.id, name.key)]) == Reply(z, Kept(fs), name)
  {
    NoRequests(z, fs);
    AnswersMore(z, fs, name);
    assert [] + Reply(z, Kept(fs), name) == Reply(z, Kept(fs), name);
  }

  // ---- Get ----

  // ---- io.LimitReader ----

  /** The reads a limit of `n` bytes lets through. */
  function Limited(q: Segments, n: nat): Segments
    decreases |q|
  {
    if q == [] || n == 0 then []
    else if |q[0]| <= n then [q[0]] + Limited(q[1..], n - |q[0]|)
    else [q[0][..n]]
  }

  function Beyond(q: Segments, n: nat): Segments
    decreases |q|
  {
    if q == [] || n == 0 then q
    else if |q[0]| <= n then Beyond(q[1..], n - |q[0]|)
    else [q[0][n..]] + q[1..]
  }

  /** A limit of exactly one stream's length delivers that stream and leaves the rest. */
  lemma {:induction false} LimitExact(pieces: Segments, rest: Segments)
    requires Solid(pieces)
    ensures Limited(pieces + rest, |Concat(pieces)|) == pieces && Beyond(pieces + rest, |Concat(pieces)|) == rest
    decreases |pieces|
  {
    if pieces == [] {
      assert pieces + rest == rest;
    } else {
      LimitExact(pieces[1..], rest);
      assert (pieces + rest)[1..] == pieces[1..] + rest;
      assert (pieces + rest)[0] == pieces[0];
      assert pieces == [pieces[0]] + pieces[1..];
    }
  }

  /** A connection whose read loop is parked; `queue` is what arrived behind the stream byte. */
  class Conn {
    var queue: Segments

    constructor (queue: Segments)
      ensures this.queue == queue
    {
      this.queue := queue;
    }
  }

  /** What handleMessageGetFile sends behind the stream byte: the replica's size, then the
      replica in any pieces, the first of them not shorter than the vector. */
  ghost predicate Serves(z: Sizes, queue: Segments, raw: Bytes, rest: Segments) {
    exists pieces: Segments :: Solid(pieces) && pieces != [] && |pieces[0]| >= 16 && Concat(pieces) == raw &&
      queue == [z.encode(|raw|)] + pieces + rest
  }

  lemma ServedReads(z: Sizes, queue: Segments, raw: Bytes, rest: Segments)
    requires Exact(z) && Serves(z, queue, raw, rest) && |raw| < INT64_LIMIT
    ensures queue != [] && z.decode(queue[0]) == |raw|
    ensures Beyond(queue[1..], |raw|) == rest
    ensures var got := Limited(queue[1..], |raw|); Concat(got) == raw && got != [] && |got[0]| >= 16
  {
    var pieces: Segments :| Solid(pieces) && pieces != [] && |pieces[0]| >= 16 && Concat(pieces) == raw &&
      queue == [z.encode(|raw|)] + pieces + rest;
    assert queue[1..] == pieces + rest;
    LimitExact(pieces, rest);
  }

  /** One peer's answer: read the size, limit the connection, decrypt. */
  method Fetch(z: Sizes, e: Cipher, key: Bytes, conn: Conn, ghost iv: Block, ghost data: Bytes, ghost rest: Segments)
      returns (bytes: Bytes, ok: bool)
    requires Exact(z) && Serves(z, conn.queue, Seal(e, key, iv, data), rest) && 16 + |data| < INT64_LIMIT
    modifies conn
    ensures ok && bytes == data && conn.queue == rest
  {
    ghost var raw := Seal(e, key, iv, data);
    ServedReads(z, conn.queue, raw, rest);
    var size := z.decode(conn.queue[0]);
    var pieces := Limited(conn.queue[1..], size);
    conn.queue := Beyond(conn.queue[1..], size);
    var src := new Source(pieces, Eof, false);
    var dst := new Sink(None);
    var n;
    n, ok := CopyDecrypt(e, key, src, dst);
    bytes := dst.written;
    RoundTripIff(e, key, iv, data, 16);
  }

  /** Get on a node that lost its copy: every peer's replica is fetched in turn, and the
      file ends up on disk as it was stored, each connection at its next frame. */
  method Get(store: CAS.Store, id: string, name: string, z: Sizes, e: Cipher, key: Bytes, conns: seq<Conn>,
             ghost ivs: seq<Block>, ghost data: Bytes, ghost rests: seq<Segments>) returns (r: Option<Bytes>)
    requires Exact(z) && store.Valid() && CAS.InUse(store.keys, CAS.Key(id, name)) && 16 + |data| < INT64_LIMIT
    requires |ivs| == |rests| == |conns|
    requires forall i, j :: 0 <= i < j < |conns| ==> conns[i] != conns[j]
    requires forall i :: 0 <= i < |conns| ==> Serves(z, conns[i].queue, Seal(e, key, ivs[i], data), rests[i])
    modifies store, conns
    ensures store.Valid()
    ensures CAS.Key(id, name) in old(store.contents) ==> r == Some(old(store.contents[CAS.Key(id, name)]))
    ensures CAS.Key(id, name) in old(store.contents) ==> store.contents == old(store.contents)
    ensures CAS.Key(id, name) !in old(store.contents) && conns != [] ==> r == Some(data)
    ensures CAS.Key(id, name) !in old(store.contents) && conns != [] ==>
      store.contents == old(store.contents)[CAS.Key(id, name) := data]
    ensures CAS.Key(id, name) !in old(store.contents) ==> forall i :: 0 <= i < |conns| ==> conns[i].queue == rests[i]
    ensures CAS.Key(id, name) !in old(store.contents) && conns == [] ==> r == None
  {
    hide Serves, Exact, CAS.Represents, CAS.HexDigests, CAS.NoCollision, Seal;
    var has := store.Has(id, name);
    if has {
      r := store.Read(id, name);
      return;
    }
    for i := 0 to |conns|
      invariant store.Valid()
      invariant i == 0 ==> store.contents == old(store.contents)
      invariant i > 0 ==> store.contents == old(store.contents)[CAS.Key(id, name) := data]
      invariant forall j :: 0 <= j < i ==> conns[j].queue == rests[j]
      invariant forall j :: i <= j < |conns| ==> conns[j].queue == old(conns[j].queue)
    {
      var bytes, ok := Fetch(z, e, key, conns[i], ivs[i], data, rests[i]);
      if !ok {
        return None;
      }
      var n := store.Write(id, name, bytes);
    }
    r := store.Read(id, name);
  }

  lemma PiecesServe(z: Sizes, raw: Bytes)
    requires |raw| >= 16
    ensures Serves(z, [z.encode(|raw|)] + Pieces(raw), raw, [])
  {
    var pieces := Pieces(raw);
    C.ChunksNonEmpty(raw, BUFFER);
    C.ChunksConcat(raw, BUFFER);
    C.ChunksShape(raw, BUFFER);
    assert [z.encode(|raw|)] + pieces == [z.encode(|raw|)] + pieces + [];
  }

  /** The asking node's read loop takes the stream byte of a reply and parks; behind it is
      what Get reads. */
  lemma ReplyParks(g: Gob, z: Sizes, disk: map<CAS.Key, Bytes>, name: CAS.Key)
    requires name in disk && |disk[name]| >= 16
    ensures var s := Fresh([]).(queue := Reply(z, disk, name));
      && Enabled(g, s, Peek) && Apply(g, z, s, Peek).phase == Parked
      && Serves(z, Apply(g, z, s, Peek).queue, disk[name], [])
  {
    PiecesServe(z, disk[name]);
    var behind := [z.encode(|disk[name]|)] + Pieces(disk[name]);
    assert Reply(z, disk, name) == [[INCOMING_STREAM]] + behind;
    DropAll([INCOMING_STREAM], behind);
  }

  /** Asks one peer: it has been sent all the stores, now gets the request, and its answer
      travels back; all of that under any schedule. */
  method AskPeer(g: Gob, z: Sizes, fs: seq<Item>, name: CAS.Key, ghost raw: Bytes) returns (conn: Conn)
    requires Faithful(g) && ItemsOk(g, fs + [Ask(name.id, name.key)])
    requires forall i :: 0 <= i < |fs| ==> fs[i].Frame?
    requires name in Kept(fs) && Kept(fs)[name] == raw && |raw| >= 16
    ensures fresh(conn) && Serves(z, conn.queue, raw, [])
  {
    hide Faithful, ItemsOk, Kept, Answers, Reply, Serves;
    AnswersWithReplica(z, fs, name);
    ReplyParks(g, z, Kept(fs), name);
    var peer := Receive(g, z, fs + [Ask(name.id, name.key)]);
    var back := Apply(g, z, Fresh([]).(queue := peer.outbox), Peek);
    conn := new Conn(back.queue);
  }

  /** Store, then Get: after any sequence of stores received by any number of peers, each
      under its own schedule, a node that lost its copy gets back the bytes it stored last
      under that name, and has them on disk again. */
  method StoreThenGet(g: Gob, z: Sizes, e: Cipher, key: Bytes, hash: string -> string, id: string, us: seq<Upload>,
                      i: nat,
                      peers: nat, store: CAS.Store) returns (r: Option<Bytes>)
    requires Faithful(g) && Exact(z) && NamesApart(hash, us) && i < |us| && Latest(us, i) && peers > 0
    requires forall k :: 0 <= k < |us| ==> Solid(us[k].pieces) && |Concat(us[k].pieces)| + 16 < INT64_LIMIT
    requires ItemsOk(g, FramesOf(e, key, hash, id, us) + [Ask(id, hash(us[i].name))])
    requires store.Valid() && CAS.InUse(store.keys, CAS.Key(id, us[i].name))
    requires CAS.Key(id, us[i].name) !in store.contents
    modifies store
    ensures r == Some(Concat(us[i].pieces))
    ensures store.Valid() && store.contents == old(store.contents)[CAS.Key(id, us[i].name) := Concat(us[i].pieces)]
  {
    hide Faithful, Exact, ItemsOk, NamesApart, Latest, Kept;
    hide Serves, CAS.Represents, CAS.HexDigests, CAS.NoCollision, Seal, Solid;
    var fs := FramesOf(e, key, hash, id, us);
    var name := CAS.Key(id, hash(us[i].name));
    ghost var data, raw := Concat(us[i].pieces), Seal(e, key, us[i].iv, Concat(us[i].pieces));
    ReplicaIsSealed(e, key, hash, id, us, i);
    var conns: seq<Conn> := [];
    for p := 0 to peers
      invariant store.Valid() && store.contents == old(store.contents)
      invariant |conns| == p && forall k :: 0 <= k < p ==> fresh(conns[k]) && Serves(z, conns[k].queue, raw, [])
      invariant forall k, l :: 0 <= k < l < p ==> conns[k] != conns[l]
    {
      var conn := AskPeer(g, z, fs, name, raw);
      conns := conns + [conn];
    }
    r := Get(store, id, us[i].name, z, e, key, conns, seq(peers, k => us[i].iv), data, seq(peers, k => []));
  }
}
