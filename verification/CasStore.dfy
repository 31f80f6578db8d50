/** The content-addressed store (storage/store.go): a key becomes a path of five-digit
    segments of its digest, and files live in a directory tree under root and node id. */
module CasStore {
  import opened Prelude

  type Path = seq<string>

  // ---- strings.Split and strings.Join with "/" ----

  function Split(s: string): (r: Path)
    ensures |r| >= 1
  {
    if s == "" then [""] else Prepend(s[0], Split(s[1..]))
  }

  function Prepend(c: char, r: Path): Path
    requires r != []
  {
    if c == '/' then [""] + r else [[c] + r[0]] + r[1..]
  }

  function Join(parts: Path): string {
    if parts == [] then "" else if |parts| == 1 then parts[0] else parts[0] + "/" + Join(parts[1..])
  }

  predicate Plain(s: string) {
    '/' !in s
  }

  lemma {:induction false} SplitPlain(s: string)
    requires Plain(s)
    ensures Split(s) == [s]
  {
    if s != "" {
      assert s[0] in s;
      SplitPlain(s[1..]);
      assert [s[0]] + s[1..] == s;
    }
  }

  lemma PrependCat(c: char, x: Path, y: Path)
    requires x != []
    ensures Prepend(c, x + y) == Prepend(c, x) + y
  {
    assert (x + y)[1..] == x[1..] + y;
  }

  lemma {:induction false} SplitSlash(a: string, b: string)
    ensures Split(a + "/" + b) == Split(a) + Split(b)
  {
    hide Prepend;
    var s := a + "/" + b;
    if a == "" {
      assert s[0] == '/' && s[1..] == b;
      SlashFirst(Split(b));
    } else {
      assert s[0] == a[0] && s[1..] == a[1..] + "/" + b;
      SplitSlash(a[1..], b);
      PrependCat(a[0], Split(a[1..]), Split(b));
    }
  }

  lemma SlashFirst(r: Path)
    requires r != []
    ensures Prepend('/', r) == [""] + r
  {
  }

  /** Splitting undoes joining. */
  lemma {:induction false} SplitJoin(parts: Path)
    requires parts != [] && forall i :: 0 <= i < |parts| ==> Plain(parts[i])
    ensures Split(Join(parts)) == parts
  {
    SplitPlain(parts[0]);
    if |parts| > 1 {
      SplitJoin(parts[1..]);
      SplitSlash(parts[0], Join(parts[1..]));
    }
  }

  // ---- the path transform ----

  const BLOCK: nat := 5

  /** SHA-1 in hexadecimal. */
  type Hash = string -> string

  ghost predicate HexDigests(sha: Hash) {
    forall k :: |sha(k)| == 40 && Plain(sha(k))
  }

  /** No two of the keys in use have the same digest. */
  ghost predicate NoCollision(sha: Hash, keys: set<string>) {
    forall k, l :: k in keys && l in keys && sha(k) == sha(l) ==> k == l
  }

  /** Both assumptions can be met, for any two keys. */
  lemma DigestsExist(a: string, b: string) returns (sha: Hash)
    ensures HexDigests(sha) && NoCollision(sha, {a, b})
    ensures a != b ==> sha(a)[..BLOCK] != sha(b)[..BLOCK]
  {
    var zeros, ones := seq(40, i => '0'), seq(40, i => '1');
    assert zeros[0] == '0' && ones[0] == '1';
    assert zeros[..BLOCK][0] == '0' && ones[..BLOCK][0] == '1';
    sha := k => if k == a then zeros else ones;
  }

  datatype PathKey = PathKey(pathName: string, filename: string)

  function Segments(digest: string): (r: Path)
    ensures |r| == |digest| / 5 && forall i :: 0 <= i < |r| ==> |r[i]| == 5
  {
    seq(|digest| / BLOCK, i requires 0 <= i < |digest| / BLOCK => digest[i * BLOCK..i * BLOCK + BLOCK])
  }

  function Flat(parts: Path): string {
    if parts == [] then "" else parts[0] + Flat(parts[1..])
  }

  /** The segments of a digest, put together, are the digest again. */
  lemma {:induction false} SegmentsFlat(digest: string)
    requires |digest| % BLOCK == 0
    ensures Flat(Segments(digest)) == digest
    decreases |digest|
  {
    if digest != "" {
      var rest := digest[BLOCK..];
      SegmentsFlat(rest);
      forall i | 0 <= i < |Segments(rest)| ensures Segments(digest)[1..][i] == Segments(rest)[i] {
        assert (i + 1) * BLOCK == i * BLOCK + BLOCK;
        assert rest[i * BLOCK..i * BLOCK + BLOCK] == digest[i * BLOCK + BLOCK..i * BLOCK + BLOCK + BLOCK];
      }
      assert Segments(digest)[1..] == Segments(rest);
      assert digest == digest[..BLOCK] + rest;
    }
  }

  method CasPathTransform(sha: Hash, key: string) returns (p: PathKey)
    ensures p == PathKey(Join(Segments(sha(key))), sha(key))
  {
    var digest := sha(key);
    var paths := new string[|digest| / BLOCK];
    for i := 0 to paths.Length
      invariant forall k :: 0 <= k < i ==> paths[k] == Segments(digest)[k]
    {
      paths[i] := digest[i * BLOCK..i * BLOCK + BLOCK];
    }
    assert paths[..] == Segments(digest);
    p := PathKey(Join(paths[..]), digest);
  }

  function CasKey(sha: Hash, key: string): PathKey {
    PathKey(Join(Segments(sha(key))), sha(key))
  }

  function FirstPathName(p: PathKey): string {
    Split(p.pathName)[0]
  }

  function FullPath(p: PathKey): string {
    p.pathName + "/" + p.filename
  }

  lemma SegmentsPlain(digest: string)
    requires Plain(digest)
    ensures forall i :: 0 <= i < |Segments(digest)| ==> Plain(Segments(digest)[i])
  {
  }

  /** The first path name is the first five digits. */
  lemma FirstIsFiveDigits(sha: Hash, key: string)
    requires HexDigests(sha)
    ensures FirstPathName(CasKey(sha, key)) == sha(key)[..5]
  {
    SegmentsPlain(sha(key));
    SplitJoin(Segments(sha(key)));
  }

  // ---- the directory tree ----

  datatype Tree = Tree(files: map<Path, Bytes>, dirs: set<Path>)

  /** os.MkdirAll fails if a file is in the way. */
  function MkdirAll(t: Tree, p: Path): Option<Tree> {
    if exists i :: 0 <= i <= |p| && p[..i] in t.files then None
    else Some(t.(dirs := t.dirs + set i | 0 <= i <= |p| :: p[..i]))
  }

  /** os.Create followed by writing `data`. */
  function CreateFile(t: Tree, p: Path, data: Bytes): Option<Tree> {
    if p == [] || p in t.dirs || p[..|p| - 1] !in t.dirs then None else Some(t.(files := t.files[p := data]))
  }

  function RemoveAll(t: Tree, p: Path): Tree {
    Tree(map q | q in t.files && !(p <= q) :: t.files[q], set q | q in t.dirs && !(p <= q))
  }

  /** Where the file of (id, key) lives. */
  function FileAt(sha: Hash, root: string, id: string, key: string): Path {
    Split(root + "/" + id + "/" + FullPath(CasKey(sha, key)))
  }

  function DirAt(sha: Hash, root: string, id: string, key: string): Path {
    Split(root + "/" + id + "/" + CasKey(sha, key).pathName)
  }

  function TopAt(sha: Hash, root: string, id: string, key: string): Path {
    Split(root + "/" + id + "/" + FirstPathName(CasKey(sha, key)))
  }

  lemma UnderNode(root: string, id: string, rest: string)
    requires Plain(id)
    ensures Split(root + "/" + id + "/" + rest) == Split(root) + [id] + Split(rest)
  {
    hide Split;
    assert root + "/" + id + "/" + rest == root + "/" + (id + "/" + rest);
    SplitSlash(root, id + "/" + rest);
    SplitSlash(id, rest);
    SplitPlain(id);
  }

  lemma Layout(sha: Hash, root: string, id: string, key: string)
    requires HexDigests(sha) && Plain(id)
    ensures DirAt(sha, root, id, key) == Split(root) + [id] + Segments(sha(key))
    ensures FileAt(sha, root, id, key) == DirAt(sha, root, id, key) + [sha(key)]
    ensures TopAt(sha, root, id, key) == Split(root) + [id] + [sha(key)[..BLOCK]]
  {
    var p := CasKey(sha, key);
    SegmentsPlain(sha(key));
    SplitJoin(Segments(sha(key)));
    SplitPlain(sha(key));
    UnderNode(root, id, p.pathName);
    UnderNode(root, id, FullPath(p));
    SplitSlash(p.pathName, p.filename);
    FirstIsFiveDigits(sha, key);
    assert Plain(sha(key)[..BLOCK]);
    SplitPlain(sha(key)[..BLOCK]);
    UnderNode(root, id, FirstPathName(p));
  }

  /** Two pairs of id and key share a path only if they share the id and the digest. */
  lemma FilesApart(sha: Hash, root: string, id: string, key: string, id2: string, key2: string)
    requires HexDigests(sha) && Plain(id) && Plain(id2)
    requires FileAt(sha, root, id, key) == FileAt(sha, root, id2, key2)
    ensures id == id2 && sha(key) == sha(key2)
  {
    Layout(sha, root, id, key);
    Layout(sha, root, id2, key2);
    var p, n := FileAt(sha, root, id, key), |Split(root)|;
    assert p[n] == id && p[n] == id2;
    assert p[|p| - 1] == sha(key) && p[|p| - 1] == sha(key2);
  }

  /** Delete's subtree holds exactly the files of that id whose digest starts with the same
      five digits. */
  lemma TopHolds(sha: Hash, root: string, id: string, key: string, id2: string, key2: string)
    requires HexDigests(sha) && Plain(id) && Plain(id2)
    ensures TopAt(sha, root, id, key) <= FileAt(sha, root, id2, key2) <==>
      id == id2 && sha(key)[..5] == sha(key2)[..5]
  {
    Layout(sha, root, id, key);
    Layout(sha, root, id2, key2);
    var t, q, n := TopAt(sha, root, id, key), FileAt(sha, root, id2, key2), |Split(root)|;
    assert |t| == n + 2 && |q| == n + 10;
    assert q[..n] == Split(root) && t[..n] == Split(root);
    assert t[n] == id && t[n + 1] == sha(key)[..BLOCK];
    assert q[n] == id2;
    assert q[n + 1] == Segments(sha(key2))[0];
    assert Segments(sha(key2))[0] == sha(key2)[..BLOCK];
    assert t == t[..n] + [t[n], t[n + 1]];
    assert q[..n + 2] == q[..n] + [q[n], q[n + 1]];
    assert t <= q <==> t == q[..n + 2];
  }

  // ---- the store as a map ----

  datatype Key = Key(id: string, key: string)

  /** Files are at full depth, in directories that exist, and directories above it. */
  ghost predicate Shaped(t: Tree, depth: nat) {
    && (forall p :: p in t.files ==> |p| == depth && depth > 0 && p[..depth - 1] in t.dirs)
    && (forall p :: p in t.dirs ==> |p| < depth)
  }

  /** An id that is one path component, and a key in use. */
  predicate InUse(keys: set<string>, k: Key) {
    Plain(k.id) && k.key in keys
  }

  /** Of the keys in use, the tree holds exactly the files of `m`. */
  ghost predicate Stores(sha: Hash, root: string, keys: set<string>, t: Tree, m: map<Key, Bytes>) {
    forall k: Key :: InUse(keys, k) ==>
      (k in m <==> FileAt(sha, root, k.id, k.key) in t.files) &&
      (k in m ==> t.files[FileAt(sha, root, k.id, k.key)] == m[k])
  }

  ghost predicate Represents(sha: Hash, root: string, keys: set<string>, t: Tree, m: map<Key, Bytes>) {
    Shaped(t, |Split(root)| + 10) && Stores(sha, root, keys, t, m) && forall k: Key :: k in m ==> InUse(keys, k)
  }

  lemma EightSegments(sha: Hash, key: string)
    requires HexDigests(sha)
    ensures |Segments(sha(key))| == 8
  {
  }

  /** Writing never fails and touches no other key. */
  lemma WriteRefines(sha: Hash, root: string, keys: set<string>, t: Tree, m: map<Key, Bytes>, k: Key, data: Bytes)
    requires HexDigests(sha) && NoCollision(sha, keys) && Represents(sha, root, keys, t, m) && InUse(keys, k)
    ensures MkdirAll(t, DirAt(sha, root, k.id, k.key)).Some?
    ensures var d := MkdirAll(t, DirAt(sha, root, k.id, k.key)).value;
      var r := CreateFile(d, FileAt(sha, root, k.id, k.key), data);
      r.Some? && Represents(sha, root, keys, r.value, m[k := data])
  {
    hide HexDigests, Plain, FileAt, DirAt, Split, Segments;
    Layout(sha, root, k.id, k.key);
    assert |Segments(sha(k.key))| == 8 by {
      EightSegments(sha, k.key);
    }
    var dir, file := DirAt(sha, root, k.id, k.key), FileAt(sha, root, k.id, k.key);
    assert |dir| == |Split(root)| + 9 && dir[..|dir|] == dir && file[..|dir|] == dir;
    var d := MkdirAll(t, dir).value;
    var r := CreateFile(d, file, data).value;
    forall l: Key | InUse(keys, l)
      ensures l in m[k := data] <==> FileAt(sha, root, l.id, l.key) in r.files
      ensures l in m[k := data] ==> r.files[FileAt(sha, root, l.id, l.key)] == m[k := data][l]
    {
      if FileAt(sha, root, l.id, l.key) == file {
        FilesApart(sha, root, l.id, l.key, k.id, k.key);
      }
    }
  }

  /** The keys that go with `k`. */
  predicate Swept(sha: Hash, k: Key, l: Key)
    requires |sha(k.key)| >= BLOCK && |sha(l.key)| >= BLOCK
  {
    k.id == l.id && sha(k.key)[..BLOCK] == sha(l.key)[..BLOCK]
  }

  ghost function After(sha: Hash, m: map<Key, Bytes>, k: Key): map<Key, Bytes>
    requires HexDigests(sha)
  {
    map l | l in m && !Swept(sha, k, l) :: m[l]
  }

  /** Delete removes exactly the keys of that id that share the first five digits. */
  lemma DeleteRefines(sha: Hash, root: string, keys: set<string>, t: Tree, m: map<Key, Bytes>, k: Key)
    requires HexDigests(sha) && Represents(sha, root, keys, t, m) && Plain(k.id)
    ensures Represents(sha, root, keys, RemoveAll(t, TopAt(sha, root, k.id, k.key)), After(sha, m, k))
  {
    var r := RemoveAll(t, TopAt(sha, root, k.id, k.key));
    forall l: Key | InUse(keys, l)
      ensures l in After(sha, m, k) <==> FileAt(sha, root, l.id, l.key) in r.files
      ensures l in After(sha, m, k) ==> r.files[FileAt(sha, root, l.id, l.key)] == m[l]
    {
      TopHolds(sha, root, k.id, k.key, l.id, l.key);
    }
  }

  /** So Delete removes the key alone just when no other stored key of that id shares the
      first five digits. */
  lemma DeleteIsExactIff(sha: Hash, m: map<Key, Bytes>, k: Key)
    requires HexDigests(sha)
    ensures After(sha, m, k) == m - {k} <==> forall l :: l in m && l != k ==> !Swept(sha, k, l)
  {
    if After(sha, m, k) == m - {k} {
      forall l | l in m && l != k ensures !Swept(sha, k, l) {
        assert l in m - {k};
      }
    }
  }

  /** Two keys with such digests show that it can take another key along. */
  lemma DeleteTakesNeighbour(sha: Hash, id: string, key: string, other: string) returns (m: map<Key, Bytes>)
    requires HexDigests(sha) && key != other && sha(key)[..BLOCK] == sha(other)[..BLOCK]
    ensures Key(id, key) in m && Key(id, other) in m && Key(id, other) !in After(sha, m, Key(id, key))
  {
    m := map[Key(id, key) := [1], Key(id, other) := [2]];
  }

  class Store {
    const sha: Hash
    const root: string
    var tree: Tree
    ghost const keys: set<string>
    ghost var contents: map<Key, Bytes>

    ghost predicate Valid()
      reads this
    {
      HexDigests(sha) && NoCollision(sha, keys) && Represents(sha, root, keys, tree, contents)
    }

    /** An empty store, for clients that use the given keys. */
    constructor (sha: Hash, root: string, ghost keys: set<string>)
      requires HexDigests(sha) && NoCollision(sha, keys)
      ensures Valid() && contents == map[] && this.keys == keys && this.sha == sha
      ensures if root == "" then this.root == "ggnetwork" else this.root == root
    {
      this.keys := keys;
      this.sha, this.root := sha, if root == "" then "ggnetwork" else root;
      tree, contents := Tree(map[], {}), map[];
    }

    method Has(id: string, key: string) returns (r: bool)
      requires Valid() && InUse(keys, Key(id, key))
      ensures r <==> Key(id, key) in contents
    {
      var p := CasPathTransform(sha, key);
      var full := Split(root + "/" + id + "/" + FullPath(p));
      Layout(sha, root, id, key);
      assert |full| == |Split(root)| + 10;
      r := full in tree.files || full in tree.dirs;
    }

    method Write(id: string, key: string, data: Bytes) returns (n: Option<nat>)
      requires Valid() && InUse(keys, Key(id, key))
      modifies this
      ensures Valid() && n == Some(|data|) && contents == old(contents)[Key(id, key) := data]
    {
      WriteRefines(sha, root, keys, tree, contents, Key(id, key), data);
      var p := CasPathTransform(sha, key);
      var made := MkdirAll(tree, Split(root + "/" + id + "/" + p.pathName));
      if made.None? {
        return None;
      }
      var written := CreateFile(made.value, Split(root + "/" + id + "/" + FullPath(p)), data);
      if written.None? {
        return None;
      }
      tree := written.value;
      contents := contents[Key(id, key) := data];
      n := Some(|data|);
    }

    method Read(id: string, key: string) returns (r: Option<Bytes>)
      requires Valid() && InUse(keys, Key(id, key))
      ensures r == if Key(id, key) in contents then Some(contents[Key(id, key)]) else None
    {
      var p := CasPathTransform(sha, key);
      var full := Split(root + "/" + id + "/" + FullPath(p));
      assert full == FileAt(sha, root, id, key);
      r := if full in tree.files then Some(tree.files[full]) else None;
    }

    method Delete(id: string, key: string)
      requires Valid() && Plain(id)
      modifies this
      ensures Valid() && contents == After(sha, old(contents), Key(id, key))
    {
      DeleteRefines(sha, root, keys, tree, contents, Key(id, key));
      var p := CasPathTransform(sha, key);
      tree := RemoveAll(tree, Split(root + "/" + id + "/" + FirstPathName(p)));
      contents := After(sha, contents, Key(id, key));
    }
  }

  lemma TwoAfter(sha: Hash, a: string, b: string)
    requires a != b && HexDigests(sha) && sha(a)[..BLOCK] != sha(b)[..BLOCK]
    ensures After(sha, map[Key("node", a) := [1], Key("node", b) := [2]], Key("node", a)) == map[Key("node", b) := [2]]
  {
  }

  /** A store with two keys, one of which is deleted: the other stays, as their digests
      start differently. */
  method TwoKeys(sha: Hash, a: string, b: string) returns (s: Store)
    requires a != b && HexDigests(sha) && NoCollision(sha, {a, b}) && sha(a)[..BLOCK] != sha(b)[..BLOCK]
    ensures s.Valid() && s.contents == map[Key("node", b) := [2]]
  {
    hide HexDigests, NoCollision, Represents, After;
    TwoAfter(sha, a, b);
    s := new Store(sha, "", {a, b});
    var n := s.Write("node", a, [1]);
    n := s.Write("node", b, [2]);
    assert s.contents == map[Key("node", a) := [1], Key("node", b) := [2]];
    s.Delete("node", a);
  }
}
