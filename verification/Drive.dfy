/** The remote accounts behind drivepool/gdrive/client.go, reduced to the RemoteStore
    contract: opaque ids that are never given out twice, objects inside folders, and a
    Delete that takes a folder's contents with it. */
module Drive {
  import opened Prelude

  datatype Object = Object(folder: RemoteId, bytes: Bytes)

  datatype Remote = Remote(objects: map<RemoteId, Object>, folders: map<RemoteId, string>, used: set<RemoteId>)

  type Stores = map<AccountId, Remote>

  /** One object on one account. */
  datatype Loc = Loc(account: AccountId, id: RemoteId)

  /** Every object lies in a folder that exists. */
  ghost predicate RemoteOk(r: Remote) {
    && r.objects.Keys <= r.used && r.folders.Keys <= r.used && r.objects.Keys !! r.folders.Keys
    && forall o :: o in r.objects ==> r.objects[o].folder in r.folders
  }

  function Uploaded(r: Remote, id: RemoteId, folder: RemoteId, bytes: Bytes): Remote {
    r.(objects := r.objects[id := Object(folder, bytes)], used := r.used + {id})
  }

  function WithFolder(r: Remote, id: RemoteId, name: string): Remote {
    if id in r.folders then r else r.(folders := r.folders[id := name], used := r.used + {id})
  }

  /** EnsureFolder may answer `id`: a folder of that name, or a new one if there is none. */
  predicate Ensures(r: Remote, name: string, id: RemoteId) {
    (id in r.folders && r.folders[id] == name) || (!HasFolder(r, name) && id !in r.used)
  }

  predicate HasFolder(r: Remote, name: string) {
    exists f :: f in r.folders && r.folders[f] == name
  }

  predicate Known(r: Remote, id: RemoteId) {
    id in r.objects || id in r.folders
  }

  /** What Delete leaves. */
  function Without(r: Remote, id: RemoteId): Remote {
    if id in r.objects then r.(objects := r.objects - {id})
    else if id in r.folders then
      r.(folders := r.folders - {id},
         objects := map o | o in r.objects && r.objects[o].folder != id :: r.objects[o])
    else r
  }

  /** `id` goes, and with a folder everything in it; all else stays as it is. */
  ghost predicate GoneFrom(r: Remote, q: Remote, id: RemoteId) {
    && q.used == r.used && id !in q.objects && (id !in r.objects ==> id !in q.folders)
    && (forall o :: o in q.objects ==> o in r.objects && q.objects[o] == r.objects[o])
    && (forall o :: o in r.objects && o != id ==> (o in q.objects <==> !Inside(r, id, o)))
    && (forall f :: f in q.folders ==> f in r.folders && q.folders[f] == r.folders[f])
    && (forall f :: f in r.folders && f != id ==> f in q.folders)
  }

  /** `id` is a folder, and object `o` lies in it. */
  predicate Inside(r: Remote, id: RemoteId, o: RemoteId) {
    id !in r.objects && id in r.folders && o in r.objects && r.objects[o].folder == id
  }

  lemma WithoutExact(r: Remote, id: RemoteId)
    ensures GoneFrom(r, Without(r, id), id)
  {
  }

  lemma WithoutOk(r: Remote, id: RemoteId)
    requires RemoteOk(r)
    ensures RemoteOk(Without(r, id)) && Without(r, id).used == r.used && !Known(Without(r, id), id)
  {
  }

  // ---- ids never run out ----

  ghost predicate Shorter(used: set<string>, n: nat) {
    forall s :: s in used ==> |s| < n
  }

  lemma {:induction false} LengthBound(used: set<string>) returns (n: nat)
    ensures Shorter(used, n)
    decreases |used|
  {
    if used == {} {
      n := 0;
    } else {
      var s :| s in used;
      var m := LengthBound(used - {s});
      n := if m <= |s| then |s| + 1 else m;
    }
  }

  lemma FreshId(used: set<string>) returns (id: string)
    ensures id !in used && id != ""
  {
    var n := LengthBound(used);
    id := seq(n + 1, i => 'x');
  }

  datatype DeleteResult = Gone | NotFound | Broken

  class Drive {
    var stores: Stores

    constructor (stores: Stores)
      ensures this.stores == stores
    {
      this.stores := stores;
    }

    /** RemoteStore.Delete. A call that fails may have taken effect all the same. */
    method Delete(account: AccountId, id: RemoteId, fails: bool, acts: bool) returns (res: DeleteResult)
      requires account in stores
      modifies this
      ensures res == Broken <==> fails
      ensures res == Gone ==> Known(old(stores)[account], id)
      ensures res == NotFound ==> !Known(old(stores)[account], id)
      ensures stores == if fails && !acts then old(stores)
                        else old(stores)[account := Without(old(stores)[account], id)]
      ensures !fails || acts ==> GoneFrom(old(stores)[account], stores[account], id)
      ensures forall a :: a in old(stores) && a != account ==> a in stores && stores[a] == old(stores)[a]
    {
      WithoutExact(stores[account], id);
      res := if fails then Broken else if Known(stores[account], id) then Gone else NotFound;
      if !fails || acts {
        stores := stores[account := Without(stores[account], id)];
      }
    }
  }
}
