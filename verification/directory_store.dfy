/**
 * The in-memory `Directories` store of res/directories.js: three indexes
 * (by directory id, by session id, by owner user id) with get-or-create
 * lookups. Index keys are JavaScript property names, so an `undefined` key
 * is stored under the text "undefined".
 */
module DirectoryStore {
  import opened Env
  import opened DirectoryRecord

  /** The three indexes; the owner index keeps every Directory of an owner, oldest first. */
  datatype Store = Store(
    byDirectoryId: map<string, Directory>,
    bySessionId: map<string, Directory>,
    byOwnerUserId: map<string, seq<Directory>>)

  /** The store before anything is loaded or set. */
  const Empty := Store(map[], map[], map[])

  /** The values a new Directory would consume: the id `generateId` returns and the clock. */
  datatype Fresh = Fresh(id: string, now: int)

  /** What `set` leaves behind: the new store and the Directory it built. */
  datatype Created = Created(store: Store, directory: Directory)

  /** What `get` and `getBySessionId` leave behind: the store and the Directory found or created. */
  datatype Found = Found(store: Store, directory: Option<Directory>)

  /** `getByOwnerUserId` answers with the owner's whole list when one exists, but with the single Directory it creates otherwise. */
  datatype OwnerResult = NotFound | Listed(directories: seq<Directory>) | Single(directory: Directory)

  datatype OwnerFound = OwnerFound(store: Store, result: OwnerResult)

  /** The owner's list, empty when the owner has none. */
  function OwnerList(s: Store, owner: string): seq<Directory> {
    if owner in s.byOwnerUserId then s.byOwnerUserId[owner] else []
  }

  /** The owner's list contains `d`. */
  predicate ListedUnderOwner(s: Store, d: Directory) {
    d in OwnerList(s, AsString(d.owneruserid))
  }

  /** Every Directory in the session index was built by the constructor and carries its own key as session id. */
  ghost predicate SessionsKeyed(s: Store) {
    forall k :: k in s.bySessionId ==>
      Built(s.bySessionId[k]) && s.bySessionId[k].sessionid == Some(k) && ListedUnderOwner(s, s.bySessionId[k])
  }

  /** Every Directory in the id index was built by the constructor and is in its owner's list. */
  ghost predicate IdsListed(s: Store) {
    forall k :: k in s.byDirectoryId ==> Built(s.byDirectoryId[k]) && ListedUnderOwner(s, s.byDirectoryId[k])
  }

  /** Owner lists are non-empty and hold only built Directories of that owner. */
  ghost predicate OwnersKeyed(s: Store) {
    && (forall k :: k in s.byOwnerUserId ==> |s.byOwnerUserId[k]| > 0)
    && (forall k, i :: k in s.byOwnerUserId && 0 <= i < |s.byOwnerUserId[k]| ==>
          Built(s.byOwnerUserId[k][i]) && AsString(s.byOwnerUserId[k][i].owneruserid) == k)
  }

  /**
   * What `set` keeps true of the indexes: every indexed Directory was built
   * by the constructor, the session index is keyed by each Directory's own
   * session id, owner lists are non-empty and hold only that owner's
   * Directories, and every Directory in the other two indexes is in its
   * owner's list.
   */
  ghost predicate Wellformed(s: Store) {
    SessionsKeyed(s) && IdsListed(s) && OwnersKeyed(s)
  }

  lemma EmptyIsWellformed()
    ensures Wellformed(Empty)
  {
  }

  /**
   * `set(props)`: builds a Directory from `props` and indexes it under the
   * raw `props.sessionid`, under `props.directoryid` as supplied (not the
   * generated id), and at the end of the list of `props.owneruserid`.
   * Everything else in the store stays as it was.
   */
  function Set(s: Store, props: Entity, gen: Fresh, host: Host): (r: Created)
    requires props.sessionid.Some?
    ensures r.directory == NewDirectory(props, gen.id, gen.now, host)
    ensures var sk := props.sessionid.value;
            && sk in r.store.bySessionId && r.store.bySessionId[sk] == r.directory
            && r.store.bySessionId - {sk} == s.bySessionId - {sk}
    ensures var ik := AsString(props.directoryid);
            && ik in r.store.byDirectoryId && r.store.byDirectoryId[ik] == r.directory
            && r.store.byDirectoryId - {ik} == s.byDirectoryId - {ik}
    ensures gen.id != AsString(props.directoryid) ==>
              (gen.id in r.store.byDirectoryId <==> gen.id in s.byDirectoryId)
    ensures var ok := AsString(props.owneruserid);
            && ok in r.store.byOwnerUserId
            && r.store.byOwnerUserId[ok] == OwnerList(s, ok) + [r.directory]
            && r.store.byOwnerUserId - {ok} == s.byOwnerUserId - {ok}
    ensures Wellformed(s) ==> Wellformed(r.store)
  {
    var d := NewDirectory(props, gen.id, gen.now, host);
    SetKeepsWellformed(s, props, gen, host);
    Created(Inserted(s, props, d), d)
  }

  /** The store `set` produces from `s` for the Directory `d` built from `props`. */
  function Inserted(s: Store, props: Entity, d: Directory): Store
    requires props.sessionid.Some?
  {
    var ok := AsString(props.owneruserid);
    Store(
      s.byDirectoryId[AsString(props.directoryid) := d],
      s.bySessionId[props.sessionid.value := d],
      s.byOwnerUserId[ok := OwnerList(s, ok) + [d]])
  }

  /** Inserting only extends owner lists, so whatever was listed stays listed. */
  lemma InsertedKeepsListed(s: Store, props: Entity, d: Directory, x: Directory)
    requires props.sessionid.Some?
    requires ListedUnderOwner(s, x)
    ensures ListedUnderOwner(Inserted(s, props, d), x)
  {
    var r := Inserted(s, props, d);
    var k := AsString(x.owneruserid);
    assert OwnerList(s, k) <= OwnerList(r, k);
  }

  /** The invariant step behind `Set`. */
  lemma SetKeepsWellformed(s: Store, props: Entity, gen: Fresh, host: Host)
    requires props.sessionid.Some?
    ensures Wellformed(s) ==> Wellformed(Inserted(s, props, NewDirectory(props, gen.id, gen.now, host)))
  {
    if Wellformed(s) {
      var d := NewDirectory(props, gen.id, gen.now, host);
      var r := Inserted(s, props, d);
      var ok := AsString(props.owneruserid);
      assert ListedUnderOwner(r, d) by {
        assert OwnerList(r, ok)[|OwnerList(s, ok)|] == d;
      }
      forall k | k in r.bySessionId
        ensures Built(r.bySessionId[k]) && r.bySessionId[k].sessionid == Some(k) && ListedUnderOwner(r, r.bySessionId[k])
      {
        if k != props.sessionid.value {
          InsertedKeepsListed(s, props, d, s.bySessionId[k]);
        }
      }
      forall k | k in r.byDirectoryId
        ensures Built(r.byDirectoryId[k]) && ListedUnderOwner(r, r.byDirectoryId[k])
      {
        if k != AsString(props.directoryid) {
          InsertedKeepsListed(s, props, d, s.byDirectoryId[k]);
        }
      }
      OwnerListsAfterInsert(s, props, d);
    }
  }

  /** Appending a Directory to its own owner's list keeps every owner list keyed. */
  lemma OwnerListsAfterInsert(s: Store, props: Entity, d: Directory)
    requires props.sessionid.Some?
    requires OwnersKeyed(s)
    requires Built(d) && d.owneruserid == props.owneruserid
    ensures OwnersKeyed(Inserted(s, props, d))
  {
    var r := Inserted(s, props, d);
    var ok := AsString(props.owneruserid);
    forall k, i | k in r.byOwnerUserId && 0 <= i < |r.byOwnerUserId[k]|
      ensures Built(r.byOwnerUserId[k][i]) && AsString(r.byOwnerUserId[k][i].owneruserid) == k
    {
      if k == ok && i == |OwnerList(s, ok)| {
        assert r.byOwnerUserId[k][i] == d;
      } else {
        assert r.byOwnerUserId[k][i] == s.byOwnerUserId[k][i];
      }
    }
  }

  /**
   * `get(directoryid, props)`: the Directory indexed under the normalised
   * id; when there is none, `undefined` without props, or a new Directory
   * built by `set(props)`.
   */
  function Get(s: Store, directoryid: string, props: Option<Entity>, gen: Fresh, host: Host): (r: Found)
    requires AsString(host.keyFromString(directoryid)) !in s.byDirectoryId && props.Some? ==> props.value.sessionid.Some?
    ensures var k := AsString(host.keyFromString(directoryid));
            k in s.byDirectoryId ==> r == Found(s, Some(s.byDirectoryId[k]))
    ensures var k := AsString(host.keyFromString(directoryid));
            k !in s.byDirectoryId && props.None? ==> r == Found(s, None)
    ensures var k := AsString(host.keyFromString(directoryid));
            k !in s.byDirectoryId && props.Some? ==>
              var c := Set(s, props.value, gen, host); r == Found(c.store, Some(c.directory))
    ensures Wellformed(s) ==> Wellformed(r.store)
    ensures Wellformed(s) && r.directory.Some? ==> Built(r.directory.value)
  {
    var k := AsString(host.keyFromString(directoryid));
    if k in s.byDirectoryId then Found(s, Some(s.byDirectoryId[k]))
    else if props.None? then Found(s, None)
    else
      var c := Set(s, props.value, gen, host);
      Found(c.store, Some(c.directory))
  }

  /**
   * `getBySessionId(sessionid, props)`: the Directory indexed under the
   * normalised session id; when there is none, `undefined` without props,
   * or a new Directory built by `set(props)`.
   */
  function GetBySessionId(s: Store, sessionid: string, props: Option<Entity>, gen: Fresh, host: Host): (r: Found)
    requires AsString(host.guidFromString(sessionid)) !in s.bySessionId && props.Some? ==> props.value.sessionid.Some?
    ensures var k := AsString(host.guidFromString(sessionid));
            k in s.bySessionId ==> r == Found(s, Some(s.bySessionId[k]))
    ensures var k := AsString(host.guidFromString(sessionid));
            k !in s.bySessionId && props.None? ==> r == Found(s, None)
    ensures var k := AsString(host.guidFromString(sessionid));
            k !in s.bySessionId && props.Some? ==>
              var c := Set(s, props.value, gen, host); r == Found(c.store, Some(c.directory))
    ensures Wellformed(s) ==> Wellformed(r.store)
    ensures Wellformed(s) && r.directory.Some? ==> Built(r.directory.value)
  {
    var k := AsString(host.guidFromString(sessionid));
    if k in s.bySessionId then Found(s, Some(s.bySessionId[k]))
    else if props.None? then Found(s, None)
    else
      var c := Set(s, props.value, gen, host);
      Found(c.store, Some(c.directory))
  }

  /**
   * `getByOwnerUserId(owneruserid, props)`: the owner's whole list when the
   * normalised id has one; otherwise `undefined` without props, or the
   * single new Directory built by `set(props)`.
   */
  function GetByOwnerUserId(s: Store, owneruserid: string, props: Option<Entity>, gen: Fresh, host: Host): (r: OwnerFound)
    requires AsString(host.keyFromString(owneruserid)) !in s.byOwnerUserId && props.Some? ==> props.value.sessionid.Some?
    ensures var k := AsString(host.keyFromString(owneruserid));
            k in s.byOwnerUserId ==> r == OwnerFound(s, Listed(s.byOwnerUserId[k]))
    ensures var k := AsString(host.keyFromString(owneruserid));
            k !in s.byOwnerUserId && props.None? ==> r == OwnerFound(s, NotFound)
    ensures var k := AsString(host.keyFromString(owneruserid));
            k !in s.byOwnerUserId && props.Some? ==>
              var c := Set(s, props.value, gen, host); r == OwnerFound(c.store, Single(c.directory))
    ensures Wellformed(s) ==> Wellformed(r.store)
    ensures Wellformed(s) && r.result.Listed? ==> |r.result.directories| > 0
  {
    var k := AsString(host.keyFromString(owneruserid));
    if k in s.byOwnerUserId then OwnerFound(s, Listed(s.byOwnerUserId[k]))
    else if props.None? then OwnerFound(s, NotFound)
    else
      var c := Set(s, props.value, gen, host);
      OwnerFound(c.store, Single(c.directory))
  }

  /**
   * When the session normaliser leaves `sid` unchanged, looking the session
   * up twice with props for it returns the same Directory, and only the
   * first lookup can create one.
   */
  lemma SessionLookupCreatesOnce(s: Store, sid: string, props: Entity, f1: Fresh, f2: Fresh, host: Host)
    requires host.guidFromString(sid) == Some(sid)
    requires props.sessionid == Some(sid)
    ensures var first := GetBySessionId(s, sid, Some(props), f1, host);
            var second := GetBySessionId(first.store, sid, Some(props), f2, host);
            && second == first
            && first.directory.Some?
            && (sid in s.bySessionId ==> first.store == s)
  {
  }

  /**
   * When the session normaliser changes `sid` to a key no Directory is
   * indexed under, `set` indexes under the raw `sid`, so a second lookup
   * misses again and builds a second Directory for the same owner.
   */
  lemma UnnormalisedSessionCreatesTwice(s: Store, sid: string, props: Entity, f1: Fresh, f2: Fresh, host: Host)
    requires AsString(host.guidFromString(sid)) != sid
    requires AsString(host.guidFromString(sid)) !in s.bySessionId
    requires props.sessionid == Some(sid)
    ensures var first := GetBySessionId(s, sid, Some(props), f1, host);
            var second := GetBySessionId(first.store, sid, Some(props), f2, host);
            var owner := AsString(props.owneruserid);
            && |OwnerList(second.store, owner)| == |OwnerList(s, owner)| + 2
            && second.directory.Some? && sid in second.store.bySessionId
            && second.store.bySessionId[sid] == second.directory.value
  {
  }

  /**
   * Two `set`s for the same session and owner: the session index keeps the
   * later Directory, while the owner's list keeps both, in order.
   */
  lemma LaterSetWins(s: Store, p1: Entity, p2: Entity, f1: Fresh, f2: Fresh, host: Host)
    requires p1.sessionid.Some? && p2.sessionid == p1.sessionid
    requires p2.owneruserid == p1.owneruserid
    ensures var c1 := Set(s, p1, f1, host);
            var c2 := Set(c1.store, p2, f2, host);
            && c2.store.bySessionId[p1.sessionid.value] == c2.directory
            && OwnerList(c2.store, AsString(p1.owneruserid))
               == OwnerList(s, AsString(p1.owneruserid)) + [c1.directory, c2.directory]
  {
  }
}
