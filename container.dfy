/**
 * The registry of shared handles: directory path -> (handle, consumers).
 * Every call runs as one atomic step (the Java methods are synchronized).
 * The registry is an explicit object here rather than process-wide static
 * state.
 */
module DatabaseContainer {
  import opened Failures
  import opened Database

  /** A cached handle and the consumers (map stores) registered on it. */
  datatype DatabaseWithRefs<K(==), V> = DatabaseWithRefs(db: RocksDatabase<K, V>, stores: set<object>)

  /** The registry after `asking` joins the existing entry for `path`. */
  function Register<K(==), V>(cached: map<string, DatabaseWithRefs<K, V>>, path: string, asking: object): (after: map<string, DatabaseWithRefs<K, V>>)
    requires path in cached
    ensures after.Keys == cached.Keys
    ensures after[path].db == cached[path].db && after[path].stores == cached[path].stores + {asking}
    ensures forall p :: p in cached && p != path ==> after[p] == cached[p]
  {
    cached[path := cached[path].(stores := cached[path].stores + {asking})]
  }

  /** The registry after `asking` leaves the entry for `path`; the entry itself stays. */
  function Unregister<K(==), V>(cached: map<string, DatabaseWithRefs<K, V>>, path: string, asking: object): (after: map<string, DatabaseWithRefs<K, V>>)
    requires path in cached
    ensures after.Keys == cached.Keys
    ensures after[path].db == cached[path].db && after[path].stores == cached[path].stores - {asking}
    ensures forall p :: p in cached && p != path ==> after[p] == cached[p]
  {
    cached[path := cached[path].(stores := cached[path].stores - {asking})]
  }

  /** Registering a consumer that is already registered changes nothing: the consumers form a set. */
  lemma RegisterTwice<K, V>(cached: map<string, DatabaseWithRefs<K, V>>, path: string, asking: object)
    requires path in cached && asking in cached[path].stores
    ensures Register(cached, path, asking) == cached
  {
    assert cached[path].stores + {asking} == cached[path].stores;
  }

  /** Releasing a consumer that had just joined restores the registry it joined. */
  lemma RegisterThenUnregister<K, V>(cached: map<string, DatabaseWithRefs<K, V>>, path: string, asking: object)
    requires path in cached && asking !in cached[path].stores
    ensures Unregister(Register(cached, path, asking), path, asking) == cached
  {
  }

  /**
   * What getRocksDb does to the registry and what it returns: an existing
   * entry is joined and its handle returned (autoCreate and the directory
   * are not looked at); otherwise a handle is opened and, only if that
   * succeeds, recorded with `asking` as its sole consumer.
   */
  ghost predicate GetRocksDbSpec<K, V>(
    before: map<string, DatabaseWithRefs<K, V>>, after: map<string, DatabaseWithRefs<K, V>>,
    path: string, autoCreate: bool, dir: DirectoryState<K, V>, asking: object,
    r: Result<RocksDatabase<K, V>, Error>)
  {
    if path in before then
      r == Success(before[path].db) && after == Register(before, path, asking)
    else match OpenContents(dir, path, autoCreate)
      case Failure(e) => r == Failure(e) && after == before
      case Success(_) => r.Success? && after == before[path := DatabaseWithRefs(r.value, {asking})]
  }

  class RocksDatabaseContainer<K(==), V> {
    /** Path -> handle and its consumers; entries are added, never removed. */
    var cachedDatabases: map<string, DatabaseWithRefs<K, V>>

    /** Every handle the registry caches. */
    ghost function Handles(): set<RocksDatabase<K, V>>
      reads this
    {
      set p | p in cachedDatabases :: cachedDatabases[p].db
    }

    /** The handle cached under `path`, if any. */
    ghost function HandleAt(path: string): set<RocksDatabase<K, V>>
      reads this
    {
      if path in cachedDatabases then {cachedDatabases[path].db} else {}
    }

    /**
     * Each handle is rooted at the path it is cached under, no handle is
     * cached twice, and an entry whose consumers have all left holds a
     * closed handle.
     */
    ghost predicate Valid()
      reads this, Handles()`open
    {
      && (forall p :: p in cachedDatabases ==> cachedDatabases[p].db.directory == p)
      && (forall p, q :: p in cachedDatabases && q in cachedDatabases && p != q ==> cachedDatabases[p].db != cachedDatabases[q].db)
      && (forall p :: p in cachedDatabases && cachedDatabases[p].stores == {} ==> !cachedDatabases[p].db.open)
    }

    constructor ()
      ensures Valid() && cachedDatabases == map[]
    {
      cachedDatabases := map[];
    }

    /** Returns the handle for `path`, creating it on first use, and registers `asking` as a consumer. */
    method GetRocksDb(path: string, autoCreate: bool, dir: DirectoryState<K, V>, asking: object)
      returns (r: Result<RocksDatabase<K, V>, Error>)
      requires Valid()
      modifies this
      ensures Valid()
      ensures GetRocksDbSpec(old(cachedDatabases), cachedDatabases, path, autoCreate, dir, asking, r)
      ensures path !in old(cachedDatabases) && r.Success? ==>
        fresh(r.value) && r.value.OpenedOver(path, OpenContents(dir, path, autoCreate).value)
    {
      if path !in cachedDatabases {
        var handle := RocksDatabase<K, V>.Open(path, autoCreate, dir);
        if handle.Failure? {
          return Failure(handle.error);
        }
        cachedDatabases := cachedDatabases[path := DatabaseWithRefs(handle.value, {})];
      }
      var dbWithRefs := cachedDatabases[path];
      cachedDatabases := cachedDatabases[path := dbWithRefs.(stores := dbWithRefs.stores + {asking})];
      r := Success(dbWithRefs.db);
      assert path !in old(cachedDatabases) ==> dbWithRefs.stores + {asking} == {asking};
      assert path !in old(cachedDatabases) ==> cachedDatabases == old(cachedDatabases)[path := DatabaseWithRefs(dbWithRefs.db, {asking})];
    }

    /**
     * Removes `asking` from the consumers of `path` and closes the handle when
     * none remain.  The entry stays, so a closed handle remains cached; an
     * unknown path dereferences null.
     */
    method Dispose(path: string, asking: object) returns (r: Outcome<Error>)
      requires Valid()
      modifies this, HandleAt(path)`open, HandleAt(path)`closeCount
      ensures Valid()
      ensures path !in old(cachedDatabases) ==> r == Fail(NullDereference) && cachedDatabases == old(cachedDatabases)
      ensures path in old(cachedDatabases) ==>
        var db := old(cachedDatabases)[path].db;
        && r == Pass
        && cachedDatabases == Unregister(old(cachedDatabases), path, asking)
        && (cachedDatabases[path].stores == {} ==> !db.open && db.closeCount == old(db.closeCount) + 1)
        && (cachedDatabases[path].stores != {} ==> db.open == old(db.open) && db.closeCount == old(db.closeCount))
    {
      if path !in cachedDatabases {
        return Fail(NullDereference);
      }
      var dbWithRefs := cachedDatabases[path];
      cachedDatabases := cachedDatabases[path := dbWithRefs.(stores := dbWithRefs.stores - {asking})];
      if dbWithRefs.stores - {asking} == {} {
        dbWithRefs.db.Close();
      }
      r := Pass;
    }
  }
}
