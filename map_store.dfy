/**
 * The map-store adapter: acquires a shared handle from the registry,
 * forwards single-key operations to it, runs the bulk operations as loops
 * over the single-key ones, and releases its registration on teardown.
 */
module MapStore {
  import opened Failures
  import opened Database
  import opened DatabaseContainer
  import opened Paths

  /** Value used when the auto-creation property is not set. */
  const DatabaseAutocreationDefault: bool := true

  /** The auto-creation flag init uses: the property's value, or the default when it is absent. */
  function AutoCreation(property: Option<bool>): (autoCreate: bool)
    ensures property.None? ==> autoCreate
    ensures property.Some? ==> autoCreate == property.value
  {
    if property.Some? then property.value else DatabaseAutocreationDefault
  }

  class RocksDbMapStore<K(==), V> {
    /** The shared handle; null until the path constructor or init sets it. */
    var rocksDatabase: RocksDatabase?<K, V>

    /** The handle as a frame: empty while the handle is null. */
    ghost function Handle(): set<RocksDatabase<K, V>>
      reads this
    {
      if rocksDatabase == null then {} else {rocksDatabase}
    }

    /** The no-argument constructor: the handle is acquired later by init. */
    constructor ()
      ensures rocksDatabase == null
    {
      rocksDatabase := null;
    }

    /**
     * The path constructor: acquires the handle under the absolute form of
     * `rocksDbDir`, with the new store as the consumer.  When the registry
     * throws, no store results and nothing is registered.
     */
    static method Create(container: RocksDatabaseContainer<K, V>, rocksDbDir: string, userDir: string,
                         autoCreate: bool, dir: DirectoryState<K, V>)
      returns (r: Result<RocksDbMapStore<K, V>, Error>)
      requires container.Valid()
      modifies container
      ensures container.Valid()
      ensures r.Success? ==>
        && fresh(r.value) && r.value.rocksDatabase != null
        && GetRocksDbSpec(old(container.cachedDatabases), container.cachedDatabases, AbsolutePath(userDir, rocksDbDir),
                          autoCreate, dir, r.value, Success(r.value.rocksDatabase))
      ensures r.Success? && AbsolutePath(userDir, rocksDbDir) !in old(container.cachedDatabases) ==>
        var path := AbsolutePath(userDir, rocksDbDir);
        fresh(r.value.rocksDatabase) && r.value.rocksDatabase.OpenedOver(path, OpenContents(dir, path, autoCreate).value)
      ensures r.Failure? ==>
        && AbsolutePath(userDir, rocksDbDir) !in old(container.cachedDatabases)
        && OpenContents(dir, AbsolutePath(userDir, rocksDbDir), autoCreate) == Failure(r.error)
        && container.cachedDatabases == old(container.cachedDatabases)
    {
      var store := new RocksDbMapStore();
      var db := container.GetRocksDb(AbsolutePath(userDir, rocksDbDir), autoCreate, dir, store);
      if db.Failure? {
        return Failure(db.error);
      }
      store.rocksDatabase := db.value;
      r := Success(store);
    }

    /**
     * Acquires the handle under the raw path property, unless a handle is
     * already set, in which case nothing happens.
     */
    method Init(container: RocksDatabaseContainer<K, V>, dbPath: string, autoCreateProperty: Option<bool>,
                dir: DirectoryState<K, V>)
      returns (r: Outcome<Error>)
      requires container.Valid()
      modifies this, container
      ensures container.Valid()
      ensures old(rocksDatabase) != null ==>
        r == Pass && rocksDatabase == old(rocksDatabase) && container.cachedDatabases == old(container.cachedDatabases)
      ensures old(rocksDatabase) == null && r.Pass? ==>
        && rocksDatabase != null
        && GetRocksDbSpec(old(container.cachedDatabases), container.cachedDatabases, dbPath,
                          AutoCreation(autoCreateProperty), dir, this, Success(rocksDatabase))
      ensures old(rocksDatabase) == null && r.Pass? && dbPath !in old(container.cachedDatabases) ==>
        fresh(rocksDatabase) && rocksDatabase.OpenedOver(dbPath, OpenContents(dir, dbPath, AutoCreation(autoCreateProperty)).value)
      ensures r.Fail? ==>
        && rocksDatabase == null
        && GetRocksDbSpec(old(container.cachedDatabases), container.cachedDatabases, dbPath,
                          AutoCreation(autoCreateProperty), dir, this, Failure(r.error))
    {
      if rocksDatabase != null {
        return Pass;
      }
      var db := container.GetRocksDb(dbPath, AutoCreation(autoCreateProperty), dir, this);
      if db.Failure? {
        return Fail(db.error);
      }
      rocksDatabase := db.value;
      r := Pass;
    }

    /** The registry key destroy releases: the absolute form of the handle's directory. */
    ghost function ReleaseKey(userDir: string): string
      reads this
      requires rocksDatabase != null
    {
      AbsolutePath(userDir, rocksDatabase.directory)
    }

    /** Releases this store's registration under the absolute path of the handle's directory. */
    method Destroy(container: RocksDatabaseContainer<K, V>, userDir: string) returns (r: Outcome<Error>)
      requires container.Valid()
      modifies container,
        (if rocksDatabase == null then {} else container.HandleAt(ReleaseKey(userDir)))`open,
        (if rocksDatabase == null then {} else container.HandleAt(ReleaseKey(userDir)))`closeCount
      ensures container.Valid()
      ensures rocksDatabase == null ==> r == Fail(NullDereference) && container.cachedDatabases == old(container.cachedDatabases)
      ensures rocksDatabase != null && ReleaseKey(userDir) !in old(container.cachedDatabases) ==>
        r == Fail(NullDereference) && container.cachedDatabases == old(container.cachedDatabases)
      ensures rocksDatabase != null && ReleaseKey(userDir) in old(container.cachedDatabases) ==>
        var path := ReleaseKey(userDir);
        var db := old(container.cachedDatabases)[path].db;
        && r == Pass
        && container.cachedDatabases == Unregister(old(container.cachedDatabases), path, this)
        && (container.cachedDatabases[path].stores == {} ==> !db.open && db.closeCount == old(db.closeCount) + 1)
        && (container.cachedDatabases[path].stores != {} ==> db.open == old(db.open) && db.closeCount == old(db.closeCount))
    {
      if rocksDatabase == null {
        return Fail(NullDereference);
      }
      r := container.Dispose(AbsolutePath(userDir, rocksDatabase.directory), this);
    }

    method Store(key: K, value: V) returns (r: Outcome<Error>)
      modifies Handle()`data
      ensures rocksDatabase == null ==> r == Fail(NullDereference)
      ensures rocksDatabase != null ==>
        && r == old(rocksDatabase.CheckOpened())
        && rocksDatabase.data == if r.Pass? then old(rocksDatabase.data)[key := value] else old(rocksDatabase.data)
    {
      if rocksDatabase == null {
        return Fail(NullDereference);
      }
      r := rocksDatabase.Put(key, value);
    }

    /** One store call per entry; the first failure stops the loop. */
    method StoreAll(m: map<K, V>) returns (r: Outcome<Error>)
      modifies Handle()`data
      ensures m == map[] ==> r == Pass && (rocksDatabase != null ==> rocksDatabase.data == old(rocksDatabase.data))
      ensures m != map[] && rocksDatabase == null ==> r == Fail(NullDereference)
      ensures m != map[] && rocksDatabase != null ==>
        && r == old(rocksDatabase.CheckOpened())
        && rocksDatabase.data == if r.Pass? then old(rocksDatabase.data) + m else old(rocksDatabase.data)
    {
      var todo := m.Keys;
      while todo != {}
        invariant todo <= m.Keys
        invariant todo != m.Keys ==> rocksDatabase != null && rocksDatabase.open
        invariant rocksDatabase != null ==>
          && rocksDatabase.open == old(rocksDatabase.open)
          && rocksDatabase.data == old(rocksDatabase.data) + (m - todo)
        decreases todo
      {
        var k :| k in todo;
        r := Store(k, m[k]);
        if r.Fail? {
          assert m - todo == map[];
          return;
        }
        todo := todo - {k};
      }
      assert m - todo == m;
      r := Pass;
    }

    method Delete(key: K) returns (r: Outcome<Error>)
      modifies Handle()`data
      ensures rocksDatabase == null ==> r == Fail(NullDereference)
      ensures rocksDatabase != null ==>
        && r == old(rocksDatabase.CheckOpened())
        && rocksDatabase.data == if r.Pass? then old(rocksDatabase.data) - {key} else old(rocksDatabase.data)
    {
      if rocksDatabase == null {
        return Fail(NullDereference);
      }
      r := rocksDatabase.Delete(key);
    }

    /** One delete call per key, in the collection's order; the first failure stops the loop. */
    method DeleteAll(keys: seq<K>) returns (r: Outcome<Error>)
      modifies Handle()`data
      ensures keys == [] ==> r == Pass && (rocksDatabase != null ==> rocksDatabase.data == old(rocksDatabase.data))
      ensures keys != [] && rocksDatabase == null ==> r == Fail(NullDereference)
      ensures keys != [] && rocksDatabase != null ==>
        && r == old(rocksDatabase.CheckOpened())
        && rocksDatabase.data == if r.Pass? then old(rocksDatabase.data) - set k | k in keys else old(rocksDatabase.data)
    {
      var i := 0;
      while i < |keys|
        invariant 0 <= i <= |keys|
        invariant i > 0 ==> rocksDatabase != null && rocksDatabase.open
        invariant rocksDatabase != null ==>
          && rocksDatabase.open == old(rocksDatabase.open)
          && rocksDatabase.data == old(rocksDatabase.data) - set k | k in keys[..i]
      {
        r := Delete(keys[i]);
        if r.Fail? {
          assert (set k | k in keys[..i]) == {};
          return;
        }
        assert keys[..i + 1] == keys[..i] + [keys[i]];
        i := i + 1;
      }
      assert keys[..i] == keys;
      r := Pass;
    }

    /** Single-key read; `None` (null) when the key is absent. */
    method Load(key: K) returns (r: Result<Option<V>, Error>)
      ensures rocksDatabase == null ==> r == Failure(NullDereference)
      ensures rocksDatabase != null ==> (r.Failure? <==> !rocksDatabase.open)
      ensures rocksDatabase != null && r.Failure? ==> r.error == ClosedInstance
      ensures r.Success? ==> rocksDatabase != null && r.value == Lookup(rocksDatabase.data, key)
    {
      if rocksDatabase == null {
        return Failure(NullDereference);
      }
      r := rocksDatabase.Get(key);
    }

    /**
     * One load call per key.  Unlike the handle's multi-key read, every
     * requested key is in the result, an absent one mapped to `None`.
     */
    method LoadAll(keys: seq<K>) returns (r: Result<map<K, Option<V>>, Error>)
      ensures r.Success? <==> keys == [] || (rocksDatabase != null && rocksDatabase.open)
      ensures r.Failure? ==> r.error == if rocksDatabase == null then NullDereference else ClosedInstance
      ensures r.Success? ==> forall k :: k in r.value <==> k in keys
      ensures r.Success? ==> forall k :: k in r.value ==> rocksDatabase != null && r.value[k] == Lookup(rocksDatabase.data, k)
    {
      var resultMap: map<K, Option<V>> := map[];
      var i := 0;
      while i < |keys|
        invariant 0 <= i <= |keys|
        invariant i > 0 ==> rocksDatabase != null && rocksDatabase.open
        invariant forall k :: k in resultMap <==> k in keys[..i]
        invariant forall k :: k in resultMap ==> rocksDatabase != null && resultMap[k] == Lookup(rocksDatabase.data, k)
      {
        var loaded := Load(keys[i]);
        if loaded.Failure? {
          return Failure(loaded.error);
        }
        resultMap := resultMap[keys[i] := loaded.value];
        assert keys[..i + 1] == keys[..i] + [keys[i]];
        i := i + 1;
      }
      assert keys[..i] == keys;
      r := Success(resultMap);
    }

    /** Key enumeration is not supported: always null. */
    function LoadAllKeys(): (r: Option<seq<K>>)
      ensures r.None?
    {
      None
    }
  }
}
