/**
 * Client runs of the model, one per behaviour of the registry and the
 * handle that the repository's tests exercise or that follows from the
 * code as written.  Each proves its outcome from the operations'
 * contracts alone.
 */
module Scenarios {
  import opened Failures
  import opened Database
  import opened DatabaseContainer
  import opened MapStore
  import opened Paths

  /** A fresh temporary directory that holds no database yet. */
  const EmptyDirectory: DirectoryState<string, string> := DirectoryState(true, true, None)

  /** The registry caches exactly one entry, under `key`, holding `db` and `stores`. */
  ghost predicate Entry(container: RocksDatabaseContainer<string, string>, key: string,
                        db: RocksDatabase<string, string>, stores: set<object>)
    reads container
  {
    container.cachedDatabases.Keys == {key} && container.cachedDatabases[key] == DatabaseWithRefs(db, stores)
  }

  /** Three map stores created on one directory of an empty registry; they share one fresh handle. */
  method CreateThree(container: RocksDatabaseContainer<string, string>, userDir: string, rocksDbDir: string)
    returns (s1: RocksDbMapStore<string, string>, s2: RocksDbMapStore<string, string>,
             s3: RocksDbMapStore<string, string>, db: RocksDatabase<string, string>)
    requires container.Valid() && container.cachedDatabases == map[]
    requires HasParent(AbsolutePath(userDir, rocksDbDir))
    modifies container
    ensures container.Valid()
    ensures fresh(s1) && fresh(s2) && fresh(s3) && fresh(db)
    ensures s1 != s2 && s2 != s3 && s1 != s3
    ensures s1.rocksDatabase == db && s2.rocksDatabase == db && s3.rocksDatabase == db
    ensures db.OpenedOver(AbsolutePath(userDir, rocksDbDir), map[])
    ensures Entry(container, AbsolutePath(userDir, rocksDbDir), db, {s1, s2, s3})
  {
    ghost var key := AbsolutePath(userDir, rocksDbDir);
    var r1 := RocksDbMapStore.Create(container, rocksDbDir, userDir, true, EmptyDirectory);
    s1 := r1.value;
    db := s1.rocksDatabase;
    assert Entry(container, key, db, {s1});
    var r2 := RocksDbMapStore.Create(container, rocksDbDir, userDir, true, EmptyDirectory);
    s2 := r2.value;
    assert Entry(container, key, db, {s1, s2});
    var r3 := RocksDbMapStore.Create(container, rocksDbDir, userDir, true, EmptyDirectory);
    s3 := r3.value;
  }

  /**
   * Three map stores on one directory share one handle; it stays open until
   * the last of them is destroyed.
   */
  method SharedDirectory(userDir: string, rocksDbDir: string)
    returns (shared: bool, openAfterTwo: bool, closedAfterThree: bool)
    requires IsAbsolute(userDir) && HasParent(AbsolutePath(userDir, rocksDbDir))
    ensures shared && openAfterTwo && closedAfterThree
  {
    var container := new RocksDatabaseContainer<string, string>();
    ghost var key := AbsolutePath(userDir, rocksDbDir);
    AbsolutePathIdempotent(userDir, rocksDbDir);
    var s1, s2, s3, db := CreateThree(container, userDir, rocksDbDir);
    shared := s1.rocksDatabase == s2.rocksDatabase == s3.rocksDatabase;

    assert s1.ReleaseKey(userDir) == key;
    var d1 := s1.Destroy(container, userDir);
    assert Entry(container, key, db, {s2, s3});
    assert s2.ReleaseKey(userDir) == key;
    var d2 := s2.Destroy(container, userDir);
    assert Entry(container, key, db, {s3});
    openAfterTwo := db.open;
    assert s3.ReleaseKey(userDir) == key;
    var d3 := s3.Destroy(container, userDir);
    closedAfterThree := !db.open;
  }

  /** What three map stores sharing one handle store all lands in the one database. */
  method SharedWrites(userDir: string, rocksDbDir: string) returns (contents: map<string, string>)
    requires HasParent(AbsolutePath(userDir, rocksDbDir))
    ensures contents == map["test-multi-1" := "I am here!", "test-multi-2" := "And here too!", "test-multi-3" := "10"]
  {
    var container := new RocksDatabaseContainer<string, string>();
    var s1, s2, s3, db := CreateThree(container, userDir, rocksDbDir);
    var o1 := s1.Store("test-multi-1", "I am here!");
    var o2 := s2.Store("test-multi-2", "And here too!");
    var o3 := s3.Store("test-multi-3", "10");
    contents := db.data;
  }

  /**
   * Disposing never evicts the entry: once every consumer is gone, a new
   * store on the same directory is handed the closed handle, and its first
   * write fails.
   */
  method ReacquireAfterLastRelease(userDir: string, rocksDbDir: string)
    returns (sameHandle: bool, written: Outcome<Error>)
    requires IsAbsolute(userDir) && HasParent(AbsolutePath(userDir, rocksDbDir))
    ensures sameHandle
    ensures written == Fail(ClosedInstance)
  {
    var container := new RocksDatabaseContainer<string, string>();
    var r1 := RocksDbMapStore.Create(container, rocksDbDir, userDir, true, EmptyDirectory);
    var s1 := r1.value;
    var db := s1.rocksDatabase;
    AbsolutePathIdempotent(userDir, rocksDbDir);
    var d1 := s1.Destroy(container, userDir);

    var r2 := RocksDbMapStore.Create(container, rocksDbDir, userDir, true, EmptyDirectory);
    var s2 := r2.value;
    sameHandle := s2.rocksDatabase == db;
    written := s2.Store("key", "value");
  }

  /** Disposing twice for the last consumer closes the handle a second time. */
  method DoubleDispose(path: string) returns (db: RocksDatabase<string, string>)
    requires HasParent(path)
    ensures !db.open && db.closeCount == 2
  {
    var container := new RocksDatabaseContainer<string, string>();
    var consumer := new RocksDbMapStore<string, string>();
    var acquired := container.GetRocksDb(path, true, EmptyDirectory, consumer);
    db := acquired.value;
    var first := container.Dispose(path, consumer);
    var second := container.Dispose(path, consumer);
  }

  /**
   * A store initialised from a relative path property is registered under
   * that raw path, but destroy looks up the absolute path: the lookup finds
   * no entry, and the handle is never closed.
   */
  method RelativePathNeverReleased(userDir: string, dbPath: string)
    returns (released: Outcome<Error>, stillOpen: bool)
    requires IsAbsolute(userDir) && !IsAbsolute(dbPath) && HasParent(dbPath)
    ensures released == Fail(NullDereference)
    ensures stillOpen
  {
    var container := new RocksDatabaseContainer<string, string>();
    var store := new RocksDbMapStore<string, string>();
    var initialised := store.Init(container, dbPath, None, EmptyDirectory);
    var db := store.rocksDatabase;
    RelativePathMoves(userDir, dbPath);
    released := store.Destroy(container, userDir);
    stillOpen := db.open;
  }

  /**
   * Puts, a delete and a batched put, then one multi-key read: the deleted
   * key is left out of the answer rather than reported as an error.
   */
  method PutDeleteWriteCombo(dbDirectory: string) returns (valuesRead: Result<map<string, string>, Error>)
    requires HasParent(dbDirectory)
    ensures valuesRead == Success(map["test1" := "test1", "test3" := "test3", "test4" := "test4"])
  {
    var created := RocksDatabase<string, string>.Open(dbDirectory, true, EmptyDirectory);
    var db := created.value;
    var p1 := db.Put("test1", "test1");
    var p2 := db.Put("test2", "test2");
    var d := db.Delete("test2");
    assert db.data == map["test1" := "test1"];
    var p3 := db.PutAll(map["test3" := "test3", "test4" := "test4"]);
    assert db.data == map["test1" := "test1", "test3" := "test3", "test4" := "test4"];
    valuesRead := db.GetMany(["test1", "test2", "test3", "test4"]);
    assert valuesRead.value.Keys == {"test1", "test3", "test4"};
    assert valuesRead.value == db.data;
    db.Close();
  }

  /** After close every data operation fails and the contents stay as they were. */
  method ClosedHandleRejects(dbDirectory: string, key: string, value: string)
    returns (put: Outcome<Error>, putAll: Outcome<Error>, get: Result<Option<string>, Error>,
             getMany: Result<map<string, string>, Error>, delete: Outcome<Error>, contents: map<string, string>)
    requires HasParent(dbDirectory)
    ensures put == putAll == delete == Fail(ClosedInstance)
    ensures get == Failure(ClosedInstance) && getMany == Failure(ClosedInstance)
    ensures contents == map[key := value]
  {
    var created := RocksDatabase<string, string>.Open(dbDirectory, true, EmptyDirectory);
    var db := created.value;
    var stored := db.Put(key, value);
    db.Close();
    put := db.Put(key, "other");
    putAll := db.PutAll(map[key := "other"]);
    get := db.Get(key);
    getMany := db.GetMany([key]);
    delete := db.Delete(key);
    contents := db.data;
  }
}
