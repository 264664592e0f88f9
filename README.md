# RocksDB map store: a Dafny model

This project models the RocksDB-backed map store of a Hazelcast connector.
It covers three parts:

- The database handle (`RocksDatabase`). It validates its directory, opens an
  embedded RocksDB engine, and serves put, batched put, get, multi-get and
  delete while it is open. Close ends its life.
- The process-wide registry (`RocksDatabaseContainer`). It maps a directory
  path to one shared handle and to the set of map stores using that handle.
  It closes the handle when the last consumer is disposed.
- The map-store adapter (`RocksDbMapStore`). It acquires a handle from the
  registry, either in its path constructor or in `init`. It forwards
  single-key operations to the handle, runs the bulk operations as loops over
  the single-key ones, and releases its registration in `destroy`.

Modelling choices:

- The engine is the map `data` of a `RocksDatabase` class.
- Keys and values are typed (`K`, `V`). The serialization codec in between is
  treated as injective, so it is not modelled.
- Java exceptions are modelled as `Failure`/`Fail` results that carry an
  `Error`. The null dereferences the code can hit are the `NullDereference`
  error.
- The filesystem is an input, `DirectoryState`: whether the path exists,
  whether it is a directory, and which database it already holds.
- The static registry is an explicit `RocksDatabaseContainer` object.
- Path resolution (`File.getAbsolutePath`, `File.getParentFile`) lives in the
  `Paths` module for Unix paths in normal form. The working directory is a
  parameter.

The model follows the code as written, and the code differs from the
registry's documented design in these ways:

- `dispose` never removes the registry entry. Once every consumer has gone,
  the next store created for the same directory is handed the closed handle
  (`Scenarios.ReacquireAfterLastRelease`).
- Disposing again once the consumer set is empty closes the handle again,
  for example when the last consumer is disposed twice
  (`Scenarios.DoubleDispose`). While other consumers remain registered, a
  repeated dispose removes nothing and closes nothing.
- Disposing an unknown path dereferences null; no dedicated error exists.
- `init` registers under the raw path property, while `destroy` releases under
  the absolute path. A store initialised from a relative path never releases
  its handle (`Scenarios.RelativePathNeverReleased`).
- With auto-creation on, the handle constructor creates the parent directory
  through `getParentFile()`. That is null for a bare relative name such as
  `db`, so the constructor dereferences null (`Database.OpenContents`).

## Model

| member | source | states |
|---|---|---|
| Paths.AbsolutePath | src/main/java/com/github/tomaszgaweda/rocksdb/RocksDbMapStore.java:59 | the absolute form of a path: an absolute path is kept, and a relative one is resolved against an absolute working directory into an absolute path ending in the relative one |
| Paths.HasParent | src/main/java/com/github/tomaszgaweda/rocksdb/RocksDatabase.java:52 | `getParentFile()` is non-null exactly when the path is absolute and not the root, or relative and contains a `/`; this follows from cutting the path at its last `/` past the root prefix |
| Paths.AbsolutePathIdempotent | src/main/java/com/github/tomaszgaweda/rocksdb/RocksDbMapStore.java:90 | resolving an already resolved path changes nothing, so destroy finds the key a path-constructed store registered under |
| Paths.RelativePathMoves | src/main/java/com/github/tomaszgaweda/rocksdb/RocksDbMapStore.java:82-90 | a relative path always differs from its absolute form, so the raw key init registers under is never the key destroy releases |
| Database.Lookup | src/main/java/com/github/tomaszgaweda/rocksdb/RocksDatabase.java:90-92 | a read yields a value exactly when the key is stored, and that value is the stored one |
| Database.OpenContents | src/main/java/com/github/tomaszgaweda/rocksdb/RocksDatabase.java:38-59 | each constructor error holds exactly when its condition holds: a missing directory without auto-creation; an existing non-directory; a path without a parent under auto-creation (null dereference); a directory with no database and no auto-creation (open failure). Otherwise the open succeeds, starting from the stored database, or from an empty one when none is stored |
| Database.RocksDatabase.Open | src/main/java/com/github/tomaszgaweda/rocksdb/RocksDatabase.java:38-62 | construction fails with exactly the error the constructor throws; otherwise the result is a fresh open handle over the directory's contents, rooted at the given directory and never closed |
| Database.RocksDatabase.CheckOpened | src/main/java/com/github/tomaszgaweda/rocksdb/RocksDatabase.java:143-147 | the guard passes exactly when the handle is open, otherwise it fails with the closed-instance error |
| Database.RocksDatabase.Put | src/main/java/com/github/tomaszgaweda/rocksdb/RocksDatabase.java:64-71 | on an open handle the key maps to the value afterwards and all other keys keep their values; on a closed handle the call fails and nothing changes |
| Database.RocksDatabase.PutAll | src/main/java/com/github/tomaszgaweda/rocksdb/RocksDatabase.java:73-85 | on an open handle the contents become the old contents overridden by every entry of the map; on a closed handle the call fails and nothing changes |
| Database.ApplyBatch | src/main/java/com/github/tomaszgaweda/rocksdb/RocksDatabase.java:81 | writing a batch ends with the old keys plus every key the batch puts, and a stored key the batch does not touch keeps its value |
| Database.ApplyStaged | src/main/java/com/github/tomaszgaweda/rocksdb/RocksDatabase.java:75-81 | writing a batch holding exactly one put per map entry, in any order, gives the old contents overridden by the map |
| Database.StagesSnoc | src/main/java/com/github/tomaszgaweda/rocksdb/RocksDatabase.java:77-79 | staging one more entry for a key not yet staged keeps the batch an exact staging of the enlarged map |
| Database.StagesTail | src/main/java/com/github/tomaszgaweda/rocksdb/RocksDatabase.java:81 | after the batch's first put is applied, the remaining puts stage the map without that key |
| Database.MultiGet | src/main/java/com/github/tomaszgaweda/rocksdb/RocksDatabase.java:101-105 | the engine's multi-key read answers once per requested key, in request order, each answer being the single-key read of that key |
| Database.RocksDatabase.Get | src/main/java/com/github/tomaszgaweda/rocksdb/RocksDatabase.java:87-96 | fails exactly when the handle is closed; otherwise yields a value exactly when the key is stored, and that value is the stored one |
| Database.RocksDatabase.GetMany | src/main/java/com/github/tomaszgaweda/rocksdb/RocksDatabase.java:98-122 | fails exactly when the handle is closed; otherwise the result holds exactly the requested keys that are stored, each with its stored value, so absent keys are left out |
| Database.RocksDatabase.Delete | src/main/java/com/github/tomaszgaweda/rocksdb/RocksDatabase.java:124-131 | on an open handle the key is absent afterwards and all other keys keep their values, and deleting an absent key is not an error; on a closed handle the call fails and nothing changes |
| Database.RocksDatabase.Close | src/main/java/com/github/tomaszgaweda/rocksdb/RocksDatabase.java:137-141 | the handle is closed afterwards and one more close has happened, whether or not it was open before |
| DatabaseContainer.Register | src/main/java/com/github/tomaszgaweda/rocksdb/RocksDatabaseContainer.java:34 | joining an entry keeps the registry's keys and the entry's handle, adds the consumer to that entry's set and leaves every other entry alone |
| DatabaseContainer.Unregister | src/main/java/com/github/tomaszgaweda/rocksdb/RocksDatabaseContainer.java:45 | leaving an entry keeps the registry's keys, including that entry, and its handle; it removes the consumer from that entry's set and leaves every other entry alone |
| DatabaseContainer.RegisterTwice | src/main/java/com/github/tomaszgaweda/rocksdb/RocksDatabaseContainer.java:26-34 | registering a consumer that is already registered changes nothing, because the consumers form a set |
| DatabaseContainer.RegisterThenUnregister | src/main/java/com/github/tomaszgaweda/rocksdb/RocksDatabaseContainer.java:31-49 | a consumer that joins and then leaves an entry restores the registry as it was |
| DatabaseContainer.RocksDatabaseContainer.constructor | src/main/java/com/github/tomaszgaweda/rocksdb/RocksDatabaseContainer.java:20 | the registry starts empty and satisfies its invariant |
| DatabaseContainer.RocksDatabaseContainer.GetRocksDb | src/main/java/com/github/tomaszgaweda/rocksdb/RocksDatabaseContainer.java:31-36 | a cached path hands back its cached handle and registers the consumer, without looking at auto-creation or the directory; an uncached path opens a fresh handle and records it with the consumer as its only user, or, when the open fails, returns that error and leaves the registry unchanged; the invariant (each handle rooted at its key, no handle cached twice, an unused handle closed) is preserved |
| DatabaseContainer.RocksDatabaseContainer.Dispose | src/main/java/com/github/tomaszgaweda/rocksdb/RocksDatabaseContainer.java:43-49 | an unknown path is a null dereference and changes nothing; otherwise the consumer leaves the entry, the entry stays cached, and the handle is closed (once more) exactly when no consumer remains, else left as it was; the invariant is preserved |
| MapStore.AutoCreation | src/main/java/com/github/tomaszgaweda/rocksdb/RocksDbMapStore.java:83 | the auto-creation flag is the property's value when set and true when absent |
| MapStore.RocksDbMapStore.constructor | src/main/java/com/github/tomaszgaweda/rocksdb/RocksDbMapStore.java:55 | a store built without arguments holds no handle |
| MapStore.RocksDbMapStore.Create | src/main/java/com/github/tomaszgaweda/rocksdb/RocksDbMapStore.java:58-62 | the path constructor acquires the handle under the absolute form of the directory, registering the new store; when the registry fails, there is no store and the registry is unchanged |
| MapStore.RocksDbMapStore.Init | src/main/java/com/github/tomaszgaweda/rocksdb/RocksDbMapStore.java:66-86 | a store that already holds a handle is left as it is; otherwise the handle is acquired under the raw path with the property's auto-creation flag; when that fails, the store keeps no handle |
| MapStore.RocksDbMapStore.Destroy | src/main/java/com/github/tomaszgaweda/rocksdb/RocksDbMapStore.java:89-91 | a store without a handle, or whose handle's absolute directory is not a registry key, dereferences null and changes nothing; otherwise the store leaves that entry, and the handle closes exactly when no consumer remains |
| MapStore.RocksDbMapStore.Store | src/main/java/com/github/tomaszgaweda/rocksdb/RocksDbMapStore.java:94-96 | without a handle the call is a null dereference; otherwise it is the handle's put |
| MapStore.RocksDbMapStore.StoreAll | src/main/java/com/github/tomaszgaweda/rocksdb/RocksDbMapStore.java:99-103 | an empty map always succeeds and changes nothing; otherwise a missing handle is a null dereference, a closed one fails with nothing written, and an open one ends with the old contents overridden by the map |
| MapStore.RocksDbMapStore.Delete | src/main/java/com/github/tomaszgaweda/rocksdb/RocksDbMapStore.java:106-108 | without a handle the call is a null dereference; otherwise it is the handle's delete |
| MapStore.RocksDbMapStore.DeleteAll | src/main/java/com/github/tomaszgaweda/rocksdb/RocksDbMapStore.java:111-115 | an empty collection always succeeds and changes nothing; otherwise a missing handle is a null dereference, a closed one fails with nothing deleted, and an open one ends with every listed key removed and all other keys kept |
| MapStore.RocksDbMapStore.Load | src/main/java/com/github/tomaszgaweda/rocksdb/RocksDbMapStore.java:118-120 | without a handle the call is a null dereference; a closed handle fails; an open one yields the stored value or null |
| MapStore.RocksDbMapStore.LoadAll | src/main/java/com/github/tomaszgaweda/rocksdb/RocksDbMapStore.java:123-129 | succeeds exactly when the collection is empty or the handle is open; the result then holds exactly the requested keys, each mapped to its stored value or to null when absent |
| MapStore.RocksDbMapStore.LoadAllKeys | src/main/java/com/github/tomaszgaweda/rocksdb/RocksDbMapStore.java:132-134 | key enumeration is unsupported: the answer is always null |
| Scenarios.SharedDirectory | src/test/java/com/github/tomaszgaweda/rocksdb/RocksDbMapStoreTest.java:145-180 | three stores created on one directory share one handle, which stays open after two of them are destroyed and is closed after the third |
| Scenarios.SharedWrites | src/test/java/com/github/tomaszgaweda/rocksdb/RocksDbMapStoreTest.java:174-199 | writes through three stores sharing a handle all land in the one database |
| Scenarios.ReacquireAfterLastRelease | src/main/java/com/github/tomaszgaweda/rocksdb/RocksDatabaseContainer.java:31-49 | after the last consumer is disposed, a new store on the same directory is handed the same, closed handle, and its first write fails |
| Scenarios.DoubleDispose | src/main/java/com/github/tomaszgaweda/rocksdb/RocksDatabaseContainer.java:43-49 | disposing the last consumer twice closes the handle twice |
| Scenarios.RelativePathNeverReleased | src/main/java/com/github/tomaszgaweda/rocksdb/RocksDbMapStore.java:81-91 | a store initialised from a relative path fails to release its registration on destroy (null dereference), and its handle stays open |
| Scenarios.PutDeleteWriteCombo | src/test/java/com/github/tomaszgaweda/rocksdb/RocksDatabaseTest.java:64-86 | after two puts, a delete and a batched put, the multi-key read returns exactly the three surviving entries, with no entry for the deleted key |
| Scenarios.ClosedHandleRejects | src/main/java/com/github/tomaszgaweda/rocksdb/RocksDatabase.java:137-147 | after close, put, batched put, get, multi-get and delete all fail with the closed-instance error, and the contents are unchanged |

## Left out

- The serialization codec (`SerializationUtils`): keys and values are typed directly. A value that deserializes to the wrong class, or a non-serializable object, is not modelled.
- RocksDB failures during data operations (the `RocksDBException` that put, batched put, get, multi-get and delete turn into `IllegalStateException`) are not modelled. The engine is treated as a total map.
- Open failures other than a missing database are not modelled: locks held by another process, corruption, and I/O errors from creating directories.
- The engine lock within one process is not modelled. A raw relative key registered by `init` and an absolute key registered by the path constructor can name the same directory. Both opens use the absolute path, so the second open fails in RocksDB, but the model opens a second, independent handle with its own contents.
- Directory creation as a side effect is not modelled. The filesystem is the `DirectoryState` input, and the state after an open is not tracked.
- Concurrency is left out: `synchronized` on the registry and `volatile` on the open flag. Every registry call is one atomic step.
- Logging is left out.
- Hazelcast wiring is left out: the `HazelcastInstance` and map name arguments of `init`, and reading `Properties`. Init takes the path and the optional auto-creation flag directly.
- `Boolean.parseBoolean` is left out. The auto-creation property is modelled as an optional boolean.
- A missing path property is left out: it would reach the handle constructor as null.
- `keyClass`/`valueClass` and `Class.forName` are left out. So is the `IllegalArgumentException` that init throws, wrapping a `ClassNotFoundException`, after the handle has already been registered.
- Paths.AbsolutePath: covers Unix paths in normal form only. It does not model `File`'s removal of repeated or trailing separators, or Windows drive and UNC prefixes.
- One registry holds handles of a single key and value type. The Java registry is untyped and shares one handle between stores of different value types.
- `getDirectory` is the handle's constant `directory` field rather than a method.
- Closing the engine itself (`db.close()`) is only counted, through the ghost field `closeCount`.
