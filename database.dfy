/**
 * The database handle: one embedded key-value engine rooted at one
 * directory, with an open/closed lifecycle.  The engine is abstracted as
 * the map `data` from keys to values; keys and values are typed directly,
 * the byte codec in between being injective and round-tripping.
 */
module Database {
  import opened Failures
  import opened Paths

  /**
   * What the filesystem holds at a path when a handle is constructed:
   * whether the path exists (`present`), whether it is a directory, and the database
   * stored there (`None` when the directory holds no database yet).
   */
  datatype DirectoryState<K, V> = DirectoryState(present: bool, isDirectory: bool, database: Option<map<K, V>>)

  /** The engine's answer to a single-key read: the value, or null when absent. */
  function Lookup<K, V>(store: map<K, V>, key: K): (r: Option<V>)
    ensures r.Some? <==> key in store
    ensures r.Some? ==> r.value == store[key]
  {
    if key in store then Some(store[key]) else None
  }

  /**
   * Constructor validation followed by opening the engine: the contents the
   * new handle starts from, or the exception the constructor throws.  With
   * `autoCreate` the directory and its parent are created first (the parent
   * is looked up through `getParentFile`, null for a path without one) and
   * the engine creates a missing database; without it a missing database
   * makes the open fail.
   */
  function OpenContents<K, V>(dir: DirectoryState<K, V>, path: string, autoCreate: bool): (r: Result<map<K, V>, Error>)
    ensures r == Failure(DirectoryMissing(path)) <==> !dir.present && !autoCreate
    ensures r == Failure(NotADirectory(path)) <==> dir.present && !dir.isDirectory
    ensures r == Failure(NullDereference) <==> (dir.present ==> dir.isDirectory) && autoCreate && !HasParent(path)
    ensures r == Failure(InitializationFailed(path)) <==> dir.present && dir.isDirectory && dir.database.None? && !autoCreate
    ensures r.Success? <==>
      && (dir.present || autoCreate)
      && (dir.present ==> dir.isDirectory && (dir.database.Some? || autoCreate))
      && (autoCreate ==> HasParent(path))
    ensures r.Success? ==> r.value == if dir.present && dir.database.Some? then dir.database.value else map[]
  {
    if !dir.present && !autoCreate then Failure(DirectoryMissing(path))
    else if dir.present && !dir.isDirectory then Failure(NotADirectory(path))
    else if autoCreate && !HasParent(path) then Failure(NullDereference)
    else if dir.present && dir.database.Some? then Success(dir.database.value)
    else if autoCreate then Success(map[])
    else Failure(InitializationFailed(path))
  }

  /**
   * Writes a batch of puts, in order: every key the batch puts ends up
   * stored, and a key the batch does not touch keeps its value.
   */
  function ApplyBatch<K, V>(store: map<K, V>, batch: seq<(K, V)>): (r: map<K, V>)
    ensures r.Keys == store.Keys + set p | p in batch :: p.0
    ensures forall k :: k in store && !Staged(batch, k) ==> r[k] == store[k]
    decreases |batch|
  {
    if batch == [] then store else ApplyBatch(store[batch[0].0 := batch[0].1], batch[1..])
  }

  /** The batch holds exactly one put per entry of `m`. */
  ghost predicate Stages<K, V>(batch: seq<(K, V)>, m: map<K, V>) {
    && (forall i, j :: 0 <= i < j < |batch| ==> batch[i].0 != batch[j].0)
    && (forall i :: 0 <= i < |batch| ==> batch[i].0 in m && batch[i].1 == m[batch[i].0])
    && (forall k :: k in m ==> Staged(batch, k))
  }

  /** Some put in the batch writes `key`. */
  ghost predicate Staged<K, V>(batch: seq<(K, V)>, key: K) {
    exists i :: 0 <= i < |batch| && batch[i].0 == key
  }

  /** Writing a batch that stages `m` makes every key of `m` map to its value and leaves every other key alone. */
  lemma {:induction false} ApplyStaged<K, V>(store: map<K, V>, batch: seq<(K, V)>, m: map<K, V>)
    requires Stages(batch, m)
    ensures ApplyBatch(store, batch) == store + m
    decreases |batch|
  {
    if batch == [] {
      assert forall k :: k !in m;
      assert m == map[];
    } else {
      var (k, v) := batch[0];
      StagesTail(batch, m);
      ApplyStaged(store[k := v], batch[1..], m - {k});
      OverrideStep(store, m, k);
    }
  }

  /** Overriding by one entry of `m` and then by the rest of `m` is overriding by `m`. */
  lemma OverrideStep<K, V>(store: map<K, V>, m: map<K, V>, k: K)
    requires k in m
    ensures store[k := m[k]] + (m - {k}) == store + m
  {
  }

  /** Dropping the first put of a staging batch stages the map without that entry. */
  lemma StagesTail<K, V>(batch: seq<(K, V)>, m: map<K, V>)
    requires Stages(batch, m) && batch != []
    ensures Stages(batch[1..], m - {batch[0].0})
  {
  }

  /** Adding one more put for a key not yet staged stages the enlarged map. */
  lemma StagesSnoc<K, V>(batch: seq<(K, V)>, m: map<K, V>, k: K, v: V)
    requires Stages(batch, m) && k !in m
    ensures Stages(batch + [(k, v)], m[k := v])
  {
    var b := batch + [(k, v)];
    forall k' | k' in m[k := v] ensures Staged(b, k') {
      if k' == k {
        assert b[|batch|].0 == k';
      } else {
        var i :| 0 <= i < |batch| && batch[i].0 == k';
        assert b[i].0 == k';
      }
    }
  }

  /** The engine's multi-key read: one answer per requested key, in request order. */
  function MultiGet<K, V>(store: map<K, V>, keys: seq<K>): (r: seq<Option<V>>)
    ensures |r| == |keys|
    ensures forall i :: 0 <= i < |keys| ==> r[i] == Lookup(store, keys[i])
  {
    if keys == [] then [] else [Lookup(store, keys[0])] + MultiGet(store, keys[1..])
  }

  /** A handle on one engine instance. */
  class RocksDatabase<K(==), V> {
    /** The directory the engine is rooted at; fixed at construction (what getDirectory returns). */
    const directory: string
    /** Cleared by Close; no operation sets it again. */
    var open: bool
    /** The key-value contents of the engine. */
    var data: map<K, V>
    /** How many times Close has run on this handle. */
    ghost var closeCount: nat

    /** The handle has just been opened over `contents` at `path`. */
    ghost predicate OpenedOver(path: string, contents: map<K, V>)
      reads this
    {
      directory == path && open && data == contents && closeCount == 0
    }

    constructor (dbDirectory: string, contents: map<K, V>)
      ensures OpenedOver(dbDirectory, contents)
    {
      directory := dbDirectory;
      open := true;
      data := contents;
      closeCount := 0;
    }

    /**
     * The Java constructor: validates the directory, then opens the engine.
     * On failure no handle is created.
     */
    static method Open(dbDirectory: string, autoCreate: bool, dir: DirectoryState<K, V>)
      returns (r: Result<RocksDatabase<K, V>, Error>)
      ensures OpenContents(dir, dbDirectory, autoCreate).Failure? ==> r == Failure(OpenContents(dir, dbDirectory, autoCreate).error)
      ensures OpenContents(dir, dbDirectory, autoCreate).Success? ==>
        r.Success? && fresh(r.value) && r.value.OpenedOver(dbDirectory, OpenContents(dir, dbDirectory, autoCreate).value)
    {
      var contents := OpenContents(dir, dbDirectory, autoCreate);
      if contents.Failure? {
        return Failure(contents.error);
      }
      var db := new RocksDatabase(dbDirectory, contents.value);
      r := Success(db);
    }

    /** The guard every data operation runs first. */
    function CheckOpened(): (r: Outcome<Error>)
      reads this
      ensures r.Pass? <==> open
      ensures r.Fail? ==> r.error == ClosedInstance
    {
      if open then Pass else Fail(ClosedInstance)
    }

    method Put(key: K, value: V) returns (r: Outcome<Error>)
      modifies this`data
      ensures r == old(CheckOpened())
      ensures data == if r.Pass? then old(data)[key := value] else old(data)
    {
      r := CheckOpened();
      if r.Fail? {
        return;
      }
      data := data[key := value];
    }

    /** Stages one put per entry in a write batch, then writes the batch at once. */
    method PutAll(m: map<K, V>) returns (r: Outcome<Error>)
      modifies this`data
      ensures r == old(CheckOpened())
      ensures data == if r.Pass? then old(data) + m else old(data)
    {
      r := CheckOpened();
      if r.Fail? {
        return;
      }
      var batch: seq<(K, V)> := [];
      var todo := m.Keys;
      while todo != {}
        invariant data == old(data)
        invariant todo <= m.Keys
        invariant Stages(batch, m - todo)
        decreases todo
      {
        var k :| k in todo;
        StagesSnoc(batch, m - todo, k, m[k]);
        assert (m - todo)[k := m[k]] == m - (todo - {k});
        batch := batch + [(k, m[k])];
        todo := todo - {k};
      }
      assert m - todo == m;
      ApplyStaged(data, batch, m);
      data := ApplyBatch(data, batch);
    }

    /** Single-key read; `None` when the key is absent. */
    method Get(key: K) returns (r: Result<Option<V>, Error>)
      ensures r.Failure? <==> !open
      ensures r.Failure? ==> r.error == ClosedInstance
      ensures r.Success? ==> (r.value.Some? <==> key in data)
      ensures r.Success? && r.value.Some? ==> r.value.value == data[key]
    {
      var check := CheckOpened();
      if check.Fail? {
        return Failure(check.error);
      }
      r := Success(Lookup(data, key));
    }

    /**
     * Multi-key read: one engine call, then a walk over the requested keys and
     * the answers in lockstep that keeps only the keys that were found.
     */
    method GetMany(keys: seq<K>) returns (r: Result<map<K, V>, Error>)
      ensures r.Failure? <==> !open
      ensures r.Failure? ==> r.error == ClosedInstance
      ensures r.Success? ==> forall k :: k in r.value <==> k in keys && k in data
      ensures r.Success? ==> forall k :: k in r.value ==> r.value[k] == data[k]
    {
      var check := CheckOpened();
      if check.Fail? {
        return Failure(check.error);
      }
      var results := MultiGet(data, keys);
      var resultMap: map<K, V> := map[];
      var i := 0;
      while i < |keys|
        invariant 0 <= i <= |keys|
        invariant forall k :: k in resultMap <==> k in keys[..i] && k in data
        invariant forall k :: k in resultMap ==> resultMap[k] == data[k]
      {
        var key := keys[i];
        var result := results[i];
        if result.Some? {
          resultMap := resultMap[key := result.value];
        }
        assert keys[..i + 1] == keys[..i] + [key];
        i := i + 1;
      }
      assert keys[..i] == keys;
      r := Success(resultMap);
    }

    /** Removes the key; removing an absent key is not an error. */
    method Delete(key: K) returns (r: Outcome<Error>)
      modifies this`data
      ensures r == old(CheckOpened())
      ensures data == if r.Pass? then old(data) - {key} else old(data)
    {
      r := CheckOpened();
      if r.Fail? {
        return;
      }
      data := data - {key};
    }

    /** Clears the open flag and releases the engine; nothing guards a second call. */
    method Close()
      modifies this`open, this`closeCount
      ensures !open
      ensures closeCount == old(closeCount) + 1
    {
      open := false;
      closeCount := closeCount + 1;
    }
  }
}
