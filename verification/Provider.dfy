/** common/db/leveldb/provider.go: handles on one physical database, as the objects the program mutates. */
module Provider {
  import opened Types
  import opened LevelKeys

  /** The physical database: a map from byte strings, written one batch at a time. */
  class DB {
    var store: Store

    constructor ()
      ensures store == map[]
    {
      store := map[];
    }

    method WriteBatch(batch: seq<BatchOp>)
      modifies this
      ensures store == ApplyBatch(old(store), batch)
    {
      for i := 0 to |batch|
        invariant store == ApplyBatch(old(store), batch[..i])
      {
        assert batch[..i + 1] == batch[..i] + [batch[i]];
        ApplySnoc(old(store), batch[..i], batch[i]);
        store := ApplyOp(store, batch[i]);
      }
      assert batch[..|batch|] == batch;
    }
  }

  class UpdateBatch {
    var KVs: map<Bytes, Option<Bytes>>

    constructor ()
      ensures KVs == map[]
    {
      KVs := map[];
    }

    method Put(key: Bytes, value: Bytes)
      modifies this
      ensures KVs == old(KVs)[key := Some(value)]
    {
      KVs := KVs[key := Some(value)];
    }

    method Delete(key: Bytes)
      modifies this
      ensures KVs == old(KVs)[key := None]
    {
      KVs := KVs[key := None];
    }
  }

  class DBHandle {
    const dbName: Bytes
    const db: DB

    constructor (dbName: Bytes, db: DB)
      ensures this.dbName == dbName && this.db == db
    {
      this.dbName, this.db := dbName, db;
    }

    method Get(key: Bytes) returns (value: Option<Bytes>)
      ensures value == Lookup(db.store, dbName, key)
    {
      var levelKey := ConstructLevelKey(dbName, key);
      value := if levelKey in db.store then Some(db.store[levelKey]) else None;
    }

    method Put(key: Bytes, value: Bytes)
      modifies db
      ensures Written(old(db.store), db.store, dbName, map[key := Some(value)])
    {
      WriteOne(db.store, db.store, dbName, map[], key, Some(value));
      db.store := db.store[ConstructLevelKey(dbName, key) := value];
    }

    method Delete(key: Bytes)
      modifies db
      ensures Written(old(db.store), db.store, dbName, map[key := None])
    {
      WriteOne(db.store, db.store, dbName, map[], key, None);
      db.store := db.store - {ConstructLevelKey(dbName, key)};
    }

    /** Visits the entries of the batch in any order. */
    method LevelBatch(kvs: map<Bytes, Option<Bytes>>, ghost start: Store) returns (levelBatch: seq<BatchOp>)
      ensures Written(start, ApplyBatch(start, levelBatch), dbName, kvs)
    {
      levelBatch := [];
      var pending := kvs.Keys;
      ghost var done: map<Bytes, Option<Bytes>> := map[];
      while pending != {}
        invariant pending <= kvs.Keys
        invariant forall k :: k in kvs <==> k in done || k in pending
        invariant forall k :: k in done ==> k in kvs && done[k] == kvs[k]
        invariant Written(start, ApplyBatch(start, levelBatch), dbName, done)
        decreases |pending|
      {
        var k := Pick(pending);
        pending := pending - {k};
        var op := OpFor(dbName, k, kvs[k]);
        WriteOne(start, ApplyBatch(start, levelBatch), dbName, done, k, kvs[k]);
        ApplySnoc(start, levelBatch, op);
        levelBatch := levelBatch + [op];
        done := done[k := kvs[k]];
      }
      assert done == kvs;
    }

    method WriteBatch(batch: UpdateBatch)
      modifies db
      ensures Written(old(db.store), db.store, dbName, batch.KVs)
    {
      if |batch.KVs| == 0 {
        return;
      }
      var levelBatch := LevelBatch(batch.KVs, db.store);
      db.WriteBatch(levelBatch);
    }

    /** The physical range that the iterator runs over. A start of nil and an empty one are the same. */
    method GetIterator(startKey: Bytes, endKey: Option<Bytes>) returns (start: Bytes, limit: Bytes)
      ensures start == StartKey(dbName, startKey) && limit == LimitKey(dbName, endKey)
    {
      start := ConstructLevelKey(dbName, startKey);
      limit := ConstructLevelKey(dbName, if endKey.Some? then endKey.value else []);
      if endKey.None? {
        limit := limit[|limit| - 1 := LAST_KEY_INDICATOR];
      }
    }
  }

  class Provider {
    const db: DB
    var dbHandles: map<Bytes, DBHandle>

    /** Every handle is filed under its name and works on the one physical database. */
    ghost predicate Valid()
      reads this
    {
      forall n :: n in dbHandles ==> dbHandles[n].dbName == n && dbHandles[n].db == db
    }

    constructor (db: DB)
      ensures Valid() && this.db == db && dbHandles == map[]
    {
      this.db, dbHandles := db, map[];
    }

    /** The same name gets the same handle. */
    method GetDBHandle(dbName: Bytes) returns (handle: DBHandle)
      requires Valid()
      modifies this
      ensures Valid() && handle.dbName == dbName && handle.db == db
      ensures dbHandles == old(dbHandles)[dbName := handle]
      ensures dbName in old(dbHandles) ==> handle == old(dbHandles)[dbName]
    {
      if dbName in dbHandles {
        handle := dbHandles[dbName];
      } else {
        handle := new DBHandle(dbName, db);
        dbHandles := dbHandles[dbName := handle];
      }
    }
  }
}
