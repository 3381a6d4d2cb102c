/** common/db/leveldb/provider.go: how one physical key space holds many logical databases. */
module LevelKeys {
  import opened Types

  const SEPARATOR: byte := 0
  const LAST_KEY_INDICATOR: byte := 1

  function ConstructLevelKey(dbName: Bytes, key: Bytes): Bytes {
    dbName + [SEPARATOR] + key
  }

  /** The part after the first separator; None stands for the index panic of the program. */
  function RetrieveAppKey(levelKey: Bytes): Option<Bytes> {
    if levelKey == [] then None
    else if levelKey[0] == SEPARATOR then Some(levelKey[1..])
    else RetrieveAppKey(levelKey[1..])
  }

  predicate SeparatorFree(name: Bytes) {
    SEPARATOR !in name
  }

  // ---------------------------------------------------------------------------
  // Round trip

  lemma {:induction false} RetrieveFindsFirst(name: Bytes, rest: Bytes)
    requires SeparatorFree(name)
    ensures RetrieveAppKey(name + [SEPARATOR] + rest) == Some(rest)
  {
    var k := name + [SEPARATOR] + rest;
    if name == [] {
      assert k[1..] == rest;
    } else {
      assert k[1..] == name[1..] + [SEPARATOR] + rest;
      RetrieveFindsFirst(name[1..], rest);
    }
  }

  lemma {:induction false} RetrieveStopsEarly(name: Bytes, rest: Bytes)
    requires !SeparatorFree(name)
    ensures RetrieveAppKey(name + rest).Some? && |RetrieveAppKey(name + rest).value| >= |rest|
  {
    var k := name + rest;
    if name[0] == SEPARATOR {
      assert k[1..] == name[1..] + rest;
    } else {
      assert k[1..] == name[1..] + rest;
      RetrieveStopsEarly(name[1..], rest);
    }
  }

  /** retrieveAppKey undoes constructLevelKey, for every key, exactly when the name has no separator. */
  lemma RoundTripIff(name: Bytes, key: Bytes)
    ensures RetrieveAppKey(ConstructLevelKey(name, key)) == Some(key) <==> 0 !in name
  {
    if SeparatorFree(name) {
      RetrieveFindsFirst(name, key);
    } else {
      assert ConstructLevelKey(name, key) == name + ([SEPARATOR] + key);
      RetrieveStopsEarly(name, [SEPARATOR] + key);
    }
  }

  // ---------------------------------------------------------------------------
  // Separate databases

  /** Two names never share a physical key. */
  predicate Apart(n: Bytes, m: Bytes) {
    !(n + [SEPARATOR] <= m + [SEPARATOR]) && !(m + [SEPARATOR] <= n + [SEPARATOR])
  }

  /** Keys of two databases differ, whatever the application keys, exactly when the names are apart. */
  lemma ApartIff(n: Bytes, m: Bytes)
    ensures Apart(n, m) <==> forall k: Bytes, l: Bytes :: ConstructLevelKey(n, k) != ConstructLevelKey(m, l)
  {
    var p, q := n + [SEPARATOR], m + [SEPARATOR];
    if Apart(n, m) {
      forall k: Bytes, l: Bytes
        ensures ConstructLevelKey(n, k) != ConstructLevelKey(m, l)
      {
        ApartKeysDiffer(p, k, q, l);
      }
    } else if p <= q {
      assert ConstructLevelKey(n, q[|p|..]) == q == ConstructLevelKey(m, []);
    } else {
      assert ConstructLevelKey(n, []) == p == ConstructLevelKey(m, p[|q|..]);
    }
  }

  lemma ApartKeysDiffer(p: Bytes, k: Bytes, q: Bytes, l: Bytes)
    requires !(p <= q) && !(q <= p)
    ensures p + k != q + l
  {
    var x, y := p + k, q + l;
    assert x[..|p|] == p && y[..|q|] == q;
    if |p| <= |q| {
      assert y[..|q|][..|p|] == y[..|p|];
    } else {
      assert x[..|p|][..|q|] == x[..|q|];
    }
  }

  lemma PrefixMeansSameName(n: Bytes, m: Bytes)
    requires SeparatorFree(m) && n + [SEPARATOR] <= m + [SEPARATOR]
    ensures n == m
  {
    var p, q := n + [SEPARATOR], m + [SEPARATOR];
    assert q[|n|] == p[|n|] == SEPARATOR;
    assert forall i :: 0 <= i < |m| ==> q[i] == m[i] && m[i] in m;
    assert n == p[..|n|] && m == q[..|m|];
  }

  /** Different names without a separator are apart. */
  lemma SeparatorFreeNamesApart(n: Bytes, m: Bytes)
    requires 0 !in n && 0 !in m && n != m
    ensures Apart(n, m)
  {
    if n + [SEPARATOR] <= m + [SEPARATOR] {
      PrefixMeansSameName(n, m);
    }
    if m + [SEPARATOR] <= n + [SEPARATOR] {
      PrefixMeansSameName(m, n);
    }
  }

  // ---------------------------------------------------------------------------
  // The physical store

  type Store = map<Bytes, Bytes>

  function At(db: Store, x: Bytes): Option<Bytes> {
    if x in db then Some(db[x]) else None
  }

  /** What the logical database `name` holds under `key`. */
  function Lookup(db: Store, name: Bytes, key: Bytes): Option<Bytes> {
    At(db, ConstructLevelKey(name, key))
  }

  predicate Owns(name: Bytes, x: Bytes) {
    name + [SEPARATOR] <= x
  }

  function AppPart(name: Bytes, x: Bytes): Bytes
    requires Owns(name, x)
  {
    x[|name| + 1..]
  }

  lemma OwnedKey(name: Bytes, x: Bytes)
    requires Owns(name, x)
    ensures ConstructLevelKey(name, AppPart(name, x)) == x
  {
  }

  lemma OwnKey(name: Bytes, key: Bytes)
    ensures Owns(name, ConstructLevelKey(name, key)) && AppPart(name, ConstructLevelKey(name, key)) == key
  {
  }

  /** Puts and deletes, as a batch holds them. */
  datatype BatchOp = BatchPut(key: Bytes, value: Bytes) | BatchDelete(key: Bytes)

  function ApplyOp(db: Store, op: BatchOp): Store {
    match op
    case BatchPut(k, v) => db[k := v]
    case BatchDelete(k) => db - {k}
  }

  function ApplyBatch(db: Store, ops: seq<BatchOp>): Store {
    if ops == [] then db else ApplyOp(ApplyBatch(db, ops[..|ops| - 1]), ops[|ops| - 1])
  }

  lemma ApplySnoc(db: Store, ops: seq<BatchOp>, op: BatchOp)
    ensures ApplyBatch(db, ops + [op]) == ApplyOp(ApplyBatch(db, ops), op)
  {
    assert (ops + [op])[..|ops|] == ops;
  }

  /** What should be at physical key `x` once `kvs` is written to `name`; None deletes. */
  function Expected(db: Store, name: Bytes, kvs: map<Bytes, Option<Bytes>>, x: Bytes): Option<Bytes> {
    if Owns(name, x) && AppPart(name, x) in kvs then kvs[AppPart(name, x)] else At(db, x)
  }

  /** `db'` is `db` with `kvs` written to the logical database `name` and nothing else changed. */
  ghost predicate Written(db: Store, db': Store, name: Bytes, kvs: map<Bytes, Option<Bytes>>) {
    forall x :: At(db', x) == Expected(db, name, kvs, x)
  }

  function OpFor(name: Bytes, key: Bytes, value: Option<Bytes>): BatchOp {
    if value.None? then BatchDelete(ConstructLevelKey(name, key)) else BatchPut(ConstructLevelKey(name, key), value.value)
  }

  lemma WriteOne(db: Store, mid: Store, name: Bytes, kvs: map<Bytes, Option<Bytes>>, key: Bytes, value: Option<Bytes>)
    requires Written(db, mid, name, kvs)
    ensures Written(db, ApplyOp(mid, OpFor(name, key, value)), name, kvs[key := value])
  {
    var end := ApplyOp(mid, OpFor(name, key, value));
    forall x
      ensures At(end, x) == Expected(db, name, kvs[key := value], x)
    {
      assert At(mid, x) == Expected(db, name, kvs, x);
      OwnKey(name, key);
      if Owns(name, x) {
        OwnedKey(name, x);
      }
    }
  }

  /** A write through one handle shows under that handle exactly as in a private map... */
  lemma WrittenShows(db: Store, db': Store, name: Bytes, kvs: map<Bytes, Option<Bytes>>, key: Bytes)
    requires Written(db, db', name, kvs)
    ensures Lookup(db', name, key) == if key in kvs then kvs[key] else Lookup(db, name, key)
  {
    OwnKey(name, key);
    assert At(db', ConstructLevelKey(name, key)) == Expected(db, name, kvs, ConstructLevelKey(name, key));
  }

  /** ...and under no other handle whose name is apart. */
  lemma WrittenIsPrivate(db: Store, db': Store, name: Bytes, kvs: map<Bytes, Option<Bytes>>, other: Bytes, key: Bytes)
    requires Written(db, db', name, kvs) && Apart(name, other)
    ensures Lookup(db', other, key) == Lookup(db, other, key)
  {
    var x := ConstructLevelKey(other, key);
    assert At(db', x) == Expected(db, name, kvs, x);
    if Owns(name, x) {
      OwnedKey(name, x);
      ApartIff(name, other);
      assert false;
    }
  }

  /** Logical databases: with different separator-free names, whatever is written through one handle, the
      other handle's map does not change. */
  lemma LogicalDatabasesAreSeparate(db: Store, db': Store, name: Bytes, kvs: map<Bytes, Option<Bytes>>, other: Bytes)
    requires Written(db, db', name, kvs) && SeparatorFree(name) && SeparatorFree(other) && name != other
    ensures forall key :: Lookup(db', other, key) == Lookup(db, other, key)
  {
    SeparatorFreeNamesApart(name, other);
    forall key
      ensures Lookup(db', other, key) == Lookup(db, other, key)
    {
      WrittenIsPrivate(db, db', name, kvs, other, key);
    }
  }

  // ---------------------------------------------------------------------------
  // Iteration

  /** Byte-wise lexicographic order, the order of the physical store. */
  predicate Less(a: Bytes, b: Bytes) {
    b != [] && (a == [] || if a[0] != b[0] then a[0] < b[0] else Less(a[1..], b[1..]))
  }

  predicate InRange(x: Bytes, start: Bytes, limit: Bytes) {
    !Less(x, start) && Less(x, limit)
  }

  /** The physical range of GetIterator; a missing end stands for the end of the database. */
  function StartKey(name: Bytes, start: Bytes): Bytes {
    ConstructLevelKey(name, start)
  }

  function LimitKey(name: Bytes, end: Option<Bytes>): Bytes {
    if end.None? then name + [LAST_KEY_INDICATOR] else ConstructLevelKey(name, end.value)
  }

  lemma {:induction false} LessUnderPrefix(p: Bytes, a: Bytes, b: Bytes)
    ensures Less(p + a, p + b) <==> Less(a, b)
  {
    if p == [] {
      assert p + a == a && p + b == b;
    } else {
      assert (p + a)[1..] == p[1..] + a && (p + b)[1..] == p[1..] + b;
      LessUnderPrefix(p[1..], a, b);
    }
  }

  /** A key outside a prefix compares with all keys under the prefix as with the prefix itself. */
  lemma {:induction false} OutsidePrefix(q: Bytes, x: Bytes, s: Bytes)
    requires !(q <= x)
    ensures Less(x, q + s) <==> Less(x, q)
  {
    if x != [] && x[0] == q[0] {
      assert q == [q[0]] + q[1..] && x == [x[0]] + x[1..];
      assert (q + s)[1..] == q[1..] + s;
      OutsidePrefix(q[1..], x[1..], s);
    }
  }

  lemma BetweenBareSeparators(x: Bytes)
    ensures InRange(x, [SEPARATOR], [LAST_KEY_INDICATOR]) <==> [SEPARATOR] <= x
  {
    if x != [] {
      assert [SEPARATOR][1..] == [] && [LAST_KEY_INDICATOR][1..] == [];
      assert !Less(x[1..], []);
      assert [SEPARATOR] <= x <==> x[0] == SEPARATOR;
    }
  }

  lemma {:induction false} BetweenSeparators(name: Bytes, x: Bytes)
    ensures InRange(x, name + [SEPARATOR], name + [LAST_KEY_INDICATOR]) <==> name + [SEPARATOR] <= x
  {
    var q, l := name + [SEPARATOR], name + [LAST_KEY_INDICATOR];
    if name == [] {
      assert q == [SEPARATOR] && l == [LAST_KEY_INDICATOR];
      BetweenBareSeparators(x);
    } else if x != [] && x[0] == name[0] {
      assert q[1..] == name[1..] + [SEPARATOR] && l[1..] == name[1..] + [LAST_KEY_INDICATOR];
      BetweenSeparators(name[1..], x[1..]);
      PrefixTail(q, x);
    }
  }

  lemma PrefixTail(q: Bytes, x: Bytes)
    requires q != [] && x != [] && q[0] == x[0]
    ensures q <= x <==> q[1..] <= x[1..]
  {
    if q <= x {
      assert q[1..] == x[1..][..|q| - 1];
    }
    if q[1..] <= x[1..] {
      assert q == [q[0]] + q[1..] && x == [x[0]] + x[1..];
    }
  }

  /** The range of GetIterator holds exactly this database's keys from `start` up to `end`, and for a
      missing end all of them from `start`. */
  lemma RangeIsDatabase(name: Bytes, start: Bytes, end: Option<Bytes>, x: Bytes)
    ensures InRange(x, StartKey(name, start), LimitKey(name, end)) <==>
              Owns(name, x) && !Less(AppPart(name, x), start) && (end.Some? ==> Less(AppPart(name, x), end.value))
  {
    var q := name + [SEPARATOR];
    if Owns(name, x) {
      var y := AppPart(name, x);
      assert x == q + y;
      LessUnderPrefix(q, y, start);
      if end.Some? {
        LessUnderPrefix(q, y, end.value);
      } else {
        BetweenSeparators(name, x);
      }
    } else {
      OutsidePrefix(q, x, start);
      if end.Some? {
        OutsidePrefix(q, x, end.value);
      } else {
        BetweenSeparators(name, x);
      }
    }
  }

  predicate StrictlySorted(s: seq<Bytes>) {
    forall i, j :: 0 <= i < j < |s| ==> Less(s[i], s[j])
  }

  /** What the iterator over the physical range hands out: Key strips the name again. */
  function AppKeys(phys: seq<Bytes>): seq<Option<Bytes>> {
    seq(|phys|, i requires 0 <= i < |phys| => RetrieveAppKey(phys[i]))
  }

  /** A sorted enumeration of the physical range gives, through Key, the application keys of exactly this
      database within the bounds, in application-key order. */
  lemma IterationIsSortedDatabase(db: Store, name: Bytes, start: Bytes, end: Option<Bytes>, phys: seq<Bytes>)
    requires SeparatorFree(name) && StrictlySorted(phys)
    requires forall x :: x in phys <==> x in db && InRange(x, StartKey(name, start), LimitKey(name, end))
    ensures forall i :: 0 <= i < |phys| ==> AppKeys(phys)[i].Some?
    ensures forall i, j :: 0 <= i < j < |phys| ==> Less(AppKeys(phys)[i].value, AppKeys(phys)[j].value)
    ensures forall key :: Some(key) in AppKeys(phys) <==>
              Lookup(db, name, key).Some? && !Less(key, start) && (end.Some? ==> Less(key, end.value))
  {
    forall i | 0 <= i < |phys|
      ensures Owns(name, phys[i]) && AppKeys(phys)[i] == Some(AppPart(name, phys[i]))
    {
      assert phys[i] in phys;
      RangeIsDatabase(name, start, end, phys[i]);
      OwnedKey(name, phys[i]);
      RetrieveFindsFirst(name, AppPart(name, phys[i]));
    }
    forall i, j | 0 <= i < j < |phys|
      ensures Less(AppKeys(phys)[i].value, AppKeys(phys)[j].value)
    {
      OrderOfParts(name, phys[i], phys[j]);
    }
    forall key
      ensures Some(key) in AppKeys(phys) <==>
                Lookup(db, name, key).Some? && !Less(key, start) && (end.Some? ==> Less(key, end.value))
    {
      IteratedIff(db, name, start, end, phys, key);
    }
  }

  lemma OrderOfParts(name: Bytes, x: Bytes, y: Bytes)
    requires Owns(name, x) && Owns(name, y) && Less(x, y)
    ensures Less(AppPart(name, x), AppPart(name, y))
  {
    var q := name + [SEPARATOR];
    assert x == q + AppPart(name, x) && y == q + AppPart(name, y);
    LessUnderPrefix(q, AppPart(name, x), AppPart(name, y));
  }

  lemma IteratedIff(db: Store, name: Bytes, start: Bytes, end: Option<Bytes>, phys: seq<Bytes>, key: Bytes)
    requires SeparatorFree(name)
    requires forall x :: x in phys <==> x in db && InRange(x, StartKey(name, start), LimitKey(name, end))
    requires forall i :: 0 <= i < |phys| ==> Owns(name, phys[i]) && AppKeys(phys)[i] == Some(AppPart(name, phys[i]))
    ensures Some(key) in AppKeys(phys) <==>
              Lookup(db, name, key).Some? && !Less(key, start) && (end.Some? ==> Less(key, end.value))
  {
    var x := ConstructLevelKey(name, key);
    OwnKey(name, key);
    RangeIsDatabase(name, start, end, x);
    if x in phys {
      var i :| 0 <= i < |phys| && phys[i] == x;
      assert AppKeys(phys)[i] == Some(key);
    }
    if Some(key) in AppKeys(phys) {
      var i :| 0 <= i < |phys| && AppKeys(phys)[i] == Some(key);
      OwnedKey(name, phys[i]);
      assert phys[i] == x;
    }
  }
}
